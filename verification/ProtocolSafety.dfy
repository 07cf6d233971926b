/**
 Safety of the life-cycle protocol in every interleaving: one loader at a time,
 consistent entry fields, legal transitions only, and fencing of stale
 completions by the process handle.
 */
module ProtocolSafety {
  import opened Lifecycle
  import opened Protocol

  /** The handle a goroutine captured before its slow call. */
  function TokenOf(pc: Pc): Option<Pid> {
    match pc
    case Waking(p, _) => p
    case SleepCall(p, _) => p
    case KillCall(p) => p
    case Watching(p) => Some(p)
    case _ => None
  }

  /** The fields of an entry agree with its state. */
  ghost predicate FieldsAgree(k: Params, c: Core, next: Pid) {
    && (c.state == Unloaded ==> c.proc == None && c.group == -1 && c.reserved == 0)
    && (Up(c.state) ==> c.proc.Some? && c.group >= 0)
    && (c.proc.Some? ==> c.proc.value < next)
    && (k.engine == LlamaCpp ==> !Asleep(c.state))
  }

  /** What the loader at program counter `pc` may rely on. */
  ghost predicate LoaderView(k: Params, c: Core, pc: Pc) {
    match pc
    case Assigning(_) => c.proc == None && c.group == -1 && c.reserved == 0
    case Launching(g) => c.proc == None && g >= 0 && c.group == (if k.pinned then -1 else g)
    case Probing(p) => c.proc == Some(p) && c.group >= 0
    case _ => true
  }

  /** LOADING exactly while a loader exists, and never two loaders. */
  ghost predicate LoadersAgree(k: Params, c: Core, pcs: map<Tid, Pc>) {
    && (forall t | t in pcs && IsLoader(pcs[t]) :: c.state == Loading && LoaderView(k, c, pcs[t]))
    && (forall t, u | t in pcs && u in pcs && IsLoader(pcs[t]) && IsLoader(pcs[u]) :: t == u)
    && (c.state == Loading ==> exists t :: t in pcs && IsLoader(pcs[t]))
  }

  /** A captured handle was issued before, and never names the process being probed by a loader. */
  ghost predicate PcAgrees(k: Params, c: Core, next: Pid, pc: Pc) {
    && (TokenOf(pc).Some? ==> TokenOf(pc).value < next && (c.proc == TokenOf(pc) ==> Up(c.state)))
    && (pc.Waking? ==> pc.captured.Some? && k.engine == VLLM && Asleep(pc.from))
    && (pc.SleepCall? ==> pc.target.Some? && k.engine == VLLM && 1 <= pc.level <= 2)
    && (pc.KillCall? ==> pc.victim.Some?)
    && (pc.TtlCpu? ==> k.engine == VLLM)
    && (pc.TtlSaw? ==> Up(pc.s) && (k.engine == LlamaCpp ==> pc.s == Active))
  }

  ghost predicate TokensAgree(k: Params, c: Core, next: Pid, pcs: map<Tid, Pc>) {
    forall t | t in pcs :: PcAgrees(k, c, next, pcs[t])
  }

  ghost predicate SafeView(k: Params, c: Core, next: Pid, pcs: map<Tid, Pc>) {
    FieldsAgree(k, c, next) && LoadersAgree(k, c, pcs) && TokensAgree(k, c, next, pcs)
  }

  ghost predicate Safe(k: Params, e: Entry) {
    SafeView(k, e.core, e.nextPid, e.pcs)
  }

  // ---- the three kinds of step ----

  /** A goroutine that is not a loader moves on without touching the entry. */
  lemma Move(k: Params, c: Core, next: Pid, pcs: map<Tid, Pc>, t: Tid, pc: Pc)
    requires SafeView(k, c, next, pcs)
    requires !IsLoader(pc) && (t in pcs ==> !IsLoader(pcs[t]))
    requires PcAgrees(k, c, next, pc)
    ensures SafeView(k, c, next, pcs[t := pc])
  {
    if c.state == Loading {
      var u :| u in pcs && IsLoader(pcs[u]);
      assert pcs[t := pc][u] == pcs[u];
    }
  }

  /** An entry that is up stays up, in the same process, or is unloaded; no goroutine moves. */
  lemma ChangeUp(k: Params, c: Core, c': Core, next: Pid, pcs: map<Tid, Pc>)
    requires SafeView(k, c, next, pcs) && Up(c.state)
    requires c' == Unload(c) || (Up(c'.state) && c'.proc == c.proc && c'.group == c.group)
    requires k.engine == LlamaCpp ==> !Asleep(c'.state)
    ensures SafeView(k, c', next, pcs)
  {
  }

  /** The loader moves on within LOADING, possibly with a new process. */
  lemma MoveLoader(k: Params, c: Core, c': Core, next: Pid, next': Pid, pcs: map<Tid, Pc>, t: Tid, pc: Pc)
    requires SafeView(k, c, next, pcs)
    requires t in pcs && IsLoader(pcs[t]) && IsLoader(pc)
    requires c'.state == Loading && LoaderView(k, c', pc) && next <= next'
    requires c'.proc == c.proc || (c'.proc == Some(next) && next < next')
    ensures SafeView(k, c', next', pcs[t := pc])
  {
    assert IsLoader(pcs[t := pc][t]);
  }

  /** The loader leaves LOADING and no other loader remains. */
  lemma LeaveLoading(k: Params, c: Core, c': Core, next: Pid, pcs: map<Tid, Pc>, t: Tid, pc: Pc)
    requires SafeView(k, c, next, pcs)
    requires t in pcs && IsLoader(pcs[t]) && !IsLoader(pc) && TokenOf(pc) == None
    requires IsDrainer(pc)
    requires c'.state == Active || c'.state == Unloaded
    requires FieldsAgree(k, c', next)
    ensures SafeView(k, c', next, pcs[t := pc])
  {
  }

  lemma EnterLoading(k: Params, c: Core, next: Pid, pcs: map<Tid, Pc>, t: Tid)
    requires SafeView(k, c, next, pcs) && c.state == Unloaded
    requires t in pcs && !IsLoader(pcs[t])
    ensures SafeView(k, c.(state := Loading), next, pcs[t := Assigning(Locking)])
  {
    assert IsLoader(pcs[t := Assigning(Locking)][t]);
  }

  /** `activeRequests` plays no part in safety. */
  lemma CountersAreFree(k: Params, c: Core, next: Pid, pcs: map<Tid, Pc>, active: int)
    requires SafeView(k, c, next, pcs)
    ensures SafeView(k, c.(active := active), next, pcs)
  {
    var c' := c.(active := active);
    assert LoadersAgree(k, c', pcs);
    assert TokensAgree(k, c', next, pcs);
  }

  lemma InitiallySafe(k: Params)
    ensures Safe(k, INITIAL)
  {
  }

  // ---- every step ----

  /** Apart from the claim, a client step leaves the entry alone. */
  lemma ClientFrame(k: Params, e: Entry, t: Tid, a: ClientAct)
    requires ClientEnabled(e, t, a) && !(a.Claim? && e.core.state == Unloaded)
    ensures var e' := ApplyClient(k, e, t, a);
            && e'.core == e.core.(active := e'.core.active) && e'.nextPid == e.nextPid
            && t in e'.pcs && e'.pcs == e.pcs[t := e'.pcs[t]]
  {
  }

  /** It captures nothing but the current process of a sleeping entry. */
  lemma ClientCapture(k: Params, e: Entry, t: Tid, a: ClientAct)
    requires ClientEnabled(e, t, a) && !(a.Claim? && e.core.state == Unloaded)
    ensures t in e.pcs ==> !IsLoader(e.pcs[t])
    ensures var pc := ApplyClient(k, e, t, a).pcs[t];
            && !IsLoader(pc)
            && if pc.Waking? then pc == Waking(e.core.proc, e.core.state) && Asleep(e.core.state)
               else TokenOf(pc) == None && !pc.SleepCall? && !pc.KillCall? && !pc.TtlCpu? && !pc.TtlSaw?
  {
  }

  lemma ClientStep(k: Params, e: Entry, t: Tid, a: ClientAct)
    requires Safe(k, e) && ClientEnabled(e, t, a)
    ensures Safe(k, ApplyClient(k, e, t, a))
  {
    hide LoadersAgree, TokensAgree;
    var e' := ApplyClient(k, e, t, a);
    if !(a.Claim? && e.core.state == Unloaded) {
      hide ApplyClient;
      ClientFrame(k, e, t, a);
      ClientCapture(k, e, t, a);
    }
    if a.Claim? && e.core.state == Unloaded {
      EnterLoading(k, e.core, e.nextPid, e.pcs, t);
    } else {
      Move(k, e.core, e.nextPid, e.pcs, t, e'.pcs[t]);
      CountersAreFree(k, e.core, e.nextPid, e'.pcs, e'.core.active);
    }
  }

  lemma LoaderStep(k: Params, e: Entry, t: Tid, a: LoaderAct)
    requires Safe(k, e) && LoaderEnabled(e, t, a)
    ensures Safe(k, ApplyLoader(k, e, t, a))
  {
    var e' := ApplyLoader(k, e, t, a);
    if a.AssignFail? || a.LaunchFail? || a.HealthFail? {
      LeaveLoading(k, e.core, e'.core, e.nextPid, e.pcs, t, Refusing(Nothing));
    } else if a.HealthOk? {
      LeaveLoading(k, e.core, e'.core, e.nextPid, e.pcs, t, Draining(Nothing));
      Move(k, e'.core, e.nextPid, e.pcs[t := Draining(Nothing)], a.watcher, Watching(e.pcs[t].p));
    } else {
      MoveLoader(k, e.core, e'.core, e.nextPid, e'.nextPid, e.pcs, t, e'.pcs[t]);
    }
  }

  lemma DrainStep(k: Params, e: Entry, t: Tid, a: DrainAct)
    requires Safe(k, e) && DrainEnabled(e, t, a)
    ensures Safe(k, ApplyDrain(e, t, a))
  {
    var e' := ApplyDrain(e, t, a);
    Move(k, e.core, e.nextPid, e.pcs, t, e'.pcs[t]);
    CountersAreFree(k, e.core, e.nextPid, e'.pcs, e'.core.active);
  }

  lemma TickStep(k: Params, e: Entry, t: Tid, a: TickAct)
    requires Safe(k, e) && TickEnabled(k, e, t, a)
    ensures Safe(k, ApplyTick(k, e, t, a))
  {
    Move(k, e.core, e.nextPid, e.pcs, t, ApplyTick(k, e, t, a).pcs[t]);
  }

  lemma DoneStep(k: Params, e: Entry, t: Tid, a: DoneAct)
    requires Safe(k, e) && DoneEnabled(e, t, a)
    ensures Safe(k, ApplyDone(e, t, a))
  {
    var core := DoneCore(e.core, e.pcs[t], a).0;
    if core != e.core {
      ChangeUp(k, e.core, core, e.nextPid, e.pcs);
    }
    Move(k, core, e.nextPid, e.pcs, t, DoneNext(e.core, e.pcs[t], a));
  }

  lemma EvictStep(k: Params, e: Entry, a: EvictAct)
    requires Safe(k, e) && EvictEnabled(k, e.core, a)
    ensures Safe(k, ApplyEvict(k, e, a))
  {
    ChangeUp(k, e.core, ApplyEvict(k, e, a).core, e.nextPid, e.pcs);
  }

  lemma StepKeepsSafe(k: Params, e: Entry, a: Act)
    requires Safe(k, e) && Enabled(k, e, a)
    ensures Safe(k, Apply(k, e, a))
  {
    match a
    case Client(t, act) => ClientStep(k, e, t, act);
    case Loader(t, act) => LoaderStep(k, e, t, act);
    case Drain(t, act) => DrainStep(k, e, t, act);
    case Tick(t, act) => TickStep(k, e, t, act);
    case Done(t, act) => DoneStep(k, e, t, act);
    case Evict(act) => EvictStep(k, e, act);
  }

  // ---- steps and counters ----

  /** A step changes no other goroutine's counter. */
  lemma OnlyOwnCounter(k: Params, e: Entry, a: Act, u: Tid)
    requires Enabled(k, e, a) && u in e.pcs && (a.Evict? || a.t != u)
    ensures u in Apply(k, e, a).pcs && Apply(k, e, a).pcs[u] == e.pcs[u]
  {
    match a
    case Client(t, act) => ClientOnlyOwnCounter(k, e, t, act, u);
    case Loader(t, act) =>
    case Drain(t, act) => DrainOnlyOwnCounter(e, t, act, u);
    case Tick(t, act) =>
    case Done(t, act) =>
    case Evict(act) =>
  }

  lemma ClientOnlyOwnCounter(k: Params, e: Entry, t: Tid, a: ClientAct, u: Tid)
    requires ClientEnabled(e, t, a) && u in e.pcs && t != u
    ensures u in ApplyClient(k, e, t, a).pcs && ApplyClient(k, e, t, a).pcs[u] == e.pcs[u]
  {
  }

  lemma DrainOnlyOwnCounter(e: Entry, t: Tid, a: DrainAct, u: Tid)
    requires DrainEnabled(e, t, a) && u in e.pcs && t != u
    ensures u in ApplyDrain(e, t, a).pcs && ApplyDrain(e, t, a).pcs[u] == e.pcs[u]
  {
  }

  // ---- the writes that Rules 1, 2 and 4 make without re-checking ----

  /** Rule 1 after its sleep call returned, as written: SLEEP1 and the charge, whatever happened in between. */
  function LateSleep(e: Entry): Entry {
    Commit(e, e.core.(state := Sleep1), -1)
  }

  /** The same with the checks of `transitionToSleep`, for the process `p` that was put to sleep. */
  function CheckedSleep(e: Entry, p: Pid): Entry {
    Commit(e, SleepCommit(e.core, Some(p), 1), SleepCredit(e.core, Some(p), 1))
  }

  /**
   Rule 1's unchecked write keeps the invariant exactly when the entry is still
   up, follows the life-cycle diagram exactly when it is still ACTIVE, and does to
   entry and CPU-RAM book what the checked write would do exactly when moreover
   the process is still the one that was put to sleep.
   */
  lemma LateSleepWriteIsSafeIff(k: Params, e: Entry, p: Pid)
    requires Safe(k, e) && k.engine == VLLM
    ensures Safe(k, LateSleep(e)) <==> Up(e.core.state)
    ensures Edge(e.core.state, LateSleep(e).core.state) <==> e.core.state == Active
    ensures LateSleep(e) == CheckedSleep(e, p) <==> e.core.state == Active && e.core.proc == Some(p)
  {
    if Up(e.core.state) {
      ChangeUp(k, e.core, e.core.(state := Sleep1), e.nextPid, e.pcs);
    } else if e.core.state == Loading {
      var t :| t in e.pcs && IsLoader(e.pcs[t]);
    }
  }

  /**
   A kill of Rule 2 or 4 as written, for an entry that was idle in SLEEP2 in an
   earlier snapshot: under the entry's lock only the group `g` is checked again.
   */
  function LateKill(e: Entry, g: nat): Entry {
    if e.core.group != g then e else Commit(e, Unload(e.core), 0)
  }

  predicate StillIdle(c: Core, p: Pid, st: ModelState) {
    c.proc == Some(p) && c.state == st && c.active == 0
  }

  /** The same with all of the snapshot's conditions checked again, for the process `p` seen then. */
  function CheckedKill(e: Entry, g: nat, p: Pid): Entry {
    if StillIdle(e.core, p, Sleep2) then LateKill(e, g) else e
  }

  /**
   The kill keeps the invariant exactly when no loader has claimed the entry since
   and published this very group.  It does what the fully checked one would do
   exactly when the entry is still that process, in SLEEP2 and idle, or is not on
   the group any more: an entry woken in between loses a serving process.
   */
  lemma LateKillIsSafeIff(k: Params, e: Entry, g: nat, p: Pid)
    requires Safe(k, e)
    ensures Safe(k, LateKill(e, g)) <==> !(e.core.state == Loading && e.core.group == g)
    ensures LateKill(e, g) == CheckedKill(e, g, p) <==> e.core.group != g || StillIdle(e.core, p, Sleep2)
  {
    if e.core.state == Loading {
      var t :| t in e.pcs && IsLoader(e.pcs[t]);
    } else if Up(e.core.state) {
      ChangeUp(k, e.core, Unload(e.core), e.nextPid, e.pcs);
    }
  }

  /** Rule 3 and `freeCPURam` after their sleep call returned, as written: SLEEP2 and no booking, whatever happened in between. */
  function LateDeepen(e: Entry): Entry {
    Commit(e, e.core.(state := Sleep2), 0)
  }

  function CheckedDeepen(e: Entry, p: Pid): Entry {
    if StillIdle(e.core, p, Sleep1) then LateDeepen(e) else e
  }

  /**
   The unchecked SLEEP2 write keeps the invariant exactly when the entry is still
   up, follows the diagram exactly when it is ACTIVE or in SLEEP1, and does what a
   checked one would do exactly when the entry is still that process, in SLEEP1
   and idle, or is in SLEEP2 already.
   */
  lemma LateDeepenIsSafeIff(k: Params, e: Entry, p: Pid)
    requires Safe(k, e) && k.engine == VLLM
    ensures Safe(k, LateDeepen(e)) <==> Up(e.core.state)
    ensures Edge(e.core.state, LateDeepen(e).core.state) <==> e.core.state == Active || e.core.state == Sleep1
    ensures LateDeepen(e) == CheckedDeepen(e, p) <==> StillIdle(e.core, p, Sleep1) || e.core.state == Sleep2
  {
    if Up(e.core.state) {
      ChangeUp(k, e.core, e.core.(state := Sleep2), e.nextPid, e.pcs);
    } else if e.core.state == Loading {
      var t :| t in e.pcs && IsLoader(e.pcs[t]);
    }
  }

  // ---- whole runs ----

  lemma {:induction false} RunKeepsSafe(k: Params, e: Entry, acts: seq<Act>)
    requires Safe(k, e) && ValidRun(k, e, acts)
    ensures Safe(k, Exec(k, e, acts))
    decreases |acts|
  {
    if acts != [] {
      StepKeepsSafe(k, e, acts[0]);
      RunKeepsSafe(k, Apply(k, e, acts[0]), acts[1..]);
    }
  }

  lemma LoaderFollowsDiagram(k: Params, e: Entry, t: Tid, a: LoaderAct)
    requires Safe(k, e) && LoaderEnabled(e, t, a)
    ensures var s, s' := e.core.state, ApplyLoader(k, e, t, a).core.state; s == s' || Edge(s, s')
  {
    assert IsLoader(e.pcs[t]);
  }

  lemma StepFollowsDiagram(k: Params, e: Entry, a: Act)
    requires Safe(k, e) && Enabled(k, e, a)
    ensures var s, s' := e.core.state, Apply(k, e, a).core.state; s == s' || Edge(s, s')
  {
    match a
    case Client(t, act) =>
      hide Safe;
      if !(act.Claim? && e.core.state == Unloaded) {
        ClientFrame(k, e, t, act);
        hide ApplyClient;
      }
    case Loader(t, act) => LoaderFollowsDiagram(k, e, t, act); hide ApplyLoader, Safe;
    case Drain(t, act) => hide Safe;
    case Tick(t, act) => hide Safe;
    case Done(t, act) =>
      assert PcAgrees(k, e.core, e.nextPid, e.pcs[t]);
      hide Safe;
    case Evict(act) => hide Safe;
  }

  /** Every state change, in every reachable state, follows the life-cycle diagram. */
  lemma TransitionsFollowDiagram(k: Params, acts: seq<Act>, a: Act)
    requires ValidRun(k, INITIAL, acts) && Enabled(k, Exec(k, INITIAL, acts), a)
    ensures var e := Exec(k, INITIAL, acts);
            var s, s' := e.core.state, Apply(k, e, a).core.state;
            s == s' || Edge(s, s')
  {
    hide *;
    InitiallySafe(k);
    RunKeepsSafe(k, INITIAL, acts);
    StepFollowsDiagram(k, Exec(k, INITIAL, acts), a);
  }

  /** Between the LOADING claim and its publish or rollback there is exactly one handler. */
  lemma LoadingHasOneOwner(k: Params, acts: seq<Act>)
    requires ValidRun(k, INITIAL, acts)
    ensures var e := Exec(k, INITIAL, acts);
            && (e.core.state == Loading <==> exists t :: t in e.pcs && IsLoader(e.pcs[t]))
            && (forall t, u | t in e.pcs && u in e.pcs && IsLoader(e.pcs[t]) && IsLoader(e.pcs[u]) :: t == u)
  {
    InitiallySafe(k);
    RunKeepsSafe(k, INITIAL, acts);
  }

  /**
   The loader writes without checking the handle.  That is sound: what it
   overwrites is its own process, so a checked write would do the same.
   */
  lemma UnguardedWritesAreOwn(k: Params, acts: seq<Act>, t: Tid)
    requires ValidRun(k, INITIAL, acts)
    requires var e := Exec(k, INITIAL, acts); t in e.pcs && IsLoader(e.pcs[t])
    ensures var e := Exec(k, INITIAL, acts);
            && e.core.state == Loading
            && (e.pcs[t].Launching? ==> e.core.proc == None && (k.pinned || e.core.group == e.pcs[t].g))
            && (e.pcs[t].Probing? ==> Unload(e.core) == UnloadIfCurrent(e.core, Some(e.pcs[t].p)))
            && (e.pcs[t].Assigning? ==> e.core.(state := Unloaded) == Unload(e.core))
  {
    InitiallySafe(k);
    RunKeepsSafe(k, INITIAL, acts);
  }

  /** UNLOADED entries hold nothing; entries that are up hold a live process and a group. */
  lemma FieldsFollowState(k: Params, acts: seq<Act>)
    requires ValidRun(k, INITIAL, acts)
    ensures var c := Exec(k, INITIAL, acts).core;
            && (c.state == Unloaded ==> c.proc == None && c.group == -1 && c.reserved == 0)
            && (Up(c.state) ==> c.proc.Some? && c.group >= 0)
            && (k.engine == LlamaCpp ==> c.state != Sleep1 && c.state != Sleep2)
  {
    InitiallySafe(k);
    RunKeepsSafe(k, INITIAL, acts);
  }

  // ---- fencing ----

  /** A handle that is no longer current never becomes current again. */
  lemma {:induction false} StaleStaysStale(k: Params, e: Entry, acts: seq<Act>, p: Pid)
    requires ValidRun(k, e, acts)
    requires p < e.nextPid && e.core.proc != Some(p)
    ensures p < Exec(k, e, acts).nextPid && Exec(k, e, acts).core.proc != Some(p)
    decreases |acts|
  {
    if acts != [] {
      var e' := Apply(k, e, acts[0]);
      assert e.nextPid <= e'.nextPid;
      assert e'.core.proc == e.core.proc || e'.core.proc == None || e'.core.proc == Some(e.nextPid);
      StaleStaysStale(k, e', acts[1..], p);
    }
  }

  /**
   An operation begun on process `p` is inert once the entry has left `p`: after
   any further run, including reloads, its completion changes neither the entry
   nor the CPU-RAM book.
   */
  lemma StaleCompletionIsInert(k: Params, before: seq<Act>, after: seq<Act>, t: Tid, p: Pid, a: DoneAct)
    requires ValidRun(k, INITIAL, before)
    requires var e := Exec(k, INITIAL, before);
             t in e.pcs && TokenOf(e.pcs[t]) == Some(p) && e.core.proc != Some(p) && ValidRun(k, e, after)
    requires var e := Exec(k, Exec(k, INITIAL, before), after);
             DoneEnabled(e, t, a) && TokenOf(e.pcs[t]) == Some(p)
    ensures var e := Exec(k, Exec(k, INITIAL, before), after);
            var e' := ApplyDone(e, t, a);
            e'.core == e.core && e'.credit == e.credit && e'.doubled == e.doubled && e'.lost == e.lost
  {
    InitiallySafe(k);
    RunKeepsSafe(k, INITIAL, before);
    var e := Exec(k, INITIAL, before);
    assert PcAgrees(k, e.core, e.nextPid, e.pcs[t]);
    StaleStaysStale(k, e, after, p);
  }
}
