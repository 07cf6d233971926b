/**
 The timers and wakes of `Ttl`, which happen in one go, are the uninterrupted runs
 of the step machine; and what the machine's steps do to an entry's place: process,
 group and reservation are those of its last load.
 */
module Uninterrupted {
  import opened Lifecycle
  import opened Eviction
  import opened Ttl
  import opened Protocol
  import opened ProtocolSafety
  import Rules

  /** Goroutine `t` looks at the entry, decides, calls and commits, with nobody in between. */
  function TickRun(m: Model, t: Tid, cpuFree: int, ok: bool): seq<Act> {
    if m.run.state == Active && m.cfg.engine == VLLM then
      [Act.Tick(t, TtlRead), Act.Tick(t, TtlReadCpu(cpuFree)), Act.Tick(t, TtlCapture), Done(t, SleepDone(ok))]
    else if m.run.state == Sleep1 then
      [Act.Tick(t, TtlRead), Act.Tick(t, TtlCapture), Done(t, SleepDone(ok))]
    else
      [Act.Tick(t, TtlRead), Act.Tick(t, TtlCapture), Done(t, KillDone)]
  }

  predicate Matches(k: Params, e: Entry, m: Model) {
    k.engine == m.cfg.engine && k.weights == m.mem.weights && e.core == m.run
  }

  lemma RunThen(k: Params, e: Entry, a: Act, rest: seq<Act>)
    requires Enabled(k, e, a) && ValidRun(k, Apply(k, e, a), rest)
    ensures ValidRun(k, e, [a] + rest) && Exec(k, e, [a] + rest) == Exec(k, Apply(k, e, a), rest)
  {
    assert ([a] + rest)[1..] == rest;
  }

  lemma RunOfTwo(k: Params, e: Entry, a: Act, b: Act)
    requires Enabled(k, e, a) && Enabled(k, Apply(k, e, a), b)
    ensures ValidRun(k, e, [a, b]) && Exec(k, e, [a, b]) == Apply(k, Apply(k, e, a), b)
  {
    hide Apply, Enabled;
    RunThen(k, Apply(k, e, a), b, []);
    RunThen(k, e, a, [b]);
    assert [b] + [] == [b] && [a] + [b] == [a, b];
  }

  lemma RunOfThree(k: Params, e: Entry, a: Act, b: Act, c: Act)
    requires Enabled(k, e, a) && Enabled(k, Apply(k, e, a), b) && Enabled(k, Apply(k, Apply(k, e, a), b), c)
    ensures ValidRun(k, e, [a, b, c]) && Exec(k, e, [a, b, c]) == Apply(k, Apply(k, Apply(k, e, a), b), c)
  {
    hide Apply, Enabled;
    RunOfTwo(k, Apply(k, e, a), b, c);
    RunThen(k, e, a, [b, c]);
    assert [a] + [b, c] == [a, b, c];
  }

  /** The first look: nobody is being served, as far as the counter tells. */
  lemma Looks(k: Params, e: Entry, t: Tid)
    requires t !in e.pcs && t !in e.reqs && Up(e.core.state) && e.core.active <= 0
    ensures Enabled(k, e, Act.Tick(t, TtlRead)) && Apply(k, e, Act.Tick(t, TtlRead)) == Goto(e, t, TtlSaw(e.core.state))
  {
  }

  /** Nobody ticks an entry that is down or shows requests. */
  lemma LooksOnlyWhenIdle(k: Params, e: Entry, t: Tid)
    ensures Enabled(k, e, Act.Tick(t, TtlRead)) ==> Up(e.core.state) && e.core.active <= 0
  {
  }

  lemma LooksAtCpu(k: Params, e: Entry, t: Tid, cpuFree: int)
    requires At(e, t, TtlSaw(Active)) && k.engine == VLLM
    ensures Enabled(k, e, Act.Tick(t, TtlReadCpu(cpuFree)))
    ensures Apply(k, e, Act.Tick(t, TtlReadCpu(cpuFree))) == Goto(e, t, TtlCpu(cpuFree))
  {
  }

  /** The second look and the call that it leads to. */
  lemma Captures(k: Params, e: Entry, t: Tid)
    requires t in e.pcs && e.core.active <= 0
    requires (e.pcs[t].TtlCpu? && e.core.state == Active)
             || (e.pcs[t] == TtlSaw(e.core.state) && !(e.core.state == Active && k.engine == VLLM))
    ensures Enabled(k, e, Act.Tick(t, TtlCapture))
    ensures Apply(k, e, Act.Tick(t, TtlCapture)) ==
              Goto(e, t, if e.pcs[t].TtlCpu? then SleepCall(e.core.proc, if e.pcs[t].free >= k.weights then 1 else 2)
                         else if e.core.state == Sleep1 then SleepCall(e.core.proc, 2) else KillCall(e.core.proc))
  {
  }

  /** A tick's call begins only if, at its second look, the counter is not positive and the state is still the one it saw. */
  lemma CallsBeginIdle(k: Params, e: Entry, t: Tid)
    requires Enabled(k, e, Act.Tick(t, TtlCapture))
    ensures var pc := Apply(k, e, Act.Tick(t, TtlCapture)).pcs[t];
            (pc.SleepCall? || pc.KillCall?) <==>
              e.core.active <= 0 && e.core.state == (if e.pcs[t].TtlCpu? then Active else e.pcs[t].s)
    ensures var pc := Apply(k, e, Act.Tick(t, TtlCapture)).pcs[t];
            (pc.SleepCall? ==> pc.target == e.core.proc) && (pc.KillCall? ==> pc.victim == e.core.proc)
  {
  }

  lemma SleepReturns(k: Params, e: Entry, t: Tid, p: Option<Pid>, level: int, ok: bool)
    requires At(e, t, SleepCall(p, level)) && p.Some?
    ensures Enabled(k, e, Done(t, SleepDone(ok)))
    ensures var e' := Apply(k, e, Done(t, SleepDone(ok)));
            && e'.core == (if ok then SleepCommit(e.core, p, level) else e.core)
            && e'.credit == e.credit + (if ok then SleepCredit(e.core, p, level) else 0)
  {
  }

  lemma KillReturns(k: Params, e: Entry, t: Tid, p: Option<Pid>)
    requires At(e, t, KillCall(p))
    ensures Enabled(k, e, Done(t, KillDone))
    ensures var e' := Apply(k, e, Done(t, KillDone)); e'.core == UnloadIfCurrent(e.core, p) && e'.credit == e.credit
  {
  }

  lemma UpHasProcess(k: Params, e: Entry)
    requires Safe(k, e) && Up(e.core.state)
    ensures e.core.proc.Some?
  {
  }

  /** A tick that does something is such a run, on the entry and on its CPU-RAM book. */
  lemma TickIsARun(k: Params, e: Entry, m: Model, t: Tid, idle: int, ttl: Timers, cpuFree: int, ok: bool)
    requires Safe(k, e) && Matches(k, e, m) && t !in e.pcs && t !in e.reqs && !Decide(m, idle, ttl, cpuFree).Stay?
    ensures var run := TickRun(m, t, cpuFree, ok);
            && ValidRun(k, e, run)
            && Exec(k, e, run).core == Ttl.Tick(m, idle, ttl, cpuFree, ok).run
            && Exec(k, e, run).credit == e.credit + TickCredit(m, idle, ttl, cpuFree, ok)
  {
    hide Apply, Enabled, Safe, Exec, ValidRun;
    UpHasProcess(k, e);
    Looks(k, e, t);
    var e1 := Goto(e, t, TtlSaw(e.core.state));
    var read, capture := Act.Tick(t, TtlRead), Act.Tick(t, TtlCapture);
    if m.run.state == Active && m.cfg.engine == VLLM {
      LooksAtCpu(k, e1, t, cpuFree);
      var e2 := Goto(e1, t, TtlCpu(cpuFree));
      Captures(k, e2, t);
      SleepReturns(k, Apply(k, e2, capture), t, e.core.proc, if cpuFree >= k.weights then 1 else 2, ok);
      RunOfThree(k, e1, Act.Tick(t, TtlReadCpu(cpuFree)), capture, Done(t, SleepDone(ok)));
      RunThen(k, e, read, [Act.Tick(t, TtlReadCpu(cpuFree)), capture, Done(t, SleepDone(ok))]);
      assert [read] + [Act.Tick(t, TtlReadCpu(cpuFree)), capture, Done(t, SleepDone(ok))] == TickRun(m, t, cpuFree, ok);
    } else if m.run.state == Sleep1 {
      Captures(k, e1, t);
      SleepReturns(k, Apply(k, e1, capture), t, e.core.proc, 2, ok);
      RunOfThree(k, e, read, capture, Done(t, SleepDone(ok)));
    } else {
      Captures(k, e1, t);
      KillReturns(k, Apply(k, e1, capture), t, e.core.proc);
      RunOfThree(k, e, read, capture, Done(t, KillDone));
    }
  }

  lemma StartsWake(k: Params, e: Entry, t: Tid)
    requires At(e, t, Observing) && Asleep(e.core.state)
    ensures Enabled(k, e, Client(t, Observe)) && Apply(k, e, Client(t, Observe)) == Goto(e, t, Waking(e.core.proc, e.core.state))
  {
  }

  lemma WakeReturns(k: Params, e: Entry, t: Tid, p: Option<Pid>, from: ModelState, ok: bool)
    requires At(e, t, Waking(p, from)) && p.Some?
    ensures Enabled(k, e, Done(t, WakeDone(ok)))
    ensures var e' := Apply(k, e, Done(t, WakeDone(ok)));
            && e'.core == (if ok then WakeCommit(e.core, p) else e.core)
            && e'.credit == e.credit + (if ok then WakeCredit(e.core, p, from) else 0)
  {
  }

  /** A wake in one go is the run in which a handler observes the sleeping entry and its call returns. */
  lemma WakeIsARun(k: Params, e: Entry, m: Model, t: Tid, ok: bool)
    requires Safe(k, e) && Matches(k, e, m) && At(e, t, Observing) && Asleep(e.core.state)
    ensures var run := [Client(t, Observe), Done(t, WakeDone(ok))];
            && ValidRun(k, e, run)
            && Exec(k, e, run).core == Wake(m, ok).0.run
            && Exec(k, e, run).credit == e.credit + Wake(m, ok).1
  {
    hide Apply, Enabled, Safe, Exec, ValidRun;
    UpHasProcess(k, e);
    StartsWake(k, e, t);
    WakeReturns(k, Apply(k, e, Client(t, Observe)), t, e.core.proc, e.core.state, ok);
    RunOfTwo(k, e, Client(t, Observe), Done(t, WakeDone(ok)));
  }

  // ---- evictions ----

  /** The eviction steps of the machine are enabled exactly for the candidates of the scheduler's rules, and do to an entry what a successful turn does. */
  lemma EvictionsAreTurns(k: Params, e: Entry, m: Model)
    requires Matches(k, e, m)
    ensures EvictEnabled(k, e.core, EvictToSleep1) <==> Rules.Candidate(m, Rules.Offload) && m.cfg.engine == VLLM
    ensures EvictEnabled(k, e.core, EvictToSleep2) <==> Rules.Candidate(m, Rules.Deepen)
    ensures EvictEnabled(k, e.core, EvictKill) <==>
              Rules.Candidate(m, Rules.Kill) || (Rules.Candidate(m, Rules.Offload) && m.cfg.engine == LlamaCpp && m.run.active <= 0)
    ensures EvictEnabled(k, e.core, EvictToSleep1) ==>
              var e' := ApplyEvict(k, e, EvictToSleep1); e'.core == Rules.Down(m, Sleep1).run && e'.credit == e.credit - 1
    ensures EvictEnabled(k, e.core, EvictToSleep2) ==>
              var e' := ApplyEvict(k, e, EvictToSleep2); e'.core == Rules.Down(m, Sleep2).run && e'.credit == e.credit
    ensures EvictEnabled(k, e.core, EvictKill) ==>
              var e' := ApplyEvict(k, e, EvictKill); e'.core == Rules.Down(m, Unloaded).run && e'.credit == e.credit
  {
  }

  // ---- the place of an entry ----

  /** Sleeping, waking, serving and ticking leave the place alone; only a load or an unload moves it. */
  lemma UpKeepsPlace(k: Params, e: Entry, a: Act)
    requires Safe(k, e) && Enabled(k, e, a) && Up(e.core.state)
    ensures var c, c' := e.core, Apply(k, e, a).core;
            if c'.state == Unloaded then c' == Unload(c)
            else Up(c'.state) && c'.proc == c.proc && c'.group == c.group && c'.reserved == c.reserved
  {
    match a
    case Client(t, act) => ClientKeepsPlace(k, e, t, act);
    case Loader(t, act) => LoadersLoad(k, e, t, act);
    case Drain(t, act) =>
    case Tick(t, act) =>
    case Done(t, act) =>
    case Evict(act) =>
  }

  lemma LoadersLoad(k: Params, e: Entry, t: Tid, a: LoaderAct)
    requires Safe(k, e) && LoaderEnabled(e, t, a)
    ensures e.core.state == Loading
  {
    assert IsLoader(e.pcs[t]);
  }

  lemma ClientKeepsPlace(k: Params, e: Entry, t: Tid, a: ClientAct)
    requires ClientEnabled(e, t, a) && Up(e.core.state)
    ensures ApplyClient(k, e, t, a).core == e.core.(active := ApplyClient(k, e, t, a).core.active)
  {
  }

  /** What the last load settled: the group and size of its assignment, its process, and the measured size if it was measured. */
  datatype Load = Load(group: int, size: int, pid: Pid)

  function NoteLoad(e: Entry, a: Act, load: Load): Load {
    if !a.Loader? then load
    else match a.loader
      case AssignOk(g, needed) => load.(group := g, size := needed)
      case LaunchOk => load.(pid := e.nextPid)
      case HealthOk(_, measured) => if measured.Some? then load.(size := measured.value) else load
      case _ => load
  }

  function LastLoad(k: Params, e: Entry, acts: seq<Act>, load: Load): Load
    requires ValidRun(k, e, acts)
    decreases |acts|
  {
    if acts == [] then load else LastLoad(k, Apply(k, e, acts[0]), acts[1..], NoteLoad(e, acts[0], load))
  }

  ghost predicate Placed(c: Core, load: Load) {
    c.proc == Some(load.pid) && c.group == load.group && c.reserved == load.size
  }

  predicate Loads(pc: Pc) {
    pc.Launching? || pc.Probing?
  }

  ghost predicate LoadAgrees(e: Entry, load: Load) {
    && (Up(e.core.state) ==> Placed(e.core, load))
    && (forall t | t in e.pcs && e.pcs[t].Launching? :: e.pcs[t].g == load.group && e.core.reserved == load.size)
    && (forall t | t in e.pcs && e.pcs[t].Probing? :: Placed(e.core, load))
  }

  /** Nobody but the loader touches an entry that is being loaded, but for the counter. */
  lemma LoadingUndisturbed(k: Params, e: Entry, a: Act)
    requires Safe(k, e) && Enabled(k, e, a) && !a.Loader? && e.core.state == Loading
    ensures Apply(k, e, a).core == e.core.(active := Apply(k, e, a).core.active)
  {
    match a
    case Client(t, act) => ClientLeavesLoading(k, e, t, act);
    case Drain(t, act) =>
    case Tick(t, act) =>
    case Done(t, act) => assert PcAgrees(k, e.core, e.nextPid, e.pcs[t]);
    case Evict(act) =>
  }

  lemma ClientLeavesLoading(k: Params, e: Entry, t: Tid, a: ClientAct)
    requires ClientEnabled(e, t, a) && e.core.state == Loading
    ensures ApplyClient(k, e, t, a).core == e.core.(active := ApplyClient(k, e, t, a).core.active)
  {
  }

  lemma ClientDoesNotLoad(k: Params, e: Entry, t: Tid, a: ClientAct, u: Tid)
    requires ClientEnabled(e, t, a) && u in ApplyClient(k, e, t, a).pcs && Loads(ApplyClient(k, e, t, a).pcs[u])
    ensures u in e.pcs && e.pcs[u] == ApplyClient(k, e, t, a).pcs[u]
  {
  }

  lemma DrainDoesNotLoad(e: Entry, t: Tid, a: DrainAct, u: Tid)
    requires DrainEnabled(e, t, a) && u in ApplyDrain(e, t, a).pcs && Loads(ApplyDrain(e, t, a).pcs[u])
    ensures u in e.pcs && e.pcs[u] == ApplyDrain(e, t, a).pcs[u]
  {
  }

  /** A goroutine at its launch or health check got there by a loader step. */
  lemma OthersDoNotLoad(k: Params, e: Entry, a: Act, u: Tid)
    requires Enabled(k, e, a) && !a.Loader? && u in Apply(k, e, a).pcs && Loads(Apply(k, e, a).pcs[u])
    ensures u in e.pcs && e.pcs[u] == Apply(k, e, a).pcs[u]
  {
    hide ApplyClient, ApplyDrain;
    match a
    case Client(t, act) => ClientDoesNotLoad(k, e, t, act, u);
    case Drain(t, act) => DrainDoesNotLoad(e, t, act, u);
    case Tick(t, act) =>
    case Done(t, act) =>
    case Evict(act) =>
  }

  lemma ClientComesUp(k: Params, e: Entry, t: Tid, a: ClientAct)
    requires ClientEnabled(e, t, a) && e.core.state == Unloaded
    ensures !Up(ApplyClient(k, e, t, a).core.state)
  {
  }

  lemma UnloadedStaysDown(k: Params, e: Entry, a: Act)
    requires Safe(k, e) && Enabled(k, e, a) && e.core.state == Unloaded
    ensures !Up(Apply(k, e, a).core.state)
  {
    match a
    case Client(t, act) => ClientComesUp(k, e, t, act);
    case Loader(t, act) => LoadersLoad(k, e, t, act);
    case Drain(t, act) =>
    case Tick(t, act) =>
    case Done(t, act) => assert PcAgrees(k, e.core, e.nextPid, e.pcs[t]);
    case Evict(act) =>
  }

  lemma OtherStepKeepsLoad(k: Params, e: Entry, a: Act, load: Load)
    requires Safe(k, e) && Enabled(k, e, a) && !a.Loader? && LoadAgrees(e, load)
    ensures LoadAgrees(Apply(k, e, a), load)
  {
    var e' := Apply(k, e, a);
    if e.core.state == Loading {
      LoadingUndisturbed(k, e, a);
    } else if e.core.state == Unloaded {
      UnloadedStaysDown(k, e, a);
    } else {
      UpKeepsPlace(k, e, a);
    }
    hide Apply, Enabled;
    forall u | u in e'.pcs && Loads(e'.pcs[u])
      ensures e'.pcs[u].Launching? ==> e'.pcs[u].g == load.group && e'.core.reserved == load.size
      ensures e'.pcs[u].Probing? ==> Placed(e'.core, load)
    {
      OthersDoNotLoad(k, e, a, u);
      assert IsLoader(e.pcs[u]) && e.core.state == Loading;
    }
  }

  lemma LoaderStepKeepsLoad(k: Params, e: Entry, t: Tid, a: LoaderAct, load: Load)
    requires Safe(k, e) && LoaderEnabled(e, t, a) && LoadAgrees(e, load)
    ensures LoadAgrees(ApplyLoader(k, e, t, a), NoteLoad(e, Loader(t, a), load))
  {
    assert IsLoader(e.pcs[t]) && LoaderView(k, e.core, e.pcs[t]);
    assert forall u | u in e.pcs && IsLoader(e.pcs[u]) :: u == t;
  }

  lemma {:induction false} RunKeepsLoad(k: Params, e: Entry, acts: seq<Act>, load: Load)
    requires Safe(k, e) && LoadAgrees(e, load) && ValidRun(k, e, acts)
    ensures LoadAgrees(Exec(k, e, acts), LastLoad(k, e, acts, load))
    decreases |acts|
  {
    hide Safe, LoadAgrees;
    if acts != [] {
      StepKeepsSafe(k, e, acts[0]);
      if acts[0].Loader? {
        LoaderStepKeepsLoad(k, e, acts[0].t, acts[0].loader, load);
      } else {
        OtherStepKeepsLoad(k, e, acts[0], load);
      }
      RunKeepsLoad(k, Apply(k, e, acts[0]), acts[1..], NoteLoad(e, acts[0], load));
    }
  }

  /**
   In every run, an entry that is up has the process, the group and the reservation
   of its last load, however often it has slept, woken and served since.
   */
  lemma PlaceFollowsLoad(k: Params, acts: seq<Act>, load: Load)
    requires ValidRun(k, INITIAL, acts) && Up(Exec(k, INITIAL, acts).core.state)
    ensures var c, last := Exec(k, INITIAL, acts).core, LastLoad(k, INITIAL, acts, load);
            c.proc == Some(last.pid) && c.group == last.group && c.reserved == last.size
  {
    InitiallySafe(k);
    RunKeepsLoad(k, INITIAL, acts, load);
  }
}
