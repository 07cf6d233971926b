/**
 All model entries together.  They meet in three places: the CPU-RAM counter,
 the eviction loops, and the mutex that serialises group assignment within a
 replica set.  Each member steps as in `Protocol`; a step that reads or writes
 shared data is constrained here.
 */
module Fleet {
  import opened Lifecycle
  import opened Protocol
  import opened ProtocolSafety
  import opened Sums

  datatype Member = Member(params: Params, rset: nat)

  datatype State = State(
    entries: seq<Entry>,
    holder: map<nat, nat>,   // assignMu: replica set -> the member holding it
    freeCpu: int)            // freeCPURAMB

  datatype Step =
    | By(i: nat, act: Act)
    | Refresh(reading: int)  // refreshMemory overwrites the counter

  predicate Siblings(cfg: seq<Member>, i: int, j: int) {
    0 <= i < |cfg| && 0 <= j < |cfg| && i != j && cfg[i].rset == cfg[j].rset
  }

  /** `replicated` means that the set has more than one entry; validateConfig rules out pinning such a model. */
  ghost predicate ValidFleet(cfg: seq<Member>) {
    && (forall i | 0 <= i < |cfg| :: cfg[i].params.replicated ==> !cfg[i].params.pinned)
    && (forall i, j | Siblings(cfg, i, j) :: cfg[i].params.replicated)
  }

  predicate TakesLock(cfg: seq<Member>, i: nat, a: Act)
    requires i < |cfg|
  {
    a.Loader? && a.loader.BeginAssign? && cfg[i].params.replicated
  }

  predicate DropsLock(cfg: seq<Member>, i: nat, a: Act)
    requires i < |cfg|
  {
    a.Loader? && (a.loader.AssignOk? || a.loader.AssignFail?) && cfg[i].params.replicated
  }

  /** The constraints that shared data puts on member `i`'s step. */
  predicate SharedOk(cfg: seq<Member>, f: State, i: nat, a: Act)
    requires |cfg| == |f.entries| && i < |cfg|
  {
    && (TakesLock(cfg, i, a) ==> cfg[i].rset !in f.holder)
    && (a.Loader? && a.t in f.entries[i].pcs && f.entries[i].pcs[a.t].Assigning? && f.entries[i].pcs[a.t].phase.Reading? ==>
          var next := f.entries[i].pcs[a.t].phase.next;
          && (a.loader.ReadSibling? ==>
                next < |cfg| && a.loader.g == if Siblings(cfg, i, next) then f.entries[next].core.group else -1)
          && (a.loader.EndReading? ==> next >= |cfg|))
    && (a.Tick? && a.tick.TtlReadCpu? ==> a.tick.free == f.freeCpu)
  }

  predicate Can(cfg: seq<Member>, f: State, s: Step) {
    |cfg| == |f.entries| &&
    match s
    case By(i, a) => i < |cfg| && Enabled(cfg[i].params, f.entries[i], a) && SharedOk(cfg, f, i, a)
    case Refresh(_) => true
  }

  function Do(cfg: seq<Member>, f: State, s: Step): State
    requires Can(cfg, f, s)
  {
    match s
    case Refresh(v) => f.(freeCpu := v)
    case By(i, a) =>
      var e' := Apply(cfg[i].params, f.entries[i], a);
      State(
        f.entries[i := e'],
        if TakesLock(cfg, i, a) then f.holder[cfg[i].rset := i]
        else if DropsLock(cfg, i, a) then f.holder - {cfg[i].rset}
        else f.holder,
        f.freeCpu + cfg[i].params.weights * (e'.credit - f.entries[i].credit))
  }

  predicate ValidSteps(cfg: seq<Member>, f: State, ss: seq<Step>)
    decreases |ss|
  {
    ss == [] || (Can(cfg, f, ss[0]) && ValidSteps(cfg, Do(cfg, f, ss[0]), ss[1..]))
  }

  function DoAll(cfg: seq<Member>, f: State, ss: seq<Step>): State
    requires ValidSteps(cfg, f, ss)
    decreases |ss|
  {
    if ss == [] then f else DoAll(cfg, Do(cfg, f, ss[0]), ss[1..])
  }

  function Start(cfg: seq<Member>, freeCpu: int): State {
    State(seq(|cfg|, i => INITIAL), map[], freeCpu)
  }

  // ---- replica anti-affinity ----

  /** No two entries of one replica set hold the same group. */
  ghost predicate Spread(cfg: seq<Member>, f: State)
    requires |cfg| == |f.entries|
  {
    forall i, j | Siblings(cfg, i, j) ::
      f.entries[i].core.group >= 0 ==> f.entries[i].core.group != f.entries[j].core.group
  }

  predicate InMutex(pc: Pc) {
    pc.Assigning? && !pc.phase.Locking?
  }

  /** The groups that `pc` has read so far, and from which members. */
  function Known(cfg: seq<Member>, pc: Pc): (int, set<int>)
    requires InMutex(pc)
  {
    if pc.phase.Reading? then (pc.phase.next, pc.phase.seen) else (|cfg|, pc.phase.exclude)
  }

  /** A loader inside the mutex holds it, and every group published by the siblings it has read is in its set. */
  ghost predicate MutexAgrees(cfg: seq<Member>, f: State, i: nat, pc: Pc)
    requires |cfg| == |f.entries| && i < |cfg| && InMutex(pc)
  {
    && (cfg[i].params.replicated ==> cfg[i].rset in f.holder && f.holder[cfg[i].rset] == i)
    && (forall j | Siblings(cfg, i, j) && j < Known(cfg, pc).0 ::
          f.entries[j].core.group >= 0 ==> f.entries[j].core.group in Known(cfg, pc).1)
  }

  ghost predicate Disciplined(cfg: seq<Member>, f: State) {
    && |cfg| == |f.entries|
    && (forall i | 0 <= i < |cfg| :: Safe(cfg[i].params, f.entries[i]))
    && (forall i, t | 0 <= i < |cfg| && t in f.entries[i].pcs && InMutex(f.entries[i].pcs[t]) ::
          MutexAgrees(cfg, f, i, f.entries[i].pcs[t]))
    && Spread(cfg, f)
  }

  /** A member's group changes only when it publishes, or to -1. */
  lemma GroupStep(k: Params, e: Entry, a: Act)
    requires Safe(k, e) && Enabled(k, e, a) && !k.pinned
    ensures var g, g' := e.core.group, Apply(k, e, a).core.group;
            g' == g || g' == -1 || (a.Loader? && a.loader.AssignOk? && g' == a.loader.g)
  {
    if a.Loader? { assert LoaderView(k, e.core, e.pcs[a.t]); }
  }

  lemma ClientOutsideMutex(k: Params, e: Entry, t: Tid, a: ClientAct)
    requires ClientEnabled(e, t, a)
    ensures var e' := ApplyClient(k, e, t, a); t in e'.pcs && !InMutex(e'.pcs[t])
  {
  }

  lemma DrainOutsideMutex(e: Entry, t: Tid, a: DrainAct)
    requires DrainEnabled(e, t, a)
    ensures var e' := ApplyDrain(e, t, a); t in e'.pcs && !InMutex(e'.pcs[t])
  {
  }

  lemma OwnMutexStep(k: Params, e: Entry, a: Act)
    requires Enabled(k, e, a) && !a.Evict?
    requires a.t in Apply(k, e, a).pcs && InMutex(Apply(k, e, a).pcs[a.t])
    ensures a.Loader? && (a.loader.BeginAssign? || a.loader.ReadSibling? || a.loader.EndReading?)
  {
    hide ApplyClient, ApplyDrain;
    match a
    case Client(t, act) => ClientOutsideMutex(k, e, t, act);
    case Loader(t, act) =>
    case Drain(t, act) => DrainOutsideMutex(e, t, act);
    case Tick(t, act) =>
    case Done(t, act) =>
  }

  lemma ClientAddsNone(k: Params, e: Entry, t: Tid, a: ClientAct, u: Tid)
    requires ClientEnabled(e, t, a) && u !in e.pcs && u != t
    ensures u !in ApplyClient(k, e, t, a).pcs
  {
  }

  lemma LoaderAddsWatcher(k: Params, e: Entry, t: Tid, a: LoaderAct, u: Tid)
    requires LoaderEnabled(e, t, a) && u !in e.pcs && u != t && u in ApplyLoader(k, e, t, a).pcs
    ensures ApplyLoader(k, e, t, a).pcs[u].Watching?
  {
  }

  lemma DrainAddsNone(e: Entry, t: Tid, a: DrainAct, u: Tid)
    requires DrainEnabled(e, t, a) && u !in e.pcs && u != t
    ensures u !in ApplyDrain(e, t, a).pcs
  {
  }

  lemma OthersOutsideMutex(k: Params, e: Entry, a: Act, t: Tid)
    requires Enabled(k, e, a) && t !in e.pcs && (a.Evict? || a.t != t)
    requires t in Apply(k, e, a).pcs
    ensures !InMutex(Apply(k, e, a).pcs[t])
  {
    hide ApplyClient, ApplyLoader, ApplyDrain;
    match a
    case Client(c, act) => ClientAddsNone(k, e, c, act, t);
    case Loader(c, act) => LoaderAddsWatcher(k, e, c, act, t);
    case Drain(c, act) => DrainAddsNone(e, c, act, t);
    case _ =>
  }

  /** Nobody enters or moves within the mutex except by the loader's own steps. */
  lemma MutexStep(k: Params, e: Entry, a: Act, t: Tid)
    requires Safe(k, e) && Enabled(k, e, a)
    requires t in Apply(k, e, a).pcs && InMutex(Apply(k, e, a).pcs[t])
    ensures || (t in e.pcs && e.pcs[t] == Apply(k, e, a).pcs[t] && !(a.Loader? && (a.loader.AssignOk? || a.loader.AssignFail?)))
            || (a.Loader? && a.t == t && (a.loader.BeginAssign? || a.loader.ReadSibling? || a.loader.EndReading?))
  {
    if !a.Evict? && a.t == t {
      hide *;
      OwnMutexStep(k, e, a);
    } else if t in e.pcs {
      hide ApplyClient, ApplyDrain, ApplyTick, ApplyDone, FieldsAgree, TokensAgree;
      OnlyOwnCounter(k, e, a, t);
    } else {
      hide *;
      OthersOutsideMutex(k, e, a, t);
    }
  }

  /** Only the holder of the mutex leaves it. */
  lemma HolderDrops(cfg: seq<Member>, f: State, i: nat, a: Act)
    requires Disciplined(cfg, f) && Can(cfg, f, By(i, a))
    ensures DropsLock(cfg, i, a) ==> cfg[i].rset in f.holder && f.holder[cfg[i].rset] == i
  {
    if DropsLock(cfg, i, a) {
      assert MutexAgrees(cfg, f, i, f.entries[i].pcs[a.t]);
    }
  }

  /** Another member's step keeps what a loader inside the mutex knows. */
  lemma OthersKeepKnowledge(cfg: seq<Member>, f: State, i: nat, a: Act, j: nat, pc: Pc)
    requires ValidFleet(cfg) && Disciplined(cfg, f) && Can(cfg, f, By(i, a))
    requires j < |cfg| && j != i && InMutex(pc) && MutexAgrees(cfg, f, j, pc)
    ensures MutexAgrees(cfg, Do(cfg, f, By(i, a)), j, pc)
  {
    HolderDrops(cfg, f, i, a);
    if Siblings(cfg, j, i) {
      assert Siblings(cfg, i, j);
      GroupStep(cfg[i].params, f.entries[i], a);
    }
  }

  /** The loader's own steps inside the mutex. */
  lemma OwnKnowledge(cfg: seq<Member>, f: State, i: nat, a: Act)
    requires ValidFleet(cfg) && Disciplined(cfg, f) && Can(cfg, f, By(i, a))
    requires a.Loader? && (a.loader.BeginAssign? || a.loader.ReadSibling? || a.loader.EndReading?)
    ensures var f' := Do(cfg, f, By(i, a));
            a.t in f'.entries[i].pcs && InMutex(f'.entries[i].pcs[a.t]) && MutexAgrees(cfg, f', i, f'.entries[i].pcs[a.t])
  {
    hide Safe, Spread;
    if !a.loader.BeginAssign? {
      assert MutexAgrees(cfg, f, i, f.entries[i].pcs[a.t]);
    }
  }

  lemma StepKeepsMutex(cfg: seq<Member>, f: State, i: nat, a: Act, j: nat, t: Tid)
    requires ValidFleet(cfg) && Disciplined(cfg, f) && Can(cfg, f, By(i, a))
    requires var f' := Do(cfg, f, By(i, a));
             j < |cfg| && t in f'.entries[j].pcs && InMutex(f'.entries[j].pcs[t])
    ensures var f' := Do(cfg, f, By(i, a)); MutexAgrees(cfg, f', j, f'.entries[j].pcs[t])
  {
    if j != i {
      OthersKeepKnowledge(cfg, f, i, a, j, f.entries[j].pcs[t]);
    } else {
      MutexStep(cfg[i].params, f.entries[i], a, t);
      if a.Loader? && a.t == t && (a.loader.BeginAssign? || a.loader.ReadSibling? || a.loader.EndReading?) {
        OwnKnowledge(cfg, f, i, a);
      } else {
        assert MutexAgrees(cfg, f, i, f.entries[i].pcs[t]);
      }
    }
  }

  /** Publishing outside the excluded groups keeps the replicas apart. */
  lemma StepKeepsSpread(cfg: seq<Member>, f: State, i: nat, a: Act)
    requires ValidFleet(cfg) && Disciplined(cfg, f) && Can(cfg, f, By(i, a))
    ensures Spread(cfg, Do(cfg, f, By(i, a)))
  {
    var f' := Do(cfg, f, By(i, a));
    forall m, n | Siblings(cfg, m, n) && f'.entries[m].core.group >= 0
      ensures f'.entries[m].core.group != f'.entries[n].core.group
    {
      assert Siblings(cfg, n, m);
      if m == i || n == i {
        var j := if m == i then n else m;
        assert Siblings(cfg, i, j);
        GroupStep(cfg[i].params, f.entries[i], a);
        if a.Loader? && a.loader.AssignOk? {
          assert MutexAgrees(cfg, f, i, f.entries[i].pcs[a.t]);
        }
      }
    }
  }

  lemma StepKeepsDiscipline(cfg: seq<Member>, f: State, s: Step)
    requires ValidFleet(cfg) && Disciplined(cfg, f) && Can(cfg, f, s)
    ensures Disciplined(cfg, Do(cfg, f, s))
  {
    if s.By? {
      var f' := Do(cfg, f, s);
      StepKeepsSafe(cfg[s.i].params, f.entries[s.i], s.act);
      StepKeepsSpread(cfg, f, s.i, s.act);
      forall j, t | 0 <= j < |cfg| && t in f'.entries[j].pcs && InMutex(f'.entries[j].pcs[t])
        ensures MutexAgrees(cfg, f', j, f'.entries[j].pcs[t])
      {
        StepKeepsMutex(cfg, f, s.i, s.act, j, t);
      }
    }
  }

  lemma {:induction false} RunKeepsDiscipline(cfg: seq<Member>, f: State, ss: seq<Step>)
    requires ValidFleet(cfg) && Disciplined(cfg, f) && ValidSteps(cfg, f, ss)
    ensures Disciplined(cfg, DoAll(cfg, f, ss))
    decreases |ss|
  {
    if ss != [] {
      StepKeepsDiscipline(cfg, f, ss[0]);
      RunKeepsDiscipline(cfg, Do(cfg, f, ss[0]), ss[1..]);
    }
  }

  /** In every run, no two replicas of one model ever hold the same GPU group. */
  lemma ReplicasStayApart(cfg: seq<Member>, freeCpu: int, ss: seq<Step>, i: nat, j: nat)
    requires ValidFleet(cfg) && ValidSteps(cfg, Start(cfg, freeCpu), ss)
    requires Siblings(cfg, i, j)
    ensures var f := DoAll(cfg, Start(cfg, freeCpu), ss);
            && |f.entries| == |cfg|
            && (f.entries[i].core.group >= 0 ==> f.entries[i].core.group != f.entries[j].core.group)
  {
    forall m | 0 <= m < |cfg| ensures Safe(cfg[m].params, INITIAL) {
      InitiallySafe(cfg[m].params);
    }
    RunKeepsDiscipline(cfg, Start(cfg, freeCpu), ss);
  }

  // ---- the CPU-RAM counter ----

  /** An entry's book: its credits, less what it holds in SLEEP1, are the miscounted wakes and exits. */
  ghost predicate Booked(e: Entry) {
    e.credit == e.doubled - e.lost - (if e.core.state == Sleep1 then 1 else 0)
  }

  lemma ClientKeepsBook(k: Params, e: Entry, t: Tid, a: ClientAct)
    requires Booked(e) && ClientEnabled(e, t, a)
    ensures Booked(ApplyClient(k, e, t, a))
  {
  }

  lemma LoaderKeepsBook(k: Params, e: Entry, t: Tid, a: LoaderAct)
    requires Booked(e) && LoaderEnabled(e, t, a) && e.core.state == Loading
    ensures Booked(ApplyLoader(k, e, t, a))
  {
  }

  lemma DoneKeepsBook(e: Entry, t: Tid, a: DoneAct)
    requires Booked(e) && DoneEnabled(e, t, a)
    ensures Booked(ApplyDone(e, t, a))
  {
  }

  lemma StepKeepsBook(k: Params, e: Entry, a: Act)
    requires Safe(k, e) && Booked(e) && Enabled(k, e, a)
    ensures Booked(Apply(k, e, a))
  {
    match a
    case Client(t, act) => ClientKeepsBook(k, e, t, act);
    case Loader(t, act) => LoaderKeepsBook(k, e, t, act);
    case Drain(t, act) =>
    case Tick(t, act) =>
    case Done(t, act) => DoneKeepsBook(e, t, act);
    case Evict(act) =>
  }

  /** A wake call begun in SLEEP1 that returns to the same process after somebody else has woken or deepened it. */
  predicate WakesLate(e: Entry, a: Act) {
    a.Done? && a.done == WakeDone(true) && a.t in e.pcs && e.pcs[a.t].Waking?
    && e.pcs[a.t].from == Sleep1 && e.core.proc == e.pcs[a.t].captured && e.core.state != Sleep1
  }

  /** A step that takes the entry out of SLEEP1 without booking its weights: a crash, a kill, Rule 3, or a wake call begun in SLEEP2. */
  predicate LeavesUnbooked(e: Entry, a: Act) {
    e.core.state == Sleep1 &&
    match a
    case Evict(act) => act.EvictToSleep2?
    case Done(t, act) =>
      t in e.pcs &&
      (match act
       case Crash => e.pcs[t].Watching? && e.core.proc == Some(e.pcs[t].watched)
       case KillDone => e.pcs[t].KillCall? && e.core.proc == e.pcs[t].victim
       case WakeDone(ok) => ok && e.pcs[t].Waking? && e.pcs[t].from == Sleep2 && e.core.proc == e.pcs[t].captured
       case SleepDone(_) => false)
    case _ => false
  }

  /** Which steps miscount; in particular no completed sleep call ever does. */
  lemma MiscountsIff(k: Params, e: Entry, a: Act)
    requires Safe(k, e) && Enabled(k, e, a)
    ensures Apply(k, e, a).doubled == e.doubled + (if WakesLate(e, a) then 1 else 0)
    ensures Apply(k, e, a).lost == e.lost + (if LeavesUnbooked(e, a) then 1 else 0)
  {
    match a
    case Client(t, act) => ClientDoesNotCount(k, e, t, act);
    case Loader(t, act) =>
    case Drain(t, act) =>
    case Tick(t, act) =>
    case Done(t, act) => assert PcAgrees(k, e.core, e.nextPid, e.pcs[t]);
    case Evict(act) =>
  }

  lemma ClientDoesNotCount(k: Params, e: Entry, t: Tid, a: ClientAct)
    requires ClientEnabled(e, t, a)
    ensures var e' := ApplyClient(k, e, t, a); e'.doubled == e.doubled && e'.lost == e.lost
  {
  }

  function Held(m: Member, e: Entry): int {
    if e.core.state == Sleep1 then m.params.weights else 0
  }

  function Miscounted(m: Member, e: Entry): int {
    m.params.weights * (e.doubled - e.lost)
  }

  /** CPU RAM held by the members in SLEEP1. */
  function Offloaded(cfg: seq<Member>, f: State): int
    requires |cfg| == |f.entries|
  {
    Sum(seq(|cfg|, i requires 0 <= i < |cfg| => Held(cfg[i], f.entries[i])))
  }

  /** What overlapping wakes credited too often, less what crashes, kills and rule 3 never credited. */
  function Drift(cfg: seq<Member>, f: State): int
    requires |cfg| == |f.entries|
  {
    Sum(seq(|cfg|, i requires 0 <= i < |cfg| => Miscounted(cfg[i], f.entries[i])))
  }

  lemma SumsAfter(cfg: seq<Member>, f: State, f': State, i: nat)
    requires |cfg| == |f.entries| && i < |cfg|
    requires |f'.entries| == |cfg| && f'.entries == f.entries[i := f'.entries[i]]
    ensures Offloaded(cfg, f') == Offloaded(cfg, f) - Held(cfg[i], f.entries[i]) + Held(cfg[i], f'.entries[i])
    ensures Drift(cfg, f') == Drift(cfg, f) - Miscounted(cfg[i], f.entries[i]) + Miscounted(cfg[i], f'.entries[i])
  {
    var h := seq(|cfg|, j requires 0 <= j < |cfg| => Held(cfg[j], f.entries[j]));
    assert seq(|cfg|, j requires 0 <= j < |cfg| => Held(cfg[j], f'.entries[j])) == h[i := Held(cfg[i], f'.entries[i])];
    SumUpdate(h, i, Held(cfg[i], f'.entries[i]));
    var d := seq(|cfg|, j requires 0 <= j < |cfg| => Miscounted(cfg[j], f.entries[j]));
    assert seq(|cfg|, j requires 0 <= j < |cfg| => Miscounted(cfg[j], f'.entries[j])) == d[i := Miscounted(cfg[i], f'.entries[i])];
    SumUpdate(d, i, Miscounted(cfg[i], f'.entries[i]));
  }

  ghost predicate AllBooked(cfg: seq<Member>, f: State) {
    && |cfg| == |f.entries|
    && (forall i | 0 <= i < |cfg| :: Safe(cfg[i].params, f.entries[i]) && Booked(f.entries[i]))
  }

  /** One member's step moves counter, offloaded weights and drift together. */
  lemma StepKeepsCpuBalance(cfg: seq<Member>, f: State, i: nat, a: Act)
    requires AllBooked(cfg, f) && Can(cfg, f, By(i, a))
    ensures var f' := Do(cfg, f, By(i, a));
            && AllBooked(cfg, f')
            && f'.freeCpu + Offloaded(cfg, f') - Drift(cfg, f') == f.freeCpu + Offloaded(cfg, f) - Drift(cfg, f)
  {
    var f' := Do(cfg, f, By(i, a));
    StepKeepsSafe(cfg[i].params, f.entries[i], a);
    StepKeepsBook(cfg[i].params, f.entries[i], a);
    SumsAfter(cfg, f, f', i);
    WeightedBook(cfg[i], f.entries[i], f'.entries[i]);
  }

  lemma WeightedBook(m: Member, e: Entry, e': Entry)
    requires Booked(e) && Booked(e')
    ensures m.params.weights * (e'.credit - e.credit) == Miscounted(m, e') - Miscounted(m, e) - Held(m, e') + Held(m, e)
  {
    var w := m.params.weights;
    var s, s' := (if e.core.state == Sleep1 then 1 else 0), (if e'.core.state == Sleep1 then 1 else 0);
    var d, d' := e.doubled - e.lost, e'.doubled - e'.lost;
    assert e'.credit - e.credit == d' - d - (s' - s);
    assert w * (d' - d - (s' - s)) == w * d' - w * d - w * s' + w * s;
  }

  predicate NoRefresh(ss: seq<Step>) {
    forall n | 0 <= n < |ss| :: ss[n].By?
  }

  lemma {:induction false} CpuBalance(cfg: seq<Member>, f: State, ss: seq<Step>)
    requires AllBooked(cfg, f) && ValidSteps(cfg, f, ss) && NoRefresh(ss)
    ensures var f' := DoAll(cfg, f, ss);
            && AllBooked(cfg, f')
            && f'.freeCpu + Offloaded(cfg, f') - Drift(cfg, f') == f.freeCpu + Offloaded(cfg, f) - Drift(cfg, f)
    decreases |ss|
  {
    if ss != [] {
      assert ss[0].By?;
      StepKeepsCpuBalance(cfg, f, ss[0].i, ss[0].act);
      CpuBalance(cfg, Do(cfg, f, ss[0]), ss[1..]);
    }
  }

  lemma {:induction false} RunKeepsBooked(cfg: seq<Member>, f: State, ss: seq<Step>)
    requires AllBooked(cfg, f) && ValidSteps(cfg, f, ss)
    ensures AllBooked(cfg, DoAll(cfg, f, ss))
    decreases |ss|
  {
    if ss != [] {
      if ss[0].By? {
        StepKeepsCpuBalance(cfg, f, ss[0].i, ss[0].act);
      }
      RunKeepsBooked(cfg, Do(cfg, f, ss[0]), ss[1..]);
    }
  }

  /**
   In every run, between two re-reads of /proc/meminfo, the counter plus the
   weights held in SLEEP1 is conserved exactly when the miscounts of that
   stretch cancel: wakes credited twice against exits from SLEEP1 that credit nothing.
   */
  lemma CpuRamIsConservedIff(cfg: seq<Member>, freeCpu: int, before: seq<Step>, ss: seq<Step>)
    requires ValidSteps(cfg, Start(cfg, freeCpu), before)
    requires ValidSteps(cfg, DoAll(cfg, Start(cfg, freeCpu), before), ss) && NoRefresh(ss)
    ensures var f := DoAll(cfg, Start(cfg, freeCpu), before);
            var f' := DoAll(cfg, f, ss);
            |f.entries| == |cfg| == |f'.entries| &&
            (f'.freeCpu + Offloaded(cfg, f') == f.freeCpu + Offloaded(cfg, f) <==> Drift(cfg, f') == Drift(cfg, f))
  {
    forall m | 0 <= m < |cfg| ensures Safe(cfg[m].params, INITIAL) {
      InitiallySafe(cfg[m].params);
    }
    RunKeepsBooked(cfg, Start(cfg, freeCpu), before);
    CpuBalance(cfg, DoAll(cfg, Start(cfg, freeCpu), before), ss);
  }
}
