/**
 The idle timers.  One tick per model is a small state change; these lemmas say
 that a run of ticks refines the ideal ladder "the state is a function of how
 long the model has been idle", and that ticks and wakes conserve CPU RAM.
 Here a tick or a wake is uninterrupted; `Protocol` has the interleavings.
 */
module Ttl {
  import opened Lifecycle
  import opened Eviction
  import opened Sums

  /** Effective timers of one model. */
  datatype Timers = Timers(active: int, inactive: int, unused: int)

  /** The order that validateConfig enforces on effective timers. */
  predicate Ordered(ttl: Timers) {
    0 < ttl.active < ttl.inactive < ttl.unused
  }

  /** What a tick decides to do. */
  datatype Decision = Stay | SleepTo(level: int) | Kill

  /** `tickTTL`: the decision for a model idle for `idle`, given the CPU RAM counter. */
  function Decide(m: Model, idle: int, ttl: Timers, cpuFree: int): Decision {
    if m.run.active > 0 then Stay
    else match m.run.state
      case Active =>
        if m.cfg.engine == LlamaCpp then (if idle < ttl.unused then Stay else Kill)
        else if idle < ttl.active then Stay
        else if cpuFree >= m.mem.weights then SleepTo(1) else SleepTo(2)
      case Sleep1 => if idle < ttl.inactive then Stay else SleepTo(2)
      case Sleep2 => if idle < ttl.unused then Stay else Kill
      case _ => Stay
  }

  /** An uninterrupted tick, with the outcome of its sleep call. */
  function Tick(m: Model, idle: int, ttl: Timers, cpuFree: int, ok: bool): Model {
    match Decide(m, idle, ttl, cpuFree)
    case Stay => m
    case SleepTo(level) => if ok && m.run.proc.Some? then m.(run := SleepCommit(m.run, m.run.proc, level)) else m
    case Kill => m.(run := UnloadIfCurrent(m.run, m.run.proc))
  }

  function TickCredit(m: Model, idle: int, ttl: Timers, cpuFree: int, ok: bool): int {
    match Decide(m, idle, ttl, cpuFree)
    case SleepTo(level) => if ok && m.run.proc.Some? then SleepCredit(m.run, m.run.proc, level) else 0
    case _ => 0
  }

  // ---- the ideal ladder ----

  function Depth(s: ModelState): nat {
    match s
    case Active => 0
    case Loading => 0
    case Sleep1 => 1
    case Sleep2 => 2
    case Unloaded => 3
  }

  /** How deep a model idle for `idle` should sleep. */
  function IdealDepth(engine: Engine, idle: int, ttl: Timers): nat {
    if engine == LlamaCpp then (if idle < ttl.unused then 0 else 3)
    else if idle < ttl.active then 0
    else if idle < ttl.inactive then 1
    else if idle < ttl.unused then 2
    else 3
  }

  predicate Tickable(m: Model) {
    && m.run.state != Loading && (Up(m.run.state) ==> m.run.proc.Some?)
    && (m.cfg.engine == LlamaCpp ==> !Asleep(m.run.state))
  }

  /**
   What a tick leaves alone.  A model that it unloads has no process, no group and
   no reservation any more; any other keeps all three; the counter is never touched.
   */
  lemma TickKeepsFields(m: Model, idle: int, ttl: Timers, cpuFree: int, ok: bool)
    ensures var m' := Tick(m, idle, ttl, cpuFree, ok);
            && m'.cfg == m.cfg && m'.mem == m.mem && m'.run.active == m.run.active
            && (if m'.run.state == Unloaded && m.run.state != Unloaded
                then m'.run.proc == None && m'.run.group == -1 && m'.run.reserved == 0
                else m'.run.proc == m.run.proc && m'.run.group == m.run.group && m'.run.reserved == m.run.reserved)
  {
  }

  /** So ticks keep what every reachable entry satisfies. */
  lemma TickKeepsWorldOk(w: World, groups: nat, i: nat, idle: int, ttl: Timers, cpuFree: int, ok: bool)
    requires WorldOk(w, groups) && i < |w|
    ensures WorldOk(w[i := Tick(w[i], idle, ttl, cpuFree, ok)], groups)
  {
    TickKeepsFields(w[i], idle, ttl, cpuFree, ok);
    var w' := w[i := Tick(w[i], idle, ttl, cpuFree, ok)];
    forall j | 0 <= j < |w'|
      ensures && -1 <= w'[j].run.group < groups
              && (w'[j].run.state == Unloaded ==> w'[j].run.proc == None && w'[j].run.group == -1 && w'[j].run.reserved == 0)
              && (Up(w'[j].run.state) ==> w'[j].run.proc.Some? && w'[j].run.group >= 0)
              && (w'[j].cfg.engine == LlamaCpp ==> !Asleep(w'[j].run.state))
              && w'[j].mem.weights >= 0
    {
      assert w[j].run.group >= -1;
    }
  }

  /**
   With room in CPU RAM a tick on a model whose counter is not positive takes one
   rung towards the ideal, and none beyond it; a positive counter stops every tick.
   */
  lemma TickTakesOneRung(m: Model, idle: int, ttl: Timers, cpuFree: int)
    requires Ordered(ttl) && Tickable(m) && m.cfg.engine == VLLM && cpuFree >= m.mem.weights
    ensures var m' := Tick(m, idle, ttl, cpuFree, true);
            && Tickable(m')
            && Depth(m'.run.state) ==
                 (if m.run.active <= 0 && Depth(m.run.state) < IdealDepth(VLLM, idle, ttl) then Depth(m.run.state) + 1
                  else Depth(m.run.state))
  {
  }

  /** A llama_cpp server has no rungs: one tick puts it where the ideal says, unless it is already down. */
  lemma ServerTick(m: Model, idle: int, ttl: Timers, cpuFree: int, ok: bool)
    requires Ordered(ttl) && Tickable(m) && m.cfg.engine == LlamaCpp
    ensures var m' := Tick(m, idle, ttl, cpuFree, ok);
            && Tickable(m') && !Asleep(m'.run.state)
            && (m.run.state == Active && m.run.active <= 0 ==> Depth(m'.run.state) == IdealDepth(LlamaCpp, idle, ttl))
            && (m.run.state == Unloaded || m.run.active > 0 ==> m' == m)
  {
  }

  /**
   A history: ticks, each with the counter it finds; loads and wakes that make the
   model ACTIVE; and completed requests, which restart the idle clock in whatever
   state they find the model.  Between events the counter moves freely.
   */
  datatype Event =
    | TickAt(now: int, active: int, cpuFree: int, ok: bool)
    | ActivatedAt(now: int, pid: Pid)
    | CompletedAt(now: int)

  datatype Clocked = Clocked(m: Model, lastCompleted: int)

  function Counting(m: Model, active: int): Model {
    m.(run := m.run.(active := active))
  }

  function Happens(s: Clocked, e: Event, ttl: Timers): Clocked {
    match e
    case TickAt(now, active, cpuFree, ok) => s.(m := Tick(Counting(s.m, active), now - s.lastCompleted, ttl, cpuFree, ok))
    case ActivatedAt(now, pid) => Clocked(s.m.(run := s.m.run.(state := Active, proc := Some(pid))), now)
    case CompletedAt(now) => s.(lastCompleted := now)
  }

  function History(s: Clocked, es: seq<Event>, ttl: Timers): Clocked
    decreases |es|
  {
    if es == [] then s else History(Happens(s, es[0], ttl), es[1..], ttl)
  }

  /** Time does not run backwards. */
  ghost predicate InTime(es: seq<Event>, from: int) {
    && (forall n | 0 <= n < |es| :: es[n].now >= from)
    && (forall n, p | 0 <= n < p < |es| :: es[n].now <= es[p].now)
  }

  /** Deeper asleep at time `now` than the idle time warrants. */
  predicate TooDeep(s: Clocked, now: int, ttl: Timers) {
    Depth(s.m.run.state) > IdealDepth(s.m.cfg.engine, now - s.lastCompleted, ttl)
  }

  /**
   A tick on an ACTIVE vLLM model with no positive counter, idle between the first
   two timers, whose weights do not fit in CPU RAM, and whose sleep call works.
   */
  predicate ShortTick(s: Clocked, e: Event, ttl: Timers) {
    && e.TickAt? && e.active <= 0 && e.ok && e.cpuFree < s.m.mem.weights
    && s.m.cfg.engine == VLLM && s.m.run.state == Active
    && ttl.active <= e.now - s.lastCompleted < ttl.inactive
  }

  /** A request that completes after its model was put down: one that the counter did not show. */
  predicate LateCompletion(s: Clocked, e: Event) {
    e.CompletedAt? && s.m.run.state != Active
  }

  predicate Slips(s: Clocked, e: Event, ttl: Timers) {
    ShortTick(s, e, ttl) || LateCompletion(s, e)
  }

  /** The number of events before the first one that leaves the model too deep. */
  function UntilTooDeep(s: Clocked, es: seq<Event>, ttl: Timers): (n: nat)
    ensures n <= |es|
    decreases |es|
  {
    if es == [] || TooDeep(Happens(s, es[0], ttl), es[0].now, ttl) then 0
    else 1 + UntilTooDeep(Happens(s, es[0], ttl), es[1..], ttl)
  }

  /** The number of events before the first slip. */
  function UntilSlip(s: Clocked, es: seq<Event>, ttl: Timers): (n: nat)
    ensures n <= |es|
    decreases |es|
  {
    if es == [] || Slips(s, es[0], ttl) then 0
    else 1 + UntilSlip(Happens(s, es[0], ttl), es[1..], ttl)
  }

  lemma TooDeepStep(s: Clocked, e: Event, ttl: Timers, from: int)
    requires Ordered(ttl) && Tickable(s.m) && from <= e.now && !TooDeep(s, from, ttl)
    ensures Tickable(Happens(s, e, ttl).m) && Happens(s, e, ttl).m.cfg == s.m.cfg && Happens(s, e, ttl).m.mem == s.m.mem
    ensures TooDeep(Happens(s, e, ttl), e.now, ttl) <==> Slips(s, e, ttl)
  {
  }

  /**
   Over every history, whatever the counter, the CPU RAM and the outcomes of the
   sleep calls, the first event that leaves the model too deep is the first slip;
   without a slip there is none.
   */
  lemma {:induction false} TooDeepIffSlip(s: Clocked, es: seq<Event>, ttl: Timers, start: int)
    requires Ordered(ttl) && Tickable(s.m) && InTime(es, start) && !TooDeep(s, start, ttl)
    ensures UntilTooDeep(s, es, ttl) == UntilSlip(s, es, ttl)
    decreases |es|
  {
    if es != [] {
      TooDeepStep(s, es[0], ttl, start);
      if !Slips(s, es[0], ttl) {
        assert forall n | 0 <= n < |es[1..]| :: es[1..][n] == es[n + 1];
        TooDeepIffSlip(Happens(s, es[0], ttl), es[1..], ttl, es[0].now);
      }
    }
  }

  /** At the end of every history without a slip the model is at most as deep as its idle time warrants. */
  lemma {:induction false} NeverDeeperThanIdeal(s: Clocked, es: seq<Event>, ttl: Timers, start: int)
    requires Ordered(ttl) && Tickable(s.m) && InTime(es, start) && !TooDeep(s, start, ttl)
    requires UntilSlip(s, es, ttl) == |es|
    ensures var s' := History(s, es, ttl);
            var now := if es == [] then start else es[|es| - 1].now;
            && Tickable(s'.m) && s'.m.cfg == s.m.cfg && !TooDeep(s', now, ttl)
    decreases |es|
  {
    if es != [] {
      TooDeepStep(s, es[0], ttl, start);
      assert forall n | 0 <= n < |es[1..]| :: es[1..][n] == es[n + 1];
      NeverDeeperThanIdeal(Happens(s, es[0], ttl), es[1..], ttl, es[0].now);
    }
  }

  /** CPU RAM is ample at every tick, and no completion comes from a request that the counter did not show. */
  ghost predicate Ample(s: Clocked, es: seq<Event>, ttl: Timers)
    decreases |es|
  {
    es == [] ||
    (&& (es[0].TickAt? ==> es[0].cpuFree >= s.m.mem.weights)
     && !LateCompletion(s, es[0])
     && Ample(Happens(s, es[0], ttl), es[1..], ttl))
  }

  /** With ample CPU RAM there is no slip, whether sleep calls succeed or not. */
  lemma {:induction false} AmpleNeverSlips(s: Clocked, es: seq<Event>, ttl: Timers)
    requires Ample(s, es, ttl)
    ensures UntilSlip(s, es, ttl) == |es|
    decreases |es|
  {
    if es != [] {
      AmpleNeverSlips(Happens(s, es[0], ttl), es[1..], ttl);
    }
  }

  function Min(a: int, b: int): int { if a <= b then a else b }

  /** How many of the ticks find no positive counter. */
  function IdleTicks(es: seq<Event>): nat {
    if es == [] then 0 else (if es[0].TickAt? && es[0].active <= 0 then 1 else 0) + IdleTicks(es[1..])
  }

  /** Ticks while the idle time stays in one band: after `n` idle ones the depth is min(start + n, ideal). */
  lemma {:induction false} TicksCatchUp(s: Clocked, es: seq<Event>, ttl: Timers, ideal: nat)
    requires Ordered(ttl) && Tickable(s.m) && s.m.cfg.engine == VLLM
    requires forall n | 0 <= n < |es| ::
               es[n].TickAt? && es[n].ok && es[n].cpuFree >= s.m.mem.weights
               && IdealDepth(VLLM, es[n].now - s.lastCompleted, ttl) == ideal
    requires Depth(s.m.run.state) <= ideal
    ensures Depth(History(s, es, ttl).m.run.state) == Min(Depth(s.m.run.state) + IdleTicks(es), ideal)
    ensures IdleTicks(es) >= 3 ==> Depth(History(s, es, ttl).m.run.state) == ideal
    decreases |es|
  {
    if es != [] {
      TickTakesOneRung(Counting(s.m, es[0].active), es[0].now - s.lastCompleted, ttl, es[0].cpuFree);
      assert forall n | 0 <= n < |es[1..]| :: es[1..][n] == es[n + 1];
      TicksCatchUp(Happens(s, es[0], ttl), es[1..], ttl, ideal);
    }
  }

  // ---- CPU RAM over runs of uninterrupted ticks and wakes ----

  datatype Op =
    | TickOp(i: nat, idle: int, ok: bool)
    | WakeOp(i: nat, ok: bool)

  datatype Books = Books(w: World, freeCpu: int)

  /** `wakeAndActivate` without interruption. */
  function Wake(m: Model, ok: bool): (Model, int) {
    if m.run.proc == None || !Asleep(m.run.state) || !ok then (m, 0)
    else (m.(run := WakeCommit(m.run, m.run.proc)), WakeCredit(m.run, m.run.proc, m.run.state))
  }

  function Operate(b: Books, op: Op, ttl: seq<Timers>): Books
    requires |ttl| == |b.w|
  {
    if op.i >= |b.w| then b
    else
      var m := b.w[op.i];
      match op
      case TickOp(i, idle, ok) =>
        Books(b.w[i := Tick(m, idle, ttl[i], b.freeCpu, ok)], b.freeCpu + m.mem.weights * TickCredit(m, idle, ttl[i], b.freeCpu, ok))
      case WakeOp(i, ok) =>
        Books(b.w[i := Wake(m, ok).0], b.freeCpu + m.mem.weights * Wake(m, ok).1)
  }

  function OperateAll(b: Books, ops: seq<Op>, ttl: seq<Timers>): (r: Books)
    requires |ttl| == |b.w|
    ensures |r.w| == |b.w|
    decreases |ops|
  {
    if ops == [] then b else OperateAll(Operate(b, ops[0], ttl), ops[1..], ttl)
  }

  ghost predicate Sound(b: Books) {
    && b.freeCpu >= 0
    && forall i | 0 <= i < |b.w| :: b.w[i].mem.weights >= 0 && (Up(b.w[i].run.state) ==> b.w[i].run.proc.Some?)
  }

  function Held(w: World): seq<int> {
    seq(|w|, i requires 0 <= i < |w| => if w[i].run.state == Sleep1 then w[i].mem.weights else 0)
  }

  lemma HeldUpdate(w: World, i: nat, m: Model)
    requires i < |w|
    ensures WeightsHeld(w[i := m]) ==
              WeightsHeld(w) - Held(w)[i] + (if m.run.state == Sleep1 then m.mem.weights else 0)
  {
    var x := if m.run.state == Sleep1 then m.mem.weights else 0;
    assert Held(w[i := m]) == Held(w)[i := x];
    SumUpdate(Held(w), i, x);
    assert WeightsHeld(w) == Sum(Held(w)) && WeightsHeld(w[i := m]) == Sum(Held(w[i := m])) by {
      SeqSumEqual(Held(w), seq(|w|, j requires 0 <= j < |w| => if w[j].run.state == Sleep1 then w[j].mem.weights else 0));
      var w' := w[i := m];
      SeqSumEqual(Held(w'), seq(|w'|, j requires 0 <= j < |w'| => if w'[j].run.state == Sleep1 then w'[j].mem.weights else 0));
    }
  }

  lemma OperationConserves(b: Books, op: Op, ttl: seq<Timers>)
    requires |ttl| == |b.w| && Sound(b)
    ensures var b' := Operate(b, op, ttl);
            Sound(b') && b'.freeCpu + WeightsHeld(b'.w) == b.freeCpu + WeightsHeld(b.w)
  {
    if op.i < |b.w| {
      HeldUpdate(b.w, op.i, Operate(b, op, ttl).w[op.i]);
    }
  }

  /** Over any run of ticks and wakes on any models, counter plus offloaded weights is constant and the counter never negative. */
  lemma {:induction false} CpuRamConserved(b: Books, ops: seq<Op>, ttl: seq<Timers>)
    requires |ttl| == |b.w| && Sound(b)
    ensures var b' := OperateAll(b, ops, ttl);
            Sound(b') && b'.freeCpu >= 0 && b'.freeCpu + WeightsHeld(b'.w) == b.freeCpu + WeightsHeld(b.w)
    decreases |ops|
  {
    if ops != [] {
      OperationConserves(b, ops[0], ttl);
      CpuRamConserved(Operate(b, ops[0], ttl), ops[1..], ttl);
    }
  }
}
