/**
 Concrete runs.  They show that the miscounts named in `Fleet` and `Ledger`
 really occur: a CPU-RAM counter that is too high or too low for ever after, and
 a served model that looks idle.
 */
module Witnesses {
  import opened Lifecycle
  import opened Protocol
  import opened Ledger
  import opened Fleet
  import opened Sums

  /** The steps so far of a model that is alone in its fleet, and where they led. */
  datatype Trace = Trace(ss: seq<Step>, e: Entry, free: int)

  function Alone(k: Params): seq<Member> {
    [Member(k, 0)]
  }

  ghost predicate Reached(k: Params, cpu: int, t: Trace) {
    && (forall n | 0 <= n < |t.ss| :: t.ss[n].By? && t.ss[n].i == 0)
    && ValidSteps(Alone(k), Start(Alone(k), cpu), t.ss)
    && DoAll(Alone(k), Start(Alone(k), cpu), t.ss) == State([t.e], map[], t.free)
  }

  lemma {:induction false} OneMoreStep(cfg: seq<Member>, f: State, ss: seq<Step>, s: Step)
    requires ValidSteps(cfg, f, ss) && Can(cfg, DoAll(cfg, f, ss), s)
    ensures ValidSteps(cfg, f, ss + [s]) && DoAll(cfg, f, ss + [s]) == Do(cfg, DoAll(cfg, f, ss), s)
    decreases |ss|
  {
    if ss == [] {
      assert ss + [s] == [s] && [s][1..] == [];
      assert DoAll(cfg, Do(cfg, f, s), []) == Do(cfg, f, s);
    } else {
      assert (ss + [s])[1..] == ss[1..] + [s];
      OneMoreStep(cfg, Do(cfg, f, ss[0]), ss[1..], s);
    }
  }

  lemma Begin(k: Params, cpu: int) returns (t: Trace)
    ensures t == Trace([], INITIAL, cpu) && Reached(k, cpu, t)
  {
    t := Trace([], INITIAL, cpu);
    assert Start(Alone(k), cpu).entries == [INITIAL];
  }

  /** A step that does not look at siblings is unconstrained when the model is alone. */
  lemma StepsAlone(k: Params, e: Entry, free: int, a: Act)
    requires !k.replicated && Enabled(k, e, a)
    requires !(a.Loader? && (a.loader.ReadSibling? || a.loader.EndReading?))
    requires a.Tick? && a.tick.TtlReadCpu? ==> a.tick.free == free
    ensures var f, e' := State([e], map[], free), Apply(k, e, a);
            && Can(Alone(k), f, By(0, a))
            && Do(Alone(k), f, By(0, a)) == State([e'], map[], free + k.weights * (e'.credit - e.credit))
  {
    hide Apply, Enabled;
    assert [e][0 := Apply(k, e, a)] == [Apply(k, e, a)];
  }

  lemma Go(k: Params, cpu: int, t: Trace, a: Act) returns (t': Trace)
    requires Reached(k, cpu, t) && !k.replicated && Enabled(k, t.e, a)
    requires !(a.Loader? && (a.loader.ReadSibling? || a.loader.EndReading?))
    requires a.Tick? && a.tick.TtlReadCpu? ==> a.tick.free == t.free
    ensures Reached(k, cpu, t')
    ensures var e' := Apply(k, t.e, a);
            t' == Trace(t.ss + [By(0, a)], e', t.free + k.weights * (e'.credit - t.e.credit))
  {
    var e' := Apply(k, t.e, a);
    t' := Trace(t.ss + [By(0, a)], e', t.free + k.weights * (e'.credit - t.e.credit));
    hide Apply, Enabled, Can, Do, ValidSteps, DoAll;
    StepsAlone(k, t.e, t.free, a);
    OneMoreStep(Alone(k), Start(Alone(k), cpu), t.ss, By(0, a));
  }

  lemma GoClient(k: Params, cpu: int, t: Trace, r: Tid, a: ClientAct) returns (t': Trace)
    requires Reached(k, cpu, t) && !k.replicated && ClientEnabled(t.e, r, a)
    ensures Reached(k, cpu, t') && t'.e == ApplyClient(k, t.e, r, a) && t'.free == t.free && t'.ss == t.ss + [By(0, Client(r, a))]
  {
    hide Reached;
    t' := Go(k, cpu, t, Client(r, a));
  }

  lemma GoLoader(k: Params, cpu: int, t: Trace, r: Tid, a: LoaderAct) returns (t': Trace)
    requires Reached(k, cpu, t) && !k.replicated && LoaderEnabled(t.e, r, a) && !a.ReadSibling? && !a.EndReading?
    ensures Reached(k, cpu, t') && t'.e == ApplyLoader(k, t.e, r, a) && t'.free == t.free
  {
    hide Reached;
    t' := Go(k, cpu, t, Loader(r, a));
  }

  lemma GoDrain(k: Params, cpu: int, t: Trace, r: Tid, a: DrainAct) returns (t': Trace)
    requires Reached(k, cpu, t) && !k.replicated && DrainEnabled(t.e, r, a)
    ensures Reached(k, cpu, t') && t'.e == ApplyDrain(t.e, r, a) && t'.free == t.free && t'.ss == t.ss + [By(0, Drain(r, a))]
  {
    hide Reached;
    t' := Go(k, cpu, t, Drain(r, a));
  }

  lemma GoTick(k: Params, cpu: int, t: Trace, r: Tid, a: TickAct) returns (t': Trace)
    requires Reached(k, cpu, t) && !k.replicated && TickEnabled(k, t.e, r, a) && (a.TtlReadCpu? ==> a.free == t.free)
    ensures Reached(k, cpu, t') && t'.e == ApplyTick(k, t.e, r, a) && t'.free == t.free
  {
    hide Reached;
    t' := Go(k, cpu, t, Tick(r, a));
  }

  lemma GoDone(k: Params, cpu: int, t: Trace, r: Tid, a: DoneAct) returns (t': Trace)
    requires Reached(k, cpu, t) && !k.replicated && DoneEnabled(t.e, r, a)
    ensures Reached(k, cpu, t') && t'.e == ApplyDone(t.e, r, a)
    ensures t'.free == t.free + k.weights * (t'.e.credit - t.e.credit)
  {
    hide Reached;
    t' := Go(k, cpu, t, Done(r, a));
  }

  /** A serving entry with no request in the building; request 1 has come and gone. */
  const RESTING := Entry(
    Core(Active, Some(0), 0, 0, 10), [], map[1 := Finished, 9 := Watching(0)],
    map[1 := Req(Http, 1, false, false, false, true, true)], 1, [1], [1], map[], 0, 0, 0)

  lemma LoadFor(k: Params, cpu: int) returns (t: Trace)
    requires !k.replicated && !k.pinned && k.depth > 0
    ensures Reached(k, cpu, t) && t.free == cpu
    ensures t.e == Entry(
              Core(Active, Some(0), 0, 0, 10), [1], map[1 := Draining(Nothing), 9 := Watching(0)],
              map[1 := Req(Http, 0, false, false, false, false, false)], 1, [1], [], map[], 0, 0, 0)
  {
    hide Reached;
    t := Begin(k, cpu);
    t := GoClient(k, cpu, t, 1, Submit(Http));
    t := GoClient(k, cpu, t, 1, Enter);
    t := GoClient(k, cpu, t, 1, Enqueue);
    t := GoClient(k, cpu, t, 1, Observe);
    t := GoClient(k, cpu, t, 1, Claim);
    t := GoLoader(k, cpu, t, 1, BeginAssign);
    t := GoLoader(k, cpu, t, 1, AssignOk(0, 10));
    t := GoLoader(k, cpu, t, 1, LaunchOk);
    t := GoLoader(k, cpu, t, 1, HealthOk(9, None));
    assert t.e.pcs == map[1 := Draining(Nothing), 9 := Watching(0)];
  }

  lemma ReleaseIt(k: Params, cpu: int) returns (t: Trace)
    requires !k.replicated && !k.pinned && k.depth > 0
    ensures Reached(k, cpu, t) && t.free == cpu
    ensures t.e == Entry(
              Core(Active, Some(0), 1, 0, 10), [], map[1 := Draining(Nothing), 9 := Watching(0)],
              map[1 := Req(Http, 1, false, false, false, true, false)], 1, [1], [1], map[], 0, 0, 0)
  {
    hide Reached;
    t := LoadFor(k, cpu);
    t := GoDrain(k, cpu, t, 1, Pop);
    t := GoDrain(k, cpu, t, 1, Mark);
    t := GoDrain(k, cpu, t, 1, Close);
    assert t.e.pcs == map[1 := Draining(Nothing), 9 := Watching(0)] && t.e.hands == map[];
  }

  lemma LoadAndServe(k: Params, cpu: int) returns (t: Trace)
    requires !k.replicated && !k.pinned && k.depth > 0
    ensures Reached(k, cpu, t) && t.free == cpu && t.e == RESTING
  {
    hide Reached;
    t := ReleaseIt(k, cpu);
    t := GoDrain(k, cpu, t, 1, DrainEnd);
    t := GoClient(k, cpu, t, 1, SeeDone);
    t := GoClient(k, cpu, t, 1, Complete);
    assert t.e.pcs == RESTING.pcs && t.e.reqs == RESTING.reqs;
  }

  /** Then a tick offloads the weights: the counter is charged. */
  lemma OffloadIt(k: Params, cpu: int) returns (t: Trace)
    requires !k.replicated && !k.pinned && k.depth > 0 && k.engine == VLLM && cpu >= k.weights
    ensures Reached(k, cpu, t) && t.free == cpu - k.weights
    ensures t.e == RESTING.(core := RESTING.core.(state := Sleep1), pcs := RESTING.pcs[10 := Finished], credit := -1)
  {
    hide Reached;
    t := LoadAndServe(k, cpu);
    t := GoTick(k, cpu, t, 10, TtlRead);
    t := GoTick(k, cpu, t, 10, TtlReadCpu(cpu));
    t := GoTick(k, cpu, t, 10, TtlCapture);
    t := GoDone(k, cpu, t, 10, SleepDone(true));
    assert t.e.pcs == RESTING.pcs[10 := Finished];
  }

  // ---- one more request ----

  const ARRIVED := Req(Http, 0, false, false, false, false, false)

  lemma Submits(k: Params, e: Entry, r: Tid)
    requires r !in e.pcs && r !in e.reqs
    ensures ClientEnabled(e, r, Submit(Http))
    ensures ApplyClient(k, e, r, Submit(Http)) == e.(pcs := e.pcs[r := Entering], reqs := e.reqs[r := ARRIVED])
  {
  }

  lemma Enters(k: Params, e: Entry, r: Tid)
    requires At(e, r, Entering) && r in e.reqs && e.reqs[r] == ARRIVED
    ensures ClientEnabled(e, r, Enter)
    ensures ApplyClient(k, e, r, Enter) ==
              if e.core.state == Active then e.(pcs := e.pcs[r := AtDoor], reqs := e.reqs[r := ARRIVED.(closes := 1, fast := true)])
              else e.(pcs := e.pcs[r := Enqueuing])
  {
  }

  lemma Enqueues(k: Params, e: Entry, r: Tid)
    requires At(e, r, Enqueuing) && r in e.reqs && |e.queue| < k.depth
    ensures ClientEnabled(e, r, Enqueue)
    ensures ApplyClient(k, e, r, Enqueue) ==
              e.(pcs := e.pcs[r := Observing], queue := e.queue + [r], enqueued := e.enqueued + [r])
  {
  }

  lemma Observes(k: Params, e: Entry, r: Tid)
    requires At(e, r, Observing)
    ensures ClientEnabled(e, r, Observe)
    ensures ApplyClient(k, e, r, Observe) == e.(pcs := e.pcs[r := Observed(e)])
  {
  }

  lemma SeesDone(k: Params, e: Entry, r: Tid)
    requires At(e, r, AtDoor) && r in e.reqs && e.reqs[r].closes > 0 && !e.reqs[r].err && e.reqs[r].kind == Http
    ensures ClientEnabled(e, r, SeeDone)
    ensures ApplyClient(k, e, r, SeeDone) == e.(pcs := e.pcs[r := Forwarding])
  {
  }

  /** Request `r` arrives at the sleeping model and starts a wake call. */
  lemma StartWake(k: Params, cpu: int, t0: Trace, r: Tid) returns (t: Trace)
    requires Reached(k, cpu, t0) && !k.replicated && r !in t0.e.pcs && r !in t0.e.reqs
    requires t0.e.core.state == Sleep1 && |t0.e.queue| < k.depth
    ensures Reached(k, cpu, t) && t.free == t0.free
    ensures At(t.e, r, Waking(t0.e.core.proc, Sleep1)) && t.e.pcs == t0.e.pcs[r := Waking(t0.e.core.proc, Sleep1)]
    ensures t.e.core == t0.e.core && t.e.credit == t0.e.credit && t.e.doubled == t0.e.doubled && t.e.lost == t0.e.lost
    ensures t.e.reqs == t0.e.reqs[r := ARRIVED] && t.e.queue == t0.e.queue + [r]
  {
    hide Reached, ApplyClient, ClientEnabled;
    Submits(k, t0.e, r);
    t := GoClient(k, cpu, t0, r, Submit(Http));
    Enters(k, t.e, r);
    t := GoClient(k, cpu, t, r, Enter);
    Enqueues(k, t.e, r);
    t := GoClient(k, cpu, t, r, Enqueue);
    Observes(k, t.e, r);
    t := GoClient(k, cpu, t, r, Observe);
  }

  lemma HoldsNothing(k: Params, f: State)
    requires |f.entries| == 1 && f.entries[0].core.state != Sleep1
    ensures Offloaded(Alone(k), f) == 0
  {
    var cfg := Alone(k);
    assert seq(|cfg|, i requires 0 <= i < |cfg| => Held(cfg[i], f.entries[i])) == [0];
    assert Sum([0]) == 0;
  }

  /** The trace as a run, and the counter's balance at its end. */
  lemma Balance(k: Params, cpu: int, t: Trace)
    requires Reached(k, cpu, t) && t.e.core.state != Sleep1
    ensures ValidSteps(Alone(k), Start(Alone(k), cpu), t.ss) && NoRefresh(t.ss)
    ensures var f := DoAll(Alone(k), Start(Alone(k), cpu), t.ss);
            && f == State([t.e], map[], t.free)
            && Offloaded(Alone(k), f) == 0 == Offloaded(Alone(k), Start(Alone(k), cpu))
  {
    hide ValidSteps, DoAll;
    HoldsNothing(k, State([t.e], map[], t.free));
    HoldsNothing(k, Start(Alone(k), cpu));
  }

  lemma WakeTwice(k: Params, cpu: int) returns (t: Trace)
    requires !k.replicated && !k.pinned && k.depth >= 2 && k.engine == VLLM && cpu >= k.weights
    ensures Reached(k, cpu, t) && t.free == cpu + k.weights
    ensures t.e.doubled == 1 && t.e.lost == 0 && t.e.core.state == Active
  {
    hide Reached, ApplyClient;
    t := OffloadIt(k, cpu);
    t := StartWake(k, cpu, t, 2);
    t := StartWake(k, cpu, t, 3);
    assert At(t.e, 2, Waking(Some(0), Sleep1)) && At(t.e, 3, Waking(Some(0), Sleep1));
    t := GoDone(k, cpu, t, 2, WakeDone(true));
    assert t.e.core.state == Active && t.free == cpu;
    t := GoDone(k, cpu, t, 3, WakeDone(true));
  }

  /**
   Two requests that find the same model in SLEEP1 both wake it, and both credit
   its weights: the counter ends too high by the weights, whatever they are.
   */
  lemma OverlappingWakesCreditTwice(k: Params, cpu: int) returns (ss: seq<Step>)
    requires !k.replicated && !k.pinned && k.depth >= 2 && k.engine == VLLM && cpu >= k.weights
    ensures ValidSteps(Alone(k), Start(Alone(k), cpu), ss) && NoRefresh(ss)
    ensures var f := DoAll(Alone(k), Start(Alone(k), cpu), ss);
            && |f.entries| == 1 && f.entries[0].doubled == 1 && f.entries[0].lost == 0 && f.entries[0].core.state == Active
            && f.freeCpu + Offloaded(Alone(k), f) == cpu + Offloaded(Alone(k), Start(Alone(k), cpu)) + k.weights
  {
    hide Reached, Offloaded, ValidSteps, DoAll;
    var t := WakeTwice(k, cpu);
    ss := t.ss;
    Balance(k, cpu, t);
  }

  /** A process that dies in SLEEP1 frees its CPU RAM without a credit: the counter ends too low by the weights. */
  lemma CrashInSleep1CreditsNothing(k: Params, cpu: int) returns (ss: seq<Step>)
    requires !k.replicated && !k.pinned && k.depth > 0 && k.engine == VLLM && cpu >= k.weights
    ensures ValidSteps(Alone(k), Start(Alone(k), cpu), ss) && NoRefresh(ss)
    ensures var f := DoAll(Alone(k), Start(Alone(k), cpu), ss);
            && |f.entries| == 1 && f.entries[0].doubled == 0 && f.entries[0].lost == 1 && f.entries[0].core.state == Unloaded
            && f.freeCpu + Offloaded(Alone(k), f) == cpu + Offloaded(Alone(k), Start(Alone(k), cpu)) - k.weights
  {
    hide Reached, Offloaded, ValidSteps, DoAll;
    var t := OffloadIt(k, cpu);
    t := GoDone(k, cpu, t, 9, Crash);
    ss := t.ss;
    Balance(k, cpu, t);
  }

  // ---- a served model that looks idle ----

  function ActsOf(ss: seq<Step>): (acts: seq<Act>)
    requires forall n | 0 <= n < |ss| :: ss[n].By?
    ensures |acts| == |ss|
  {
    seq(|ss|, n requires 0 <= n < |ss| => ss[n].act)
  }

  /** The fleet's run as a run of its only entry. */
  lemma {:induction false} RunOfOne(k: Params, f: State, ss: seq<Step>)
    requires |f.entries| == 1 && ValidSteps(Alone(k), f, ss) && forall n | 0 <= n < |ss| :: ss[n].By? && ss[n].i == 0
    ensures ValidRun(k, f.entries[0], ActsOf(ss))
    ensures DoAll(Alone(k), f, ss).entries == [Exec(k, f.entries[0], ActsOf(ss))]
    decreases |ss|
  {
    if ss != [] {
      assert ss[0].By? && ss[0].i == 0;
      assert ActsOf(ss)[1..] == ActsOf(ss[1..]);
      RunOfOne(k, Do(Alone(k), f, ss[0]), ss[1..]);
    }
  }

  lemma ServeFast(k: Params) returns (t: Trace)
    requires !k.replicated && !k.pinned && k.depth > 0
    ensures Reached(k, 0, t) && t.e.core == RESTING.core && At(t.e, 2, Forwarding)
    ensures Served(t.e) == {2} == FastInFlight(t.e) && Leaked(t.e) == {} == FastCompleted(t.e)
  {
    hide Reached, Served, FastInFlight, Leaked, FastCompleted, ApplyClient, ClientEnabled;
    t := LoadAndServe(k, 0);
    Submits(k, t.e, 2);
    t := GoClient(k, 0, t, 2, Submit(Http));
    Enters(k, t.e, 2);
    t := GoClient(k, 0, t, 2, Enter);
    SeesDone(k, t.e, 2);
    t := GoClient(k, 0, t, 2, SeeDone);
    assert t.e.reqs == RESTING.reqs[2 := ARRIVED.(closes := 1, fast := true)];
    assert t.e.pcs == RESTING.pcs[2 := Forwarding];
    TwoRecords(t.e);
  }

  lemma TwoRecords(e: Entry)
    requires e.reqs == RESTING.reqs[2 := ARRIVED.(closes := 1, fast := true)] && e.pcs == RESTING.pcs[2 := Forwarding]
    ensures Served(e) == {2} == FastInFlight(e) && Leaked(e) == {} == FastCompleted(e)
  {
    assert e.reqs.Keys == {1, 2};
  }

  /**
   One request has been served and completed; the next finds the model ACTIVE and
   is being forwarded.  The counter is zero, so every idleness test passes, and
   an llama_cpp server in this state may be killed under the request.
   */
  lemma ServedLooksIdle(k: Params) returns (acts: seq<Act>)
    requires !k.replicated && !k.pinned && k.depth > 0
    ensures ValidRun(k, INITIAL, acts)
    ensures var e := Exec(k, INITIAL, acts);
            && e.core.state == Active && e.core.active == 0 && At(e, 2, Forwarding) && Served(e) == {2}
            && |Leaked(e)| == |FastCompleted(e)| && |FastInFlight(e)| == 1
            && (k.engine == LlamaCpp ==> EvictEnabled(k, e.core, EvictKill))
  {
    var t := ServeFast(k);
    hide Served, FastInFlight, Leaked, FastCompleted;
    acts := ActsOf(t.ss);
    RunOfOne(k, Start(Alone(k), 0), t.ss);
    assert Exec(k, INITIAL, acts) == t.e;
  }

  // ---- refused for a failure that came before the request ----

  /** The refusing goroutine `u` answers the request at the head of the queue. */
  lemma RefuseHead(k: Params, cpu: int, t0: Trace, u: Tid) returns (t: Trace)
    requires Reached(k, cpu, t0) && !k.replicated && At(t0.e, u, Refusing(Nothing))
    requires t0.e.queue != [] && t0.e.queue[0] in t0.e.reqs && t0.e.reqs[t0.e.queue[0]].closes == 0
    ensures Reached(k, cpu, t) && t.ss == t0.ss + [By(0, Drain(u, Pop)), By(0, Drain(u, Mark)), By(0, Drain(u, Close))]
    ensures var r := t0.e.queue[0];
            && t.e.queue == t0.e.queue[1..] && At(t.e, u, Refusing(Nothing))
            && t.e.reqs == t0.e.reqs[r := t0.e.reqs[r].(err := true, closes := 1)]
  {
    hide Reached;
    var r := t0.e.queue[0];
    t := GoDrain(k, cpu, t0, u, Pop);
    t := GoDrain(k, cpu, t, u, Mark);
    t := GoDrain(k, cpu, t, u, Close);
    assert t.e.reqs == t0.e.reqs[r := t0.e.reqs[r].(err := true, closes := 1)];
  }

  lemma FailedWake(k: Params, cpu: int) returns (t: Trace)
    requires !k.replicated && !k.pinned && k.depth >= 2 && k.engine == VLLM && cpu >= k.weights
    ensures Reached(k, cpu, t) && At(t.e, 2, Refusing(Nothing)) && t.e.queue == [2]
    ensures t.e.core.state == Sleep1 && t.e.reqs.Keys == {1, 2} && t.e.reqs[2] == ARRIVED && 3 !in t.e.pcs
  {
    hide Reached, ApplyClient;
    var t0 := OffloadIt(k, cpu);
    t := StartWake(k, cpu, t0, 2);
    assert t.e.core.proc == Some(0);
    t := GoDone(k, cpu, t, 2, WakeDone(false));
  }

  /**
   A request may be refused although no load, wake or wait has failed since it was
   sent: the goroutine that failed before is still emptying the queue.
   */
  lemma RefusedForEarlierFailure(k: Params) returns (acts: seq<Act>, n: nat)
    requires !k.replicated && !k.pinned && k.depth >= 2 && k.engine == VLLM
    ensures ValidRun(k, INITIAL, acts) && n < |acts| && acts[n] == Client(3, Submit(Http))
    ensures forall m | n <= m < |acts| ::
              acts[m].Drain? || (acts[m].Client? && (acts[m].client.Submit? || acts[m].client.Enter? || acts[m].client.Enqueue?))
    ensures var e := Exec(k, INITIAL, acts); 3 in e.reqs && e.reqs[3].err && e.reqs[3].closes == 1
  {
    hide Reached, ApplyClient, ClientEnabled;
    var cpu := k.weights;
    var t0 := FailedWake(k, cpu);
    n := |t0.ss|;
    Submits(k, t0.e, 3);
    var t := GoClient(k, cpu, t0, 3, Submit(Http));
    Enters(k, t.e, 3);
    t := GoClient(k, cpu, t, 3, Enter);
    Enqueues(k, t.e, 3);
    t := GoClient(k, cpu, t, 3, Enqueue);
    t := RefuseHead(k, cpu, t, 2);
    t := RefuseHead(k, cpu, t, 2);
    acts := AsRun(k, cpu, t);
  }

  /** A trace as a run of its entry. */
  lemma AsRun(k: Params, cpu: int, t: Trace) returns (acts: seq<Act>)
    requires Reached(k, cpu, t)
    ensures ValidRun(k, INITIAL, acts) && Exec(k, INITIAL, acts) == t.e && |acts| == |t.ss|
    ensures forall m | 0 <= m < |acts| :: t.ss[m].By? && acts[m] == t.ss[m].act
  {
    acts := ActsOf(t.ss);
    RunOfOne(k, Start(Alone(k), cpu), t.ss);
  }
}
