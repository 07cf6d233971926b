/**
 What `activeRequests` really counts.  The TTL ticker and the eviction rules
 read it as the number of requests being served; these lemmas say exactly when
 that reading is right.
 */
module Ledger {
  import opened Lifecycle
  import opened Protocol
  import opened Requests

  /** Requests for which a drain loop incremented the counter. */
  ghost function Counted(e: Entry): set<Tid> {
    set r | r in e.reqs && e.reqs[r].counted
  }

  /** Requests for which completeRequest decremented it. */
  ghost function Completed(e: Entry): set<Tid> {
    set r | r in e.reqs && e.reqs[r].completed
  }

  ghost predicate IsGone(e: Entry, r: Tid) {
    r in e.pcs && e.pcs[r].Finished?
  }

  /** Released by a drain loop and still on its way. */
  ghost function InFlight(e: Entry): set<Tid> {
    set r | r in e.reqs && e.reqs[r].counted && !IsGone(e, r)
  }

  /** Released by a drain loop and gone without completeRequest: startup loads and cancelled clients. */
  ghost function Leaked(e: Entry): set<Tid> {
    set r | r in e.reqs && e.reqs[r].counted && IsGone(e, r) && !e.reqs[r].completed
  }

  /** Released on the ACTIVE fast path, which does not increment, and completed, which decrements. */
  ghost function FastCompleted(e: Entry): set<Tid> {
    set r | r in e.reqs && e.reqs[r].fast && e.reqs[r].completed
  }

  ghost predicate Balanced(e: Entry) {
    e.core.active == |Counted(e)| - |Completed(e)|
  }

  /** Records change only where `RecordStep` says, so both sets grow by at most the stepping request. */
  lemma SameRecordsSameSets(e: Entry, e': Entry, r: Tid)
    requires forall q | q in e.reqs && q != r :: q in e'.reqs && e'.reqs[q] == e.reqs[q]
    requires forall q | q in e'.reqs && q != r :: q in e.reqs
    ensures Counted(e') - {r} == Counted(e) - {r} && Completed(e') - {r} == Completed(e) - {r}
  {
    forall q ensures q in Counted(e') - {r} <==> q in Counted(e) - {r} {
      if q != r && q in e.reqs { assert e'.reqs[q] == e.reqs[q]; }
    }
    forall q ensures q in Completed(e') - {r} <==> q in Completed(e) - {r} {
      if q != r && q in e.reqs { assert e'.reqs[q] == e.reqs[q]; }
    }
  }

  lemma SizeFromRest(s: set<Tid>, s': set<Tid>, r: Tid)
    requires s' - {r} == s - {r}
    ensures |s'| - |s| == One(r in s') - One(r in s)
  {
    assert s' == (s' - {r}) + (if r in s' then {r} else {});
    assert s == (s - {r}) + (if r in s then {r} else {});
  }

  /** The request whose record a step may change. */
  function Subject(e: Entry, a: Act): Tid {
    if a.Drain? && a.t in e.pcs && Busy(e.pcs[a.t]) then HoldOf(e.pcs[a.t]).r
    else if a.Evict? then 0
    else a.t
  }

  lemma OthersKeepRecords(k: Params, e: Entry, a: Act)
    requires Enabled(k, e, a)
    ensures var e', r := Apply(k, e, a), Subject(e, a);
            && (forall q | q in e.reqs && q != r :: q in e'.reqs && e'.reqs[q] == e.reqs[q])
            && (forall q | q in e'.reqs && q != r :: q in e.reqs)
  {
    match a
    case Client(t, act) => ClientKeepsOtherRecords(k, e, t, act);
    case Loader(t, act) =>
    case Drain(t, act) =>
    case Tick(t, act) =>
    case Done(t, act) =>
    case Evict(act) =>
  }

  lemma ClientKeepsOtherRecords(k: Params, e: Entry, t: Tid, a: ClientAct)
    requires ClientEnabled(e, t, a)
    ensures var e' := ApplyClient(k, e, t, a);
            t in e'.reqs || t !in e.reqs
    ensures var e' := ApplyClient(k, e, t, a);
            && (forall q | q in e.reqs && q != t :: q in e'.reqs && e'.reqs[q] == e.reqs[q])
            && (forall q | q in e'.reqs && q != t :: q in e.reqs)
  {
  }

  /** How the counter moves against the record of the step's subject. */
  lemma CounterStep(k: Params, e: Entry, a: Act)
    requires Orderly(k, e) && Enabled(k, e, a)
    ensures var e', r := Apply(k, e, a), Subject(e, a);
            e'.core.active - e.core.active
              == One(r in Counted(e')) - One(r in Counted(e)) - One(r in Completed(e')) + One(r in Completed(e))
  {
    var r := Subject(e, a);
    if r in e.reqs { assert ReqAgrees(e, r); }
    if a.Drain? && Busy(e.pcs[a.t]) {
      assert r in e.hands && MarkOk(e.pcs[a.t], e.reqs[r]);
    }
    CounterShape(k, e, a);
  }

  lemma CounterShape(k: Params, e: Entry, a: Act)
    requires Enabled(k, e, a)
    requires var r := Subject(e, a); r in e.reqs ==> ReqAgrees(e, r)
    requires a.Drain? && Busy(e.pcs[a.t]) ==> var r := Subject(e, a); r in e.reqs && MarkOk(e.pcs[a.t], e.reqs[r])
    ensures var e', r := Apply(k, e, a), Subject(e, a);
            e'.core.active - e.core.active
              == One(r in e'.reqs && e'.reqs[r].counted) - One(r in e.reqs && e.reqs[r].counted)
                 - One(r in e'.reqs && e'.reqs[r].completed) + One(r in e.reqs && e.reqs[r].completed)
  {
    match a
    case Client(t, act) => ClientCounter(k, e, t, act);
    case Loader(t, act) =>
    case Drain(t, act) =>
    case Tick(t, act) =>
    case Done(t, act) =>
    case Evict(act) =>
  }

  lemma ClientCounter(k: Params, e: Entry, t: Tid, a: ClientAct)
    requires ClientEnabled(e, t, a) && (t in e.reqs ==> ReqAgrees(e, t))
    ensures var e' := ApplyClient(k, e, t, a);
            e'.core.active - e.core.active
              == One(t in e'.reqs && e'.reqs[t].counted) - One(t in e.reqs && e.reqs[t].counted)
                 - One(t in e'.reqs && e'.reqs[t].completed) + One(t in e.reqs && e.reqs[t].completed)
  {
  }

  lemma StepKeepsBalance(k: Params, e: Entry, a: Act)
    requires Orderly(k, e) && Balanced(e) && Enabled(k, e, a)
    ensures Balanced(Apply(k, e, a))
  {
    var e', r := Apply(k, e, a), Subject(e, a);
    OthersKeepRecords(k, e, a);
    SameRecordsSameSets(e, e', r);
    SizeFromRest(Counted(e), Counted(e'), r);
    SizeFromRest(Completed(e), Completed(e'), r);
    CounterStep(k, e, a);
  }

  lemma {:induction false} RunKeepsBalance(k: Params, e: Entry, acts: seq<Act>)
    requires Orderly(k, e) && Balanced(e) && ValidRun(k, e, acts)
    ensures Balanced(Exec(k, e, acts))
    decreases |acts|
  {
    if acts != [] {
      StepKeepsBalance(k, e, acts[0]);
      StepKeepsOrder(k, e, acts[0]);
      RunKeepsBalance(k, Apply(k, e, acts[0]), acts[1..]);
    }
  }

  ghost predicate AllRecordFacts(e: Entry) {
    forall r | r in e.reqs :: RecordFacts(e, r)
  }

  ghost predicate RecordFacts(e: Entry, r: Tid)
    requires r in e.reqs
  {
    var q := e.reqs[r];
    && (q.completed ==> IsGone(e, r) && (q.counted || q.fast))
    && !(q.fast && q.counted)
  }

  lemma CountedSplits(e: Entry)
    requires AllRecordFacts(e)
    ensures Counted(e) == InFlight(e) + Leaked(e) + Counted(e) * Completed(e)
    ensures InFlight(e) !! Leaked(e) && (InFlight(e) + Leaked(e)) !! Completed(e)
  {
  }

  lemma CompletedSplits(e: Entry)
    requires AllRecordFacts(e)
    ensures Completed(e) == FastCompleted(e) + Counted(e) * Completed(e) && FastCompleted(e) !! Counted(e)
  {
  }

  /** Counted requests are in flight, leaked or completed; completed requests were counted or fast. */
  lemma Partition(e: Entry)
    requires AllRecordFacts(e)
    ensures |Counted(e)| - |Completed(e)| == |InFlight(e)| + |Leaked(e)| - |FastCompleted(e)|
  {
    var both := Counted(e) * Completed(e);
    CountedSplits(e);
    CompletedSplits(e);
    hide Counted, Completed, InFlight, Leaked, FastCompleted;
    assert |InFlight(e) + Leaked(e) + both| == |InFlight(e)| + |Leaked(e)| + |both|;
    assert |FastCompleted(e) + both| == |FastCompleted(e)| + |both|;
  }

  lemma ReachableRecords(k: Params, acts: seq<Act>)
    requires ValidRun(k, INITIAL, acts)
    ensures AllRecordFacts(Exec(k, INITIAL, acts))
  {
    InitiallyOrderly(k);
    RunKeepsOrder(k, INITIAL, acts);
    var e := Exec(k, INITIAL, acts);
    forall r | r in e.reqs ensures RecordFacts(e, r) {
      assert ReqAgrees(e, r);
    }
  }

  /** The exact value of `activeRequests` in every reachable state. */
  lemma ActiveRequestsLedger(k: Params, acts: seq<Act>)
    requires ValidRun(k, INITIAL, acts)
    ensures var e := Exec(k, INITIAL, acts);
            e.core.active == |InFlight(e)| + |Leaked(e)| - |FastCompleted(e)|
  {
    ReachableRecords(k, acts);
    Partition(Exec(k, INITIAL, acts));
    InitiallyOrderly(k);
    assert Counted(INITIAL) == {} && Completed(INITIAL) == {};
    RunKeepsBalance(k, INITIAL, acts);
  }

  // ---- the counter against the requests that are really being served ----

  /** HTTP requests that were let through and whose handler has not ended, on the fast path or not. */
  ghost function Served(e: Entry): set<Tid> {
    set r | r in e.reqs && (e.reqs[r].counted || e.reqs[r].fast) && !IsGone(e, r) && e.reqs[r].kind == Http
  }

  /** Those of them that came through the ACTIVE fast path. */
  ghost function FastInFlight(e: Entry): set<Tid> {
    set r | r in e.reqs && e.reqs[r].fast && !IsGone(e, r) && e.reqs[r].kind == Http
  }

  /** Startup loads that were counted and have not ended; nothing is served for them. */
  ghost function StartupWaiting(e: Entry): set<Tid> {
    set r | r in e.reqs && e.reqs[r].counted && !IsGone(e, r) && e.reqs[r].kind == Startup
  }

  lemma ServedSplits(e: Entry)
    requires AllRecordFacts(e)
    ensures |Served(e)| + |StartupWaiting(e)| == |InFlight(e)| + |FastInFlight(e)|
  {
    assert Served(e) + StartupWaiting(e) == InFlight(e) + FastInFlight(e);
    assert Served(e) !! StartupWaiting(e);
    assert InFlight(e) !! FastInFlight(e);
    hide *;
    assert |Served(e) + StartupWaiting(e)| == |Served(e)| + |StartupWaiting(e)|;
    assert |InFlight(e) + FastInFlight(e)| == |InFlight(e)| + |FastInFlight(e)|;
  }

  /** The counter is the number of requests being served exactly when what it counts too often and what it misses cancel. */
  lemma CounterIsRightIff(k: Params, acts: seq<Act>)
    requires ValidRun(k, INITIAL, acts)
    ensures var e := Exec(k, INITIAL, acts);
            && e.core.active == |Served(e)| + |StartupWaiting(e)| + |Leaked(e)| - |FastInFlight(e)| - |FastCompleted(e)|
            && (e.core.active == |Served(e)| <==>
                  |Leaked(e)| + |StartupWaiting(e)| == |FastCompleted(e)| + |FastInFlight(e)|)
  {
    ActiveRequestsLedger(k, acts);
    ReachableRecords(k, acts);
    ServedSplits(Exec(k, INITIAL, acts));
  }

  /**
   When the two idleness tests are right.  Candidates of the eviction rules are
   tested by `active == 0`, ticks and llama_cpp kills by `active <= 0`.  A served
   entry passes the first exactly when fast-path completions balance the counted
   requests that did not complete, the second when they reach them.  An entry
   that serves nobody fails the first exactly when leaks and waiting startup
   loads differ from fast-path completions, the second when they exceed them.
   */
  lemma IdleTestIsRightIff(k: Params, acts: seq<Act>)
    requires ValidRun(k, INITIAL, acts)
    ensures var e := Exec(k, INITIAL, acts);
            && (Served(e) != {} ==>
                  && (e.core.active == 0 <==> |FastCompleted(e)| == |InFlight(e)| + |Leaked(e)|)
                  && (e.core.active <= 0 <==> |FastCompleted(e)| >= |InFlight(e)| + |Leaked(e)|))
            && (Served(e) == {} ==>
                  && (e.core.active != 0 <==> |Leaked(e)| + |StartupWaiting(e)| != |FastCompleted(e)|)
                  && (e.core.active > 0 <==> |Leaked(e)| + |StartupWaiting(e)| > |FastCompleted(e)|))
  {
    CounterIsRightIff(k, acts);
    ActiveRequestsLedger(k, acts);
    var e := Exec(k, INITIAL, acts);
    if Served(e) == {} {
      assert FastInFlight(e) <= Served(e);
      assert |Served(e)| == 0 && FastInFlight(e) == {};
      assert |FastInFlight(e)| == 0;
    }
  }

  /** With a history free of fast-path requests, startup loads and leaks the tests are right. */
  lemma PlainHistoriesAreRight(k: Params, acts: seq<Act>)
    requires ValidRun(k, INITIAL, acts)
    requires var e := Exec(k, INITIAL, acts);
             Leaked(e) == {} && forall r | r in e.reqs :: !e.reqs[r].fast && e.reqs[r].kind == Http
    ensures var e := Exec(k, INITIAL, acts);
            e.core.active == |Served(e)| && (e.core.active == 0 <==> Served(e) == {})
  {
    CounterIsRightIff(k, acts);
    var e := Exec(k, INITIAL, acts);
    assert FastInFlight(e) == {} && StartupWaiting(e) == {} && FastCompleted(e) == {};
    if |Served(e)| == 0 { assert Served(e) == {}; }
  }

  /**
   A request that finds the entry ACTIVE is served without ever being counted:
   while it is being forwarded the counter is what it was before, so with no
   other request the TTL ticker may start a sleep and an idle llama_cpp process may be killed.
   */
  lemma FastPathIsInvisible(k: Params, e: Entry, r: Tid)
    requires Orderly(k, e) && ClientEnabled(e, r, Enter) && e.core.state == Active && e.reqs[r].kind == Http
    ensures var acts := [Client(r, Enter), Client(r, SeeDone)];
            && ValidRun(k, e, acts)
            && var e' := Exec(k, e, acts);
            && At(e', r, Forwarding) && r in e'.reqs && e'.core == e.core && !e'.reqs[r].counted
            && (e.core.active <= 0 && k.engine == LlamaCpp ==> EvictEnabled(k, e'.core, EvictKill))
  {
    assert ReqAgrees(e, r);
    var e1 := Apply(k, e, Client(r, Enter));
    assert Enabled(k, e1, Client(r, SeeDone));
    var rest := [Client(r, SeeDone)];
    assert [Client(r, Enter), Client(r, SeeDone)][1..] == rest;
    assert rest[1..] == [];
    assert ValidRun(k, e1, rest);
    assert Exec(k, e1, rest) == Exec(k, Apply(k, e1, rest[0]), []);
  }
}
