/**
 What happens to each request: it is queued, in a drainer's hands, forwarded,
 refused or rejected, never two of these, and the queue is FIFO and bounded.
 `Delivery` builds on this for drainers, `Ledger` for `activeRequests`.
 */
module Requests {
  import opened Lifecycle
  import opened Sequences
  import opened Protocol

  /** A drainer between the receive and the close of `done`. */
  predicate Busy(pc: Pc) {
    !HoldOf(pc).Nothing?
  }

  predicate HeldBy(pc: Pc, r: Tid) {
    Busy(pc) && HoldOf(pc).r == r
  }

  /** How far a request's handler has come; the counters of other goroutines are `Aside`. */
  datatype Stage = Before | Inside | AtExit | Serving | Gone | Aside

  /**
   `Inside` means: in handleRequest after sending to the queue, and not to
   return before a drain loop has found the queue empty.
   */
  function StageOf(pc: Pc): Stage {
    match pc
    case Entering => Before
    case Enqueuing => Before
    case Observing => Inside
    case Claiming => Inside
    case Assigning(_) => Inside
    case Launching(_) => Inside
    case Probing(_) => Inside
    case Waking(_, _) => Inside
    case Waiting => Inside
    case Draining(_) => Inside
    case Refusing(_) => Inside
    case AtDoor => AtExit
    case Forwarding => Serving
    case Finished => Gone
    case _ => Aside
  }

  /** Counters that only a request's own handler can have. */
  predicate OfHandler(pc: Pc) {
    var s := StageOf(pc);
    s == Before || s == AtExit || s == Serving || (s == Inside && !IsDrainer(pc))
  }

  ghost predicate QueueAgrees(k: Params, e: Entry) {
    && e.enqueued == e.dequeued + e.queue
    && Distinct(e.enqueued)
    && |e.queue| <= k.depth
    && (forall r | r in e.enqueued :: r in e.reqs)
  }

  predicate Untouched(q: Req) {
    q.closes == 0 && !q.err && !q.counted && !q.completed
  }

  /**
   The record `q` of one request agrees with its handler's stage and with
   its place: sent to the queue (`enq`), still there (`inq`), received (`deq`),
   received and unanswered (`held`).
   */
  predicate ReqOk(q: Req, at: Stage, enq: bool, inq: bool, deq: bool, held: bool) {
    && at != Aside
    && (at == Before ==> Untouched(q) && !q.fast && !q.full && !enq)
    && (q.full ==> Untouched(q) && !q.fast && !enq && (at == AtExit || at == Gone))
    && (q.fast ==> q.closes == 1 && !q.err && !q.counted && !enq && at != Before && at != Inside)
    && (at != Before && !q.full && !q.fast ==> enq)
    && (enq <==> inq || deq)
    && (inq ==> !deq && Untouched(q))
    && (held ==> deq && q.closes == 0)
    && (deq && !held ==> q.closes == 1 && q.err != q.counted)
    && (q.completed ==> q.closes == 1 && !q.err && at == Gone && q.kind == Http)
    && (at == Serving ==> q.closes == 1 && !q.err && q.kind == Http)
  }

  ghost predicate ReqAgrees(e: Entry, r: Tid)
    requires r in e.reqs
  {
    r in e.pcs &&
    ReqOk(e.reqs[r], StageOf(e.pcs[r]), r in e.enqueued, r in e.queue, r in e.dequeued, r in e.hands)
  }

  ghost predicate ReqsAgree(e: Entry) {
    forall r | r in e.reqs :: ReqAgrees(e, r)
  }

  ghost predicate OwnersAgree(e: Entry) {
    forall t | t in e.pcs && OfHandler(e.pcs[t]) :: t in e.reqs
  }

  /** What the drainer at `pc` has done so far for the request it holds. */
  predicate MarkOk(pc: Pc, q: Req) {
    match HoldOf(pc)
    case Nothing => false
    case Popped(_) => !q.err && !q.counted
    case Marked(_) => if pc.Draining? then q.counted && !q.err else q.err && !q.counted
  }

  /** Received, unanswered requests and the drainers holding one are in bijection. */
  ghost predicate HandsAgree(e: Entry) {
    && (forall t | t in e.pcs && Busy(e.pcs[t]) ::
          HoldOf(e.pcs[t]).r in e.hands && e.hands[HoldOf(e.pcs[t]).r] == t)
    && (forall r | r in e.hands ::
          r in e.reqs && e.hands[r] in e.pcs && HeldBy(e.pcs[e.hands[r]], r) && MarkOk(e.pcs[e.hands[r]], e.reqs[r]))
  }

  ghost predicate Orderly(k: Params, e: Entry) {
    QueueAgrees(k, e) && HandsAgree(e) && OwnersAgree(e) && ReqsAgree(e)
  }

  // ---- steps that leave the queue and the hands alone ----

  ghost predicate SamePlaces(e: Entry, e': Entry) {
    e'.queue == e.queue && e'.enqueued == e.enqueued && e'.dequeued == e.dequeued && e'.hands == e.hands
  }

  /** An empty-handed goroutine `t` moves, and at most its own record changes. */
  ghost predicate OwnStep(e: Entry, e': Entry, t: Tid, pc: Pc) {
    && SamePlaces(e, e')
    && e'.pcs == e.pcs[t := pc] && !Busy(pc) && (t in e.pcs ==> !Busy(e.pcs[t]))
    && (e'.reqs == e.reqs || (t in e'.reqs && e'.reqs == e.reqs[t := e'.reqs[t]]))
    && (t in e.reqs && t in e.hands ==> e'.reqs == e.reqs)
    && (OfHandler(pc) ==> t in e'.reqs)
  }

  lemma OwnStepKeepsOrder(k: Params, e: Entry, e': Entry, t: Tid, pc: Pc)
    requires Orderly(k, e) && OwnStep(e, e', t, pc)
    requires t in e'.reqs ==> ReqAgrees(e', t)
    ensures Orderly(k, e')
  {
    OwnStepKeepsHands(e, e', t, pc);
    OwnStepKeepsReqs(e, e', t, pc);
  }

  lemma OwnStepKeepsHands(e: Entry, e': Entry, t: Tid, pc: Pc)
    requires HandsAgree(e) && OwnStep(e, e', t, pc)
    ensures HandsAgree(e')
  {
  }

  lemma OwnStepKeepsReqs(e: Entry, e': Entry, t: Tid, pc: Pc)
    requires ReqsAgree(e) && OwnStep(e, e', t, pc)
    requires t in e'.reqs ==> ReqAgrees(e', t)
    ensures ReqsAgree(e')
  {
    forall r | r in e'.reqs ensures ReqAgrees(e', r) {
      if r != t { assert ReqAgrees(e, r); }
    }
  }

  /** A goroutine moves within its stage and touches no request. */
  ghost predicate QuietStep(e: Entry, e': Entry, t: Tid, pc: Pc) {
    && SamePlaces(e, e')
    && e'.pcs == e.pcs[t := pc] && !Busy(pc) && (t in e.pcs ==> !Busy(e.pcs[t]))
    && e'.reqs == e.reqs
    && (OfHandler(pc) ==> t in e.reqs)
    && (t in e.reqs ==> t in e.pcs && StageOf(pc) == StageOf(e.pcs[t]))
  }

  lemma QuietStepKeepsOrder(k: Params, e: Entry, e': Entry, t: Tid, pc: Pc)
    requires Orderly(k, e) && QuietStep(e, e', t, pc)
    ensures Orderly(k, e')
  {
    if t in e.reqs { assert ReqAgrees(e, t); }
    OwnStepKeepsOrder(k, e, e', t, pc);
  }

  /** Stages tell request handlers from background goroutines. */
  lemma HandlersAndOthers(k: Params, e: Entry, t: Tid)
    requires Orderly(k, e) && t in e.pcs
    ensures OfHandler(e.pcs[t]) ==> t in e.reqs
    ensures StageOf(e.pcs[t]) == Aside ==> t !in e.reqs
  {
    if t in e.reqs { assert ReqAgrees(e, t); }
  }

  // ---- the client side ----

  lemma EnqueueKeepsOrder(k: Params, e: Entry, t: Tid)
    requires Orderly(k, e) && ClientEnabled(e, t, Enqueue) && |e.queue| < k.depth
    ensures Orderly(k, ApplyClient(k, e, t, Enqueue))
  {
    var e' := ApplyClient(k, e, t, Enqueue);
    assert ReqAgrees(e, t);
    assert e'.enqueued == e'.dequeued + e'.queue;
    forall r | r in e'.reqs ensures ReqAgrees(e', r) {
      assert ReqAgrees(e, r);
    }
  }

  lemma ArrivalKeepsOrder(k: Params, e: Entry, t: Tid, a: ClientAct)
    requires Orderly(k, e) && ClientEnabled(e, t, a) && (a.Submit? || a.Enter? || a.Enqueue?)
    ensures Orderly(k, ApplyClient(k, e, t, a))
  {
    var e' := ApplyClient(k, e, t, a);
    if a.Enqueue? && |e.queue| < k.depth {
      EnqueueKeepsOrder(k, e, t);
    } else {
      if t in e.reqs { assert ReqAgrees(e, t); }
      OwnStepKeepsOrder(k, e, e', t, e'.pcs[t]);
    }
  }

  lemma WaitIsQuiet(k: Params, e: Entry, t: Tid, a: ClientAct)
    requires ClientEnabled(e, t, a) && t in e.reqs
    requires a.Observe? || a.Poll? || (a.Claim? && !Asleep(e.core.state))
    ensures QuietStep(e, ApplyClient(k, e, t, a), t, ApplyClient(k, e, t, a).pcs[t])
  {
  }

  lemma ExitIsOwn(k: Params, e: Entry, t: Tid, a: ClientAct)
    requires ClientEnabled(e, t, a) && t in e.reqs && ReqAgrees(e, t)
    requires a.SeeDone? || a.Cancel? || a.Complete? || (a.Claim? && Asleep(e.core.state))
    ensures var e' := ApplyClient(k, e, t, a); OwnStep(e, e', t, e'.pcs[t]) && ReqAgrees(e', t)
  {
  }

  lemma ClientKeepsOrder(k: Params, e: Entry, t: Tid, a: ClientAct)
    requires Orderly(k, e) && ClientEnabled(e, t, a)
    ensures Orderly(k, ApplyClient(k, e, t, a))
  {
    if a.Submit? || a.Enter? || a.Enqueue? {
      ArrivalKeepsOrder(k, e, t, a);
    } else {
      HandlersAndOthers(k, e, t);
      assert ReqAgrees(e, t);
      if a.Observe? || a.Poll? || (a.Claim? && !Asleep(e.core.state)) {
        WaitIsQuiet(k, e, t, a);
        QuietStepKeepsOrder(k, e, ApplyClient(k, e, t, a), t, ApplyClient(k, e, t, a).pcs[t]);
      } else {
        ExitIsOwn(k, e, t, a);
        OwnStepKeepsOrder(k, e, ApplyClient(k, e, t, a), t, ApplyClient(k, e, t, a).pcs[t]);
      }
    }
  }

  // ---- the drain loops ----

  lemma PopPlaces(dequeued: seq<Tid>, queue: seq<Tid>)
    requires queue != [] && Distinct(dequeued + queue)
    ensures queue[0] !in dequeued && queue[0] !in queue[1..]
    ensures dequeued + queue == (dequeued + [queue[0]]) + queue[1..]
  {
    var all := dequeued + queue;
    assert all[|dequeued|] == queue[0];
    forall i | 0 <= i < |dequeued| ensures dequeued[i] != queue[0] {
      assert all[i] == dequeued[i];
    }
    forall i | 1 <= i < |queue| ensures queue[i] != queue[0] {
      assert all[|dequeued| + i] == queue[i];
    }
  }

  lemma ReqsAfterPop(e: Entry, e': Entry, t: Tid)
    requires ReqsAgree(e) && e.queue != [] && t in e.pcs
    requires e'.reqs == e.reqs && e'.enqueued == e.enqueued
    requires t in e'.pcs && StageOf(e'.pcs[t]) == StageOf(e.pcs[t]) && e'.pcs == e.pcs[t := e'.pcs[t]]
    requires var r := e.queue[0];
             && e'.queue == e.queue[1..] && e'.dequeued == e.dequeued + [r] && e'.hands == e.hands[r := t]
             && r !in e'.queue && r !in e.dequeued && r in e.enqueued
    ensures ReqsAgree(e')
  {
    assert e.queue == [e.queue[0]] + e'.queue;
    forall q | q in e'.reqs ensures ReqAgrees(e', q) {
      assert ReqAgrees(e, q);
    }
  }

  lemma HandsAfterPop(e: Entry, e': Entry, t: Tid, r: Tid, pc: Pc)
    requires HandsAgree(e) && t in e.pcs && !Busy(e.pcs[t])
    requires e'.pcs == e.pcs[t := pc] && HoldOf(pc) == Popped(r)
    requires e'.hands == e.hands[r := t] && e'.reqs == e.reqs && r in e.reqs && Untouched(e.reqs[r]) && r !in e.hands
    ensures HandsAgree(e')
  {
  }

  lemma PopShape(e: Entry, t: Tid)
    requires DrainEnabled(e, t, Pop)
    ensures var e' := ApplyDrain(e, t, Pop);
            var r := e.queue[0];
            && e'.reqs == e.reqs && e'.enqueued == e.enqueued
            && t in e'.pcs && e'.pcs == e.pcs[t := e'.pcs[t]] && StageOf(e'.pcs[t]) == StageOf(e.pcs[t]) == Inside
            && IsDrainer(e'.pcs[t]) && HoldOf(e'.pcs[t]) == Popped(r)
            && e'.queue == e.queue[1..] && e'.dequeued == e.dequeued + [r] && e'.hands == e.hands[r := t]
  {
  }

  lemma PopKeepsOrder(k: Params, e: Entry, t: Tid)
    requires Orderly(k, e) && DrainEnabled(e, t, Pop)
    ensures Orderly(k, ApplyDrain(e, t, Pop))
  {
    var e' := ApplyDrain(e, t, Pop);
    var r := e.queue[0];
    PopPlaces(e.dequeued, e.queue);
    PopShape(e, t);
    assert r in e.enqueued;
    assert ReqAgrees(e, r);
    HandsAfterPop(e, e', t, r, e'.pcs[t]);
    ReqsAfterPop(e, e', t);
  }

  /** The drainer `t` marks the request in its hands. */
  lemma HandsAfterMark(e: Entry, e': Entry, t: Tid, r: Tid, pc: Pc)
    requires HandsAgree(e) && t in e.pcs && HeldBy(e.pcs[t], r) && r in e.reqs
    requires e'.pcs == e.pcs[t := pc] && HeldBy(pc, r) && e'.hands == e.hands
    requires r in e'.reqs && e'.reqs == e.reqs[r := e'.reqs[r]] && MarkOk(pc, e'.reqs[r])
    ensures HandsAgree(e')
  {
  }

  /** The drainer `t` answers the request in its hands. */
  lemma HandsAfterClose(e: Entry, e': Entry, t: Tid, r: Tid, pc: Pc)
    requires HandsAgree(e) && t in e.pcs && HeldBy(e.pcs[t], r) && r in e.reqs
    requires e'.pcs == e.pcs[t := pc] && !Busy(pc) && e'.hands == e.hands - {r}
    requires r in e'.reqs && e'.reqs == e.reqs[r := e'.reqs[r]]
    ensures HandsAgree(e')
  {
  }

  lemma ReqsAfterSettle(e: Entry, e': Entry, t: Tid, r: Tid)
    requires ReqsAgree(e) && r in e.reqs && r in e'.reqs && e'.reqs == e.reqs[r := e'.reqs[r]]
    requires e'.queue == e.queue && e'.enqueued == e.enqueued && e'.dequeued == e.dequeued
    requires t in e.pcs && t in e'.pcs && e'.pcs == e.pcs[t := e'.pcs[t]] && StageOf(e'.pcs[t]) == StageOf(e.pcs[t])
    requires e'.hands - {r} == e.hands - {r}
    requires r in e.pcs &&
             ReqOk(e'.reqs[r], StageOf(e.pcs[r]), r in e.enqueued, r in e.queue, r in e.dequeued, r in e'.hands)
    ensures ReqsAgree(e')
  {
    forall q | q in e'.reqs ensures ReqAgrees(e', q) {
      assert ReqAgrees(e, q);
      if q != r {
        assert q in e.hands - {r} <==> q in e'.hands - {r};
      }
    }
  }

  /** Marking or answering the request `r` in the hands of `t` touches nothing else. */
  lemma SettleShape(e: Entry, t: Tid, a: DrainAct, r: Tid)
    requires DrainEnabled(e, t, a) && (a.Mark? || a.Close?) && r == HoldOf(e.pcs[t]).r
    ensures var e' := ApplyDrain(e, t, a);
            && e'.queue == e.queue && e'.enqueued == e.enqueued && e'.dequeued == e.dequeued
            && t in e'.pcs && e'.pcs == e.pcs[t := e'.pcs[t]] && StageOf(e'.pcs[t]) == StageOf(e.pcs[t]) == Inside
            && r in e'.reqs && e'.reqs == e.reqs[r := e'.reqs[r]] && !OfHandler(e'.pcs[t])
            && e'.hands == if a.Mark? then e.hands else e.hands - {r}
  {
  }

  lemma SettleRecord(e: Entry, t: Tid, a: DrainAct, r: Tid)
    requires DrainEnabled(e, t, a) && (a.Mark? || a.Close?) && r == HoldOf(e.pcs[t]).r && MarkOk(e.pcs[t], e.reqs[r])
    ensures var pc, q, q' := ApplyDrain(e, t, a).pcs[t], e.reqs[r], ApplyDrain(e, t, a).reqs[r];
            if a.Mark? then HeldBy(pc, r) && MarkOk(pc, q') && q'.closes == q.closes && (q' == q.(counted := true) || q' == q.(err := true))
            else !Busy(pc) && q' == q.(closes := q.closes + 1) && q.err != q.counted
  {
  }

  lemma SettleKeepsOrder(k: Params, e: Entry, t: Tid, a: DrainAct)
    requires Orderly(k, e) && DrainEnabled(e, t, a) && (a.Mark? || a.Close?)
    ensures Orderly(k, ApplyDrain(e, t, a))
  {
    var e' := ApplyDrain(e, t, a);
    var r := HoldOf(e.pcs[t]).r;
    assert r in e.hands && e.hands[r] == t;
    assert ReqAgrees(e, r);
    SettleShape(e, t, a, r);
    SettleRecord(e, t, a, r);
    hide ApplyDrain, StageOf, QueueAgrees, HandsAgree, ReqsAgree;
    if a.Mark? {
      HandsAfterMark(e, e', t, r, e'.pcs[t]);
    } else {
      HandsAfterClose(e, e', t, r, e'.pcs[t]);
    }
    ReqsAfterSettle(e, e', t, r);
    QueueStands(k, e, e', r);
  }

  lemma QueueStands(k: Params, e: Entry, e': Entry, r: Tid)
    requires QueueAgrees(k, e) && e'.queue == e.queue && e'.enqueued == e.enqueued && e'.dequeued == e.dequeued
    requires r in e'.reqs && e'.reqs == e.reqs[r := e'.reqs[r]]
    ensures QueueAgrees(k, e')
  {
  }

  lemma DrainEndIsOwn(e: Entry, t: Tid)
    requires DrainEnabled(e, t, DrainEnd) && (t in e.reqs ==> ReqAgrees(e, t))
    ensures var e' := ApplyDrain(e, t, DrainEnd); OwnStep(e, e', t, AfterDrain(e, t)) && (t in e'.reqs ==> ReqAgrees(e', t))
  {
  }

  lemma DrainEndKeepsOrder(k: Params, e: Entry, t: Tid)
    requires Orderly(k, e) && DrainEnabled(e, t, DrainEnd)
    ensures Orderly(k, ApplyDrain(e, t, DrainEnd))
  {
    if t in e.reqs { assert ReqAgrees(e, t); }
    DrainEndIsOwn(e, t);
    OwnStepKeepsOrder(k, e, ApplyDrain(e, t, DrainEnd), t, AfterDrain(e, t));
  }

  // ---- every step ----

  lemma LoaderIsQuiet(k: Params, e: Entry, t: Tid, a: LoaderAct)
    requires LoaderEnabled(e, t, a) && t in e.reqs && !a.HealthOk?
    ensures QuietStep(e, ApplyLoader(k, e, t, a), t, ApplyLoader(k, e, t, a).pcs[t])
  {
  }

  lemma PublishIsQuiet(k: Params, e: Entry, t: Tid, a: LoaderAct)
    requires LoaderEnabled(e, t, a) && t in e.reqs && a.HealthOk?
    ensures var mid := Goto(e, t, Draining(Nothing));
            && QuietStep(e, mid, t, Draining(Nothing))
            && QuietStep(mid, ApplyLoader(k, e, t, a), a.watcher, Watching(e.pcs[t].p))
  {
  }

  lemma LoaderKeepsOrder(k: Params, e: Entry, t: Tid, a: LoaderAct)
    requires Orderly(k, e) && LoaderEnabled(e, t, a)
    ensures Orderly(k, ApplyLoader(k, e, t, a))
  {
    HandlersAndOthers(k, e, t);
    if a.HealthOk? {
      PublishIsQuiet(k, e, t, a);
      var mid := Goto(e, t, Draining(Nothing));
      QuietStepKeepsOrder(k, e, mid, t, Draining(Nothing));
      QuietStepKeepsOrder(k, mid, ApplyLoader(k, e, t, a), a.watcher, Watching(e.pcs[t].p));
    } else {
      LoaderIsQuiet(k, e, t, a);
      QuietStepKeepsOrder(k, e, ApplyLoader(k, e, t, a), t, ApplyLoader(k, e, t, a).pcs[t]);
    }
  }

  lemma TickIsQuiet(k: Params, e: Entry, t: Tid, a: TickAct)
    requires TickEnabled(k, e, t, a) && t !in e.reqs
    ensures QuietStep(e, ApplyTick(k, e, t, a), t, ApplyTick(k, e, t, a).pcs[t])
  {
  }

  lemma TickKeepsOrder(k: Params, e: Entry, t: Tid, a: TickAct)
    requires Orderly(k, e) && TickEnabled(k, e, t, a)
    ensures Orderly(k, ApplyTick(k, e, t, a))
  {
    if t in e.pcs { HandlersAndOthers(k, e, t); }
    TickIsQuiet(k, e, t, a);
    QuietStepKeepsOrder(k, e, ApplyTick(k, e, t, a), t, ApplyTick(k, e, t, a).pcs[t]);
  }

  lemma DoneIsQuiet(e: Entry, t: Tid, a: DoneAct)
    requires DoneEnabled(e, t, a) && (e.pcs[t].Waking? <==> t in e.reqs)
    ensures QuietStep(e, ApplyDone(e, t, a), t, DoneNext(e.core, e.pcs[t], a))
  {
  }

  lemma DoneKeepsOrder(k: Params, e: Entry, t: Tid, a: DoneAct)
    requires Orderly(k, e) && DoneEnabled(e, t, a)
    ensures Orderly(k, ApplyDone(e, t, a))
  {
    HandlersAndOthers(k, e, t);
    DoneIsQuiet(e, t, a);
    QuietStepKeepsOrder(k, e, ApplyDone(e, t, a), t, DoneNext(e.core, e.pcs[t], a));
  }

  lemma EvictKeepsOrder(k: Params, e: Entry, a: EvictAct)
    requires Orderly(k, e) && EvictEnabled(k, e.core, a)
    ensures Orderly(k, ApplyEvict(k, e, a))
  {
    forall r | r in e.reqs ensures ReqAgrees(ApplyEvict(k, e, a), r) {
      assert ReqAgrees(e, r);
    }
  }

  lemma StepKeepsOrder(k: Params, e: Entry, a: Act)
    requires Orderly(k, e) && Enabled(k, e, a)
    ensures Orderly(k, Apply(k, e, a))
  {
    match a
    case Client(t, act) => ClientKeepsOrder(k, e, t, act);
    case Loader(t, act) => LoaderKeepsOrder(k, e, t, act);
    case Drain(t, act) =>
      if act.Pop? { PopKeepsOrder(k, e, t); }
      else if act.DrainEnd? { DrainEndKeepsOrder(k, e, t); }
      else { SettleKeepsOrder(k, e, t, act); }
    case Tick(t, act) => TickKeepsOrder(k, e, t, act);
    case Done(t, act) => DoneKeepsOrder(k, e, t, act);
    case Evict(act) => EvictKeepsOrder(k, e, act);
  }

  lemma {:induction false} RunKeepsOrder(k: Params, e: Entry, acts: seq<Act>)
    requires Orderly(k, e) && ValidRun(k, e, acts)
    ensures Orderly(k, Exec(k, e, acts))
    decreases |acts|
  {
    if acts != [] {
      StepKeepsOrder(k, e, acts[0]);
      RunKeepsOrder(k, Apply(k, e, acts[0]), acts[1..]);
    }
  }

  // ---- what this means for a request ----

  lemma InitiallyOrderly(k: Params)
    ensures Orderly(k, INITIAL)
  {
  }

  function One(b: bool): nat { if b then 1 else 0 }

  /** Every submitted request is arriving, queued, in one drainer's hands, forwarded, refused or rejected: exactly one. */
  lemma OneFate(k: Params, acts: seq<Act>, r: Tid)
    requires ValidRun(k, INITIAL, acts) && r in Exec(k, INITIAL, acts).reqs
    ensures var e := Exec(k, INITIAL, acts);
            var q := e.reqs[r];
            var held := exists t :: t in e.pcs && HeldBy(e.pcs[t], r);
            && r in e.pcs && q.closes <= 1
            && One(StageOf(e.pcs[r]) == Before) + One(r in e.queue) + One(held) + One(q.closes == 1 && !q.err)
               + One(q.closes == 1 && q.err) + One(q.full) == 1
  {
    InitiallyOrderly(k);
    RunKeepsOrder(k, INITIAL, acts);
    var e := Exec(k, INITIAL, acts);
    assert ReqAgrees(e, r);
    assert r in e.hands <==> exists t :: t in e.pcs && HeldBy(e.pcs[t], r);
  }

  /** Receives happen in the order of sends, each send at most once, and the queue never exceeds its depth. */
  lemma QueueIsBoundedFifo(k: Params, acts: seq<Act>)
    requires ValidRun(k, INITIAL, acts)
    ensures var e := Exec(k, INITIAL, acts);
            e.dequeued <= e.enqueued && Distinct(e.enqueued) && |e.enqueued| - |e.dequeued| == |e.queue| <= k.depth
  {
    InitiallyOrderly(k);
    RunKeepsOrder(k, INITIAL, acts);
  }

  predicate BeforeStage(e: Entry, r: Tid) {
    r in e.pcs && StageOf(e.pcs[r]) == Before
  }

  lemma ClientRecords(k: Params, e: Entry, t: Tid, a: ClientAct, r: Tid)
    requires ClientEnabled(e, t, a) && r in e.reqs
    ensures r in ApplyClient(k, e, t, a).reqs
    ensures var q, q' := e.reqs[r], ApplyClient(k, e, t, a).reqs[r];
            q' == q || (t == r && (BeforeStage(e, r) || (a.Complete? && q' == q.(completed := true))))
  {
  }

  lemma DrainRecords(e: Entry, t: Tid, a: DrainAct, r: Tid)
    requires DrainEnabled(e, t, a) && r in e.reqs
    ensures r in ApplyDrain(e, t, a).reqs
    ensures ApplyDrain(e, t, a).reqs[r] == e.reqs[r] || (t in e.pcs && HeldBy(e.pcs[t], r))
  {
  }

  /** Which steps touch the record of request `r`, and how little they change once it is answered. */
  lemma RecordStep(k: Params, e: Entry, a: Act, r: Tid)
    requires Enabled(k, e, a) && r in e.reqs
    ensures r in Apply(k, e, a).reqs
    ensures var q, q' := e.reqs[r], Apply(k, e, a).reqs[r];
            || q' == q
            || (a.Client? && a.t == r && (BeforeStage(e, r) || (a.client.Complete? && q' == q.(completed := true))))
            || (a.Drain? && a.t in e.pcs && HeldBy(e.pcs[a.t], r))
  {
    if a.Client? {
      hide ApplyClient;
      ClientRecords(k, e, a.t, a.client, r);
    } else if a.Drain? {
      hide ApplyDrain;
      DrainRecords(e, a.t, a.drain, r);
    }
  }

  lemma AnswerStepIsFinal(k: Params, e: Entry, a: Act, r: Tid)
    requires HandsAgree(e) && Enabled(k, e, a) && r in e.reqs && ReqAgrees(e, r) && e.reqs[r].closes == 1
    ensures var e' := Apply(k, e, a); r in e'.reqs && e'.reqs[r].closes == 1 && e'.reqs[r].err == e.reqs[r].err
  {
    RecordStep(k, e, a, r);
  }

  /** Once `done` is closed the verdict stands: no second close, and a refused request is never forwarded. */
  lemma {:induction false} AnswerIsFinal(k: Params, e: Entry, acts: seq<Act>, r: Tid)
    requires Orderly(k, e) && ValidRun(k, e, acts)
    requires r in e.reqs && e.reqs[r].closes == 1
    ensures var e' := Exec(k, e, acts);
            && r in e'.reqs && r in e'.pcs && e'.reqs[r].closes == 1 && e'.reqs[r].err == e.reqs[r].err
            && (e.reqs[r].err ==> !e'.pcs[r].Forwarding? && !e'.reqs[r].completed)
    decreases |acts|
  {
    if acts == [] {
      assert ReqAgrees(e, r);
    } else {
      StepKeepsOrder(k, e, acts[0]);
      assert ReqAgrees(e, r);
      AnswerStepIsFinal(k, e, acts[0], r);
      AnswerIsFinal(k, Apply(k, e, acts[0]), acts[1..], r);
    }
  }
}
