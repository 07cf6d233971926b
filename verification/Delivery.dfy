/**
 No request is lost: as long as the queue is not empty some goroutine is inside
 handleRequest or a drain loop and will not leave before it found the queue empty.
 This covers the branch that returns without draining when the entry went back
 to sleep between the observation and the claim.
 */
module Delivery {
  import opened Lifecycle
  import opened Protocol
  import opened ProtocolSafety
  import opened Requests

  /** A loader will drain when it is done; a drainer is draining. */
  predicate Committed(pc: Pc) {
    IsLoader(pc) || IsDrainer(pc)
  }

  ghost predicate Rescuer(e: Entry) {
    exists u :: u in e.pcs && Committed(e.pcs[u])
  }

  /** The handler of a queued request will drain by itself, or has just seen the entry UNLOADED and it still is. */
  predicate Tended(c: Core, pc: Pc) {
    pc.Observing? || pc.Waking? || pc.Waiting? || (pc.Claiming? && c.state == Unloaded)
  }

  ghost predicate Attended(e: Entry) {
    Rescuer(e) || forall r | r in e.queue :: r in e.pcs && Tended(e.core, e.pcs[r])
  }

  /** Only finding the queue empty makes a committed goroutine leave. */
  lemma RescuersStay(k: Params, e: Entry, a: Act)
    requires Enabled(k, e, a) && Rescuer(e) && !(a.Drain? && a.drain.DrainEnd?)
    ensures Rescuer(Apply(k, e, a))
  {
    var u :| u in e.pcs && Committed(e.pcs[u]);
    var e' := Apply(k, e, a);
    if a.Evict? || a.t != u {
      hide ApplyClient, ApplyLoader, ApplyDrain, ApplyTick, ApplyDone;
      OnlyOwnCounter(k, e, a, u);
    } else {
      hide ApplyClient;
    }
    assert u in e'.pcs && Committed(e'.pcs[u]);
  }

  lemma ClientLeavesUnloaded(k: Params, e: Entry, t: Tid, a: ClientAct)
    requires ClientEnabled(e, t, a) && e.core.state == Unloaded
    ensures var e' := ApplyClient(k, e, t, a);
            e'.core.state == Unloaded || (t in e'.pcs && Committed(e'.pcs[t]))
  {
  }

  lemma DoneKeepsUnloaded(k: Params, e: Entry, t: Tid, a: DoneAct)
    requires Safe(k, e) && DoneEnabled(e, t, a) && e.core.state == Unloaded
    ensures ApplyDone(e, t, a).core.state == Unloaded
  {
    assert PcAgrees(k, e.core, e.nextPid, e.pcs[t]);
  }

  /** A step that leaves UNLOADED makes its goroutine the loader. */
  lemma UnloadedStays(k: Params, e: Entry, a: Act)
    requires Safe(k, e) && Enabled(k, e, a) && !a.Loader? && !a.Drain? && !Rescuer(Apply(k, e, a))
    ensures e.core.state == Unloaded ==> Apply(k, e, a).core.state == Unloaded
  {
    hide ApplyClient, ApplyDone, Safe, ClientEnabled, DoneEnabled;
    if e.core.state == Unloaded {
      match a
      case Client(t, act) => ClientLeavesUnloaded(k, e, t, act);
      case Tick(t, act) =>
      case Done(t, act) => DoneKeepsUnloaded(k, e, t, act);
      case Evict(act) =>
    }
  }

  /** A tended handler stays tended, or somebody commits. */
  lemma TendedStays(k: Params, e: Entry, a: Act, r: Tid)
    requires Enabled(k, e, a) && r in e.pcs && Tended(e.core, e.pcs[r]) && !a.Loader? && !a.Drain?
    requires e.core.state == Unloaded ==> Apply(k, e, a).core.state == Unloaded
    ensures var e' := Apply(k, e, a); r in e'.pcs && (Tended(e'.core, e'.pcs[r]) || Committed(e'.pcs[r]))
  {
    if a.Evict? || a.t != r {
      OnlyOwnCounter(k, e, a, r);
    } else if a.Client? {
      OwnTendedStep(k, e, r, a.client);
    }
  }

  lemma OwnTendedStep(k: Params, e: Entry, r: Tid, a: ClientAct)
    requires ClientEnabled(e, r, a) && r in e.pcs && Tended(e.core, e.pcs[r])
    ensures var e' := ApplyClient(k, e, r, a); r in e'.pcs && (Tended(e'.core, e'.pcs[r]) || Committed(e'.pcs[r]))
  {
  }

  lemma ClientQueueStep(k: Params, e: Entry, t: Tid, a: ClientAct)
    requires ClientEnabled(e, t, a)
    ensures var e' := ApplyClient(k, e, t, a);
            e'.queue == e.queue || (e'.queue == e.queue + [t] && t in e'.pcs && e'.pcs[t] == Observing)
  {
  }

  /** Steps that are not drain steps append at most the stepping request, which is then observing. */
  lemma QueueStep(k: Params, e: Entry, a: Act)
    requires Enabled(k, e, a) && !a.Drain?
    ensures var e' := Apply(k, e, a);
            e'.queue == e.queue || (a.Client? && e'.queue == e.queue + [a.t] && a.t in e'.pcs && e'.pcs[a.t] == Observing)
  {
    if a.Client? {
      hide ApplyClient;
      ClientQueueStep(k, e, a.t, a.client);
    }
  }

  lemma StepKeepsAttended(k: Params, e: Entry, a: Act)
    requires Safe(k, e) && Attended(e) && Enabled(k, e, a)
    ensures Attended(Apply(k, e, a))
  {
    var e' := Apply(k, e, a);
    assert a.Loader? || a.Drain? ==> Rescuer(e) by {
      if a.Loader? || a.Drain? { assert Committed(e.pcs[a.t]); }
    }
    if a.Drain? && a.drain.DrainEnd? {
      assert e'.queue == [];
    } else if Rescuer(e) {
      RescuersStay(k, e, a);
    } else if !Rescuer(e') {
      UnloadedStays(k, e, a);
      QueueStep(k, e, a);
      forall r | r in e'.queue ensures r in e'.pcs && Tended(e'.core, e'.pcs[r]) {
        if r in e.queue {
          TendedStays(k, e, a, r);
          assert !Committed(e'.pcs[r]);
        }
      }
    }
  }

  lemma {:induction false} RunKeepsAttended(k: Params, e: Entry, acts: seq<Act>)
    requires Safe(k, e) && Attended(e) && ValidRun(k, e, acts)
    ensures Attended(Exec(k, e, acts))
    decreases |acts|
  {
    if acts != [] {
      StepKeepsAttended(k, e, acts[0]);
      StepKeepsSafe(k, e, acts[0]);
      RunKeepsAttended(k, Apply(k, e, acts[0]), acts[1..]);
    }
  }

  /** While a request is queued, some goroutine is inside and will drain; so with nobody inside the queue is empty. */
  lemma NoLostRequests(k: Params, acts: seq<Act>)
    requires ValidRun(k, INITIAL, acts)
    ensures var e := Exec(k, INITIAL, acts);
            e.queue != [] ==> exists u :: u in e.pcs && StageOf(e.pcs[u]) == Inside
  {
    InitiallySafe(k);
    RunKeepsAttended(k, INITIAL, acts);
    var e := Exec(k, INITIAL, acts);
    if e.queue != [] {
      if Rescuer(e) {
        var u :| u in e.pcs && Committed(e.pcs[u]);
        assert StageOf(e.pcs[u]) == Inside;
      } else {
        assert e.queue[0] in e.queue;
        assert StageOf(e.pcs[e.queue[0]]) == Inside;
      }
    }
  }

  /**
   The branch that returns without draining leaves its request behind only while
   the loader that put the entry to ACTIVE is still draining: the request is received by it.
   */
  lemma FallThroughIsCovered(k: Params, acts: seq<Act>, t: Tid)
    requires ValidRun(k, INITIAL, acts)
    requires var e := Exec(k, INITIAL, acts); ClientEnabled(e, t, Claim) && Asleep(e.core.state) && t in e.queue
    ensures var e := Exec(k, INITIAL, acts);
            exists u :: u in e.pcs && IsDrainer(e.pcs[u]) && u != t
  {
    InitiallySafe(k);
    RunKeepsAttended(k, INITIAL, acts);
    RunKeepsSafe(k, INITIAL, acts);
    var e := Exec(k, INITIAL, acts);
    var u :| u in e.pcs && Committed(e.pcs[u]);
  }

  /** The step that returns without draining. */
  predicate FallsThrough(e: Entry, a: Act) {
    a.Client? && a.client.Claim? && Asleep(e.core.state)
  }

  predicate NeverFallsThrough(k: Params, e: Entry, acts: seq<Act>)
    requires ValidRun(k, e, acts)
    decreases |acts|
  {
    acts == [] || (!FallsThrough(e, acts[0]) && NeverFallsThrough(k, Apply(k, e, acts[0]), acts[1..]))
  }

  /** Every queued request's own handler is still inside. */
  ghost predicate HandlersStay(e: Entry) {
    forall r | r in e.queue :: r in e.pcs && StageOf(e.pcs[r]) == Inside
  }

  lemma InsideStep(k: Params, e: Entry, a: Act, r: Tid)
    requires Enabled(k, e, a) && r in e.pcs && StageOf(e.pcs[r]) == Inside
    requires !FallsThrough(e, a) && !(a.Drain? && a.drain.DrainEnd?)
    ensures var e' := Apply(k, e, a); r in e'.pcs && StageOf(e'.pcs[r]) == Inside
  {
    if a.Evict? || a.t != r {
      hide ApplyClient, ApplyLoader, ApplyDrain, ApplyTick, ApplyDone;
      OnlyOwnCounter(k, e, a, r);
    } else if a.Client? {
      InsideClientStep(k, e, r, a.client);
    }
  }

  lemma InsideClientStep(k: Params, e: Entry, r: Tid, a: ClientAct)
    requires ClientEnabled(e, r, a) && r in e.pcs && StageOf(e.pcs[r]) == Inside && !(a.Claim? && Asleep(e.core.state))
    ensures var e' := ApplyClient(k, e, r, a); r in e'.pcs && StageOf(e'.pcs[r]) == Inside
  {
  }

  lemma HandlersStayStep(k: Params, e: Entry, a: Act)
    requires Enabled(k, e, a) && HandlersStay(e) && !FallsThrough(e, a)
    ensures HandlersStay(Apply(k, e, a))
  {
    var e' := Apply(k, e, a);
    if a.Drain? && a.drain.DrainEnd? {
      assert e'.queue == [];
    } else {
      if !a.Drain? {
        QueueStep(k, e, a);
      }
      forall r | r in e'.queue ensures r in e'.pcs && StageOf(e'.pcs[r]) == Inside {
        if r in e.queue {
          InsideStep(k, e, a, r);
        }
      }
    }
  }

  /** Unless that branch is taken, the handler of every queued request has not returned. */
  lemma {:induction false} QueuedHandlersStay(k: Params, e: Entry, acts: seq<Act>)
    requires ValidRun(k, e, acts) && HandlersStay(e) && NeverFallsThrough(k, e, acts)
    ensures HandlersStay(Exec(k, e, acts))
    decreases |acts|
  {
    if acts != [] {
      HandlersStayStep(k, e, acts[0]);
      QueuedHandlersStay(k, Apply(k, e, acts[0]), acts[1..]);
    }
  }

  /**
   A startup load that meets a full queue is answered with a 503 body but its
   `done` is never closed, so `loadModel` waits for ever; an HTTP client is
   released by its own cancellation.
   */
  lemma {:induction false} RejectedWaits(k: Params, e: Entry, acts: seq<Act>, r: Tid)
    requires Orderly(k, e) && ValidRun(k, e, acts) && r in e.reqs && e.reqs[r].full
    ensures var e' := Exec(k, e, acts);
            && r in e'.reqs && r in e'.pcs && e'.reqs[r].full && e'.reqs[r].closes == 0 && !ClientEnabled(e', r, SeeDone)
            && (e.reqs[r].kind == Startup && e.pcs[r] == AtDoor ==> e'.pcs[r] == AtDoor)
    decreases |acts|
  {
    assert ReqAgrees(e, r);
    if acts != [] {
      StepKeepsOrder(k, e, acts[0]);
      RejectedStep(k, e, acts[0], r);
      RejectedWaits(k, Apply(k, e, acts[0]), acts[1..], r);
    }
  }

  lemma RejectedStep(k: Params, e: Entry, a: Act, r: Tid)
    requires HandsAgree(e) && Enabled(k, e, a) && r in e.reqs && e.reqs[r].full && ReqAgrees(e, r)
    ensures var e' := Apply(k, e, a);
            && r in e'.reqs && e'.reqs[r].full && e'.reqs[r].kind == e.reqs[r].kind
            && (e.reqs[r].kind == Startup && e.pcs[r] == AtDoor ==> r in e'.pcs && e'.pcs[r] == AtDoor)
  {
    RecordStep(k, e, a, r);
    if a.Evict? || a.t != r {
      hide ApplyClient, ApplyLoader, ApplyDrain, ApplyTick, ApplyDone;
      OnlyOwnCounter(k, e, a, r);
    }
  }
}
