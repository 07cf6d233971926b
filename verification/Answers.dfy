/**
 Who is answered how.  A queued request is answered by the goroutine that receives
 it, and the answer is the outcome of that goroutine's last load, wake or wait:
 released if it worked, refused if it failed.
 */
module Answers {
  import opened Lifecycle
  import opened Protocol
  import opened ProtocolSafety
  import opened Requests

  // ---- steps that work or fail ----

  /** The model is there: found ACTIVE, loaded, or woken. */
  predicate Works(e: Entry, a: Act) {
    match a
    case Client(_, act) => (act.Observe? || act.Claim? || act.Poll?) && e.core.state == Active
    case Loader(_, act) => act.HealthOk?
    case Done(_, act) => act == WakeDone(true)
    case _ => false
  }

  /** The model is not there: a failed assignment, launch, health check or wake, a wait that ends UNLOADED, a crash of the current process. */
  predicate Fails(e: Entry, a: Act) {
    match a
    case Client(_, act) => act.Poll? && e.core.state == Unloaded
    case Loader(_, act) => act.AssignFail? || act.LaunchFail? || act.HealthFail?
    case Done(t, act) =>
      act == WakeDone(false) || (act.Crash? && t in e.pcs && e.pcs[t].Watching? && e.core.proc == Some(e.pcs[t].watched))
    case _ => false
  }

  /** `outcome`: how each goroutine's last such step went; `verdict`: how it had gone for the goroutine that received the request. */
  datatype Log = Log(outcome: map<Tid, bool>, verdict: map<Tid, bool>)

  function Note(e: Entry, a: Act, log: Log): Log {
    if Works(e, a) then log.(outcome := log.outcome[a.t := true])
    else if Fails(e, a) then log.(outcome := log.outcome[a.t := false])
    else if a.Drain? && a.drain.Pop? && e.queue != [] && a.t in log.outcome then
      log.(verdict := log.verdict[e.queue[0] := log.outcome[a.t]])
    else log
  }

  function Logged(k: Params, e: Entry, acts: seq<Act>, log: Log): Log
    requires ValidRun(k, e, acts)
    decreases |acts|
  {
    if acts == [] then log else Logged(k, Apply(k, e, acts[0]), acts[1..], Note(e, acts[0], log))
  }

  predicate Answered(q: Req, ok: bool) {
    q.closes == 1 && q.counted == ok && q.err == !ok
  }

  ghost predicate DrainersLogged(e: Entry, log: Log) {
    forall t | t in e.pcs && IsDrainer(e.pcs[t]) :: t in log.outcome && log.outcome[t] == e.pcs[t].Draining?
  }

  ghost predicate VerdictsLogged(e: Entry, log: Log) {
    && (forall r | r in e.dequeued :: r in log.verdict)
    && (forall r | r in e.hands :: r in log.verdict && e.hands[r] in log.outcome && log.verdict[r] == log.outcome[e.hands[r]])
    && (forall r | r in e.dequeued && r !in e.hands :: r in e.reqs && Answered(e.reqs[r], log.verdict[r]))
  }

  /** Where a step takes its own goroutine, if that is a drain loop. */
  lemma EntersDrain(k: Params, e: Entry, a: Act)
    requires Safe(k, e) && Enabled(k, e, a) && !a.Drain? && !a.Evict?
    ensures var e' := Apply(k, e, a);
            a.t in e'.pcs && (IsDrainer(e'.pcs[a.t]) ==> e'.pcs[a.t] == (if Works(e, a) then Draining(Nothing) else Refusing(Nothing))
                                                         && (Works(e, a) || Fails(e, a)))
  {
    match a
    case Client(t, act) => ClientEntersDrain(k, e, t, act);
    case Loader(t, act) => LoaderEntersDrain(k, e, t, act);
    case Tick(t, act) => TickDoesNotDrain(k, e, t, act);
    case Done(t, act) =>
      assert PcAgrees(k, e.core, e.nextPid, e.pcs[t]);
      DoneEntersDrain(k, e, t, act);
  }

  lemma LoaderEntersDrain(k: Params, e: Entry, t: Tid, a: LoaderAct)
    requires LoaderEnabled(e, t, a)
    ensures var e' := ApplyLoader(k, e, t, a);
            t in e'.pcs && (IsDrainer(e'.pcs[t]) ==> e'.pcs[t] == (if Works(e, Loader(t, a)) then Draining(Nothing) else Refusing(Nothing))
                                                     && (Works(e, Loader(t, a)) || Fails(e, Loader(t, a))))
  {
  }

  lemma TickDoesNotDrain(k: Params, e: Entry, t: Tid, a: TickAct)
    requires TickEnabled(k, e, t, a)
    ensures var e' := ApplyTick(k, e, t, a); t in e'.pcs && !IsDrainer(e'.pcs[t])
  {
  }

  lemma DoneEntersDrain(k: Params, e: Entry, t: Tid, a: DoneAct)
    requires DoneEnabled(e, t, a) && PcAgrees(k, e.core, e.nextPid, e.pcs[t])
    ensures var e' := ApplyDone(e, t, a);
            t in e'.pcs && (IsDrainer(e'.pcs[t]) ==> e'.pcs[t] == (if Works(e, Done(t, a)) then Draining(Nothing) else Refusing(Nothing))
                                                     && (Works(e, Done(t, a)) || Fails(e, Done(t, a))))
  {
  }

  lemma LookEntersDrain(k: Params, e: Entry, t: Tid, a: ClientAct)
    requires ClientEnabled(e, t, a) && (a.Observe? || a.Claim? || a.Poll?)
    ensures var e' := ApplyClient(k, e, t, a);
            t in e'.pcs && (IsDrainer(e'.pcs[t]) ==> e'.pcs[t] == (if Works(e, Client(t, a)) then Draining(Nothing) else Refusing(Nothing))
                                                     && (Works(e, Client(t, a)) || Fails(e, Client(t, a))))
  {
  }

  lemma ClientEntersDrain(k: Params, e: Entry, t: Tid, a: ClientAct)
    requires ClientEnabled(e, t, a)
    ensures var e' := ApplyClient(k, e, t, a);
            t in e'.pcs && (IsDrainer(e'.pcs[t]) ==> e'.pcs[t] == (if Works(e, Client(t, a)) then Draining(Nothing) else Refusing(Nothing))
                                                     && (Works(e, Client(t, a)) || Fails(e, Client(t, a))))
  {
    if a.Observe? || a.Claim? || a.Poll? {
      LookEntersDrain(k, e, t, a);
    }
  }

  lemma ClientAddsNone(k: Params, e: Entry, t: Tid, a: ClientAct, u: Tid)
    requires ClientEnabled(e, t, a) && u != t && u in ApplyClient(k, e, t, a).pcs
    ensures u in e.pcs
  {
  }

  lemma DrainAddsNone(e: Entry, t: Tid, a: DrainAct, u: Tid)
    requires DrainEnabled(e, t, a) && u != t && u in ApplyDrain(e, t, a).pcs
    ensures u in e.pcs
  {
  }

  /** Other goroutines keep their counters; the only one that can appear is a watcher. */
  lemma OthersDoNotDrain(k: Params, e: Entry, a: Act, u: Tid)
    requires Enabled(k, e, a) && (a.Evict? || a.t != u) && u in Apply(k, e, a).pcs && IsDrainer(Apply(k, e, a).pcs[u])
    ensures u in e.pcs && e.pcs[u] == Apply(k, e, a).pcs[u]
  {
    hide ApplyClient, ApplyDrain;
    if u in e.pcs {
      OnlyOwnCounter(k, e, a, u);
    } else {
      match a
      case Client(t, act) => ClientAddsNone(k, e, t, act, u);
      case Loader(t, act) =>
      case Drain(t, act) => DrainAddsNone(e, t, act, u);
      case Tick(t, act) =>
      case Done(t, act) =>
      case Evict(act) =>
    }
  }

  lemma DrainKeepsKind(e: Entry, t: Tid, a: DrainAct)
    requires DrainEnabled(e, t, a)
    ensures var e' := ApplyDrain(e, t, a);
            t in e'.pcs && (IsDrainer(e'.pcs[t]) ==> e'.pcs[t].Draining? == e.pcs[t].Draining?)
  {
  }

  lemma StepKeepsDrainersLogged(k: Params, e: Entry, a: Act, log: Log)
    requires Safe(k, e) && Enabled(k, e, a) && DrainersLogged(e, log)
    ensures DrainersLogged(Apply(k, e, a), Note(e, a, log))
  {
    hide Apply, ApplyDrain, Safe, Works, Fails;
    var e', log' := Apply(k, e, a), Note(e, a, log);
    forall u | u in e'.pcs && IsDrainer(e'.pcs[u]) ensures u in log'.outcome && log'.outcome[u] == e'.pcs[u].Draining? {
      if a.Evict? || a.t != u {
        OthersDoNotDrain(k, e, a, u);
        NoteKeepsOthers(e, a, log, u);
      } else if a.Drain? {
        DrainStepLogs(k, e, a.t, a.drain, log);
      } else {
        EntersDrain(k, e, a);
      }
    }
  }

  lemma NoteKeepsOthers(e: Entry, a: Act, log: Log, u: Tid)
    requires a.Evict? || a.t != u
    ensures var log' := Note(e, a, log);
            (u in log'.outcome <==> u in log.outcome) && (u in log.outcome ==> log'.outcome[u] == log.outcome[u])
  {
  }

  lemma DrainStepLogs(k: Params, e: Entry, t: Tid, a: DrainAct, log: Log)
    requires DrainEnabled(e, t, a) && DrainersLogged(e, log)
    ensures var e' := Apply(k, e, Drain(t, a));
            && t in e'.pcs && Note(e, Drain(t, a), log).outcome == log.outcome && t in log.outcome
            && (IsDrainer(e'.pcs[t]) ==> log.outcome[t] == e'.pcs[t].Draining?)
  {
    DrainKeepsKind(e, t, a);
  }

  // ---- verdicts ----

  lemma ClientKeepsPlaces(k: Params, e: Entry, t: Tid, a: ClientAct)
    requires ClientEnabled(e, t, a)
    ensures var e' := ApplyClient(k, e, t, a); e'.dequeued == e.dequeued && e'.hands == e.hands
  {
  }

  lemma OthersKeepPlaces(k: Params, e: Entry, a: Act)
    requires Enabled(k, e, a) && !a.Drain?
    ensures var e' := Apply(k, e, a); e'.dequeued == e.dequeued && e'.hands == e.hands
  {
    hide ApplyClient;
    match a
    case Client(t, act) => ClientKeepsPlaces(k, e, t, act);
    case Loader(t, act) =>
    case Tick(t, act) =>
    case Done(t, act) =>
    case Evict(act) =>
  }

  /** A drain loop's goroutine takes no other steps. */
  lemma DrainersOnlyDrain(k: Params, e: Entry, a: Act)
    requires Enabled(k, e, a) && !a.Drain? && !a.Evict? && a.t in e.pcs
    ensures !IsDrainer(e.pcs[a.t])
  {
  }

  /** The answer of a request that nobody holds stays. */
  lemma AnswerStays(k: Params, e: Entry, a: Act, r: Tid, ok: bool)
    requires Orderly(k, e) && Enabled(k, e, a) && r in e.reqs && Answered(e.reqs[r], ok) && r in e.dequeued && r !in e.hands
    ensures var e' := Apply(k, e, a); r in e'.reqs && Answered(e'.reqs[r], ok)
  {
    hide Apply, Enabled;
    assert ReqAgrees(e, r);
    RecordStep(k, e, a, r);
  }

  lemma HandsAreOthers(k: Params, e: Entry, a: Act, r: Tid)
    requires Orderly(k, e) && Enabled(k, e, a) && !a.Drain? && r in e.hands
    ensures a.Evict? || a.t != e.hands[r]
  {
    if !a.Evict? && a.t in e.pcs { DrainersOnlyDrain(k, e, a); }
  }

  lemma OtherStepKeepsVerdicts(k: Params, e: Entry, a: Act, log: Log)
    requires Orderly(k, e) && Enabled(k, e, a) && !a.Drain? && VerdictsLogged(e, log)
    ensures VerdictsLogged(Apply(k, e, a), Note(e, a, log))
  {
    hide Apply, Works, Fails, Answered, Orderly;
    var e', log' := Apply(k, e, a), Note(e, a, log);
    OthersKeepPlaces(k, e, a);
    assert log'.verdict == log.verdict;
    forall r | r in e.hands ensures e.hands[r] in log'.outcome && log'.outcome[e.hands[r]] == log.outcome[e.hands[r]] {
      HandsAreOthers(k, e, a, r);
      NoteKeepsOthers(e, a, log, e.hands[r]);
    }
    forall r | r in e.dequeued && r !in e.hands ensures r in e'.reqs && Answered(e'.reqs[r], log.verdict[r]) {
      AnswerStays(k, e, a, r, log.verdict[r]);
    }
  }

  lemma PopKeepsVerdicts(k: Params, e: Entry, t: Tid, log: Log)
    requires Orderly(k, e) && DrainEnabled(e, t, Pop) && VerdictsLogged(e, log) && DrainersLogged(e, log)
    ensures VerdictsLogged(ApplyDrain(e, t, Pop), Note(e, Drain(t, Pop), log))
  {
    PopShape(e, t);
    PopPlaces(e.dequeued, e.queue);
    hide ApplyDrain, Answered;
    var r := e.queue[0];
    assert ReqAgrees(e, r);
  }

  lemma HeldRecord(k: Params, e: Entry, t: Tid)
    requires Orderly(k, e) && t in e.pcs && Busy(e.pcs[t])
    ensures var r := HoldOf(e.pcs[t]).r;
            && r in e.hands && e.hands[r] == t && r in e.reqs && e.reqs[r].closes == 0 && r in e.dequeued
            && MarkOk(e.pcs[t], e.reqs[r])
  {
    assert ReqAgrees(e, HoldOf(e.pcs[t]).r);
  }

  /** What marking, answering and leaving change. */
  lemma SettleShape(e: Entry, t: Tid, a: DrainAct)
    requires DrainEnabled(e, t, a) && !a.Pop?
    ensures var e' := ApplyDrain(e, t, a);
            && e'.queue == e.queue && e'.dequeued == e.dequeued
            && (a.DrainEnd? ==> e'.hands == e.hands && e'.reqs == e.reqs)
            && (!a.DrainEnd? ==>
                  var r := HoldOf(e.pcs[t]).r;
                  && Busy(e.pcs[t]) && r in e.reqs
                  && t in e'.pcs && IsDrainer(e'.pcs[t]) && e'.pcs[t].Draining? == e.pcs[t].Draining?
                  && (a.Mark? ==> e'.hands == e.hands && HeldBy(e'.pcs[t], r)
                                  && r in e'.reqs && e'.reqs == e.reqs[r := e'.reqs[r]])
                  && (a.Close? ==> e'.hands == e.hands - {r} && HoldOf(e.pcs[t]).Marked?
                                   && e'.reqs == e.reqs[r := e.reqs[r].(closes := e.reqs[r].closes + 1)]))
  {
  }

  lemma MarkKeepsVerdicts(e: Entry, e': Entry, r: Tid, log: Log)
    requires VerdictsLogged(e, log) && e'.dequeued == e.dequeued && e'.hands == e.hands && r in e.hands
    requires r in e'.reqs && e'.reqs == e.reqs[r := e'.reqs[r]]
    ensures VerdictsLogged(e', log)
  {
    hide Answered;
  }

  lemma CloseKeepsVerdicts(e: Entry, e': Entry, t: Tid, r: Tid, log: Log)
    requires VerdictsLogged(e, log) && e'.dequeued == e.dequeued && e'.hands == e.hands - {r} && r in e.hands && e.hands[r] == t
    requires r in e.reqs && e'.reqs == e.reqs[r := e.reqs[r].(closes := e.reqs[r].closes + 1)]
    requires t in log.outcome && Answered(e.reqs[r].(closes := 1), log.outcome[t]) && e.reqs[r].closes == 0
    ensures VerdictsLogged(e', log)
  {
    hide Answered;
  }

  lemma SettleKeepsVerdicts(k: Params, e: Entry, t: Tid, a: DrainAct, log: Log)
    requires Orderly(k, e) && DrainEnabled(e, t, a) && !a.Pop? && VerdictsLogged(e, log) && DrainersLogged(e, log)
    ensures VerdictsLogged(ApplyDrain(e, t, a), log)
  {
    hide ApplyDrain, Orderly, VerdictsLogged;
    var e' := ApplyDrain(e, t, a);
    SettleShape(e, t, a);
    if a.DrainEnd? {
      SameVerdicts(e, e', log);
    } else {
      HeldRecord(k, e, t);
      if a.Mark? {
        MarkKeepsVerdicts(e, e', HoldOf(e.pcs[t]).r, log);
      } else {
        CloseKeepsVerdicts(e, e', t, HoldOf(e.pcs[t]).r, log);
      }
    }
  }

  lemma SameVerdicts(e: Entry, e': Entry, log: Log)
    requires VerdictsLogged(e, log) && e'.dequeued == e.dequeued && e'.hands == e.hands && e'.reqs == e.reqs
    ensures VerdictsLogged(e', log)
  {
    hide Answered;
  }

  lemma StepKeepsVerdicts(k: Params, e: Entry, a: Act, log: Log)
    requires Orderly(k, e) && Enabled(k, e, a) && VerdictsLogged(e, log) && DrainersLogged(e, log)
    ensures VerdictsLogged(Apply(k, e, a), Note(e, a, log))
  {
    hide Orderly, VerdictsLogged, DrainersLogged;
    if !a.Drain? {
      OtherStepKeepsVerdicts(k, e, a, log);
    } else if a.drain.Pop? {
      PopKeepsVerdicts(k, e, a.t, log);
    } else {
      SettleKeepsVerdicts(k, e, a.t, a.drain, log);
    }
  }

  lemma {:induction false} RunKeepsLog(k: Params, e: Entry, acts: seq<Act>, log: Log)
    requires Safe(k, e) && Orderly(k, e) && DrainersLogged(e, log) && VerdictsLogged(e, log) && ValidRun(k, e, acts)
    ensures var e', log' := Exec(k, e, acts), Logged(k, e, acts, log);
            Orderly(k, e') && DrainersLogged(e', log') && VerdictsLogged(e', log')
    decreases |acts|
  {
    hide Safe, Orderly, VerdictsLogged, DrainersLogged, Apply, Note;
    if acts != [] {
      StepKeepsSafe(k, e, acts[0]);
      StepKeepsOrder(k, e, acts[0]);
      StepKeepsDrainersLogged(k, e, acts[0], log);
      StepKeepsVerdicts(k, e, acts[0], log);
      RunKeepsLog(k, Apply(k, e, acts[0]), acts[1..], Note(e, acts[0], log));
    }
  }

  const NOTHING_YET := Log(map[], map[])

  /**
   In every run a request that came through the queue and was answered was
   received by a goroutine whose last load, wake or wait decided the answer: it is
   counted and released if that worked, refused if it failed.
   */
  lemma AnswersFollowOutcomes(k: Params, acts: seq<Act>, r: Tid)
    requires ValidRun(k, INITIAL, acts)
    requires var e := Exec(k, INITIAL, acts); r in e.reqs && e.reqs[r].closes > 0 && !e.reqs[r].fast
    ensures var q, log := Exec(k, INITIAL, acts).reqs[r], Logged(k, INITIAL, acts, NOTHING_YET);
            r in log.verdict && q.closes == 1 && q.counted == log.verdict[r] && q.err == !log.verdict[r]
  {
    InitiallySafe(k);
    InitiallyOrderly(k);
    RunKeepsLog(k, INITIAL, acts, NOTHING_YET);
    assert ReqAgrees(Exec(k, INITIAL, acts), r);
  }

  // ---- from the outcome to the answer ----

  /** Goroutine `t` does not find the queue empty, and nobody else receives `r`. */
  predicate Undisturbed(k: Params, e: Entry, acts: seq<Act>, t: Tid, r: Tid)
    requires ValidRun(k, e, acts)
    decreases |acts|
  {
    acts == [] ||
    (&& acts[0] != Drain(t, DrainEnd)
     && (acts[0].Drain? && acts[0].drain.Pop? && e.queue != [] && e.queue[0] == r ==> acts[0].t == t)
     && Undisturbed(k, Apply(k, e, acts[0]), acts[1..], t, r))
  }

  /** While `t` drains: `r` is queued, in the hands of `t`, or answered as it should be. */
  ghost predicate InCare(e: Entry, t: Tid, r: Tid, ok: bool) {
    && t in e.pcs && IsDrainer(e.pcs[t]) && e.pcs[t].Draining? == ok && r in e.reqs
    && (r in e.queue || HeldBy(e.pcs[t], r) || (r in e.dequeued && r !in e.hands && Answered(e.reqs[r], ok)))
  }

  lemma OwnDrainKeepsCare(k: Params, e: Entry, t: Tid, a: DrainAct, r: Tid, ok: bool)
    requires Orderly(k, e) && DrainEnabled(e, t, a) && InCare(e, t, r, ok) && !a.DrainEnd?
    ensures InCare(ApplyDrain(e, t, a), t, r, ok)
  {
    if a.Pop? {
      PopShape(e, t);
      PopPlaces(e.dequeued, e.queue);
      DrainKeepsKind(e, t, a);
      hide ApplyDrain, Orderly;
      assert e.queue == [e.queue[0]] + e.queue[1..];
    } else {
      SettleShape(e, t, a);
      hide ApplyDrain, Orderly;
      HeldRecord(k, e, t);
    }
  }

  lemma QueueKeeps(k: Params, e: Entry, a: Act, r: Tid)
    requires Enabled(k, e, a) && r in e.queue && !(a.Drain? && a.drain.Pop? && e.queue[0] == r)
    ensures r in Apply(k, e, a).queue
  {
    hide ApplyClient;
    match a
    case Client(t, act) => ClientKeepsQueued(k, e, t, act, r);
    case Loader(t, act) =>
    case Drain(t, act) => if act.Pop? { assert e.queue == [e.queue[0]] + e.queue[1..]; }
    case Tick(t, act) =>
    case Done(t, act) =>
    case Evict(act) =>
  }

  lemma ClientKeepsQueued(k: Params, e: Entry, t: Tid, a: ClientAct, r: Tid)
    requires ClientEnabled(e, t, a) && r in e.queue
    ensures r in ApplyClient(k, e, t, a).queue
  {
  }

  lemma OthersKeepAnswered(k: Params, e: Entry, a: Act, r: Tid)
    requires Enabled(k, e, a) && Orderly(k, e) && r in e.dequeued && r !in e.hands
    ensures var e' := Apply(k, e, a); r in e'.dequeued && r !in e'.hands
  {
    if !a.Drain? {
      hide Apply;
      OthersKeepPlaces(k, e, a);
    } else if a.drain.Pop? {
      PopShape(e, a.t);
      PopPlaces(e.dequeued, e.queue);
    }
  }

  lemma OtherStepKeepsCare(k: Params, e: Entry, a: Act, t: Tid, r: Tid, ok: bool)
    requires Orderly(k, e) && Enabled(k, e, a) && InCare(e, t, r, ok) && (a.Evict? || a.t != t)
    requires !(a.Drain? && a.drain.Pop? && e.queue != [] && e.queue[0] == r)
    ensures InCare(Apply(k, e, a), t, r, ok)
  {
    hide Apply, Enabled, Orderly, Answered;
    OnlyOwnCounter(k, e, a, t);
    RecordStep(k, e, a, r);
    if r in e.queue {
      QueueKeeps(k, e, a, r);
    } else if !HeldBy(e.pcs[t], r) {
      OthersKeepAnswered(k, e, a, r);
      AnswerStays(k, e, a, r, ok);
    }
  }

  lemma {:induction false} CareEndsInAnswer(k: Params, e: Entry, acts: seq<Act>, t: Tid, r: Tid, ok: bool)
    requires Orderly(k, e) && InCare(e, t, r, ok) && ValidRun(k, e, acts) && Undisturbed(k, e, acts, t, r)
    requires DrainEnabled(Exec(k, e, acts), t, DrainEnd)
    ensures var e' := Exec(k, e, acts); r in e'.reqs && Answered(e'.reqs[r], ok)
    decreases |acts|
  {
    hide Orderly, Apply, Answered;
    if acts != [] {
      var a := acts[0];
      StepKeepsOrder(k, e, a);
      if !a.Evict? && a.t == t {
        if !a.Drain? { DrainersOnlyDrain(k, e, a); }
        OwnCare(k, e, a, r, ok);
      } else {
        OtherStepKeepsCare(k, e, a, t, r, ok);
      }
      CareEndsInAnswer(k, Apply(k, e, a), acts[1..], t, r, ok);
    }
  }

  lemma OwnCare(k: Params, e: Entry, a: Act, r: Tid, ok: bool)
    requires Orderly(k, e) && a.Drain? && Enabled(k, e, a) && InCare(e, a.t, r, ok) && !a.drain.DrainEnd?
    ensures InCare(Apply(k, e, a), a.t, r, ok)
  {
    OwnDrainKeepsCare(k, e, a.t, a.drain, r, ok);
  }

  /** After a step that works or fails its goroutine starts to empty the queue accordingly. */
  lemma OutcomeDrains(k: Params, e: Entry, a: Act)
    requires Safe(k, e) && Enabled(k, e, a) && (Works(e, a) || Fails(e, a))
    ensures var e' := Apply(k, e, a);
            a.t in e'.pcs && e'.pcs[a.t] == (if Works(e, a) then Draining(Nothing) else Refusing(Nothing)) && e'.queue == e.queue
  {
    match a
    case Client(t, act) =>
      hide Safe;
      ClientOutcomeDrains(k, e, t, act);
      hide ApplyClient;
    case Loader(t, act) => hide Safe;
    case Done(t, act) =>
      assert PcAgrees(k, e.core, e.nextPid, e.pcs[t]);
      hide Safe;
  }

  lemma ClientOutcomeDrains(k: Params, e: Entry, t: Tid, a: ClientAct)
    requires ClientEnabled(e, t, a) && (Works(e, Client(t, a)) || Fails(e, Client(t, a)))
    ensures var e' := ApplyClient(k, e, t, a);
            && t in e'.pcs && e'.pcs[t] == (if Works(e, Client(t, a)) then Draining(Nothing) else Refusing(Nothing))
            && e'.queue == e.queue
  {
  }

  lemma OutcomeTakesCare(k: Params, e: Entry, a: Act, r: Tid)
    requires Safe(k, e) && Orderly(k, e) && Enabled(k, e, a) && (Works(e, a) || Fails(e, a)) && r in e.queue
    ensures InCare(Apply(k, e, a), a.t, r, Works(e, a))
  {
    OutcomeDrains(k, e, a);
    hide Apply, Works, Fails, Safe;
    assert r in e.enqueued;
    RecordStep(k, e, a, r);
  }

  /**
   From every reachable state: a queued request, a step that works or fails, and
   then its goroutine draining until it finds the queue empty.  Unless another
   goroutine receives the request first, it is then closed, counted and without
   `err` if the step worked, not counted and with `err` if it failed.
   */
  lemma OutcomeDecides(k: Params, before: seq<Act>, a: Act, during: seq<Act>, r: Tid)
    requires ValidRun(k, INITIAL, before)
    requires var e := Exec(k, INITIAL, before); r in e.queue && Enabled(k, e, a) && (Works(e, a) || Fails(e, a))
    requires var e1 := Apply(k, Exec(k, INITIAL, before), a);
             && ValidRun(k, e1, during) && Undisturbed(k, e1, during, a.t, r)
             && Enabled(k, Exec(k, e1, during), Drain(a.t, DrainEnd))
    ensures var e := Exec(k, INITIAL, before);
            var q' := Exec(k, Apply(k, e, a), during).reqs;
            r in q' && q'[r].closes == 1 && (q'[r].counted <==> Works(e, a)) && (q'[r].err <==> Fails(e, a))
  {
    assert !a.Evict?;
    hide Apply, Orderly, Safe, Works, Fails;
    InitiallySafe(k);
    InitiallyOrderly(k);
    RunKeepsSafe(k, INITIAL, before);
    RunKeepsOrder(k, INITIAL, before);
    var e := Exec(k, INITIAL, before);
    OutcomeTakesCare(k, e, a, r);
    StepKeepsOrder(k, e, a);
    NeverBoth(e, a);
    CareEndsInAnswer(k, Apply(k, e, a), during, a.t, r, Works(e, a));
  }

  lemma NeverBoth(e: Entry, a: Act)
    ensures !(Works(e, a) && Fails(e, a))
  {
  }
}
