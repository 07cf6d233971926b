/**
 No goroutine is stuck and no process goes unwatched: in every reachable state a
 goroutine that has not finished can step, unless it waits for an answer that only
 others can give, and an entry that is up has a watcher on its process.
 */
module Progress {
  import opened Lifecycle
  import opened Protocol
  import opened ProtocolSafety
  import opened Requests

  /** A startup load waits at the door for its answer; an HTTP client may give up. */
  predicate Waits(e: Entry, t: Tid) {
    At(e, t, AtDoor) && t in e.reqs && e.reqs[t].kind == Startup && e.reqs[t].closes == 0
  }

  /** Goroutines before, at and after their handler. */
  lemma HandlerSteps(k: Params, e: Entry, t: Tid) returns (a: Act)
    requires OwnersAgree(e) && t in e.pcs && !Waits(e, t)
    requires e.pcs[t].Entering? || e.pcs[t].Enqueuing? || e.pcs[t].Observing? || e.pcs[t].Claiming? || e.pcs[t].Waiting?
             || e.pcs[t].AtDoor? || e.pcs[t].Forwarding?
    ensures !a.Evict? && a.t == t && Enabled(k, e, a)
  {
    assert OfHandler(e.pcs[t]);
    match e.pcs[t]
    case Entering => a := Client(t, Enter);
    case Enqueuing => a := Client(t, Enqueue);
    case Observing => a := Client(t, Observe);
    case Claiming => a := Client(t, Claim);
    case Waiting => a := Client(t, Poll);
    case AtDoor => a := Client(t, if e.reqs[t].closes > 0 then SeeDone else Cancel);
    case Forwarding => a := Client(t, Complete);
  }

  lemma DrainerSteps(k: Params, e: Entry, t: Tid) returns (a: Act)
    requires Orderly(k, e) && t in e.pcs && IsDrainer(e.pcs[t])
    ensures !a.Evict? && a.t == t && Enabled(k, e, a)
  {
    match HoldOf(e.pcs[t])
    case Nothing => a := Drain(t, if e.queue == [] then DrainEnd else Pop);
    case Popped(r) => a := Drain(t, Mark);
    case Marked(r) => a := Drain(t, Close);
  }

  /** A number that is no goroutine's. */
  lemma FreshId(s: set<Tid>) returns (w: Tid)
    ensures w !in s
  {
    if s == {} {
      w := 0;
    } else {
      var m := Largest(s);
      w := m + 1;
    }
  }

  lemma {:induction false} Largest(s: set<Tid>) returns (m: Tid)
    requires s != {}
    ensures m in s && forall x | x in s :: x <= m
    decreases |s|
  {
    m :| m in s;
    var rest := s - {m};
    if rest != {} {
      var n := Largest(rest);
      assert forall x | x in s :: x == m || x in rest;
      if n > m {
        m := n;
      }
    }
  }

  lemma LoaderSteps(k: Params, e: Entry, t: Tid) returns (a: Act)
    requires t in e.pcs && IsLoader(e.pcs[t])
    ensures !a.Evict? && a.t == t && Enabled(k, e, a)
  {
    match e.pcs[t]
    case Assigning(Locking) => a := Loader(t, BeginAssign);
    case Assigning(Reading(_, _)) => a := Loader(t, EndReading);
    case Assigning(Choosing(_)) => a := Loader(t, AssignFail);
    case Launching(_) => a := Loader(t, LaunchOk);
    case Probing(_) =>
      var w := FreshId(e.pcs.Keys + e.reqs.Keys);
      a := Loader(t, HealthOk(w, None));
  }

  lemma BackgroundSteps(k: Params, e: Entry, t: Tid) returns (a: Act)
    requires Safe(k, e) && t in e.pcs
    requires e.pcs[t].TtlSaw? || e.pcs[t].TtlCpu? || e.pcs[t].SleepCall? || e.pcs[t].KillCall? || e.pcs[t].Watching? || e.pcs[t].Waking?
    ensures !a.Evict? && a.t == t && Enabled(k, e, a)
  {
    match e.pcs[t]
    case TtlSaw(s) => a := Tick(t, if s == Active && k.engine == VLLM then TtlReadCpu(0) else TtlCapture);
    case TtlCpu(_) => a := Tick(t, TtlCapture);
    case SleepCall(_, _) => a := Done(t, SleepDone(true));
    case KillCall(_) => a := Done(t, KillDone);
    case Watching(_) => a := Done(t, Crash);
    case Waking(_, _) => a := Done(t, WakeDone(true));
  }

  /** In every reachable state each goroutine has finished, waits for an answer at the door, or can step. */
  lemma NeverStuck(k: Params, acts: seq<Act>, t: Tid) returns (a: Act)
    requires ValidRun(k, INITIAL, acts)
    requires var e := Exec(k, INITIAL, acts); t in e.pcs && !e.pcs[t].Finished? && !Waits(e, t)
    ensures !a.Evict? && a.t == t && Enabled(k, Exec(k, INITIAL, acts), a)
  {
    hide Safe, Enabled;
    InitiallySafe(k);
    InitiallyOrderly(k);
    RunKeepsSafe(k, INITIAL, acts);
    RunKeepsOrder(k, INITIAL, acts);
    var e := Exec(k, INITIAL, acts);
    if IsDrainer(e.pcs[t]) {
      a := DrainerSteps(k, e, t);
    } else if IsLoader(e.pcs[t]) {
      a := LoaderSteps(k, e, t);
    } else if OfHandler(e.pcs[t]) && !e.pcs[t].Waking? {
      a := HandlerSteps(k, e, t);
    } else {
      a := BackgroundSteps(k, e, t);
    }
  }

  /** A goroutine in a slow call may see it succeed or fail. */
  lemma CallsMayFail(k: Params, e: Entry, t: Tid)
    requires t in e.pcs
    ensures e.pcs[t].Launching? ==> Enabled(k, e, Loader(t, LaunchOk)) && Enabled(k, e, Loader(t, LaunchFail))
    ensures e.pcs[t].Probing? ==>
              && Enabled(k, e, Loader(t, HealthFail))
              && forall w: Tid, size | w !in e.pcs && w !in e.reqs :: Enabled(k, e, Loader(t, HealthOk(w, size)))
    ensures e.pcs[t].Waking? ==> forall ok :: Enabled(k, e, Done(t, WakeDone(ok)))
    ensures e.pcs[t].SleepCall? ==> forall ok :: Enabled(k, e, Done(t, SleepDone(ok)))
    ensures e.pcs[t].Assigning? && e.pcs[t].phase.Choosing? ==>
              && Enabled(k, e, Loader(t, AssignFail))
              && forall g, needed | g >= 0 && g !in e.pcs[t].phase.exclude :: Enabled(k, e, Loader(t, AssignOk(g, needed)))
  {
  }

  // ---- the end of a goroutine ----

  lemma FinishedStep(k: Params, e: Entry, a: Act, t: Tid)
    requires At(e, t, Finished) && Enabled(k, e, a)
    ensures a.Evict? || a.t != t
    ensures At(Apply(k, e, a), t, Finished)
  {
    if a.Evict? || a.t != t {
      OnlyOwnCounter(k, e, a, t);
    }
  }

  /** A finished goroutine takes no step any more. */
  lemma {:induction false} FinishedForGood(k: Params, e: Entry, acts: seq<Act>, t: Tid)
    requires At(e, t, Finished) && ValidRun(k, e, acts)
    ensures At(Exec(k, e, acts), t, Finished)
    ensures forall n | 0 <= n < |acts| :: acts[n].Evict? || acts[n].t != t
    decreases |acts|
  {
    hide Apply, Enabled;
    if acts != [] {
      FinishedStep(k, e, acts[0], t);
      FinishedForGood(k, Apply(k, e, acts[0]), acts[1..], t);
      assert forall n | 1 <= n < |acts| :: acts[n] == acts[1..][n - 1];
    }
  }

  /** A client that gives up is never forwarded nor completed, so if its request was counted the counter keeps it for ever. */
  lemma CancelledIsGone(k: Params, e: Entry, acts: seq<Act>, t: Tid)
    requires ClientEnabled(e, t, Cancel) && ValidRun(k, Apply(k, e, Client(t, Cancel)), acts)
    ensures forall n | 0 <= n < |acts| :: acts[n] != Client(t, SeeDone) && acts[n] != Client(t, Complete)
    ensures At(Exec(k, Apply(k, e, Client(t, Cancel)), acts), t, Finished)
  {
    FinishedForGood(k, Apply(k, e, Client(t, Cancel)), acts, t);
  }

  // ---- one load per handler ----

  /** Places from which a goroutine neither claims a load nor runs one. */
  predicate BeyondLoading(pc: Pc) {
    !pc.Entering? && !pc.Enqueuing? && !pc.Observing? && !pc.Claiming? && !IsLoader(pc)
  }

  lemma StaysBeyond(k: Params, e: Entry, a: Act, t: Tid)
    requires t in e.pcs && BeyondLoading(e.pcs[t]) && Enabled(k, e, a)
    ensures a != Client(t, Claim) && !(a.Loader? && a.t == t)
    ensures var e' := Apply(k, e, a); t in e'.pcs && BeyondLoading(e'.pcs[t])
  {
    if a.Evict? || a.t != t {
      OnlyOwnCounter(k, e, a, t);
    } else {
      assert !a.Loader?;
    }
  }

  lemma {:induction false} StaysBeyondForGood(k: Params, e: Entry, acts: seq<Act>, t: Tid)
    requires t in e.pcs && BeyondLoading(e.pcs[t]) && ValidRun(k, e, acts)
    ensures forall n | 0 <= n < |acts| :: acts[n] != Client(t, Claim) && !(acts[n].Loader? && acts[n].t == t)
    decreases |acts|
  {
    hide Apply, Enabled, BeyondLoading;
    if acts != [] {
      StaysBeyond(k, e, acts[0], t);
      StaysBeyondForGood(k, Apply(k, e, acts[0]), acts[1..], t);
      assert forall n | 1 <= n < |acts| :: acts[n] == acts[1..][n - 1];
    }
  }

  /** A handler claims at most once, and one that meets another's load follows it to its end and never loads itself. */
  lemma FollowersNeverLoad(k: Params, e: Entry, a: ClientAct, t: Tid, acts: seq<Act>)
    requires a.Claim? || (a.Observe? && e.core.state == Loading)
    requires ClientEnabled(e, t, a) && ValidRun(k, Apply(k, e, Client(t, a)), acts)
    ensures forall n | 0 <= n < |acts| ::
              acts[n] != Client(t, Claim) && (e.core.state != Unloaded ==> !(acts[n].Loader? && acts[n].t == t))
  {
    var e' := Apply(k, e, Client(t, a));
    if e.core.state == Unloaded {
      assert IsLoader(e'.pcs[t]);
      LoadersClaimNoMore(k, e', acts, t);
    } else {
      assert BeyondLoading(e'.pcs[t]);
      StaysBeyondForGood(k, e', acts, t);
    }
  }

  lemma LoaderStaysOn(k: Params, e: Entry, a: Act, t: Tid)
    requires t in e.pcs && IsLoader(e.pcs[t]) && Enabled(k, e, a)
    ensures a != Client(t, Claim)
    ensures var e' := Apply(k, e, a); t in e'.pcs && (IsLoader(e'.pcs[t]) || BeyondLoading(e'.pcs[t]))
  {
    if a.Evict? || a.t != t {
      OnlyOwnCounter(k, e, a, t);
    } else {
      assert a.Loader?;
    }
  }

  lemma {:induction false} LoadersClaimNoMore(k: Params, e: Entry, acts: seq<Act>, t: Tid)
    requires t in e.pcs && IsLoader(e.pcs[t]) && ValidRun(k, e, acts)
    ensures forall n | 0 <= n < |acts| :: acts[n] != Client(t, Claim)
    decreases |acts|
  {
    hide Apply, Enabled, BeyondLoading, IsLoader;
    if acts != [] {
      LoaderStaysOn(k, e, acts[0], t);
      var next := Apply(k, e, acts[0]);
      if IsLoader(next.pcs[t]) {
        LoadersClaimNoMore(k, next, acts[1..], t);
      } else {
        StaysBeyondForGood(k, next, acts[1..], t);
      }
      assert forall n | 1 <= n < |acts| :: acts[n] == acts[1..][n - 1];
    }
  }

  // ---- watchers ----

  /** A watcher may stop exactly when there is nothing left to watch: another process, or none that serves. */
  lemma WatcherMayStopIff(k: Params, e: Entry, t: Tid)
    requires t in e.pcs && e.pcs[t].Watching?
    ensures Enabled(k, e, Tick(t, WatchStop)) <==> !(Up(e.core.state) && e.core.proc == Some(e.pcs[t].watched))
  {
  }

  /** An entry that is up has a watcher on its process. */
  ghost predicate Watched(e: Entry) {
    Up(e.core.state) ==> exists t :: t in e.pcs && e.pcs[t].Watching? && e.core.proc == Some(e.pcs[t].watched)
  }

  /** A watcher leaves only when its process is not current any more, or was just unloaded by it. */
  lemma WatcherStays(k: Params, e: Entry, a: Act, t: Tid)
    requires Safe(k, e) && Enabled(k, e, a) && t in e.pcs && e.pcs[t].Watching? && e.core.proc == Some(e.pcs[t].watched)
    ensures var e' := Apply(k, e, a);
            Up(e.core.state) && Up(e'.core.state) ==>
              t in e'.pcs && e'.pcs[t] == e.pcs[t] && e'.core.proc == e.core.proc
  {
    if a.Evict? || a.t != t {
      OnlyOwnCounter(k, e, a, t);
    }
    if Up(e.core.state) && Up(Apply(k, e, a).core.state) {
      KeepsProcess(k, e, a);
    }
  }

  lemma KeepsProcess(k: Params, e: Entry, a: Act)
    requires Safe(k, e) && Enabled(k, e, a) && Up(e.core.state) && Up(Apply(k, e, a).core.state)
    ensures Apply(k, e, a).core.proc == e.core.proc
  {
    match a
    case Client(t, act) => ClientKeepsProcess(k, e, t, act);
    case Loader(t, act) => LoaderIsLoading(k, e, t, act);
    case Drain(t, act) =>
    case Tick(t, act) =>
    case Done(t, act) =>
    case Evict(act) =>
  }

  lemma LoaderIsLoading(k: Params, e: Entry, t: Tid, a: LoaderAct)
    requires Safe(k, e) && LoaderEnabled(e, t, a)
    ensures e.core.state == Loading
  {
    assert IsLoader(e.pcs[t]);
  }

  lemma ClientKeepsProcess(k: Params, e: Entry, t: Tid, a: ClientAct)
    requires ClientEnabled(e, t, a)
    ensures ApplyClient(k, e, t, a).core.proc == e.core.proc
  {
  }

  /** Only a finished load brings an entry up, and it starts a watcher. */
  lemma ComesUpWatched(k: Params, e: Entry, a: Act)
    requires Safe(k, e) && Enabled(k, e, a) && !Up(e.core.state) && Up(Apply(k, e, a).core.state)
    ensures Watched(Apply(k, e, a))
  {
    match a
    case Client(t, act) => ClientDoesNotRaise(k, e, t, act);
    case Loader(t, act) =>
      assert PcAgrees(k, e.core, e.nextPid, e.pcs[t]) && LoaderView(k, e.core, e.pcs[t]);
      RaisedByHealth(k, e, t, act);
    case Drain(t, act) =>
    case Tick(t, act) =>
    case Done(t, act) => DoneDoesNotRaise(k, e, t, act);
    case Evict(act) =>
  }

  lemma RaisedByHealth(k: Params, e: Entry, t: Tid, a: LoaderAct)
    requires Safe(k, e) && LoaderEnabled(e, t, a) && LoaderView(k, e.core, e.pcs[t]) && Up(ApplyLoader(k, e, t, a).core.state)
    requires !Up(e.core.state)
    ensures Watched(ApplyLoader(k, e, t, a))
  {
    assert IsLoader(e.pcs[t]);
    if a.HealthOk? {
      var e' := ApplyLoader(k, e, t, a);
      assert a.watcher in e'.pcs && e'.pcs[a.watcher] == Watching(e.pcs[t].p);
    }
  }

  lemma ClientDoesNotRaise(k: Params, e: Entry, t: Tid, a: ClientAct)
    requires ClientEnabled(e, t, a) && !Up(e.core.state)
    ensures !Up(ApplyClient(k, e, t, a).core.state)
  {
  }

  lemma DoneDoesNotRaise(k: Params, e: Entry, t: Tid, a: DoneAct)
    requires Safe(k, e) && DoneEnabled(e, t, a) && !Up(e.core.state)
    ensures !Up(ApplyDone(e, t, a).core.state)
  {
    assert PcAgrees(k, e.core, e.nextPid, e.pcs[t]);
  }

  lemma StepKeepsWatched(k: Params, e: Entry, a: Act)
    requires Safe(k, e) && Enabled(k, e, a) && Watched(e)
    ensures Watched(Apply(k, e, a))
  {
    hide Apply, Enabled, Safe;
    if Up(Apply(k, e, a).core.state) {
      if Up(e.core.state) {
        var t :| t in e.pcs && e.pcs[t].Watching? && e.core.proc == Some(e.pcs[t].watched);
        WatcherStays(k, e, a, t);
      } else {
        ComesUpWatched(k, e, a);
      }
    }
  }

  lemma {:induction false} RunKeepsWatched(k: Params, e: Entry, acts: seq<Act>)
    requires Safe(k, e) && Watched(e) && ValidRun(k, e, acts)
    ensures Watched(Exec(k, e, acts))
    decreases |acts|
  {
    if acts != [] {
      StepKeepsSafe(k, e, acts[0]);
      StepKeepsWatched(k, e, acts[0]);
      RunKeepsWatched(k, Apply(k, e, acts[0]), acts[1..]);
    }
  }

  /** In every reachable state a serving or sleeping process is watched, so its crash can be noticed. */
  lemma UpIsWatched(k: Params, acts: seq<Act>)
    requires ValidRun(k, INITIAL, acts)
    ensures var e := Exec(k, INITIAL, acts);
            Up(e.core.state) ==> exists t :: t in e.pcs && e.pcs[t].Watching? && e.core.proc == Some(e.pcs[t].watched)
  {
    InitiallySafe(k);
    RunKeepsWatched(k, INITIAL, acts);
  }
}
