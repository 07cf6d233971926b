/**
 The operations of one entry as its goroutines run them, each here without
 interruption: timers, sleep and wake, queue draining, completion.  The new
 state is given by the functions of `Lifecycle` and `Ttl` that the interleaving
 machine and the timer theorems are about.  The outcomes of calls to the model
 server and the clock are parameters.
 */
module Runtime {
  import opened Lifecycle
  import opened Orchestration
  import opened Sequences
  import opened Ttl

  /** `transitionToSleep`. */
  method TransitionToSleep(ms: MemoryState, me: ModelEntry, p: Option<Pid>, level: int, sleepOk: bool)
    modifies me`state, ms`freeCPURAMB
    ensures me.Run() == if p.None? || !sleepOk then old(me.Run()) else SleepCommit(old(me.Run()), p, level)
    ensures ms.freeCPURAMB == old(ms.freeCPURAMB)
              + me.mem.weights * (if p.None? || !sleepOk then 0 else SleepCredit(old(me.Run()), p, level))
  {
    if p.None? {
      return;
    }
    if !sleepOk {
      return;
    }
    if me.proc != p {
      return;
    }
    var prevState := me.state;
    if prevState == Active && level == 1 {
      ms.freeCPURAMB := ms.freeCPURAMB - me.mem.weights;
      me.state := Sleep1;
    } else if prevState == Active && level == 2 {
      me.state := Sleep2;
    } else if prevState == Sleep1 && level == 2 {
      ms.freeCPURAMB := ms.freeCPURAMB + me.mem.weights;
      me.state := Sleep2;
    }
  }

  /** `wakeAndActivate`: on a sleeping entry it is the `Wake` of the timer model, and the idle clock restarts only then. */
  method WakeAndActivate(ms: MemoryState, me: ModelEntry, wakeOk: bool, now: int) returns (err: bool)
    modifies me`state, me`lastCompleted, ms`freeCPURAMB
    ensures err <==> old(me.proc).Some? && !wakeOk
    ensures Asleep(old(me.state)) ==>
              && me.View() == Wake(old(me.View()), wakeOk).0
              && ms.freeCPURAMB == old(ms.freeCPURAMB) + me.mem.weights * Wake(old(me.View()), wakeOk).1
    ensures me.Run() == if old(me.proc).None? || !wakeOk then old(me.Run()) else WakeCommit(old(me.Run()), old(me.proc))
    ensures me.lastCompleted == if old(me.proc).None? || !wakeOk then old(me.lastCompleted) else now
  {
    var p := me.proc;
    var prevState := me.state;
    if p.None? {
      return false;
    }
    if !wakeOk {
      return true;
    }
    if me.proc != p {
      return false;
    }
    if prevState == Sleep1 {
      ms.freeCPURAMB := ms.freeCPURAMB + me.mem.weights;
    }
    me.state := Active;
    me.lastCompleted := now;
    err := false;
  }

  /** `tickTTL`: one tick takes the entry where `Ttl.Tick` says, and books the CPU RAM that this moves. */
  method TickTTL(ms: MemoryState, me: ModelEntry, ttl: Timers, now: int, sleepOk: bool)
    modifies me, ms`freeCPURAMB
    ensures me.View() == Tick(old(me.View()), now - old(me.lastCompleted), ttl, old(ms.freeCPURAMB), sleepOk)
    ensures ms.freeCPURAMB == old(ms.freeCPURAMB)
              + me.mem.weights * TickCredit(old(me.View()), now - old(me.lastCompleted), ttl, old(ms.freeCPURAMB), sleepOk)
    ensures me.queue == old(me.queue) && me.lastCompleted == old(me.lastCompleted)
  {
    var state := me.state;
    var activeReqs := me.activeRequests;
    var idle := now - me.lastCompleted;
    match state
    case Active =>
      if me.cfg.engine == LlamaCpp {
        if activeReqs > 0 || idle < ttl.unused {
          return;
        }
        me.KillAndUnload(me.proc);
        return;
      }
      if activeReqs > 0 || idle < ttl.active {
        return;
      }
      var cpuFree := ms.freeCPURAMB;
      if cpuFree >= me.mem.weights {
        TransitionToSleep(ms, me, me.proc, 1, sleepOk);
      } else {
        TransitionToSleep(ms, me, me.proc, 2, sleepOk);
      }
    case Sleep1 =>
      if activeReqs > 0 || idle < ttl.inactive {
        return;
      }
      TransitionToSleep(ms, me, me.proc, 2, sleepOk);
    case Sleep2 =>
      if activeReqs > 0 || idle < ttl.unused {
        return;
      }
      me.KillAndUnload(me.proc);
    case _ =>
  }

  /** `completeRequest`: it decrements whatever the counter is, and restarts the idle clock. */
  method CompleteRequest(me: ModelEntry, now: int)
    modifies me`activeRequests, me`lastCompleted
    ensures me.Run() == old(me.Run()).(active := old(me.activeRequests) - 1) && me.lastCompleted == now
  {
    me.activeRequests := me.activeRequests - 1;
    me.lastCompleted := now;
  }

  // ---- the queue ----

  /** `drainQueue`: every queued request is released once, first in first out, and counted as active. */
  method DrainQueue(me: ModelEntry) returns (ghost released: seq<Request>)
    requires Distinct(me.queue)
    modifies me, me.queue
    ensures me.queue == [] && released == old(me.queue)
    ensures me.Run() == old(me.Run()).(active := old(me.activeRequests) + |old(me.queue)|) && me.lastCompleted == old(me.lastCompleted)
    ensures forall rp | rp in old(me.queue) :: rp.closes == old(rp.closes) + 1 && rp.err == old(rp.err) && rp.answers503 == old(rp.answers503)
  {
    released := [];
    ghost var q := me.queue;
    ghost var n := 0;
    while me.queue != []
      invariant n <= |q| && released == q[..n] && me.queue == q[n..]
      invariant me.Run() == old(me.Run()).(active := old(me.activeRequests) + n) && me.lastCompleted == old(me.lastCompleted)
      invariant forall k | 0 <= k < n :: q[k].closes == old(q[k].closes) + 1
      invariant forall k | n <= k < |q| :: q[k].closes == old(q[k].closes)
      invariant forall k | 0 <= k < |q| :: q[k].err == old(q[k].err) && q[k].answers503 == old(q[k].answers503)
      decreases |q| - n
    {
      var rp := me.queue[0];
      assert rp == q[n];
      me.queue := me.queue[1..];
      me.activeRequests := me.activeRequests + 1;
      rp.closes := rp.closes + 1;
      released := released + [rp];
      n := n + 1;
    }
  }

  /** `drainQueueWith503`: every queued request is answered 503 and marked refused before it is closed, none is counted. */
  method DrainQueueWith503(me: ModelEntry) returns (ghost refused: seq<Request>)
    requires Distinct(me.queue)
    modifies me`queue, me.queue
    ensures me.queue == [] && refused == old(me.queue)
    ensures forall rp | rp in old(me.queue) :: rp.closes == old(rp.closes) + 1 && rp.err && rp.answers503 == old(rp.answers503) + 1
  {
    refused := [];
    ghost var q := me.queue;
    ghost var n := 0;
    while me.queue != []
      invariant n <= |q| && refused == q[..n] && me.queue == q[n..]
      invariant forall k | 0 <= k < n :: q[k].closes == old(q[k].closes) + 1 && q[k].err
      invariant forall k | 0 <= k < n :: q[k].answers503 == old(q[k].answers503) + 1
      invariant forall k | n <= k < |q| :: q[k].closes == old(q[k].closes) && q[k].answers503 == old(q[k].answers503)
      decreases |q| - n
    {
      var rp := me.queue[0];
      assert rp == q[n];
      me.queue := me.queue[1..];
      rp.answers503 := rp.answers503 + 1;
      rp.err := true;
      rp.closes := rp.closes + 1;
      refused := refused + [rp];
      n := n + 1;
    }
  }

  /** The crash handler of process `p`: nothing for a stale process; otherwise the entry is unloaded and its queue refused. */
  method OnExit(me: ModelEntry, p: Option<Pid>)
    requires Distinct(me.queue)
    modifies me, me.queue
    ensures me.Run() == UnloadIfCurrent(old(me.Run()), p)
    ensures me.queue == if old(me.proc) == p then [] else old(me.queue)
    ensures forall rp | rp in old(me.queue) ::
              if old(me.proc) == p then rp.closes == old(rp.closes) + 1 && rp.err else rp.closes == old(rp.closes) && rp.err == old(rp.err)
  {
    if me.proc != p {
      return;
    }
    me.state := Unloaded;
    me.proc := None;
    me.assignedGroupIdx := -1;
    me.reservedVRAMMB := 0;
    var _ := DrainQueueWith503(me);
  }

  /** The enqueue step of `handleRequest`: a full queue answers 503 and leaves the request open and unmarked. */
  method Enqueue(me: ModelEntry, rp: Request, depth: nat) returns (queued: bool)
    modifies me`queue, rp
    ensures queued <==> |old(me.queue)| < depth
    ensures me.queue == if queued then old(me.queue) + [rp] else old(me.queue)
    ensures rp.closes == old(rp.closes) && rp.err == old(rp.err) && rp.answers503 == old(rp.answers503) + (if queued then 0 else 1)
  {
    if |me.queue| < depth {
      me.queue := me.queue + [rp];
      return true;
    }
    rp.answers503 := rp.answers503 + 1;
    queued := false;
  }
}
