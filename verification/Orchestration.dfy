/**
 The runtime objects: one `ModelEntry` per model instance, the shared
 `MemoryState`, and the `Orchestrator` that owns both together with the oracles
 standing for nvidia-smi, /proc/meminfo and the sleep endpoint.
 */
module Orchestration {
  import opened Lifecycle
  import opened Sequences
  import opened Eviction
  import opened Snapshots

  /** A queued HTTP request: how often its `done` was closed, its refusal flag, and the 503 answers written to it. */
  class Request {
    var closes: nat
    var err: bool
    var answers503: nat

    constructor ()
      ensures closes == 0 && !err && answers503 == 0
    {
      closes, err, answers503 := 0, false, 0;
    }
  }

  class ModelEntry {
    const cfg: ModelCfg
    const mem: Memory            // constant once the model has been measured
    var state: ModelState
    var proc: Option<Pid>
    var activeRequests: int
    var assignedGroupIdx: int
    var reservedVRAMMB: int
    var lastCompleted: int
    var queue: seq<Request>

    constructor (cfg: ModelCfg, mem: Memory)
      ensures this.cfg == cfg && this.mem == mem && Run() == FRESH && queue == []
    {
      this.cfg, this.mem := cfg, mem;
      lastCompleted, queue := 0, [];
      state, proc, activeRequests, assignedGroupIdx, reservedVRAMMB := Unloaded, None, 0, -1, 0;
    }

    function Run(): Core
      reads this
    {
      Core(state, proc, activeRequests, assignedGroupIdx, reservedVRAMMB)
    }

    function View(): Model
      reads this
    {
      Model(cfg, mem, Run())
    }

    /** `killAndUnload`: no effect unless `p` is still the current process. */
    method KillAndUnload(p: Option<Pid>)
      modifies this
      ensures Run() == UnloadIfCurrent(old(Run()), p)
      ensures queue == old(queue) && lastCompleted == old(lastCompleted)
    {
      if proc != p {
        return;
      }
      state := Unloaded;
      proc := None;
      assignedGroupIdx := -1;
      reservedVRAMMB := 0;
    }
  }

  class MemoryState {
    const groups: seq<Group>
    var measuredFree: seq<int>
    var freeCPURAMB: int

    ghost predicate Valid()
      reads this
    {
      |measuredFree| == |groups|
    }

    constructor (groups: seq<Group>, freeCPU: int)
      ensures this.groups == groups && Valid() && freeCPURAMB == freeCPU
      ensures forall i | 0 <= i < |groups| :: measuredFree[i] == -1
    {
      this.groups := groups;
      measuredFree := seq(|groups|, _ => -1);
      freeCPURAMB := freeCPU;
    }
  }

  class Orchestrator {
    const env: Env
    const models: seq<ModelEntry>
    const ms: MemoryState
    var clock: nat

    constructor (env: Env, models: seq<ModelEntry>, ms: MemoryState)
      ensures this.env == env && this.models == models && this.ms == ms && clock == 0
    {
      this.env, this.models, this.ms, clock := env, models, ms, 0;
    }

    function World(): (w: World)
      reads models
      ensures |w| == |models|
    {
      seq(|models|, i requires 0 <= i < |models| reads models => models[i].View())
    }

    function Now(): (s: Snap)
      reads this, ms, models
    {
      Snap(clock, World(), ms.measuredFree, ms.freeCPURAMB)
    }

    ghost predicate Valid()
      reads this, ms, models
    {
      Distinct(models) && ms.groups == env.groups && Ok(env, Now())
    }

    /** Replaces one entry's fields; every other entry keeps its own. */
    method SetRun(i: nat, run: Core)
      requires i < |models| && Distinct(models)
      modifies models[i]
      ensures Now() == old(Now()).(world := old(World())[i := old(World())[i].(run := run)])
    {
      var me := models[i];
      me.state, me.proc, me.activeRequests := run.state, run.proc, run.active;
      me.assignedGroupIdx, me.reservedVRAMMB := run.group, run.reserved;
      assert forall j | 0 <= j < |models| && j != i :: models[j] != me;
      assert World() == old(World())[i := old(World())[i].(run := run)];
    }

    /** `refreshMemory` */
    method RefreshMemory()
      requires Valid()
      modifies this`clock, ms
      ensures Valid() && Now() == Refreshed(env, old(Now()))
    {
      clock := clock + 1;
      assert World() == old(World());
      var free := env.smi(clock, World());
      if free.None? || |free.value| != |ms.groups| {
        return;
      }
      ms.measuredFree := free.value;
      var cpu := env.meminfo(clock, World());
      if cpu.None? {
        return;
      }
      ms.freeCPURAMB := cpu.value;
    }

    method SleepModel(i: nat, level: int) returns (ok: bool)
      requires Valid()
      modifies this`clock
      ensures Valid() && Now() == old(Now()).(clock := old(clock) + 1)
      ensures ok == env.sleepOk(old(clock) + 1, i, level)
    {
      clock := clock + 1;
      assert World() == old(World());
      ok := env.sleepOk(clock, i, level);
    }

    /** `waitVRAMStable` */
    method WaitVramStable(g: nat, freeBefore: int, expected: int)
      requires Valid() && g < |ms.groups|
      modifies this`clock, ms
      ensures Valid() && Now() == Waited(env, old(Now()), g, freeBefore, expected)
    {
      var threshold := freeBefore + Percent(expected, 75);
      var jitter := Percent(expected, 1);
      if jitter < 10 {
        jitter := 10;
      }
      var prev := ms.measuredFree[g];
      var elapsed := 0;
      ghost var left: nat := 20;
      while elapsed < 10000
        invariant Valid() && prev == ms.measuredFree[g]
        invariant elapsed == 10000 - 500 * left
        invariant Waited(env, old(Now()), g, freeBefore, expected) == Settle(env, Now(), g, threshold, jitter, left)
        decreases left
      {
        elapsed := elapsed + 500;
        left := left - 1;
        RefreshMemory();
        var cur := ms.measuredFree[g];
        var diff := if cur < prev then prev - cur else cur - prev;
        if cur >= threshold && diff <= jitter {
          return;
        }
        prev := cur;
      }
    }
  }
}
