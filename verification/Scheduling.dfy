/**
 The eviction rules as they run: loops over the runtime objects, each proved to
 do exactly what the functions of `Rules` say.
 */
module Scheduling {
  import opened Lifecycle
  import opened Eviction
  import opened Snapshots
  import opened Orchestration
  import opened Candidates
  import opened Rules
  import opened Turns
  import opened Sweeps
  import opened Exhaustion

  /** `idleModels`: the idle models that a sleep rule considers, smallest first. */
  method IdleModels(o: Orchestrator, rule: Rule) returns (out: seq<nat>)
    requires rule != Offload
    ensures out == Listing(o.World(), rule, |o.models|)
  {
    out := [];
    var s := if rule == Kill then Sleep2 else Sleep1;
    for i := 0 to |o.models|
      invariant out == Listing(o.World(), rule, i)
    {
      var me := o.models[i];
      if me.state == s && me.activeRequests == 0 {
        out := Insert(out, Keys(o.World(), rule), i);
      }
    }
  }

  /** `activeModels`: the ACTIVE models, busy or not, smallest first. */
  method ActiveModels(o: Orchestrator) returns (out: seq<nat>)
    ensures out == Listing(o.World(), Offload, |o.models|)
  {
    out := [];
    for i := 0 to |o.models|
      invariant out == Listing(o.World(), Offload, i)
    {
      if o.models[i].state == Active {
        out := Insert(out, Keys(o.World(), Offload), i);
      }
    }
  }

  /** Is entry `i` on group `g`? */
  predicate There(o: Orchestrator, i: nat, g: nat)
    requires i < |o.models|
    reads o.models[i]
    ensures There(o, i, g) == OnGroup(o.models[i].View(), g)
  {
    o.models[i].assignedGroupIdx >= 0 && o.models[i].assignedGroupIdx == g
  }

  /** The field updates of one eviction. */
  method Lower(o: Orchestrator, i: nat, st: ModelState)
    requires o.Valid() && i < |o.models| && Ok(o.env, o.Now().(world := Lowered(o.World(), i, st)))
    modifies o.models[i]
    ensures o.Valid() && o.Now() == old(o.Now()).(world := Lowered(old(o.World()), i, st))
  {
    var run := o.models[i].Run();
    o.SetRun(i, if st == Unloaded then Unload(run) else run.(state := st));
  }

  /** Kill one process of the group and wait for its memory to come back. */
  method KillAndMeasure(o: Orchestrator, i: nat, g: nat)
    requires o.Valid() && i < |o.models| && g < |o.ms.groups| && Ok(o.env, o.Now().(world := Lowered(o.World(), i, Unloaded)))
    modifies o`clock, o.ms, o.models
    ensures o.Valid() && o.Now() == Killed(o.env, old(o.Now()), i, g)
  {
    var expected := o.models[i].reservedVRAMMB;
    Lower(o, i, Unloaded);
    var freeBefore := o.ms.measuredFree[g];
    o.WaitVramStable(g, freeBefore, expected);
  }

  lemma CanKill(env: Env, s: Snap, i: nat, g: nat, rule: Rule)
    requires Ok(env, s) && i < |s.world| && g < |env.groups| && OnGroup(s.world[i], g) && Candidate(s.world[i], rule)
    requires rule == Kill || (rule == Offload && s.world[i].cfg.engine == LlamaCpp && s.world[i].run.active <= 0)
    ensures Ok(env, s.(world := Lowered(s.world, i, Unloaded)))
  {
    LoweredEvicts(s.world, i, Unloaded, {g}, |env.groups|);
  }

  /** A level-2 sleep call, and a new reading if it succeeded. */
  method DeepenAndMeasure(o: Orchestrator, i: nat) returns (ok: bool)
    requires o.Valid() && i < |o.models| && Idle(o.World()[i], Sleep1)
    modifies o`clock, o.ms, o.models
    ensures o.Valid() && (if ok then Done else Refused, o.Now()) == Deepened(o.env, old(o.Now()), i)
  {
    LoweredEvicts(o.World(), i, Sleep2, {}, |o.env.groups|);
    ok := o.SleepModel(i, 2);
    if ok {
      Lower(o, i, Sleep2);
      o.RefreshMemory();
    }
  }

  // ---- what is left of a loop ----

  ghost predicate SameEnd(a: Outcome, b: Outcome) {
    a.done == b.done && a.s == b.s
  }

  /** The rest of a sweep after one candidate. */
  lemma SweepUnfolds(env: Env, s: Snap, cands: seq<nat>, n: nat, g: nat, needed: int, rule: Rule)
    requires Ok(env, s) && g < |env.groups| && n < |cands| && AllCandidates(s.world, cands[n..], rule)
    ensures cands[n] < |s.world| && Candidate(s.world[cands[n]], rule) && cands[n..] == [cands[n]] + cands[n + 1..]
    ensures !OnGroup(s.world[cands[n]], g) ==>
              && AllCandidates(s.world, cands[n + 1..], rule)
              && Sweep(env, s, cands[n..], g, needed, rule) == Sweep(env, s, cands[n + 1..], g, needed, rule)
    ensures OnGroup(s.world[cands[n]], g) ==>
              var (v, s1) := Try(env, s, cands[n], g, rule);
              && Ok(env, s1) && AllCandidates(s1.world, cands[n + 1..], rule)
              && (if v == Done && s1.free[g] >= needed
                  then SameEnd(Sweep(env, s, cands[n..], g, needed, rule), Outcome(true, s1, []))
                  else SameEnd(Sweep(env, s, cands[n..], g, needed, rule), Sweep(env, s1, cands[n + 1..], g, needed, rule)))
  {
    hide Try;
    var rest := cands[n..];
    assert rest[1..] == cands[n + 1..];
    RestSkips(s.world, rest, rule);
    if OnGroup(s.world[cands[n]], g) {
      var (v, s1) := Try(env, s, cands[n], g, rule);
      TryFacts(env, s, cands[n], g, rule);
      RestStands(env, s, s1, v, rest, g, rule);
    }
  }

  /** Rules 2 and 4. */
  method KillSleepers(o: Orchestrator, g: nat, needed: int) returns (done: bool)
    requires o.Valid() && g < |o.ms.groups|
    modifies o`clock, o.ms, o.models
    ensures o.Valid() && SameEnd(Apply(o.env, old(o.Now()), g, needed, Kill), Outcome(done, o.Now(), []))
  {
    hide Sweep, Listing, Candidate, Killed;
    ghost var r := Apply(o.env, o.Now(), g, needed, Kill);
    ListedAreCandidates(o.World(), Kill);
    var cands := IdleModels(o, Kill);
    assert cands[0..] == cands;
    var n := 0;
    while n < |cands|
      invariant n <= |cands| && o.Valid() && AllCandidates(o.World(), cands[n..], Kill)
      invariant SameEnd(r, Sweep(o.env, o.Now(), cands[n..], g, needed, Kill))
    {
      var i := cands[n];
      SweepUnfolds(o.env, o.Now(), cands, n, g, needed, Kill);
      assert There(o, i, g) == OnGroup(o.World()[i], g);
      n := n + 1;
      if There(o, i, g) {
        CanKill(o.env, o.Now(), i, g, Kill);
        KillAndMeasure(o, i, g);
        if o.ms.measuredFree[g] >= needed {
          return true;
        }
      }
    }
    done := false;
    SweepOfNone(o.env, o.Now(), g, needed, Kill);
  }

  lemma SweepOfNone(env: Env, s: Snap, g: nat, needed: int, rule: Rule)
    requires |s.free| == |env.groups| && g < |env.groups|
    ensures Sweep(env, s, [], g, needed, rule) == Outcome(false, s, [])
  {
  }

  /** Rule 3. */
  method DeepenSleepers(o: Orchestrator, g: nat, needed: int) returns (done: bool)
    requires o.Valid() && g < |o.ms.groups|
    modifies o`clock, o.ms, o.models
    ensures o.Valid() && SameEnd(Apply(o.env, old(o.Now()), g, needed, Deepen), Outcome(done, o.Now(), []))
  {
    hide Sweep, Listing, Deepened;
    ghost var r := Apply(o.env, o.Now(), g, needed, Deepen);
    ListedAreCandidates(o.World(), Deepen);
    var cands := IdleModels(o, Deepen);
    assert cands[0..] == cands;
    var n := 0;
    while n < |cands|
      invariant n <= |cands| && o.Valid() && AllCandidates(o.World(), cands[n..], Deepen)
      invariant SameEnd(r, Sweep(o.env, o.Now(), cands[n..], g, needed, Deepen))
    {
      var i := cands[n];
      SweepUnfolds(o.env, o.Now(), cands, n, g, needed, Deepen);
      assert There(o, i, g) == OnGroup(o.World()[i], g);
      n := n + 1;
      if There(o, i, g) {
        var ok := DeepenAndMeasure(o, i);
        if ok && o.ms.measuredFree[g] >= needed {
          return true;
        }
      }
    }
    done := false;
    SweepOfNone(o.env, o.Now(), g, needed, Deepen);
  }

  lemma FreeCpuUnfolds(env: Env, s: Snap, cands: seq<nat>, n: nat, need: int)
    requires Ok(env, s) && n < |cands| && AllIdleSleep1(s.world, cands[n..])
    ensures cands[n] < |s.world| && Idle(s.world[cands[n]], Sleep1)
    ensures var s1 := Refreshed(env, s);
            && Ok(env, s1)
            && if s1.cpu >= need then SameEnd(FreeCpu(env, s, cands[n..], need), Outcome(true, s1, []))
               else
                 var s2 := Deepened(env, s1, cands[n]).1;
                 && Ok(env, s2) && AllIdleSleep1(s2.world, cands[n + 1..])
                 && SameEnd(FreeCpu(env, s, cands[n..], need), FreeCpu(env, s2, cands[n + 1..], need))
  {
    hide Refreshed, Deepened;
    var rest := cands[n..];
    var s1 := Refreshed(env, s);
    assert rest[1..] == cands[n + 1..] && rest[0] in rest;
    DeepenedFacts(env, s1, rest[0]);
    RestIsIdle(s1.world, rest, rest[0], Sleep2);
  }

  /** `freeCPURam` */
  method FreeCpuRam(o: Orchestrator, need: int)
    requires o.Valid()
    modifies o`clock, o.ms, o.models
    ensures o.Valid() && o.Now() == FreeCpu(o.env, old(o.Now()), Listing(old(o.World()), Deepen, |o.models|), need).s
  {
    hide FreeCpu, Listing, Deepened, Refreshed;
    ListedAreCandidates(o.World(), Deepen);
    var cands := IdleModels(o, Deepen);
    ghost var r := FreeCpu(o.env, o.Now(), cands, need);
    assert cands[0..] == cands;
    var n := 0;
    while n < |cands|
      invariant n <= |cands| && o.Valid() && AllIdleSleep1(o.World(), cands[n..])
      invariant SameEnd(r, FreeCpu(o.env, o.Now(), cands[n..], need))
    {
      FreeCpuUnfolds(o.env, o.Now(), cands, n, need);
      o.RefreshMemory();
      if o.ms.freeCPURAMB >= need {
        return;
      }
      var _ := DeepenAndMeasure(o, cands[n]);
      n := n + 1;
    }
    FreeCpuOfNone(o.env, o.Now(), need);
  }

  /** Rule 1 on an llama_cpp server: there is no sleep state, an idle one is killed. */
  method EvictServer(o: Orchestrator, i: nat, g: nat) returns (v: Verdict)
    requires o.Valid() && i < |o.models| && g < |o.ms.groups|
    requires o.World()[i].run.state == Active && OnGroup(o.World()[i], g) && o.World()[i].cfg.engine == LlamaCpp
    modifies o`clock, o.ms, o.models
    ensures o.Valid() && (v, o.Now()) == Try(o.env, old(o.Now()), i, g, Offload)
  {
    hide Waited;
    var me := o.models[i];
    if me.activeRequests > 0 {
      return Busy;
    }
    CanKill(o.env, o.Now(), i, g, Offload);
    ghost var w := o.World();
    var expected := me.reservedVRAMMB;
    var freeBefore := o.ms.measuredFree[g];
    me.KillAndUnload(me.proc);
    assert forall j | 0 <= j < |o.models| && j != i :: o.models[j] != me;
    assert o.World() == Lowered(w, i, Unloaded);
    o.WaitVramStable(g, freeBefore, expected);
    v := Done;
  }

  /** The CPU RAM for one vLLM model, and whether it now fits. */
  method MakeRoom(o: Orchestrator, i: nat) returns (fits: bool)
    requires o.Valid() && i < |o.models|
    modifies o`clock, o.ms, o.models
    ensures o.Valid() && o.Now() == RoomFor(o.env, old(o.Now()), i)
    ensures fits <==> o.ms.freeCPURAMB >= o.models[i].mem.weights
  {
    hide FreeCpu, Listing;
    var weights := o.models[i].mem.weights;
    var cpuFree := o.ms.freeCPURAMB;
    if cpuFree < weights {
      FreeCpuRam(o, weights);
      cpuFree := o.ms.freeCPURAMB;
    }
    fits := cpuFree >= weights;
  }

  /** Rule 1 on a vLLM model: offload its weights to CPU RAM, making room there first. */
  method EvictVllm(o: Orchestrator, i: nat, g: nat) returns (v: Verdict)
    requires o.Valid() && i < |o.models| && g < |o.ms.groups|
    requires o.World()[i].run.state == Active && OnGroup(o.World()[i], g) && o.World()[i].cfg.engine == VLLM
    modifies o`clock, o.ms, o.models
    ensures o.Valid() && (v, o.Now()) == Try(o.env, old(o.Now()), i, g, Offload)
  {
    hide RoomFor, Refreshed;
    RoomFrame(o.env, o.Now(), i);
    ghost var mid := RoomFor(o.env, o.Now(), i);
    var fits := MakeRoom(o, i);
    if !fits {
      return CpuShort;
    }
    var ok := o.SleepModel(i, 1);
    if !ok {
      return Refused;
    }
    LoweredEvicts(mid.world, i, Sleep1, {g}, |o.env.groups|);
    Lower(o, i, Sleep1);
    o.ms.freeCPURAMB := o.ms.freeCPURAMB - o.models[i].mem.weights;
    o.RefreshMemory();
    v := Done;
  }

  /** Rule 1. */
  method DemoteActives(o: Orchestrator, g: nat, needed: int) returns (done: bool)
    requires o.Valid() && g < |o.ms.groups|
    modifies o`clock, o.ms, o.models
    ensures o.Valid() && SameEnd(Apply(o.env, old(o.Now()), g, needed, Offload), Outcome(done, o.Now(), []))
  {
    hide Sweep, Listing, Try;
    ghost var r := Apply(o.env, o.Now(), g, needed, Offload);
    ListedAreCandidates(o.World(), Offload);
    var cands := ActiveModels(o);
    assert cands[0..] == cands;
    var n := 0;
    while n < |cands|
      invariant n <= |cands| && o.Valid() && AllCandidates(o.World(), cands[n..], Offload)
      invariant SameEnd(r, Sweep(o.env, o.Now(), cands[n..], g, needed, Offload))
    {
      var i := cands[n];
      SweepUnfolds(o.env, o.Now(), cands, n, g, needed, Offload);
      assert There(o, i, g) == OnGroup(o.World()[i], g);
      n := n + 1;
      if There(o, i, g) {
        var v;
        if o.models[i].cfg.engine == LlamaCpp {
          v := EvictServer(o, i, g);
        } else {
          v := EvictVllm(o, i, g);
        }
        if v == Done && o.ms.measuredFree[g] >= needed {
          return true;
        }
      }
    }
    done := false;
    SweepOfNone(o.env, o.Now(), g, needed, Offload);
  }

  /** `freeMemoryRules`: the methods above in order are `Rules.FreeRules`. */
  method FreeMemoryRules(o: Orchestrator, g: nat, needed: int) returns (done: bool)
    requires o.Valid() && g < |o.ms.groups|
    modifies o`clock, o.ms, o.models
    ensures o.Valid() && SameEnd(FreeRules(o.env, old(o.Now()), g, needed), Outcome(done, o.Now(), []))
  {
    hide Apply;
    done := DemoteActives(o, g, needed);
    if done {
      return;
    }
    done := KillSleepers(o, g, needed);
    if done {
      return;
    }
    done := DeepenSleepers(o, g, needed);
    if done {
      return;
    }
    done := KillSleepers(o, g, needed);
  }
}
