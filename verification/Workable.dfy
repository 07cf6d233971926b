/**
 When the rules succeed on a group that has room, and when an unpinned load lands
 on the smallest group that can be made to work, under a physical model in which a
 model uses no more video memory the deeper it sleeps.
 */
module Workable {
  import opened Lifecycle
  import opened Sums
  import opened Eviction
  import opened Snapshots
  import opened Rules
  import opened Turns
  import opened Sweeps
  import opened Exhaustion
  import opened Completeness
  import opened Placement
  import opened PlacementFacts

  /** ACTIVE uses at least as much as SLEEP1, SLEEP1 as SLEEP2, SLEEP2 as nothing. */
  ghost predicate Monotone(vram: Usage) {
    forall i: nat :: vram(i, Active) >= vram(i, Sleep1) >= vram(i, Sleep2) >= 0
  }

  lemma UsesNoMore(vram: Usage, i: nat, m: Model, m': Model, target: bool, g: nat)
    requires Monotone(vram) && Descends(m, m', target)
    ensures (if OnGroup(m', g) then vram(i, m'.run.state) else 0) <= (if OnGroup(m, g) then vram(i, m.run.state) else 0)
  {
    assert vram(i, Active) >= vram(i, Sleep1) >= vram(i, Sleep2) >= 0;
    match m'.run.state
    case Sleep1 =>
    case Sleep2 =>
    case _ =>
  }

  /** Eviction never takes memory away from a group. */
  lemma EvictionFrees(vram: Usage, capacity: seq<int>, w: World, w': World, targets: set<int>, g: nat)
    requires Monotone(vram) && Evicts(w, w', targets) && g < |capacity|
    ensures FreeUnder(vram, capacity, w')[g] >= FreeUnder(vram, capacity, w)[g]
  {
    var s := seq(|w|, i requires 0 <= i < |w| => if OnGroup(w[i], g) then vram(i, w[i].run.state) else 0);
    var s' := seq(|w'|, i requires 0 <= i < |w'| => if OnGroup(w'[i], g) then vram(i, w'[i].run.state) else 0);
    hide Descends;
    forall i | 0 <= i < |s'| ensures s'[i] <= s[i] {
      UsesNoMore(vram, i, w[i], w'[i], w[i].run.group in targets, g);
    }
    SumMonotone(s', s);
  }

  // ---- what the rules move was not stuck ----

  /** Every model on group `g` that changed could be evicted to begin with. */
  ghost predicate OnlyLoose(ram: int, w: World, w': World, g: int) {
    |w'| == |w| && forall i | 0 <= i < |w| && OnGroup(w[i], g) && w'[i] != w[i] :: Up(w[i].run.state) && !Stuck(ram, w, w[i])
  }

  lemma LooseJoin(ram: int, a: World, b: World, c: World, g: int, groups: nat)
    requires OnlyLoose(ram, a, b, g) && OnlyLoose(ram, b, c, g) && Evicts(a, b, {g}) && WorldOk(a, groups)
    ensures OnlyLoose(ram, a, c, g)
  {
    WeightsOk(a, groups);
    CeilingFalls(ram, a, b, {g});
    hide CpuCeiling;
    forall i | 0 <= i < |a| && OnGroup(a[i], g) && c[i] != a[i] ensures Up(a[i].run.state) && !Stuck(ram, a, a[i]) {
      if b[i] == a[i] {
        assert !Stuck(ram, b, b[i]);
      }
    }
  }

  /** A vLLM model that was offloaded had weights that could be made to fit. */
  lemma OffloadedFits(env: Env, ph: Physics, s: Snap, i: nat)
    requires Ideal(env, ph) && Ok(env, s) && i < |s.world| && Synced(ph, s) && Offloaded(env, s, i).0 == Done
    ensures s.world[i].mem.weights <= CpuCeiling(ph.ram, s.world)
  {
    hide RoomFor, CpuCeiling, CpuUnder, FreeUnder, Refreshed;
    var mid := RoomFor(env, s, i);
    RoomFrame(env, s, i);
    RoomIdeal(env, ph, s, i);
    WeightsOk(s.world, |env.groups|);
    WeightsOk(mid.world, |env.groups|);
    CeilingBounds(ph.ram, mid.world);
    CeilingFalls(ph.ram, s.world, mid.world, {});
  }

  lemma TurnIsLoose(env: Env, ph: Physics, s: Snap, i: nat, g: nat, rule: Rule)
    requires Ideal(env, ph) && Ok(env, s) && Synced(ph, s)
    requires i < |s.world| && g < |env.groups| && Candidate(s.world[i], rule) && OnGroup(s.world[i], g)
    ensures OnlyLoose(ph.ram, s.world, Try(env, s, i, g, rule).1.world, g)
  {
    hide Offloaded, Settle, Waited, Refreshed, CpuCeiling, Synced, WorldOk;
    var (v, s1) := Try(env, s, i, g, rule);
    TryFacts(env, s, i, g, rule);
    if rule == Offload && s.world[i].cfg.engine == VLLM && v == Done {
      OffloadedFits(env, ph, s, i);
    }
    forall j: int | 0 <= j < |s.world| && OnGroup(s.world[j], g) && s1.world[j] != s.world[j]
      ensures Up(s.world[j].run.state) && !Stuck(ph.ram, s.world, s.world[j])
    {
      if j != i {
        assert Idle(s.world[j], Sleep1);
      }
    }
  }

  lemma {:induction false} SweepIsLoose(env: Env, ph: Physics, s: Snap, cands: seq<nat>, g: nat, needed: int, rule: Rule)
    requires Ideal(env, ph) && Ok(env, s) && Synced(ph, s) && g < |env.groups| && AllCandidates(s.world, cands, rule)
    ensures OnlyLoose(ph.ram, s.world, Sweep(env, s, cands, g, needed, rule).s.world, g)
    decreases |cands|
  {
    hide Try, WorldOk, Evicts, Synced, OnlyLoose, FreeUnder, CpuUnder, Candidate, Stuck;
    if cands == [] {
      NothingIsLoose(ph.ram, s.world, g);
    } else {
      RestSkips(s.world, cands, rule);
      var c := cands[0];
      if !OnGroup(s.world[c], g) {
        SweepIsLoose(env, ph, s, cands[1..], g, needed, rule);
      } else {
        var (v, s1) := Try(env, s, c, g, rule);
        TryFacts(env, s, c, g, rule);
        TryIdeal(env, ph, s, c, g, rule) by { SyncedIsFair(ph, s); }
        TurnIsLoose(env, ph, s, c, g, rule);
        NextOk(env, s, c, g, rule, v, s1);
        if !(v == Done && s1.free[g] >= needed) {
          RestStands(env, s, s1, v, cands, g, rule);
          EvictsWiden(s.world, s1.world, if v == Done then {g} else {}, {g});
          SweepIsLoose(env, ph, s1, cands[1..], g, needed, rule);
          LooseJoin(ph.ram, s.world, s1.world, Sweep(env, s1, cands[1..], g, needed, rule).s.world, g, |env.groups|);
        }
      }
    }
  }

  lemma NothingIsLoose(ram: int, w: World, g: int)
    ensures OnlyLoose(ram, w, w, g)
  {
  }

  lemma SyncedIsFair(ph: Physics, s: Snap)
    requires Synced(ph, s)
    ensures Fair(ph, s)
  {
  }

  /** What every stage of the rules keeps, from exact readings. */
  ghost predicate LooseStage(env: Env, ph: Physics, s: Snap, g: nat, r: Outcome) {
    && Ok(env, r.s) && Synced(ph, r.s) && Evicts(s.world, r.s.world, {g}) && OnlyLoose(ph.ram, s.world, r.s.world, g)
  }

  lemma ApplyIsLoose(env: Env, ph: Physics, s: Snap, g: nat, needed: int, rule: Rule)
    requires Ideal(env, ph) && Ok(env, s) && Synced(ph, s) && g < |env.groups|
    ensures LooseStage(env, ph, s, g, Apply(env, s, g, needed, rule))
  {
    hide Sweep, WorldOk, Evicts, Synced, OnlyLoose, Ideal;
    ListedAreCandidates(s.world, rule);
    ApplyFrame(env, s, g, needed, rule);
    ApplyIdeal(env, ph, s, g, needed, rule) by { SyncedIsFair(ph, s); }
    SweepIsLoose(env, ph, s, Listing(s.world, rule, |s.world|), g, needed, rule);
  }

  lemma ThenIsLoose(env: Env, ph: Physics, s: Snap, r: Outcome, g: nat, needed: int, rule: Rule)
    requires Ideal(env, ph) && Ok(env, s) && g < |env.groups| && LooseStage(env, ph, s, g, r)
    ensures LooseStage(env, ph, s, g, Then(env, r, g, needed, rule))
  {
    hide Apply, WorldOk, Evicts, Synced, OnlyLoose, Ideal;
    if !r.done {
      var n := Apply(env, r.s, g, needed, rule);
      ApplyIsLoose(env, ph, r.s, g, needed, rule);
      EvictsTrans(s.world, r.s.world, n.s.world, {g});
      LooseJoin(ph.ram, s.world, r.s.world, n.s.world, g, |env.groups|);
    }
  }

  lemma RulesAreLoose(env: Env, ph: Physics, s: Snap, g: nat, needed: int)
    requires Ideal(env, ph) && Ok(env, s) && Synced(ph, s) && g < |env.groups|
    ensures LooseStage(env, ph, s, g, FreeRules(env, s, g, needed))
  {
    hide Apply, Then, OnlyLoose, Evicts, WorldOk, Synced, Ideal;
    var r1 := Apply(env, s, g, needed, Offload);
    var r2 := Then(env, r1, g, needed, Kill);
    var r3 := Then(env, r2, g, needed, Deepen);
    ApplyIsLoose(env, ph, s, g, needed, Offload);
    ThenIsLoose(env, ph, s, r1, g, needed, Kill);
    ThenIsLoose(env, ph, s, r2, g, needed, Deepen);
    ThenIsLoose(env, ph, s, r3, g, needed, Kill);
  }

  lemma StuckUntouched(ram: int, w: World, w': World, g: int)
    requires OnlyLoose(ram, w, w', g) && Exhausted(ram, w, g)
    ensures !Touched(w, w', g)
  {
    hide Stuck;
  }

  /** From exact readings the rules cannot succeed on a group where every model is stuck. */
  lemma ExhaustedFails(env: Env, ph: Physics, s: Snap, g: nat, needed: int)
    requires Ideal(env, ph) && Ok(env, s) && Synced(ph, s) && g < |env.groups| && Exhausted(ph.ram, s.world, g)
    ensures !FreeRules(env, s, g, needed).done
  {
    hide FreeRules, OnlyLoose, WorldOk, Evicts, Synced, Touched, Exhausted;
    RulesAreLoose(env, ph, s, g, needed);
    StuckUntouched(ph.ram, s.world, FreeRules(env, s, g, needed).s.world, g);
    if FreeRules(env, s, g, needed).done {
      RulesTouch(env, s, g, needed);
    }
  }

  // ---- on a group with room ----

  /** On a group with room a sweep that was not enough evicted nothing: at most idle SLEEP1 models lost their CPU RAM. */
  lemma {:induction false} RoomySweep(env: Env, ph: Physics, s: Snap, cands: seq<nat>, g: nat, needed: int, rule: Rule)
    requires Ideal(env, ph) && Monotone(ph.vram) && Ok(env, s) && Fair(ph, s) && g < |env.groups| && AllCandidates(s.world, cands, rule)
    requires FreeUnder(ph.vram, ph.capacity, s.world)[g] >= needed && !Sweep(env, s, cands, g, needed, rule).done
    ensures Evicts(s.world, Sweep(env, s, cands, g, needed, rule).s.world, {})
    decreases |cands|
  {
    hide Try, WorldOk, Evicts, FreeUnder, CpuUnder, Candidate, Monotone;
    if cands == [] {
      EvictsNothing(s.world, {});
    } else {
      RestSkips(s.world, cands, rule);
      var c := cands[0];
      if !OnGroup(s.world[c], g) {
        RoomySweep(env, ph, s, cands[1..], g, needed, rule);
      } else {
        var (v, s1) := Try(env, s, c, g, rule);
        TryFacts(env, s, c, g, rule);
        TryIdeal(env, ph, s, c, g, rule);
        NextOk(env, s, c, g, rule, v, s1);
        EvictionFrees(ph.vram, ph.capacity, s.world, s1.world, if v == Done then {g} else {}, g);
        RestStands(env, s, s1, v, cands, g, rule);
        RoomySweep(env, ph, s1, cands[1..], g, needed, rule);
        EvictsTrans(s.world, s1.world, Sweep(env, s1, cands[1..], g, needed, rule).s.world, {});
      }
    }
  }

  lemma RoomyApply(env: Env, ph: Physics, s: Snap, g: nat, needed: int, rule: Rule)
    requires Ideal(env, ph) && Monotone(ph.vram) && Ok(env, s) && Fair(ph, s) && g < |env.groups|
    requires FreeUnder(ph.vram, ph.capacity, s.world)[g] >= needed && !Apply(env, s, g, needed, rule).done
    ensures var r := Apply(env, s, g, needed, rule);
            && Evicts(s.world, r.s.world, {}) && Fair(ph, r.s)
            && FreeUnder(ph.vram, ph.capacity, r.s.world)[g] >= needed
  {
    hide Sweep, WorldOk, Evicts, FreeUnder, CpuUnder, Monotone, Fair;
    ListedAreCandidates(s.world, rule);
    RoomySweep(env, ph, s, Listing(s.world, rule, |s.world|), g, needed, rule);
    ApplyIdeal(env, ph, s, g, needed, rule);
    EvictionFrees(ph.vram, ph.capacity, s.world, Apply(env, s, g, needed, rule).s.world, {}, g);
  }

  lemma RoomyRules(env: Env, ph: Physics, s: Snap, g: nat, needed: int)
    requires Ideal(env, ph) && Monotone(ph.vram) && Ok(env, s) && Fair(ph, s) && g < |env.groups|
    requires FreeUnder(ph.vram, ph.capacity, s.world)[g] >= needed && !FreeRules(env, s, g, needed).done
    ensures Evicts(s.world, FreeRules(env, s, g, needed).s.world, {})
  {
    hide Apply, FreeRules, WorldOk, Evicts, FreeUnder, CpuUnder, Monotone, Fair;
    RulesUnfold(env, s, g, needed);
    var a1 := Apply(env, s, g, needed, Offload);
    var a2 := Apply(env, a1.s, g, needed, Kill);
    var a3 := Apply(env, a2.s, g, needed, Deepen);
    var a4 := Apply(env, a3.s, g, needed, Kill);
    RoomyApply(env, ph, s, g, needed, Offload);
    RoomyApply(env, ph, a1.s, g, needed, Kill);
    RoomyApply(env, ph, a2.s, g, needed, Deepen);
    RoomyApply(env, ph, a3.s, g, needed, Kill);
    EvictsTrans(s.world, a1.s.world, a2.s.world, {});
    EvictsTrans(s.world, a2.s.world, a3.s.world, {});
    EvictsTrans(s.world, a3.s.world, a4.s.world, {});
  }

  /** Demoting idle SLEEP1 models moves neither the ceiling nor what is stuck. */
  lemma StuckBefore(ram: int, w: World, w': World, g: int)
    requires Evicts(w, w', {}) && Exhausted(ram, w', g)
    ensures Exhausted(ram, w, g)
  {
    CeilingSame(ram, w, w');
    hide CpuCeiling;
    forall i | 0 <= i < |w| && OnGroup(w[i], g) && Up(w[i].run.state) ensures Stuck(ram, w, w[i]) {
      assert Descends(w[i], w'[i], w[i].run.group in {});
      assert Stuck(ram, w', w'[i]);
    }
  }

  lemma CeilingSame(ram: int, w: World, w': World)
    requires Evicts(w, w', {})
    ensures CpuCeiling(ram, w') == CpuCeiling(ram, w)
  {
    forall i | 0 <= i < |w|
      ensures (w'[i].run.state == Sleep1 && w'[i].run.active != 0) == (w[i].run.state == Sleep1 && w[i].run.active != 0)
              && w'[i].mem == w[i].mem
    {
      assert Descends(w[i], w'[i], w[i].run.group in {});
    }
    SeqSumEqual(
      seq(|w|, i requires 0 <= i < |w| => if w[i].run.state == Sleep1 && w[i].run.active != 0 then w[i].mem.weights else 0),
      seq(|w'|, i requires 0 <= i < |w'| => if w'[i].run.state == Sleep1 && w'[i].run.active != 0 then w'[i].mem.weights else 0));
  }

  /**
   Room is not what the rules ask for: from exact readings, on a group where enough
   is free already, they return true exactly when some model there can be evicted.
   */
  lemma RoomyRulesSucceedIff(env: Env, ph: Physics, s: Snap, g: nat, needed: int)
    requires Ideal(env, ph) && Monotone(ph.vram) && Ok(env, s) && Synced(ph, s) && g < |env.groups|
    requires FreeUnder(ph.vram, ph.capacity, s.world)[g] >= needed
    ensures FreeRules(env, s, g, needed).done <==>
              exists i: nat :: i < |s.world| && OnGroup(s.world[i], g) && Up(s.world[i].run.state) && !Stuck(ph.ram, s.world, s.world[i])
  {
    hide FreeRules, Stuck, WorldOk, Evicts, FreeUnder, CpuUnder, Monotone;
    if FreeRules(env, s, g, needed).done {
      if Exhausted(ph.ram, s.world, g) {
        ExhaustedFails(env, ph, s, g, needed);
      }
    } else {
      RoomyRules(env, ph, s, g, needed);
      RulesComplete(env, ph, s, g, needed);
      StuckBefore(ph.ram, s.world, FreeRules(env, s, g, needed).s.world, g);
    }
  }

  // ---- the smallest group that can be made to work ----

  /** After the eviction pass group `g` has room, or nothing more can be had from it. */
  ghost predicate Decided(ph: Physics, w: World, g: nat, needed: int) {
    g < |ph.capacity| && (FreeUnder(ph.vram, ph.capacity, w)[g] >= needed || Exhausted(ph.ram, w, g))
  }

  lemma DecidedStays(ph: Physics, w: World, w': World, i: nat, g: nat, needed: int)
    requires Monotone(ph.vram) && WorldOk(w, |ph.capacity|) && Evicts(w, w', {i}) && i != g && Decided(ph, w, g, needed)
    ensures Decided(ph, w', g, needed)
  {
    hide FreeUnder, Exhausted, Evicts, WorldOk, Monotone;
    EvictionFrees(ph.vram, ph.capacity, w, w', {i}, g);
    if Exhausted(ph.ram, w, g) {
      ExhaustedSurvives(ph.vram, ph.capacity, ph.ram, w, w', {i}, g);
    }
  }

  /** The rest of the pass leaves a group that it has passed decided. */
  lemma {:induction false} PassKeepsDecided(env: Env, ph: Physics, s: Snap, i: nat, me: nat, needed: int, exclude: set<int>, g: nat)
    requires Ideal(env, ph) && Monotone(ph.vram) && Ok(env, s) && g < i && Decided(ph, s.world, g, needed)
    ensures Decided(ph, FreeFirst(env, s, i, me, needed, exclude).world, g, needed)
    decreases |env.groups| - i
  {
    hide FreeRules, Evicts, WorldOk, Shared, Decided, Monotone;
    if i >= |env.groups| {
    } else if i in exclude || env.groups[i].total < needed || !Shared(s.world, i, me) {
      PassKeepsDecided(env, ph, s, i + 1, me, needed, exclude, g);
    } else {
      var n := FreeRules(env, s, i, needed);
      OneGroup(env, s, i, needed, exclude);
      DecidedStays(ph, s.world, n.s.world, i, g, needed);
      PassKeepsDecided(env, ph, n.s, i + 1, me, needed, exclude, g);
    }
  }

  lemma Unoccupied(ph: Physics, w: World, me: nat, g: nat, needed: int)
    requires !Shared(w, g, me) && me < |w| && w[me].run.group == -1 && g < |ph.capacity|
    ensures Decided(ph, w, g, needed)
  {
  }

  /** The rules decide their group, unless the CPU counter was too low. */
  lemma RulesDecide(env: Env, ph: Physics, s: Snap, g: nat, needed: int)
    requires Ideal(env, ph) && Ok(env, s) && Fair(ph, s) && g < |env.groups|
    ensures var r := FreeRules(env, s, g, needed); Decided(ph, r.s.world, g, needed) && Fair(ph, r.s)
  {
    hide FreeRules, FreeUnder, CpuUnder, WorldOk, Exhausted, Evicts;
    RulesSync(env, ph, s, g, needed);
    DoneFits(env, s, g, needed);
    if !FreeRules(env, s, g, needed).done {
      RulesComplete(env, ph, s, g, needed);
    }
  }

  lemma {:induction false} PassDecides(env: Env, ph: Physics, s: Snap, i: nat, me: nat, needed: int, exclude: set<int>, g: nat)
    requires Ideal(env, ph) && Monotone(ph.vram) && Ok(env, s) && Fair(ph, s) && me < |s.world| && s.world[me].run.group == -1
    requires g in Targets(env.groups, exclude, needed) && i <= g
    ensures Decided(ph, FreeFirst(env, s, i, me, needed, exclude).world, g, needed)
    decreases |env.groups| - i
  {
    hide FreeRules, Evicts, WorldOk, Shared, Decided, Monotone, Fair;
    if i in exclude || env.groups[i].total < needed || !Shared(s.world, i, me) {
      if i == g {
        Unoccupied(ph, s.world, me, g, needed);
        PassKeepsDecided(env, ph, s, i + 1, me, needed, exclude, g);
      } else {
        PassDecides(env, ph, s, i + 1, me, needed, exclude, g);
      }
    } else {
      var n := FreeRules(env, s, i, needed);
      OneGroup(env, s, i, needed, exclude);
      RulesDecide(env, ph, s, i, needed);
      StaysUnassigned(s.world, n.s.world, {i}, me);
      if i == g {
        PassKeepsDecided(env, ph, n.s, i + 1, me, needed, exclude, g);
      } else {
        PassDecides(env, ph, n.s, i + 1, me, needed, exclude, g);
      }
    }
  }

  lemma StaysUnassigned(w: World, w': World, targets: set<int>, me: nat)
    requires Evicts(w, w', targets) && me < |w| && w[me].run.group == -1
    ensures |w'| == |w| && w'[me].run.group == -1
  {
    assert Descends(w[me], w'[me], w[me].run.group in targets);
  }

  /** From exact readings the fallback gets nothing out of exhausted groups. */
  lemma {:induction false} FallbackFails(env: Env, ph: Physics, s: Snap, i: nat, needed: int, exclude: set<int>)
    requires Ideal(env, ph) && Ok(env, s) && Synced(ph, s)
    requires forall g: nat | g in Targets(env.groups, exclude, needed) && g >= i :: Exhausted(ph.ram, s.world, g)
    ensures FirstFreed(env, s, i, needed, exclude).0 == -1
    decreases |env.groups| - i
  {
    hide FreeRules, Evicts, WorldOk, Synced, FreeUnder, Exhausted;
    if i >= |env.groups| {
    } else if i in exclude || env.groups[i].total < needed {
      FallbackFails(env, ph, s, i + 1, needed, exclude);
    } else {
      var r := FreeRules(env, s, i, needed);
      assert i in Targets(env.groups, exclude, needed);
      ExhaustedFails(env, ph, s, i, needed);
      OneGroup(env, s, i, needed, exclude);
      RulesSync(env, ph, s, i, needed) by { SyncedIsFair(ph, s); }
      forall g: nat | g in Targets(env.groups, exclude, needed) && g >= i + 1 ensures Exhausted(ph.ram, r.s.world, g) {
        ExhaustedSurvives(ph.vram, ph.capacity, ph.ram, s.world, r.s.world, {i}, g);
      }
      FallbackFails(env, ph, r.s, i + 1, needed, exclude);
    }
  }
}
