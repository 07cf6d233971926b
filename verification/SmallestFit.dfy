/**
 Whether an unpinned load lands on the smallest group that can be made to work.
 Under the physical model it does exactly when the recorded CPU counter is not too
 low: a low one makes the eviction pass give up without looking again, and the
 fallback then frees the first group in configuration order.
 */
module SmallestFit {
  import opened Lifecycle
  import opened Sums
  import opened Eviction
  import opened Snapshots
  import opened Rules
  import opened Turns
  import opened Sweeps
  import opened Exhaustion
  import opened Completeness
  import opened Placement
  import opened PlacementFacts
  import opened Workable

  /** Group `g` would be preferred to group `idx`. */
  predicate Smaller(groups: seq<Group>, g: nat, idx: nat)
    requires g < |groups| && idx < |groups|
  {
    groups[g].total < groups[idx].total || (groups[g].total == groups[idx].total && g < idx)
  }

  /** Every possible group that would be preferred to the chosen one is short of memory with nothing left to evict. */
  ghost predicate LandsOnSmallest(env: Env, ph: Physics, s: Snap, me: nat)
    requires |s.free| == |env.groups| && me < |s.world| && |env.groups| > 0
  {
    var (idx, r) := Search(env, s, me);
    var needed := Needed(s.world[me], env.groups);
    idx != -1 ==>
      forall g: nat | g in Targets(env.groups, SiblingGroups(s.world, me), needed) && Smaller(env.groups, g, idx) ::
        Hopeless(ph, r.world, g, needed)
  }

  /** A load under the physical model. */
  ghost predicate Setting(env: Env, ph: Physics, s: Snap, me: nat) {
    && Ideal(env, ph) && Monotone(ph.vram) && Ok(env, s) && |env.groups| > 0
    && me < |s.world| && Claimed(s.world[me])
  }

  /** Best fit on what the pass left, and nothing else: the fallback adds no group. */
  lemma FairLoadsAreBest(env: Env, ph: Physics, s: Snap, me: nat)
    requires Setting(env, ph, s, me) && Fair(ph, s)
    ensures var (idx, r) := Search(env, s, me);
            var needed, exclude := Needed(s.world[me], env.groups), SiblingGroups(s.world, me);
            var w := FreeFirst(env, s, 0, me, needed, exclude).world;
            && idx == Pick(env.groups, FreeUnder(ph.vram, ph.capacity, w), exclude, needed, |env.groups|)
            && (idx != -1 ==> r.world == w)
    ensures LandsOnSmallest(env, ph, s, me)
  {
    hide FreeFirst, FirstFreed, Refreshed, SiblingGroups, FreeUnder, CpuUnder, WorldOk, Evicts, Exhausted, Pick, Monotone, Fair;
    var needed, exclude := Needed(s.world[me], env.groups), SiblingGroups(s.world, me);
    var s1 := FreeFirst(env, s, 0, me, needed, exclude);
    FreeFirstFrame(env, s, 0, me, needed, exclude);
    var s2 := Refreshed(env, s1);
    RefreshSyncs(env, ph, s1);
    PickIsBest(env.groups, s2.free, exclude, needed);
    forall g: nat | g in Targets(env.groups, exclude, needed) && !Fits(s2.free, exclude, needed, g)
      ensures Hopeless(ph, s2.world, g, needed)
    {
      PassDecides(env, ph, s, 0, me, needed, exclude, g);
    }
    if Pick(env.groups, s2.free, exclude, needed, |env.groups|) == -1 {
      FallbackFails(env, ph, s2, 0, needed, exclude);
    }
  }

  // ---- a counter that is too low ----

  /** Nobody sleeps idle, and every ACTIVE model is a vLLM one whose weights exceed the recorded counter. */
  ghost predicate Blind(s: Snap) {
    forall i | 0 <= i < |s.world| ::
      && !Idle(s.world[i], Sleep1) && !Idle(s.world[i], Sleep2)
      && (s.world[i].run.state == Active ==> s.world[i].cfg.engine == VLLM && s.world[i].mem.weights > s.cpu)
  }

  lemma HasMember(r: seq<nat>)
    requires r != []
    ensures exists x: nat :: x in r
  {
    assert r[0] in r;
  }

  lemma NobodyListed(s: Snap, rule: Rule)
    requires Blind(s) && rule != Offload
    ensures Listing(s.world, rule, |s.world|) == []
  {
    hide Listing;
    ListingIsSorted(s.world, rule, |s.world|);
    var r := Listing(s.world, rule, |s.world|);
    if r != [] {
      HasMember(r);
    }
  }

  lemma BlindTurn(env: Env, s: Snap, i: nat, g: nat)
    requires Ok(env, s) && Blind(s) && i < |s.world| && g < |env.groups| && s.world[i].run.state == Active
    ensures Try(env, s, i, g, Offload) == (CpuShort, s)
  {
    hide Listing;
    NobodyListed(s, Deepen);
    FreeCpuOfNone(env, s, s.world[i].mem.weights);
  }

  lemma {:induction false} BlindSweep(env: Env, s: Snap, cands: seq<nat>, g: nat, needed: int)
    requires Ok(env, s) && Blind(s) && g < |env.groups| && AllCandidates(s.world, cands, Offload)
    ensures !Sweep(env, s, cands, g, needed, Offload).done && Sweep(env, s, cands, g, needed, Offload).s == s
    decreases |cands|
  {
    hide Try, Blind, WorldOk;
    if cands != [] {
      RestSkips(s.world, cands, Offload);
      BlindTurn(env, s, cands[0], g);
      BlindSweep(env, s, cands[1..], g, needed);
    }
  }

  /** The rules then give up without a query and without a change. */
  lemma BlindRules(env: Env, s: Snap, g: nat, needed: int)
    requires Ok(env, s) && Blind(s) && g < |env.groups|
    ensures !FreeRules(env, s, g, needed).done && FreeRules(env, s, g, needed).s == s
  {
    hide Listing, WorldOk, Blind;
    ListedAreCandidates(s.world, Offload);
    BlindSweep(env, s, Listing(s.world, Offload, |s.world|), g, needed);
    NobodyListed(s, Kill);
    NobodyListed(s, Deepen);
  }

  lemma {:induction false} BlindPass(env: Env, s: Snap, i: nat, me: nat, needed: int, exclude: set<int>)
    requires Ok(env, s) && Blind(s)
    ensures FreeFirst(env, s, i, me, needed, exclude) == s
    decreases |env.groups| - i
  {
    hide FreeRules, Shared, Blind, WorldOk;
    if i < |env.groups| {
      if !(i in exclude || env.groups[i].total < needed || !Shared(s.world, i, me)) {
        BlindRules(env, s, i, needed);
      }
      BlindPass(env, s, i + 1, me, needed, exclude);
    }
  }

  // ---- the failing input ----

  const CAPACITY: seq<int> := [200, 100]

  function Usages(): Usage {
    (i, st) => if st != Active then 0 else if i == 0 then 200 else 100
  }

  function PhysicsOf(ram: int): Physics {
    Physics(Usages(), CAPACITY, ram)
  }

  /** A large group before a small one, with exact readings. */
  function EnvOf(ram: int): Env {
    Env([Group("large", 200), Group("small", 100)],
        (t, w) => Some(FreeUnder(Usages(), CAPACITY, w)), (t, w) => Some(CpuUnder(ram, w)), (t, i, level) => true)
  }

  /** Each group is filled by one idle ACTIVE vLLM model; the third model wants 50 MB. */
  function Crowded(weights: int): World {
    [Model(ModelCfg([], VLLM, None, 0, 0), Memory(weights, 1, true), Core(Active, Some(0), 0, 0, 200)),
     Model(ModelCfg([], VLLM, None, 0, 1), Memory(weights, 2, true), Core(Active, Some(1), 0, 1, 100)),
     Model(ModelCfg([], VLLM, None, 0, 2), Memory(0, 50, true), Core(Loading, None, 0, -1, 0))]
  }

  /** A counter reading of `c`. */
  function Misread(c: int): Snap {
    Snap(0, Crowded(if c < 0 then 0 else c + 1), [0, 0], c)
  }

  lemma SumOfThree(s: seq<int>)
    requires |s| == 3
    ensures Sum(s) == s[0] + s[1] + s[2]
  {
    assert Sum(s[1..]) == s[1] + Sum(s[1..][1..]);
    assert Sum(s[1..][1..]) == s[2] + Sum(s[1..][1..][1..]);
  }

  function Use(vram: Usage, w: World, g: int, i: nat): int
    requires i < |w|
  {
    if OnGroup(w[i], g) then vram(i, w[i].run.state) else 0
  }

  lemma UsedByThree(vram: Usage, w: World, g: int)
    requires |w| == 3
    ensures UsedOn(vram, w, g) == Use(vram, w, g, 0) + Use(vram, w, g, 1) + Use(vram, w, g, 2)
  {
    SumOfThree(seq(|w|, i requires 0 <= i < |w| => if OnGroup(w[i], g) then vram(i, w[i].run.state) else 0));
  }

  lemma CrowdedMemory(ram: int, weights: int)
    ensures FreeUnder(Usages(), CAPACITY, Crowded(weights)) == [0, 0] && CpuUnder(ram, Crowded(weights)) == ram
  {
    var w := Crowded(weights);
    UsedByThree(Usages(), w, 0);
    UsedByThree(Usages(), w, 1);
    SumOfThree(seq(|w|, i requires 0 <= i < |w| => if w[i].run.state == Sleep1 then w[i].mem.weights else 0));
  }

  /** With every counter at zero the ceiling is all of the RAM. */
  lemma {:induction false} NobodyBusy(ram: int, w: World)
    requires forall i | 0 <= i < |w| :: w[i].run.active == 0
    ensures CpuCeiling(ram, w) == ram
  {
    var held := seq(|w|, i requires 0 <= i < |w| => if w[i].run.state == Sleep1 && w[i].run.active != 0 then w[i].mem.weights else 0);
    SumOfZeros(held);
  }

  lemma {:induction false} SumOfZeros(s: seq<int>)
    requires forall i | 0 <= i < |s| :: s[i] == 0
    ensures Sum(s) == 0
  {
    if s != [] {
      SumOfZeros(s[1..]);
    }
  }

  lemma SettingOf(ram: int, c: int)
    ensures Setting(EnvOf(ram), PhysicsOf(ram), Misread(c), 2) && Blind(Misread(c))
  {
  }

  /** After a new reading the rules free the large group, and the small one could have been freed as well. */
  lemma LargeIsFreed(ram: int, c: int, s: Snap)
    requires 0 <= ram && c < ram && s.world == Misread(c).world && Ok(EnvOf(ram), s) && Synced(PhysicsOf(ram), s)
    ensures var r := FreeRules(EnvOf(ram), s, 0, 50);
            r.done && |r.s.world| == 3 && r.s.world[1] == s.world[1] && CpuCeiling(ram, r.s.world) == ram
  {
    hide FreeRules, FreeUnder, CpuCeiling, WorldOk, Stuck, Synced, Fair, Monotone, Ideal, Deficit;
    var env, ph := EnvOf(ram), PhysicsOf(ram);
    LargeIsShort(ram, c, s);
    var r := FreeRules(env, s, 0, 50);
    RulesFrame(env, s, 0, 50);
    assert forall i | 0 <= i < |s.world| :: Descends(s.world[i], r.s.world[i], s.world[i].run.group in {0});
    NobodyBusy(ram, r.s.world);
    if !r.done {
      RulesComplete(env, ph, s, 0, 50);
      LargeGivesRoom(ram, c, r.s.world);
    }
  }

  /** However far the large group was evicted, it is not exhausted and short at once. */
  lemma LargeGivesRoom(ram: int, c: int, w: World)
    requires 0 <= ram && c < ram && Evicts(Misread(c).world, w, {0}) && CpuCeiling(ram, w) == ram
    ensures !(Exhausted(ram, w, 0) && FreeUnder(Usages(), CAPACITY, w)[0] < 50)
  {
    hide CpuCeiling;
    var v := Misread(c).world;
    assert Descends(v[0], w[0], v[0].run.group in {0}) && Descends(v[1], w[1], v[1].run.group in {0})
           && Descends(v[2], w[2], v[2].run.group in {0});
    if OnGroup(w[0], 0) && Up(w[0].run.state) {
      assert !Stuck(ram, w, w[0]);
    } else {
      UsedByThree(Usages(), w, 0);
    }
  }

  lemma LargeIsShort(ram: int, c: int, s: Snap)
    requires s.world == Misread(c).world && Synced(PhysicsOf(ram), s)
    ensures Ideal(EnvOf(ram), PhysicsOf(ram)) && Fair(PhysicsOf(ram), s) && |EnvOf(ram).groups| == 2
    ensures Deficit(Usages(), CAPACITY, s.world, 0, 50)
  {
    SettingOf(ram, c);
    CrowdedMemory(ram, if c < 0 then 0 else c + 1);
  }

  /** A counter that is too low sends the load to the large group although the small one would do. */
  lemma LowCounterMisplaces(ram: int, c: int)
    requires 0 <= ram && c < ram
    ensures Setting(EnvOf(ram), PhysicsOf(ram), Misread(c), 2)
    ensures CpuUnder(ram, Misread(c).world) == ram && Misread(c).free == FreeUnder(Usages(), CAPACITY, Misread(c).world)
    ensures !LandsOnSmallest(EnvOf(ram), PhysicsOf(ram), Misread(c), 2)
  {
    hide FreeRules, Refreshed, FreeFirst, Monotone, Blind, FreeUnder, CpuUnder, CpuCeiling;
    var env, ph, s := EnvOf(ram), PhysicsOf(ram), Misread(c);
    SettingOf(ram, c);
    CrowdedMemory(ram, if c < 0 then 0 else c + 1);
    assert SiblingGroups(s.world, 2) == {};
    BlindPass(env, s, 0, 2, 50, {});
    var s2 := Refreshed(env, s);
    RefreshSyncs(env, ph, s);
    PickIsBest(env.groups, s2.free, {}, 50);
    LargeIsFreed(ram, c, s2);
    var r := FreeRules(env, s2, 0, 50);
    assert Search(env, s, 2) == (0, r.s);
    assert !Stuck(ram, r.s.world, r.s.world[1]);
    assert 1 in Targets(env.groups, {}, 50) && Smaller(env.groups, 1, 0);
  }

  /**
   Exactly when the load lands on the smallest workable group: for a true value
   `ram` of at least zero and a recorded counter `c`, every load under the physical
   model does if and only if `c` is not below `ram`.
   */
  lemma LandsOnSmallestIff(ram: int, c: int)
    requires ram >= 0
    ensures (forall env: Env, ph: Physics, s: Snap, me: nat
               | Setting(env, ph, s, me) && s.cpu == c && CpuUnder(ph.ram, s.world) == ram :: LandsOnSmallest(env, ph, s, me))
       <==> c >= ram
  {
    hide LandsOnSmallest, CpuUnder, Monotone, Ideal, WorldOk;
    if c >= ram {
      forall env: Env, ph: Physics, s: Snap, me: nat
        | Setting(env, ph, s, me) && s.cpu == c && CpuUnder(ph.ram, s.world) == ram
        ensures LandsOnSmallest(env, ph, s, me)
      {
        FairLoadsAreBest(env, ph, s, me);
      }
    } else {
      LowCounterMisplaces(ram, c);
    }
  }
}
