/**
 Group assignment as it runs: loops over the runtime objects, each proved to do
 exactly what the functions of `Placement` say.
 */
module Assigning {
  import opened Lifecycle
  import opened Snapshots
  import opened Orchestration
  import opened Rules
  import opened Scheduling
  import opened Placement
  import opened PlacementFacts

  /** `groupHasOtherModels` */
  method GroupHasOtherModels(o: Orchestrator, g: int, me: nat) returns (found: bool)
    ensures found <==> Shared(o.World(), g, me)
  {
    for m := 0 to |o.models|
      invariant forall x: nat | x < m && x != me :: o.World()[x].run.group != g
    {
      if m != me && o.models[m].assignedGroupIdx == g {
        assert o.World()[m].run.group == g;
        return true;
      }
    }
    return false;
  }

  /** `siblingGroups` */
  method GroupsOfSiblings(o: Orchestrator, me: nat) returns (exclude: set<int>)
    requires me < |o.models|
    ensures exclude == SiblingGroups(o.World(), me)
  {
    exclude := {};
    for s := 0 to |o.models|
      invariant exclude == set x: nat | x < s && Sibling(o.World(), me, x) && o.World()[x].run.group >= 0 :: o.World()[x].run.group
    {
      var sib := o.models[s];
      if s != me && sib.cfg.rset == o.models[me].cfg.rset && sib.assignedGroupIdx >= 0 {
        assert Sibling(o.World(), me, s) && o.World()[s].run.group == sib.assignedGroupIdx;
        exclude := exclude + {sib.assignedGroupIdx};
      }
    }
  }

  /** `pickGroup` */
  method PickGroup(ms: MemoryState, needed: int, exclude: set<int>) returns (best: int)
    requires ms.Valid()
    ensures best == Pick(ms.groups, ms.measuredFree, exclude, needed, |ms.groups|)
  {
    best := -1;
    var bestTotal := 0;
    for i := 0 to |ms.groups|
      invariant best == Pick(ms.groups, ms.measuredFree, exclude, needed, i)
      invariant best != -1 ==> bestTotal == ms.groups[best].total
    {
      if i in exclude {
        continue;
      }
      if ms.measuredFree[i] >= needed {
        if best < 0 || ms.groups[i].total < bestTotal {
          best := i;
          bestTotal := ms.groups[i].total;
        }
      }
    }
  }

  /** Two loads that are both decided before either has launched: nothing was subtracted from the reading in between. */
  method TwoPicks(ms: MemoryState, a: Demand, b: Demand) returns (ga: int, gb: int)
    requires ms.Valid() && a.needed > 0 && b.needed > 0
    ensures -1 <= ga < |ms.groups| && -1 <= gb < |ms.groups|
    ensures Overcommits(ms.groups, ms.measuredFree, a, b) <==>
              ga != -1 && ga == gb && a.needed + b.needed > ms.measuredFree[ga]
    ensures ga == -1 <==> forall c :: !Fits(ms.measuredFree, a.exclude, a.needed, c)
    ensures gb == -1 <==> forall c :: !Fits(ms.measuredFree, b.exclude, b.needed, c)
  {
    ga := PickGroup(ms, a.needed, a.exclude);
    gb := PickGroup(ms, b.needed, b.exclude);
    OvercommitIff(ms.groups, ms.measuredFree, a, b);
    PickIsBest(ms.groups, ms.measuredFree, a.exclude, a.needed);
    PickIsBest(ms.groups, ms.measuredFree, b.exclude, b.needed);
  }

  /** Loads of 60 MB and 70 MB are both put on the one group, which has 100 MB free. */
  method OvercommitWitness() returns (ga: int, gb: int)
    ensures ga == gb == 0 && Overcommits([Group("only", 100)], [100], Demand(60, {}), Demand(70, {}))
  {
    var ms := new MemoryState([Group("only", 100)], 0);
    ms.measuredFree := [100];
    ga, gb := TwoPicks(ms, Demand(60, {}), Demand(70, {}));
    assert Fits(ms.measuredFree, {}, 60, 0) && Fits(ms.measuredFree, {}, 70, 0);
    assert ms.groups == [Group("only", 100)];
  }

  /** The memory a model is placed by. */
  method NeededMB(o: Orchestrator, me: nat) returns (needed: int)
    requires me < |o.models| && |o.ms.groups| > 0
    ensures needed == Needed(o.World()[me], o.ms.groups)
  {
    var m := o.models[me];
    if m.mem.measured {
      return m.mem.fullKV;
    }
    if m.cfg.allocation > 0 {
      return m.cfg.allocation;
    }
    var smallest := o.ms.groups[0].total;
    for i := 1 to |o.ms.groups|
      invariant smallest == Smallest(o.ms.groups, i)
    {
      if o.ms.groups[i].total < smallest {
        smallest := o.ms.groups[i].total;
      }
    }
    needed := Percent(smallest, 85);
  }

  /** The pass before the choice: every large enough group, outside `exclude`, with other models on it. */
  method EvictFirst(o: Orchestrator, me: nat, needed: int, exclude: set<int>)
    requires o.Valid() && me < |o.models|
    modifies o`clock, o.ms, o.models
    ensures o.Valid() && o.Now() == FreeFirst(o.env, old(o.Now()), 0, me, needed, exclude)
  {
    hide FreeRules, Shared;
    ghost var r := FreeFirst(o.env, o.Now(), 0, me, needed, exclude);
    for i := 0 to |o.ms.groups|
      invariant o.Valid() && r == FreeFirst(o.env, o.Now(), i, me, needed, exclude)
    {
      if i in exclude || o.ms.groups[i].total < needed {
        continue;
      }
      var others := GroupHasOtherModels(o, i, me);
      if others {
        var _ := FreeMemoryRules(o, i, needed);
      }
    }
  }

  /** The fallback: the first large enough group, outside `exclude`, on which the rules succeed. */
  method FirstWorkable(o: Orchestrator, needed: int, exclude: set<int>) returns (idx: int)
    requires o.Valid()
    modifies o`clock, o.ms, o.models
    ensures o.Valid() && (idx, o.Now()) == FirstFreed(o.env, old(o.Now()), 0, needed, exclude)
  {
    hide FreeRules;
    ghost var r := FirstFreed(o.env, o.Now(), 0, needed, exclude);
    for i := 0 to |o.ms.groups|
      invariant o.Valid() && r == FirstFreed(o.env, o.Now(), i, needed, exclude)
    {
      if i in exclude || o.ms.groups[i].total < needed {
        continue;
      }
      var done := FreeMemoryRules(o, i, needed);
      if done {
        return i;
      }
    }
    return -1;
  }

  /** Best fit on a new reading, or else the fallback. */
  method ChooseGroup(o: Orchestrator, needed: int, exclude: set<int>) returns (idx: int)
    requires o.Valid()
    modifies o`clock, o.ms, o.models
    ensures o.Valid() && (idx, o.Now()) == Choose(o.env, old(o.Now()), needed, exclude)
  {
    hide FirstFreed, Refreshed;
    o.RefreshMemory();
    idx := PickGroup(o.ms, needed, exclude);
    if idx == -1 {
      idx := FirstWorkable(o, needed, exclude);
    }
  }

  /** Records the outcome in the requester's entry. */
  method ReserveFor(o: Orchestrator, me: nat, group: int, needed: int)
    requires o.Valid() && me < |o.models| && o.World()[me].run.state == Loading && -1 <= group < |o.ms.groups|
    modifies o.models[me]
    ensures o.Valid() && o.Now() == old(o.Now()).(world := Reserved(old(o.World()), me, group, needed))
  {
    o.SetRun(me, o.models[me].Run().(group := group, reserved := needed));
  }

  /** `assignGroup` without a pin. */
  method AssignUnpinned(o: Orchestrator, me: nat) returns (idx: int)
    requires o.Valid() && me < |o.models| && |o.ms.groups| > 0 && Claimed(o.World()[me])
    modifies o`clock, o.ms, o.models
    ensures o.Valid() && (idx, o.Now()) == Unpinned(o.env, old(o.Now()), me)
  {
    hide FreeFirst, Choose, SiblingGroups, Needed;
    SearchLeavesRequester(o.env, o.Now(), me);
    var needed := NeededMB(o, me);
    var exclude := GroupsOfSiblings(o, me);
    EvictFirst(o, me, needed, exclude);
    idx := ChooseGroup(o, needed, exclude);
    if idx != -1 {
      ReserveFor(o, me, idx, needed);
    }
  }

  /** Co-residency: evict only if other models are on the group and its reading is below the allocation; then read again. */
  method MakeRoomPinned(o: Orchestrator, me: nat, i: nat, allocation: int)
    requires o.Valid() && me < |o.models| && i < |o.ms.groups|
    modifies o`clock, o.ms, o.models
    ensures o.Valid() && o.Now() == PinnedRoom(o.env, old(o.Now()), me, i, allocation)
  {
    hide FreeRules, Refreshed;
    o.RefreshMemory();
    var free := o.ms.measuredFree[i];
    var others := GroupHasOtherModels(o, i, me);
    if others && free < allocation {
      var _ := FreeMemoryRules(o, i, allocation);
    }
    o.RefreshMemory();
  }

  /** `assignGroup` with a pin. */
  method AssignPinned(o: Orchestrator, me: nat) returns (idx: int)
    requires o.Valid() && me < |o.models| && Claimed(o.World()[me]) && o.models[me].cfg.pin.Some?
    modifies o`clock, o.ms, o.models
    ensures o.Valid() && (idx, o.Now()) == Pinned(o.env, old(o.Now()), me, o.models[me].cfg.pin.value)
  {
    hide PinnedRoom, Refreshed;
    var cfg := o.models[me].cfg;
    for i := 0 to |o.ms.groups|
      invariant o.Valid() && o.Now() == old(o.Now())
      invariant FindPin(o.env.groups, cfg.pin.value, 0) == FindPin(o.env.groups, cfg.pin.value, i)
    {
      if o.ms.groups[i].id == cfg.pin.value {
        PinnedRoomFacts(o.env, o.Now(), me, i, cfg.allocation);
        MakeRoomPinned(o, me, i, cfg.allocation);
        ReserveFor(o, me, o.models[me].assignedGroupIdx, cfg.allocation);
        o.ms.measuredFree := o.ms.measuredFree[i := o.ms.measuredFree[i] - cfg.allocation];
        return i;
      }
    }
    return -1;
  }
}
