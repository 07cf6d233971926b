/**
 Group assignment as functions of the snapshot: the pinned path, the eviction
 pass, best-fit choice, and the fallback in configuration order.
 */
module Placement {
  import opened Eviction
  import opened Snapshots
  import opened Rules

  // ---- what a model needs, and where it may go ----

  /** The smallest total among the first `n` groups. */
  function Smallest(groups: seq<Group>, n: nat): int
    requires 0 < n <= |groups|
  {
    if n == 1 then groups[0].total
    else
      var rest := Smallest(groups, n - 1);
      if groups[n - 1].total < rest then groups[n - 1].total else rest
  }

  lemma {:induction false} SmallestIsLeast(groups: seq<Group>, n: nat)
    requires 0 < n <= |groups|
    ensures forall c: nat | c < n :: Smallest(groups, n) <= groups[c].total
    ensures exists c: nat :: c < n && Smallest(groups, n) == groups[c].total
  {
    if n > 1 {
      SmallestIsLeast(groups, n - 1);
      var c: nat :| c < n - 1 && Smallest(groups, n - 1) == groups[c].total;
      assert Smallest(groups, n) == groups[c].total || Smallest(groups, n) == groups[n - 1].total;
    } else {
      assert Smallest(groups, n) == groups[0].total;
    }
  }

  /** The measured size, the configured allocation, or 85% of the smallest group. */
  function Needed(m: Model, groups: seq<Group>): int
    requires |groups| > 0
  {
    if m.mem.measured then m.mem.fullKV
    else if m.cfg.allocation > 0 then m.cfg.allocation
    else Percent(Smallest(groups, |groups|), 85)
  }

  /** Other replicas of the same model. */
  predicate Sibling(w: World, me: nat, s: nat) {
    me < |w| && s < |w| && s != me && w[s].cfg.rset == w[me].cfg.rset
  }

  /** The groups held by the other replicas (none for a model without any). */
  function SiblingGroups(w: World, me: nat): set<int> {
    set s: nat | s < |w| && Sibling(w, me, s) && w[s].run.group >= 0 :: w[s].run.group
  }

  /** A model other than the requester is assigned to group `g`. */
  predicate Shared(w: World, g: int, me: nat) {
    exists m: nat :: m < |w| && m != me && w[m].run.group == g
  }

  /** Groups an unpinned model may be put on. */
  function Targets(groups: seq<Group>, exclude: set<int>, needed: int): (t: set<int>)
    ensures -1 !in t && t !! exclude
  {
    set g: int | 0 <= g < |groups| && g !in exclude && groups[g].total >= needed
  }

  // ---- best fit ----

  /** A group that may be picked: not excluded, and its last reading suffices. */
  predicate Fits(free: seq<int>, exclude: set<int>, needed: int, g: int) {
    0 <= g < |free| && g !in exclude && free[g] >= needed
  }

  /** `pickGroup` over the first `n` groups, with -1 for its error. */
  function Pick(groups: seq<Group>, free: seq<int>, exclude: set<int>, needed: int, n: nat): (p: int)
    requires |free| == |groups| && n <= |groups|
    ensures -1 <= p < n
  {
    if n == 0 then -1
    else
      var best := Pick(groups, free, exclude, needed, n - 1);
      if Fits(free, exclude, needed, n - 1) && (best < 0 || groups[n - 1].total < groups[best].total) then n - 1 else best
  }

  /** The first among the smallest fitting groups. */
  ghost predicate BestFit(groups: seq<Group>, free: seq<int>, exclude: set<int>, needed: int, best: int)
    requires |free| == |groups|
  {
    && Fits(free, exclude, needed, best)
    && (forall c | Fits(free, exclude, needed, c) :: groups[best].total <= groups[c].total)
    && (forall c | Fits(free, exclude, needed, c) && c < best :: groups[best].total < groups[c].total)
  }

  lemma {:induction false} PickOfPrefix(groups: seq<Group>, free: seq<int>, exclude: set<int>, needed: int, n: nat)
    requires |free| == |groups| && n <= |groups|
    ensures var p := Pick(groups, free, exclude, needed, n);
            if p == -1 then forall c | Fits(free, exclude, needed, c) :: c >= n
            else
              && Fits(free, exclude, needed, p)
              && (forall c | Fits(free, exclude, needed, c) && c < n :: groups[p].total <= groups[c].total)
              && (forall c | Fits(free, exclude, needed, c) && c < p :: groups[p].total < groups[c].total)
  {
    if n > 0 {
      PickOfPrefix(groups, free, exclude, needed, n - 1);
    }
  }

  /** Picking finds the first of the smallest fitting groups, and nothing only if none fits. */
  lemma PickIsBest(groups: seq<Group>, free: seq<int>, exclude: set<int>, needed: int)
    requires |free| == |groups|
    ensures var p := Pick(groups, free, exclude, needed, |groups|);
            if p == -1 then forall c :: !Fits(free, exclude, needed, c) else BestFit(groups, free, exclude, needed, p)
  {
    PickOfPrefix(groups, free, exclude, needed, |groups|);
  }

  // ---- overcommit ----

  /** A load decided on a reading: its size, and the groups of its siblings. */
  datatype Demand = Demand(needed: int, exclude: set<int>)

  function PickFor(groups: seq<Group>, free: seq<int>, a: Demand): int
    requires |free| == |groups|
  {
    Pick(groups, free, a.exclude, a.needed, |groups|)
  }

  /** What two loads, both decided on the reading `free`, put on group `g`. */
  function Load(groups: seq<Group>, free: seq<int>, a: Demand, b: Demand, g: int): int
    requires |free| == |groups|
  {
    (if PickFor(groups, free, a) == g then a.needed else 0) + (if PickFor(groups, free, b) == g then b.needed else 0)
  }

  ghost predicate Overcommits(groups: seq<Group>, free: seq<int>, a: Demand, b: Demand)
    requires |free| == |groups|
  {
    exists g :: 0 <= g < |free| && Load(groups, free, a, b, g) > 0 && Load(groups, free, a, b, g) > free[g]
  }

  /** Two loads pick the same group exactly when each one's pick would do for the other. */
  lemma SamePickIff(groups: seq<Group>, free: seq<int>, a: Demand, b: Demand)
    requires |free| == |groups|
    ensures var ga, gb := PickFor(groups, free, a), PickFor(groups, free, b);
            ga != -1 && gb != -1 ==>
              (ga == gb <==> Fits(free, b.exclude, b.needed, ga) && Fits(free, a.exclude, a.needed, gb))
  {
    PickIsBest(groups, free, a.exclude, a.needed);
    PickIsBest(groups, free, b.exclude, b.needed);
  }

  /**
   The unpinned path subtracts nothing from the reading, so two loads decided on
   one reading overcommit exactly when both pick the same group and it cannot hold
   both, that is when each one's pick would do for the other and the sum exceeds it.
   */
  lemma OvercommitIff(groups: seq<Group>, free: seq<int>, a: Demand, b: Demand)
    requires |free| == |groups| && a.needed > 0 && b.needed > 0
    ensures var ga, gb := PickFor(groups, free, a), PickFor(groups, free, b);
            && (Overcommits(groups, free, a, b) <==> ga != -1 && ga == gb && a.needed + b.needed > free[ga])
            && (Overcommits(groups, free, a, b) <==>
                  && ga != -1 && gb != -1 && a.needed + b.needed > free[ga]
                  && Fits(free, b.exclude, b.needed, ga) && Fits(free, a.exclude, a.needed, gb))
  {
    var ga, gb := PickFor(groups, free, a), PickFor(groups, free, b);
    PickIsBest(groups, free, a.exclude, a.needed);
    PickIsBest(groups, free, b.exclude, b.needed);
    SamePickIff(groups, free, a, b);
    hide Pick, BestFit;
    if ga != -1 && ga == gb {
      assert Load(groups, free, a, b, ga) == a.needed + b.needed;
    }
    if g :| 0 <= g < |free| && Load(groups, free, a, b, g) > 0 && Load(groups, free, a, b, g) > free[g] {
      assert g == ga ==> Fits(free, a.exclude, a.needed, g);
      assert g == gb ==> Fits(free, b.exclude, b.needed, g);
    }
  }

  // ---- the eviction pass and the fallback ----

  /** The pass before the choice, from group `i` on. */
  function FreeFirst(env: Env, s: Snap, i: nat, me: nat, needed: int, exclude: set<int>): (r: Snap)
    requires |s.free| == |env.groups|
    ensures |r.free| == |env.groups| && |r.world| == |s.world|
    decreases |env.groups| - i
  {
    if i >= |env.groups| then s
    else if i in exclude || env.groups[i].total < needed || !Shared(s.world, i, me) then FreeFirst(env, s, i + 1, me, needed, exclude)
    else FreeFirst(env, FreeRules(env, s, i, needed).s, i + 1, me, needed, exclude)
  }

  /** The fallback from group `i` on: the first group, in configuration order, on which the rules succeed. */
  function FirstFreed(env: Env, s: Snap, i: nat, needed: int, exclude: set<int>): (r: (int, Snap))
    requires |s.free| == |env.groups|
    ensures |r.1.free| == |env.groups| && |r.1.world| == |s.world| && (r.0 == -1 || i <= r.0 < |env.groups|)
    decreases |env.groups| - i
  {
    if i >= |env.groups| then (-1, s)
    else if i in exclude || env.groups[i].total < needed then FirstFreed(env, s, i + 1, needed, exclude)
    else
      var r := FreeRules(env, s, i, needed);
      if r.done then (i, r.s) else FirstFreed(env, r.s, i + 1, needed, exclude)
  }

  /** Best fit on a new reading, or else the fallback. */
  function Choose(env: Env, s: Snap, needed: int, exclude: set<int>): (r: (int, Snap))
    requires |s.free| == |env.groups|
    ensures |r.1.free| == |env.groups| && |r.1.world| == |s.world| && -1 <= r.0 < |env.groups|
  {
    var s1 := Refreshed(env, s);
    var p := Pick(env.groups, s1.free, exclude, needed, |env.groups|);
    if p != -1 then (p, s1) else FirstFreed(env, s1, 0, needed, exclude)
  }

  // ---- the two paths ----

  function Reserve(m: Model, group: int, needed: int): Model {
    m.(run := m.run.(group := group, reserved := needed))
  }

  function Reserved(w: World, me: nat, group: int, needed: int): (w': World)
    requires me < |w|
    ensures |w'| == |w|
  {
    w[me := Reserve(w[me], group, needed)]
  }

  /** Where an unpinned model goes, and the snapshot before the reservation is recorded. */
  function Search(env: Env, s: Snap, me: nat): (r: (int, Snap))
    requires |s.free| == |env.groups| && me < |s.world| && |env.groups| > 0
    ensures |r.1.free| == |env.groups| && |r.1.world| == |s.world| && -1 <= r.0 < |env.groups|
  {
    var needed, exclude := Needed(s.world[me], env.groups), SiblingGroups(s.world, me);
    Choose(env, FreeFirst(env, s, 0, me, needed, exclude), needed, exclude)
  }

  /** `assignGroup` without a pin. */
  function Unpinned(env: Env, s: Snap, me: nat): (r: (int, Snap))
    requires |s.free| == |env.groups| && me < |s.world| && |env.groups| > 0
    ensures |r.1.free| == |env.groups| && |r.1.world| == |s.world|
  {
    var (idx, s1) := Search(env, s, me);
    if idx == -1 then (-1, s1)
    else (idx, s1.(world := Reserved(s1.world, me, idx, Needed(s.world[me], env.groups))))
  }

  /** The first group from `i` on with the pinned id. */
  function FindPin(groups: seq<Group>, id: string, i: nat): (r: int)
    ensures r == -1 || i <= r < |groups|
    decreases |groups| - i
  {
    if i >= |groups| then -1 else if groups[i].id == id then i else FindPin(groups, id, i + 1)
  }

  lemma {:induction false} FindPinIsFirst(groups: seq<Group>, id: string, i: nat)
    ensures var r := FindPin(groups, id, i);
            && (r == -1 ==> forall c | i <= c < |groups| :: groups[c].id != id)
            && (r != -1 ==> groups[r].id == id && forall c | i <= c < r :: groups[c].id != id)
    decreases |groups| - i
  {
    if i < |groups| && groups[i].id != id {
      FindPinIsFirst(groups, id, i + 1);
    }
  }

  /** Room on a pinned model's group: the rules run only if the group is shared and its new reading too low. */
  function PinnedRoom(env: Env, s: Snap, me: nat, g: nat, allocation: int): (r: Snap)
    requires |s.free| == |env.groups| && g < |env.groups|
    ensures |r.free| == |env.groups| && |r.world| == |s.world|
  {
    var s1 := Refreshed(env, s);
    var s2 := if Shared(s1.world, g, me) && s1.free[g] < allocation then FreeRules(env, s1, g, allocation).s else s1;
    Refreshed(env, s2)
  }

  /** `assignGroup` with a pin: the group index itself is recorded only after the launch. */
  function Pinned(env: Env, s: Snap, me: nat, id: string): (r: (int, Snap))
    requires |s.free| == |env.groups| && me < |s.world|
    ensures |r.1.free| == |env.groups| && |r.1.world| == |s.world|
  {
    var g, allocation := FindPin(env.groups, id, 0), s.world[me].cfg.allocation;
    if g == -1 then (-1, s)
    else
      var s1 := PinnedRoom(env, s, me, g, allocation);
      (g, s1.(free := s1.free[g := s1.free[g] - allocation], world := Reserved(s1.world, me, s1.world[me].run.group, allocation)))
  }
}
