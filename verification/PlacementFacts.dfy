/**
 What group assignment promises: replicas are spared, the passes visit what they
 should, and an unpinned load fails only when the memory really cannot be had.
 */
module PlacementFacts {
  import opened Lifecycle
  import opened Eviction
  import opened Snapshots
  import opened Rules
  import opened Sweeps
  import opened Exhaustion
  import opened Completeness
  import opened Placement

  function From(targets: set<int>, i: int): (r: set<int>)
    ensures r <= targets
  {
    set g | g in targets && g >= i
  }

  /** The rules on one target group, seen from all of them. */
  lemma OneGroup(env: Env, s: Snap, g: nat, needed: int, exclude: set<int>)
    requires Ok(env, s) && g in Targets(env.groups, exclude, needed)
    ensures var r := FreeRules(env, s, g, needed);
            && Ok(env, r.s) && s.clock <= r.s.clock && Evicts(s.world, r.s.world, {g})
            && Evicts(s.world, r.s.world, Targets(env.groups, exclude, needed))
  {
    hide FreeRules, Evicts, WorldOk;
    RulesAreFrugal(env, s, g, needed);
    EvictsWiden(s.world, FreeRules(env, s, g, needed).s.world, {g}, Targets(env.groups, exclude, needed));
  }

  lemma {:induction false} FreeFirstFrame(env: Env, s: Snap, i: nat, me: nat, needed: int, exclude: set<int>)
    requires Ok(env, s)
    ensures var r := FreeFirst(env, s, i, me, needed, exclude);
            Ok(env, r) && s.clock <= r.clock && Evicts(s.world, r.world, Targets(env.groups, exclude, needed))
    decreases |env.groups| - i
  {
    hide FreeRules, Evicts, WorldOk;
    var targets := Targets(env.groups, exclude, needed);
    if i >= |env.groups| {
      EvictsNothing(s.world, targets);
    } else if i in exclude || env.groups[i].total < needed || !Shared(s.world, i, me) {
      FreeFirstFrame(env, s, i + 1, me, needed, exclude);
    } else {
      var s1 := FreeRules(env, s, i, needed).s;
      OneGroup(env, s, i, needed, exclude);
      FreeFirstFrame(env, s1, i + 1, me, needed, exclude);
      EvictsTrans(s.world, s1.world, FreeFirst(env, s1, i + 1, me, needed, exclude).world, targets);
    }
  }

  lemma {:induction false} FirstFreedFrame(env: Env, s: Snap, i: nat, needed: int, exclude: set<int>)
    requires Ok(env, s)
    ensures var (idx, r) := FirstFreed(env, s, i, needed, exclude);
            && Ok(env, r) && s.clock <= r.clock && Evicts(s.world, r.world, From(Targets(env.groups, exclude, needed), i))
            && (idx != -1 ==> Fits(r.free, exclude, needed, idx))
    decreases |env.groups| - i
  {
    hide FreeRules, Evicts, WorldOk;
    var targets := From(Targets(env.groups, exclude, needed), i);
    if i >= |env.groups| {
      EvictsNothing(s.world, targets);
    } else if i in exclude || env.groups[i].total < needed {
      FirstFreedFrame(env, s, i + 1, needed, exclude);
      EvictsWiden(s.world, FirstFreed(env, s, i + 1, needed, exclude).1.world, From(Targets(env.groups, exclude, needed), i + 1), targets);
    } else {
      var r := FreeRules(env, s, i, needed);
      OneGroup(env, s, i, needed, exclude);
      EvictsWiden(s.world, r.s.world, {i}, targets);
      DoneFits(env, s, i, needed);
      if !r.done {
        FirstFreedFrame(env, r.s, i + 1, needed, exclude);
        EvictsWiden(r.s.world, FirstFreed(env, r.s, i + 1, needed, exclude).1.world, From(Targets(env.groups, exclude, needed), i + 1), targets);
        EvictsTrans(s.world, r.s.world, FirstFreed(env, r.s, i + 1, needed, exclude).1.world, targets);
      }
    }
  }

  /** Success is a last reading that suffices. */
  lemma DoneFits(env: Env, s: Snap, g: nat, needed: int)
    requires Ok(env, s) && g < |env.groups|
    ensures var r := FreeRules(env, s, g, needed); r.done ==> r.s.free[g] >= needed
  {
    hide FreeRules, Evicts, WorldOk, Genuine;
    RulesAreFrugal(env, s, g, needed);
  }

  lemma SearchFrame(env: Env, s: Snap, me: nat)
    requires Ok(env, s) && me < |s.world| && |env.groups| > 0
    ensures var (idx, r) := Search(env, s, me);
            var needed, exclude := Needed(s.world[me], env.groups), SiblingGroups(s.world, me);
            && Ok(env, r) && s.clock <= r.clock && Evicts(s.world, r.world, Targets(env.groups, exclude, needed))
            && (idx != -1 ==> Fits(r.free, exclude, needed, idx))
  {
    hide FreeFirst, FirstFreed, Evicts, WorldOk, Refreshed, SiblingGroups, Targets;
    var needed, exclude := Needed(s.world[me], env.groups), SiblingGroups(s.world, me);
    var s1 := FreeFirst(env, s, 0, me, needed, exclude);
    FreeFirstFrame(env, s, 0, me, needed, exclude);
    var s2 := Refreshed(env, s1);
    PickIsBest(env.groups, s2.free, exclude, needed);
    if Pick(env.groups, s2.free, exclude, needed, |env.groups|) == -1 {
      FirstFreedFrame(env, s2, 0, needed, exclude);
      EvictsWiden(s2.world, FirstFreed(env, s2, 0, needed, exclude).1.world, From(Targets(env.groups, exclude, needed), 0), Targets(env.groups, exclude, needed));
      EvictsTrans(s.world, s1.world, FirstFreed(env, s2, 0, needed, exclude).1.world, Targets(env.groups, exclude, needed));
    }
  }

  // ---- replicas and the requester ----

  /** The entry being loaded, as the LOADING claim leaves it. */
  ghost predicate Claimed(m: Model) {
    m.run.state == Loading && m.run.proc == None && m.run.group == -1 && m.run.reserved == 0
  }

  /**
   For every outcome of the queries and calls, an unpinned load leaves the
   requester as it was up to its reservation, never kills a sibling replica or
   puts one to sleep from ACTIVE, and lands on no sibling's group, where its last
   reading suffices.
   */
  lemma SiblingsSpared(env: Env, s: Snap, me: nat, sib: nat)
    requires Ok(env, s) && me < |s.world| && |env.groups| > 0 && Claimed(s.world[me]) && Sibling(s.world, me, sib)
    ensures var (idx, r) := Unpinned(env, s, me);
            && Descends(s.world[sib], r.world[sib], false)
            && (idx != -1 ==> r.world[sib].run.group != idx && r.free[idx] >= Needed(s.world[me], env.groups))
            && r.world[me] == (if idx == -1 then s.world[me] else Reserve(s.world[me], idx, Needed(s.world[me], env.groups)))
  {
    hide Search, WorldOk;
    SearchFrame(env, s, me);
    var (idx, r) := Search(env, s, me);
    var targets := Targets(env.groups, SiblingGroups(s.world, me), Needed(s.world[me], env.groups));
    assert Descends(s.world[me], r.world[me], s.world[me].run.group in targets);
    assert Descends(s.world[sib], r.world[sib], s.world[sib].run.group in targets);
    if s.world[sib].run.group >= 0 {
      assert s.world[sib].run.group in SiblingGroups(s.world, me);
    }
  }

  lemma PercentBounds(x: int, p: nat)
    ensures x >= 0 ==> 100 * Percent(x, p) <= p * x < 100 * Percent(x, p) + 100
    ensures x < 0 ==> 100 * Percent(x, p) - 100 < p * x <= 100 * Percent(x, p)
  {
  }

  /**
   What an unpinned load that is placed reserves, and has seen free on its group:
   the measured size if there is one, else the configured allocation if that is
   positive, else 85% of the smallest group, rounded towards zero.
   */
  lemma UnpinnedReserves(env: Env, s: Snap, me: nat)
    requires Ok(env, s) && me < |s.world| && |env.groups| > 0 && Claimed(s.world[me]) && Unpinned(env, s, me).0 != -1
    ensures var (idx, r) := Unpinned(env, s, me);
            var m, reserved := s.world[me], r.world[me].run.reserved;
            && 0 <= idx < |env.groups| && r.world[me].run.group == idx && r.free[idx] >= reserved
            && (m.mem.measured ==> reserved == m.mem.fullKV)
            && (!m.mem.measured && m.cfg.allocation > 0 ==> reserved == m.cfg.allocation)
            && (!m.mem.measured && m.cfg.allocation <= 0 ==>
                  exists c: nat :: c < |env.groups| && (forall d: nat | d < |env.groups| :: env.groups[c].total <= env.groups[d].total)
                    && (env.groups[c].total >= 0 ==> 100 * reserved <= 85 * env.groups[c].total < 100 * reserved + 100)
                    && (env.groups[c].total < 0 ==> 100 * reserved - 100 < 85 * env.groups[c].total <= 100 * reserved))
  {
    hide Search, SiblingGroups, WorldOk, Percent;
    SearchFrame(env, s, me);
    SmallestIsLeast(env.groups, |env.groups|);
    var c: nat :| c < |env.groups| && Smallest(env.groups, |env.groups|) == env.groups[c].total;
    PercentBounds(env.groups[c].total, 85);
  }

  /** Other groups than the targets lose only idle SLEEP1 models to SLEEP2, and nobody rises. */
  lemma UnpinnedEvicts(env: Env, s: Snap, me: nat)
    requires Ok(env, s) && me < |s.world| && |env.groups| > 0 && Claimed(s.world[me])
    ensures var (idx, r) := Unpinned(env, s, me);
            var needed := Needed(s.world[me], env.groups);
            && Ok(env, r)
            && Evicts(s.world, r.world[me := s.world[me]], Targets(env.groups, SiblingGroups(s.world, me), needed))
            && (idx != -1 ==> idx in Targets(env.groups, SiblingGroups(s.world, me), needed) || r.free[idx] > env.groups[idx].total)
  {
    hide Search, SiblingGroups;
    SearchFrame(env, s, me);
    var (idx, r1) := Search(env, s, me);
    var targets := Targets(env.groups, SiblingGroups(s.world, me), Needed(s.world[me], env.groups));
    assert Descends(s.world[me], r1.world[me], s.world[me].run.group in targets);
    var r := Unpinned(env, s, me).1;
    assert r.world[me := s.world[me]] == r1.world;
  }

  /** Eviction for an unpinned load leaves the entry being loaded as it is. */
  lemma SearchLeavesRequester(env: Env, s: Snap, me: nat)
    requires Ok(env, s) && me < |s.world| && |env.groups| > 0 && Claimed(s.world[me])
    ensures Search(env, s, me).1.world[me] == s.world[me]
  {
    hide Search, WorldOk, SiblingGroups;
    SearchFrame(env, s, me);
    var targets := Targets(env.groups, SiblingGroups(s.world, me), Needed(s.world[me], env.groups));
    assert Descends(s.world[me], Search(env, s, me).1.world[me], s.world[me].run.group in targets);
  }

  // ---- the pinned path ----

  /** Making room evicts only on the pinned group, and nothing at all if the group is unshared or its new reading suffices. */
  lemma PinnedRoomFacts(env: Env, s: Snap, me: nat, g: nat, allocation: int)
    requires Ok(env, s) && me < |s.world| && g < |env.groups| && Claimed(s.world[me])
    ensures var r := PinnedRoom(env, s, me, g, allocation);
            && Ok(env, r) && Evicts(s.world, r.world, {g}) && r.world[me] == s.world[me]
            && (!Shared(s.world, g, me) || Refreshed(env, s).free[g] >= allocation ==> r.world == s.world)
  {
    hide FreeRules, WorldOk, Shared, StageOk;
    var s1 := Refreshed(env, s);
    EvictsNothing(s.world, {g});
    if Shared(s1.world, g, me) && s1.free[g] < allocation {
      RulesFrame(env, s1, g, allocation);
    }
    assert Descends(s.world[me], PinnedRoom(env, s, me, g, allocation).world[me], s.world[me].run.group in {g});
  }

  lemma RulesFrame(env: Env, s: Snap, g: nat, needed: int)
    requires Ok(env, s) && g < |env.groups|
    ensures Ok(env, FreeRules(env, s, g, needed).s) && Evicts(s.world, FreeRules(env, s, g, needed).s.world, {g})
  {
    hide FreeRules, WorldOk, Evicts, Genuine, Linked, Frugal;
    RulesAreFrugal(env, s, g, needed);
  }

  /**
   A pinned load fails only if no group has the id, and then changes nothing.
   Otherwise it takes the first group that has it, evicts only there and only if
   the group is shared and its new reading too low, and reserves.  It never asks
   again whether the memory suffices.
   */
  lemma PinnedFacts(env: Env, s: Snap, me: nat, id: string)
    requires Ok(env, s) && me < |s.world| && Claimed(s.world[me])
    ensures var (g, r) := Pinned(env, s, me, id);
            var allocation := s.world[me].cfg.allocation;
            && (g == -1 <==> forall c | 0 <= c < |env.groups| :: env.groups[c].id != id)
            && (g == -1 ==> r == s)
            && (g != -1 ==>
                  && env.groups[g].id == id && (forall c | 0 <= c < g :: env.groups[c].id != id)
                  && Ok(env, r) && Evicts(s.world, r.world[me := s.world[me]], {g})
                  && r.world[me] == Reserve(s.world[me], -1, allocation)
                  && (!Shared(s.world, g, me) || Refreshed(env, s).free[g] >= allocation ==>
                        r.world == Reserved(s.world, me, -1, allocation)))
  {
    hide PinnedRoom, Evicts, Shared, Refreshed;
    FindPinIsFirst(env.groups, id, 0);
    var g, allocation := FindPin(env.groups, id, 0), s.world[me].cfg.allocation;
    if g != -1 {
      PinnedRoomFacts(env, s, me, g, allocation);
      var r1 := PinnedRoom(env, s, me, g, allocation);
      assert Pinned(env, s, me, id).1.world[me := s.world[me]] == r1.world;
    }
  }

  /** With exact readings a pinned load with room evicts nothing, and its allocation is subtracted from what is really free. */
  lemma PinnedReadsTruth(env: Env, ph: Physics, s: Snap, me: nat, id: string)
    requires Ideal(env, ph) && Ok(env, s) && me < |s.world| && Claimed(s.world[me]) && Pinned(env, s, me, id).0 != -1
    ensures var (g, r) := Pinned(env, s, me, id);
            var allocation := s.world[me].cfg.allocation;
            && r.free[g] == FreeUnder(ph.vram, ph.capacity, r.world)[g] - allocation
            && (FreeUnder(ph.vram, ph.capacity, s.world)[g] >= allocation ==> r.world == Reserved(s.world, me, -1, allocation))
  {
    hide FreeRules, Evicts, WorldOk, FreeUnder, Shared;
    var (g, r) := Pinned(env, s, me, id);
    var allocation := s.world[me].cfg.allocation;
    PinnedFacts(env, s, me, id);
    PinnedRoomFacts(env, s, me, g, allocation);
    RefreshSyncs(env, ph, s);
    var s1 := Refreshed(env, s);
    var s2 := if Shared(s1.world, g, me) && s1.free[g] < allocation then FreeRules(env, s1, g, allocation).s else s1;
    RefreshSyncs(env, ph, s2);
    FreeFrame(ph.vram, ph.capacity, s2.world, r.world, g);
  }

  /** The reservation of an entry without a group moves no memory and makes nobody more or less stuck. */
  lemma ReservingKeepsExhausted(ram: int, w: World, me: nat, allocation: int, g: nat)
    requires me < |w| && w[me].run.group == -1 && Exhausted(ram, w, g)
    ensures Exhausted(ram, Reserved(w, me, -1, allocation), g)
  {
    var w' := Reserved(w, me, -1, allocation);
    SeqSumEqual(
      seq(|w|, i requires 0 <= i < |w| => if w[i].run.state == Sleep1 && w[i].run.active != 0 then w[i].mem.weights else 0),
      seq(|w'|, i requires 0 <= i < |w'| => if w'[i].run.state == Sleep1 && w'[i].run.active != 0 then w'[i].mem.weights else 0));
    assert CpuCeiling(ram, w') == CpuCeiling(ram, w);
    hide CpuCeiling;
    forall i | 0 <= i < |w'| && OnGroup(w'[i], g) && Up(w'[i].run.state) ensures Stuck(ram, w', w'[i]) {
      assert Stuck(ram, w, w[i]);
    }
  }

  /**
   When a pinned load, which never fails for lack of memory, leaves less than
   nothing on its group: exactly when the group lacked the allocation and nobody
   else was on it or the rules gave up there, which leaves it exhausted.
   */
  lemma PinnedShortIff(env: Env, ph: Physics, s: Snap, me: nat, id: string)
    requires Ideal(env, ph) && Ok(env, s) && me < |s.world| && Claimed(s.world[me]) && Pinned(env, s, me, id).0 != -1
    ensures var (g, r) := Pinned(env, s, me, id);
            var allocation := s.world[me].cfg.allocation;
            && (r.free[g] < 0 <==>
                  && FreeUnder(ph.vram, ph.capacity, s.world)[g] < allocation
                  && (!Shared(s.world, g, me) || !FreeRules(env, Refreshed(env, s), g, allocation).done))
            && (r.free[g] < 0 && Shared(s.world, g, me) ==> Exhausted(ph.ram, r.world, g))
  {
    hide FreeRules, Evicts, WorldOk, FreeUnder, CpuUnder, Shared, Exhausted;
    var g, allocation := Pinned(env, s, me, id).0, s.world[me].cfg.allocation;
    PinnedRoomFacts(env, s, me, g, allocation);
    RefreshSyncs(env, ph, s);
    var s1 := Refreshed(env, s);
    if Shared(s1.world, g, me) && s1.free[g] < allocation {
      var n := FreeRules(env, s1, g, allocation);
      RulesSync(env, ph, s1, g, allocation);
      DoneFits(env, s1, g, allocation);
      RefreshSyncs(env, ph, n.s);
      if !n.done {
        RulesComplete(env, ph, s1, g, allocation);
        ReservingKeepsExhausted(ph.ram, n.s.world, me, allocation, g);
      }
    } else {
      RefreshSyncs(env, ph, s1);
    }
  }

  // ---- the eviction pass visits every shared target ----

  lemma UntouchedSame(w: World, w': World, targets: set<int>, g: int, j: nat)
    requires Evicts(w, w', targets) && !Touched(w, w', g) && j < |w| && (OnGroup(w[j], g) || OnGroup(w'[j], g))
    ensures w'[j] == w[j]
  {
    GroupBefore(w, w', targets, g, j);
    assert Descends(w[j], w'[j], w[j].run.group in targets);
  }

  lemma GroupBefore(w: World, w': World, targets: set<int>, g: int, j: nat)
    requires Evicts(w, w', targets) && j < |w| && OnGroup(w'[j], g)
    ensures OnGroup(w[j], g)
  {
    assert Descends(w[j], w'[j], w[j].run.group in targets);
  }

  lemma SharedStands(w: World, w': World, targets: set<int>, g: nat, me: nat)
    requires Evicts(w, w', targets) && !Touched(w, w', g) && Shared(w, g, me)
    ensures Shared(w', g, me)
  {
    var m: nat :| m < |w| && m != me && w[m].run.group == g;
    UntouchedSame(w, w', targets, g, m);
  }

  /** The rules ran on group `g` from `s1`, gave up, and the group's models were not changed afterwards. */
  ghost predicate GaveUp(env: Env, s1: Snap, g: nat, needed: int, s: Snap, r: Snap) {
    && Ok(env, s1) && g < |env.groups| && |s1.world| == |r.world| && s.clock <= s1.clock
    && !FreeRules(env, s1, g, needed).done && FreeRules(env, s1, g, needed).s.clock <= r.clock
    && (forall j: nat | j < |r.world| && OnGroup(r.world[j], g) :: FreeRules(env, s1, g, needed).s.world[j] == r.world[j])
  }

  /**
   For every outcome of the queries and calls: each shared target group either
   lost something, or the rules ran on it to their end; `Exhaustion.RulesExhaust`
   says what that leaves there.
   */
  lemma {:induction false} FreeFirstVisits(env: Env, s: Snap, i: nat, me: nat, needed: int, exclude: set<int>, g: nat) returns (s1: Snap)
    requires Ok(env, s) && g in Targets(env.groups, exclude, needed) && i <= g && Shared(s.world, g, me)
    requires !Touched(s.world, FreeFirst(env, s, i, me, needed, exclude).world, g)
    ensures GaveUp(env, s1, g, needed, s, FreeFirst(env, s, i, me, needed, exclude))
    ensures forall ph | Ideal(env, ph) && Fair(ph, s) :: Fair(ph, s1)
    decreases |env.groups| - i
  {
    hide FreeRules, Evicts, WorldOk, Touched, Shared, Fair, Ideal;
    var targets := Targets(env.groups, exclude, needed);
    var r := FreeFirst(env, s, i, me, needed, exclude);
    if i in exclude || env.groups[i].total < needed || !Shared(s.world, i, me) {
      s1 := FreeFirstVisits(env, s, i + 1, me, needed, exclude, g);
    } else {
      var n := FreeRules(env, s, i, needed);
      OneGroup(env, s, i, needed, exclude);
      FreeFirstFrame(env, n.s, i + 1, me, needed, exclude);
      NotYetTouched(s.world, n.s.world, r.world, g, targets);
      if i == g {
        s1 := s;
        if n.done { RulesTouch(env, s, g, needed); }
        forall j: nat | j < |r.world| && OnGroup(r.world[j], g) ensures n.s.world[j] == r.world[j] {
          UntouchedSame(n.s.world, r.world, targets, g, j);
        }
        assert |s1.world| == |r.world|;
      } else {
        SharedStands(s.world, n.s.world, targets, g, me);
        s1 := FreeFirstVisits(env, n.s, i + 1, me, needed, exclude, g);
        forall ph | Ideal(env, ph) && Fair(ph, s) ensures Fair(ph, n.s) {
          RulesSync(env, ph, s, i, needed);
        }
      }
    }
  }

  /**
   For every outcome of the queries and calls: the fallback takes the first target
   on which the rules succeed, as they left it; on every target before it, or on
   every target if there is none, they ran and gave up.
   */
  lemma {:induction false} FirstFreedIsFirst(env: Env, s: Snap, i: nat, needed: int, exclude: set<int>, g: nat) returns (s1: Snap)
    requires Ok(env, s) && g in Targets(env.groups, exclude, needed) && i <= g
    requires var idx := FirstFreed(env, s, i, needed, exclude).0; idx == -1 || g <= idx
    ensures var (idx, r) := FirstFreed(env, s, i, needed, exclude);
            && Ok(env, s1) && s.clock <= s1.clock
            && (FreeRules(env, s1, g, needed).done <==> g == idx)
            && (g == idx ==> FreeRules(env, s1, g, needed).s == r)
    decreases |env.groups| - i
  {
    hide FreeRules, Evicts, WorldOk;
    if i in exclude || env.groups[i].total < needed {
      s1 := FirstFreedIsFirst(env, s, i + 1, needed, exclude, g);
    } else if i == g {
      s1 := s;
    } else {
      OneGroup(env, s, i, needed, exclude);
      s1 := FirstFreedIsFirst(env, FreeRules(env, s, i, needed).s, i + 1, needed, exclude, g);
    }
  }

  lemma NotYetTouched(a: World, b: World, c: World, g: int, targets: set<int>)
    requires Evicts(a, b, targets) && Evicts(b, c, targets) && !Touched(a, c, g)
    ensures !Touched(a, b, g) && !Touched(b, c, g)
  {
    if Touched(a, b, g) || Touched(b, c, g) {
      TouchedJoin(a, b, c, g, targets);
    }
  }

  // ---- completeness under the physical model ----

  /** Nothing more can be had from group `g`, and it is not enough. */
  ghost predicate Hopeless(ph: Physics, w: World, g: nat, needed: int) {
    && g < |ph.capacity|
    && FreeUnder(ph.vram, ph.capacity, w)[g] < needed
    && Exhausted(ph.ram, w, g)
  }

  lemma {:induction false} FirstFreedHopeless(env: Env, ph: Physics, s: Snap, i: nat, needed: int, exclude: set<int>, g: nat)
    requires Ideal(env, ph) && Ok(env, s) && Fair(ph, s) && g in Targets(env.groups, exclude, needed) && i <= g
    requires var idx := FirstFreed(env, s, i, needed, exclude).0; idx == -1 || g < idx
    requires Deficit(ph.vram, ph.capacity, s.world, g, needed)
    ensures Hopeless(ph, FirstFreed(env, s, i, needed, exclude).1.world, g, needed)
    decreases |env.groups| - i
  {
    hide FreeRules, Evicts, WorldOk, Fair, Deficit, FreeUnder, Exhausted;
    if i in exclude || env.groups[i].total < needed {
      FirstFreedHopeless(env, ph, s, i + 1, needed, exclude, g);
    } else {
      var r := FreeRules(env, s, i, needed);
      OneGroup(env, s, i, needed, exclude);
      RulesSync(env, ph, s, i, needed);
      if i == g {
        RulesComplete(env, ph, s, g, needed);
        FirstFreedFrame(env, r.s, i + 1, needed, exclude);
        ExhaustedSurvives(ph.vram, ph.capacity, ph.ram, r.s.world, FirstFreed(env, r.s, i + 1, needed, exclude).1.world,
                          From(Targets(env.groups, exclude, needed), i + 1), g);
      } else {
        DeficitSurvives(ph.vram, ph.capacity, s.world, r.s.world, {i}, g, needed);
        FirstFreedHopeless(env, ph, r.s, i + 1, needed, exclude, g);
      }
    }
  }

  /** When the best fit fails, every target the fallback passes over is hopeless. */
  lemma SearchHopeless(env: Env, ph: Physics, s: Snap, me: nat, g: nat)
    requires Ideal(env, ph) && Ok(env, s) && me < |s.world| && |env.groups| > 0
    requires g in Targets(env.groups, SiblingGroups(s.world, me), Needed(s.world[me], env.groups))
    requires Search(env, s, me).0 == -1
    ensures Hopeless(ph, Search(env, s, me).1.world, g, Needed(s.world[me], env.groups))
  {
    hide FreeFirst, FirstFreed, Refreshed, SiblingGroups, Hopeless, FreeUnder;
    var needed, exclude := Needed(s.world[me], env.groups), SiblingGroups(s.world, me);
    var s1 := FreeFirst(env, s, 0, me, needed, exclude);
    FreeFirstFrame(env, s, 0, me, needed, exclude);
    var s2 := Refreshed(env, s1);
    RefreshSyncs(env, ph, s1);
    PickIsBest(env.groups, s2.free, exclude, needed);
    assert !Fits(s2.free, exclude, needed, g);
    FirstFreedHopeless(env, ph, s2, 0, needed, exclude, g);
  }

  /**
   Completeness.  When an unpinned load fails under the physical model, every
   large enough group without a sibling on it is short of memory, and every model
   on it is being loaded, or is a busy llama_cpp server, or an ACTIVE vLLM model,
   busy or not, whose weights do not fit in the CPU RAM that is free now, nor would
   if everything demotable were demoted, or a sleeping model with a nonzero counter.
   */
  lemma FailureIsJustified(env: Env, ph: Physics, s: Snap, me: nat, g: nat, j: nat)
    requires Ideal(env, ph) && Ok(env, s) && me < |s.world| && |env.groups| > 0 && Unpinned(env, s, me).0 == -1
    requires g < |env.groups| && g !in SiblingGroups(s.world, me) && env.groups[g].total >= Needed(s.world[me], env.groups)
    requires j < |s.world| && OnGroup(Unpinned(env, s, me).1.world[j], g)
    ensures var w := Unpinned(env, s, me).1.world;
            && FreeUnder(ph.vram, ph.capacity, w)[g] < Needed(s.world[me], env.groups)
            && match w[j].run.state
               case Loading => true
               case Active =>
                 if w[j].cfg.engine == LlamaCpp then w[j].run.active > 0
                 else w[j].mem.weights > CpuUnder(ph.ram, w) && w[j].mem.weights > CpuCeiling(ph.ram, w)
               case _ => w[j].run.active != 0
  {
    hide Search, SiblingGroups, FreeUnder, CpuUnder, CpuCeiling;
    SearchFrame(env, s, me);
    SearchHopeless(env, ph, s, me, g);
    var w := Unpinned(env, s, me).1.world;
    WeightsOk(w, |env.groups|);
    CeilingBounds(ph.ram, w);
    if w[j].run.state != Loading {
      assert Up(w[j].run.state);
      assert Stuck(ph.ram, w, w[j]);
    }
  }
}
