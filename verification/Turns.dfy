/**
 What one candidate's turn may change, and what each verdict means in terms of
 the calls and readings that led to it.
 */
module Turns {
  import opened Lifecycle
  import opened Eviction
  import opened Snapshots
  import opened Sequences
  import opened Rules

  function Tried(trail: seq<Deed>): (r: seq<nat>)
    ensures |r| == |trail|
  {
    seq(|trail|, n requires 0 <= n < |trail| => trail[n].i)
  }

  lemma TriedCons(d: Deed, rest: seq<Deed>)
    ensures Tried([d] + rest) == [d.i] + Tried(rest)
  {
  }

  lemma LoweredEvicts(w: World, i: nat, st: ModelState, targets: set<int>, groups: nat)
    requires i < |w| && WorldOk(w, groups)
    requires st == Unloaded ==> w[i].run.group in targets && (Idle(w[i], Sleep2) || (w[i].run.state == Active && w[i].cfg.engine == LlamaCpp && w[i].run.active <= 0))
    requires st == Sleep1 ==> w[i].run.group in targets && w[i].run.state == Active && w[i].cfg.engine == VLLM
    requires st == Sleep2 ==> Idle(w[i], Sleep1)
    requires st == Unloaded || Asleep(st)
    ensures Evicts(w, Lowered(w, i, st), targets) && WorldOk(Lowered(w, i, st), groups)
  {
    EvictsOne(w, i, Down(w[i], st), targets);
    EvictsKeepsOk(w, Lowered(w, i, st), targets, groups);
  }

  /** A level-2 sleep either succeeds and changes that model alone, or was refused by the call made at the new time. */
  lemma DeepenedFacts(env: Env, s: Snap, i: nat)
    requires Ok(env, s) && i < |s.world| && Idle(s.world[i], Sleep1)
    ensures var (v, s1) := Deepened(env, s, i);
            && Ok(env, s1) && Evicts(s.world, s1.world, {})
            && (v == Done || v == Refused)
            && s1.world == (if v == Done then Lowered(s.world, i, Sleep2) else s.world)
            && (v == Refused ==> s1 == s.(clock := s.clock + 1) && !env.sleepOk(s1.clock, i, 2))
  {
    LoweredEvicts(s.world, i, Sleep2, {}, |env.groups|);
    EvictsNothing(s.world, {});
  }

  /** A refusal is a sleep call that failed between two moments. */
  ghost predicate RefusedAt(env: Env, d: Deed, i: nat, level: int, after: nat, until: nat) {
    d.i == i && d.verdict == Refused && after < d.to.clock <= until && !env.sleepOk(d.to.clock, i, level)
  }

  ghost predicate WasRefused(env: Env, trail: seq<Deed>, i: nat, level: int, after: nat, until: nat) {
    exists n :: 0 <= n < |trail| && RefusedAt(env, trail[n], i, level, after, until)
  }

  /** All of `cands` are idle SLEEP1 models. */
  ghost predicate AllIdleSleep1(w: World, cands: seq<nat>) {
    && Distinct(cands)
    && (forall k | 0 <= k < |cands| :: cands[k] < |w|)
    && (forall i | i in cands :: i < |w| && Idle(w[i], Sleep1))
  }

  lemma RestIsIdle(w: World, cands: seq<nat>, i: nat, st: ModelState)
    requires AllIdleSleep1(w, cands) && cands != [] && i == cands[0]
    ensures AllIdleSleep1(w, cands[1..]) && AllIdleSleep1(Lowered(w, i, st), cands[1..]) && i !in cands[1..]
  {
    forall j | j in cands[1..] ensures j in cands && j != i {
      var n :| 0 <= n < |cands[1..]| && cands[1..][n] == j;
      assert cands[n + 1] == j;
    }
  }

  /** `freeCPURam` changes only candidates, each to SLEEP2 or not at all. */
  lemma {:induction false} FreeCpuFrame(env: Env, s: Snap, cands: seq<nat>, need: int)
    requires Ok(env, s) && AllIdleSleep1(s.world, cands)
    ensures var r := FreeCpu(env, s, cands, need);
            && Ok(env, r.s) && s.clock <= r.s.clock && Evicts(s.world, r.s.world, {})
            && (forall j: nat | j < |s.world| && j !in cands :: r.s.world[j] == s.world[j])
            && (forall j: nat | j in cands :: r.s.world[j] == s.world[j] || r.s.world[j] == Down(s.world[j], Sleep2))
            && (r.done ==> r.s.cpu >= need)
    decreases |cands|
  {
    if cands == [] {
      EvictsNothing(s.world, {});
    } else {
      var s1 := Refreshed(env, s);
      if s1.cpu >= need {
        EvictsNothing(s.world, {});
      } else {
        var (v, s2) := Deepened(env, s1, cands[0]);
        DeepenedFacts(env, s1, cands[0]);
        RestIsIdle(s1.world, cands, cands[0], Sleep2);
        FreeCpuFrame(env, s2, cands[1..], need);
        EvictsTrans(s.world, s2.world, FreeCpu(env, s2, cands[1..], need).s.world, {});
        assert forall j | j in cands :: j == cands[0] || j in cands[1..];
      }
    }
  }

  /** A demotion follows a counter reading that was too low, and a refusal is a call that failed. */
  ghost predicate CpuDeed(env: Env, d: Deed, need: int, after: nat, until: nat) {
    && d.from.cpu < need
    && (d.verdict == Done || RefusedAt(env, d, d.i, 2, after, until))
  }

  /** Smallest first, each after a reading that was too low; if not enough, every candidate had its turn. */
  lemma {:induction false} FreeCpuIsFrugal(env: Env, s: Snap, cands: seq<nat>, need: int)
    requires Ok(env, s) && AllIdleSleep1(s.world, cands)
    ensures var r := FreeCpu(env, s, cands, need);
            && Tried(r.trail) <= cands && (!r.done ==> Tried(r.trail) == cands)
            && (forall n | 0 <= n < |r.trail| :: CpuDeed(env, r.trail[n], need, s.clock, r.s.clock))
            && (forall n | 0 <= n < |r.trail| && r.trail[n].verdict == Done ::
                  r.trail[n].i < |r.s.world| && r.s.world[r.trail[n].i].run.state == Sleep2)
    decreases |cands|
  {
    hide Refreshed, Evicts, WorldOk, Descends, Deepened;
    if cands != [] {
      var s1 := Refreshed(env, s);
      if s1.cpu < need {
        var (v, s2) := Deepened(env, s1, cands[0]);
        var d, rest := Deed(Deepen, cands[0], v, s1, s2), FreeCpu(env, s2, cands[1..], need);
        DeepenedFacts(env, s1, cands[0]);
        RestIsIdle(s1.world, cands, cands[0], Sleep2);
        FreeCpuIsFrugal(env, s2, cands[1..], need);
        FreeCpuFrame(env, s2, cands[1..], need);
        TriedCons(d, rest.trail);
        assert rest.s.world[cands[0]] == s2.world[cands[0]];
        forall n | 0 <= n < |[d] + rest.trail| ensures CpuDeed(env, ([d] + rest.trail)[n], need, s.clock, rest.s.clock) {
          if n > 0 { assert CpuDeed(env, rest.trail[n - 1], need, s2.clock, rest.s.clock); }
        }
      }
    }
  }

  /** What remains asleep with its weights in CPU RAM after `freeCPURam` gave up was refused by a failed call. */
  lemma FreeCpuLeaves(env: Env, s: Snap, need: int, i: nat)
    requires Ok(env, s) && i < |s.world|
    requires var r := FreeCpu(env, s, Listing(s.world, Deepen, |s.world|), need);
             !r.done && Idle(r.s.world[i], Sleep1)
    ensures var r := FreeCpu(env, s, Listing(s.world, Deepen, |s.world|), need);
            WasRefused(env, r.trail, i, 2, s.clock, r.s.clock)
  {
    var cands := Listing(s.world, Deepen, |s.world|);
    ListingIsSorted(s.world, Deepen, |s.world|);
    var r := FreeCpu(env, s, cands, need);
    FreeCpuFrame(env, s, cands, need);
    FreeCpuIsFrugal(env, s, cands, need);
    assert Descends(s.world[i], r.s.world[i], false);
    assert i in cands;
    var n :| 0 <= n < |cands| && cands[n] == i;
    assert Tried(r.trail)[n] == i;
    assert CpuDeed(env, r.trail[n], need, s.clock, r.s.clock);
  }

  /** Making room for a vLLM model demotes idle SLEEP1 models and nothing else. */
  lemma RoomFrame(env: Env, s: Snap, i: nat)
    requires Ok(env, s) && i < |s.world|
    ensures var r := RoomFor(env, s, i);
            && Ok(env, r) && s.clock <= r.clock && Evicts(s.world, r.world, {})
            && (forall j: nat | j < |s.world| && !Idle(s.world[j], Sleep1) :: r.world[j] == s.world[j])
            && (r.cpu < s.world[i].mem.weights && s.cpu < s.world[i].mem.weights ==>
                  !FreeCpu(env, s, Listing(s.world, Deepen, |s.world|), s.world[i].mem.weights).done)
  {
    hide FreeCpu, Refreshed;
    ListingIsSorted(s.world, Deepen, |s.world|);
    if s.cpu < s.world[i].mem.weights {
      FreeCpuFrame(env, s, Listing(s.world, Deepen, |s.world|), s.world[i].mem.weights);
    } else {
      EvictsNothing(s.world, {});
    }
  }

  function Level(rule: Rule): int {
    if rule == Offload then 1 else 2
  }

  /** Why a turn left its model alone: a busy server, weights above the counter just read, or a call that failed. */
  ghost predicate Excused(env: Env, d: Deed, m: Model, after: nat, until: nat) {
    match d.verdict
    case Done => false
    case Busy => d.rule == Offload && m.cfg.engine == LlamaCpp && m.run.active > 0
    case CpuShort => d.rule == Offload && m.cfg.engine == VLLM && d.to.cpu < m.mem.weights
    case Refused => m.cfg.engine == VLLM && RefusedAt(env, d, d.i, Level(d.rule), after, until)
  }

  /** The state a rule takes its candidates to. */
  function Target(m: Model, rule: Rule): ModelState {
    match rule
    case Offload => if m.cfg.engine == LlamaCpp then Unloaded else Sleep1
    case Kill => Unloaded
    case Deepen => Sleep2
  }

  /** What a turn did. */
  ghost predicate TurnOk(env: Env, s: Snap, i: nat, g: nat, rule: Rule, v: Verdict, s1: Snap)
    requires i < |s.world|
  {
    && Ok(env, s1) && s.clock <= s1.clock
    && Evicts(s.world, s1.world, if v == Done then {g} else {})
    && (forall j: nat | j < |s.world| && j != i && (rule == Offload ==> !Idle(s.world[j], Sleep1)) :: s1.world[j] == s.world[j])
    && s1.world[i] == (if v == Done then Down(s.world[i], Target(s.world[i], rule)) else s.world[i])
    && (v != Done ==> Excused(env, Deed(rule, i, v, s, s1), s.world[i], s.clock, s1.clock))
  }

  lemma OffloadedFacts(env: Env, s: Snap, i: nat, g: nat)
    requires Ok(env, s) && i < |s.world| && g < |env.groups|
    requires s.world[i].run.state == Active && OnGroup(s.world[i], g) && s.world[i].cfg.engine == VLLM
    ensures var (v, s1) := Offloaded(env, s, i); TurnOk(env, s, i, g, Offload, v, s1)
  {
    hide RoomFor, Refreshed;
    RoomFrame(env, s, i);
    var mid := RoomFor(env, s, i);
    if mid.cpu >= s.world[i].mem.weights && env.sleepOk(mid.clock + 1, i, 1) {
      LoweredEvicts(mid.world, i, Sleep1, {g}, |env.groups|);
      EvictsWiden(s.world, mid.world, {}, {g});
      EvictsTrans(s.world, mid.world, Lowered(mid.world, i, Sleep1), {g});
    }
  }

  /** When the counter stays short for a vLLM model, every idle SLEEP1 model still there was refused by a failed call. */
  lemma CpuShortMeans(env: Env, s: Snap, i: nat, j: nat)
    requires Ok(env, s) && i < |s.world| && j < |s.world| && Offloaded(env, s, i).0 == CpuShort
    requires Idle(Offloaded(env, s, i).1.world[j], Sleep1)
    ensures var need, mid := s.world[i].mem.weights, Offloaded(env, s, i).1;
            && s.cpu < need && mid.cpu < need
            && WasRefused(env, FreeCpu(env, s, Listing(s.world, Deepen, |s.world|), need).trail, j, 2, s.clock, mid.clock)
  {
    hide FreeCpu, Refreshed, WasRefused, Listing;
    RoomFrame(env, s, i);
    FreeCpuLeaves(env, s, s.world[i].mem.weights, j);
  }

  /** One turn of a candidate on the group. */
  lemma TryFacts(env: Env, s: Snap, i: nat, g: nat, rule: Rule)
    requires Ok(env, s) && i < |s.world| && g < |env.groups| && Candidate(s.world[i], rule) && OnGroup(s.world[i], g)
    ensures var (v, s1) := Try(env, s, i, g, rule); TurnOk(env, s, i, g, rule, v, s1)
  {
    hide Offloaded, Waited, Refreshed;
    if rule == Deepen {
      DeepenedFacts(env, s, i);
      EvictsWiden(s.world, Deepened(env, s, i).1.world, {}, {g});
    } else if rule == Offload && s.world[i].cfg.engine == VLLM {
      OffloadedFacts(env, s, i, g);
    } else if rule == Offload && s.world[i].run.active > 0 {
      EvictsNothing(s.world, {});
    } else {
      LoweredEvicts(s.world, i, Unloaded, {g}, |env.groups|);
    }
  }

  /** A kill unloads the model and waits for what it had reserved to come back on top of what was free. */
  lemma KillWaitsForReservation(env: Env, s: Snap, i: nat, g: nat) returns (n: nat)
    requires Ok(env, s) && i < |s.world| && g < |env.groups| && s.world[i].run.reserved >= 0
    ensures var after := s.(world := s.world[i := s.world[i].(run := Unload(s.world[i].run))]);
            && 1 <= n <= 20 && Killed(env, s, i, g) == Polls(env, after, n)
            && (n < 20 ==> ComeBack(s.free[g], s.world[i].run.reserved, Polls(env, after, n - 1).free[g], Polls(env, after, n).free[g]))
            && forall m: nat | 0 < m < n ::
                 !ComeBack(s.free[g], s.world[i].run.reserved, Polls(env, after, m - 1).free[g], Polls(env, after, m).free[g])
  {
    hide Waited, Polls, ComeBack;
    n := WaitsForExpected(env, s.(world := Lowered(s.world, i, Unloaded)), g, s.free[g], s.world[i].run.reserved);
  }

  // ---- under the physical model ----

  lemma DeepenedIdeal(env: Env, ph: Physics, s: Snap, i: nat)
    requires Ideal(env, ph) && Ok(env, s) && i < |s.world| && Idle(s.world[i], Sleep1)
    ensures Deepened(env, s, i).0 == Done && Synced(ph, Deepened(env, s, i).1)
  {
    var s1 := s.(clock := s.clock + 1);
    assert env.sleepOk(s1.clock, i, 2);
    RefreshSyncs(env, ph, s1.(world := Lowered(s.world, i, Sleep2)));
  }

  /** With succeeding calls and exact readings, giving up means that no idle SLEEP1 model is left. */
  lemma {:induction false} FreeCpuIdeal(env: Env, ph: Physics, s: Snap, cands: seq<nat>, need: int)
    requires Ideal(env, ph) && Ok(env, s) && AllIdleSleep1(s.world, cands)
    ensures var r := FreeCpu(env, s, cands, need);
            && (Synced(ph, s) || cands != [] ==> Synced(ph, r.s))
            && (!r.done ==> forall j | j in cands :: j < |r.s.world| && r.s.world[j].run.state == Sleep2)
    decreases |cands|
  {
    hide Evicts, WorldOk, Refreshed, Synced, Deepened;
    if cands != [] {
      var s1 := Refreshed(env, s);
      RefreshSyncs(env, ph, s);
      if s1.cpu < need {
        var (v, s2) := Deepened(env, s1, cands[0]);
        DeepenedFacts(env, s1, cands[0]) by { FirstIsIdle(s.world, cands); }
        DeepenedIdeal(env, ph, s1, cands[0]) by { FirstIsIdle(s.world, cands); }
        RestIsIdle(s1.world, cands, cands[0], Sleep2);
        FreeCpuIdeal(env, ph, s2, cands[1..], need);
        FreeCpuFrame(env, s2, cands[1..], need);
        assert FreeCpu(env, s2, cands[1..], need).s.world[cands[0]] == s2.world[cands[0]];
        assert forall j | j in cands :: j == cands[0] || j in cands[1..];
      }
    }
  }

  lemma FirstIsIdle(w: World, cands: seq<nat>)
    requires AllIdleSleep1(w, cands) && cands != []
    ensures cands[0] < |w| && Idle(w[cands[0]], Sleep1)
  {
    assert cands[0] in cands;
  }

  /** The counter after making room: fair, and if it is still too low then nothing demotable would make room. */
  lemma RoomIdeal(env: Env, ph: Physics, s: Snap, i: nat)
    requires Ideal(env, ph) && Ok(env, s) && i < |s.world| && Fair(ph, s)
    ensures var mid := RoomFor(env, s, i);
            && Fair(ph, mid) && (Synced(ph, s) ==> Synced(ph, mid))
            && (mid.cpu < s.world[i].mem.weights ==> s.world[i].mem.weights > CpuCeiling(ph.ram, mid.world))
  {
    hide FreeCpu, Refreshed, CpuCeiling, CpuUnder, FreeUnder, Listing;
    var need := s.world[i].mem.weights;
    var cands := Listing(s.world, Deepen, |s.world|);
    var mid := RoomFor(env, s, i);
    RoomFrame(env, s, i);
    if s.cpu < need {
      ListingIsSorted(s.world, Deepen, |s.world|);
      FreeCpuIdeal(env, ph, s, cands, need);
      FreeCpuFrame(env, s, cands, need);
      if cands == [] { FreeCpuOfNone(env, s, need); }
    }
    if mid.cpu < need {
      forall j | 0 <= j < |mid.world| ensures !Idle(mid.world[j], Sleep1) {
        if j in cands { assert mid.world[j].run.state == Sleep2; }
        assert Descends(s.world[j], mid.world[j], false);
      }
      CeilingReached(ph.ram, mid.world);
    }
  }

  lemma FreeCpuOfNone(env: Env, s: Snap, need: int)
    requires |s.free| == |env.groups|
    ensures FreeCpu(env, s, [], need) == Outcome(false, s, [])
  {
  }

  /**
   Under the physical model a turn never fails a call, a successful one ends in an
   exact reading, and CpuShort means that nothing demotable would make room,
   provided that the counter was not too low to begin with.
   */
  lemma OffloadedIdeal(env: Env, ph: Physics, s: Snap, i: nat)
    requires Ideal(env, ph) && Ok(env, s) && i < |s.world| && Fair(ph, s)
    ensures var (v, s1) := Offloaded(env, s, i);
            && TurnIdeal(ph, s, i, v, s1) && v != Busy
  {
    hide RoomFor, Refreshed, CpuCeiling, CpuUnder, FreeUnder;
    var need := s.world[i].mem.weights;
    var mid := RoomFor(env, s, i);
    RoomIdeal(env, ph, s, i);
    if mid.cpu >= need {
      assert env.sleepOk(mid.clock + 1, i, 1);
      RefreshSyncs(env, ph, mid.(clock := mid.clock + 1, world := Lowered(mid.world, i, Sleep1), cpu := mid.cpu - need));
    }
  }

  ghost predicate TurnIdeal(ph: Physics, s: Snap, i: nat, v: Verdict, s1: Snap)
    requires i < |s.world|
  {
    && Fair(ph, s1) && (v == Done || Synced(ph, s) ==> Synced(ph, s1)) && v != Refused
    && (v == CpuShort ==> s.world[i].mem.weights > CpuCeiling(ph.ram, s1.world))
  }

  lemma TryIdeal(env: Env, ph: Physics, s: Snap, i: nat, g: nat, rule: Rule)
    requires Ideal(env, ph) && Ok(env, s) && Fair(ph, s)
    requires i < |s.world| && g < |env.groups| && Candidate(s.world[i], rule) && OnGroup(s.world[i], g)
    ensures var (v, s1) := Try(env, s, i, g, rule); TurnIdeal(ph, s, i, v, s1)
  {
    hide Offloaded, Settle, Refreshed, CpuCeiling;
    if rule == Deepen {
      DeepenedIdeal(env, ph, s, i);
    } else if rule == Offload && s.world[i].cfg.engine == VLLM {
      OffloadedIdeal(env, ph, s, i);
    } else {
      var reserved := s.world[i].run.reserved;
      WaitSyncs(env, ph, s.(world := Lowered(s.world, i, Unloaded)), g, s.free[g] + Percent(reserved, 75), Jitter(reserved), 20);
    }
  }
}
