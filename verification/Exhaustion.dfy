/**
 The four rules in order: frugal and smallest first for every outcome of the
 queries and calls, and what is left when they give up and why.
 */
module Exhaustion {
  import opened Lifecycle
  import opened Eviction
  import opened Snapshots
  import opened Candidates
  import opened Sequences
  import opened Rules
  import opened Turns
  import opened Sweeps

  lemma ListedAreCandidates(w: World, rule: Rule)
    ensures var cands := Listing(w, rule, |w|);
            AllCandidates(w, cands, rule) && forall i: nat :: i in cands <==> i < |w| && Candidate(w[i], rule)
  {
    ListingIsSorted(w, rule, |w|);
  }

  /** One rule changes only its candidates on the group, and Rule 1 also idle SLEEP1 models. */
  lemma ApplyFrame(env: Env, s: Snap, g: nat, needed: int, rule: Rule)
    requires Ok(env, s) && g < |env.groups|
    ensures var r := Apply(env, s, g, needed, rule);
            && Ok(env, r.s) && s.clock <= r.s.clock && Evicts(s.world, r.s.world, {g})
            && (forall j: nat | j < |s.world| && !(Candidate(s.world[j], rule) && OnGroup(s.world[j], g))
                                && (rule == Offload ==> !Idle(s.world[j], Sleep1)) :: r.s.world[j] == s.world[j])
  {
    hide Sweep, Candidate, Evicts, WorldOk;
    ListedAreCandidates(s.world, rule);
    SweepFrame(env, s, Listing(s.world, rule, |s.world|), g, needed, rule);
  }

  lemma HeadComesFirst(cands: seq<nat>, w: World, g: int, keys: seq<int>)
    requires (forall k | 0 <= k < |cands| :: cands[k] < |w|) && Ascending(cands, keys) && Distinct(cands) && cands != []
    ensures var rest := Only(cands[1..], w, g);
            cands[0] !in rest && forall n | 0 <= n < |rest| :: rest[n] < |keys| && keys[cands[0]] <= keys[rest[n]]
  {
    hide Only;
    var rest := Only(cands[1..], w, g);
    OnlyMembers(cands[1..], w, g, cands[0]);
    forall n | 0 <= n < |rest| ensures rest[n] < |keys| && keys[cands[0]] <= keys[rest[n]] {
      OnlyMembers(cands[1..], w, g, rest[n]);
      var k :| 0 <= k < |cands[1..]| && cands[1..][k] == rest[n];
      assert cands[k + 1] == rest[n];
    }
  }

  lemma {:induction false} OnlyIsSorted(cands: seq<nat>, w: World, g: int, keys: seq<int>)
    requires (forall k | 0 <= k < |cands| :: cands[k] < |w|) && Ascending(cands, keys) && Distinct(cands)
    ensures Ascending(Only(cands, w, g), keys) && Distinct(Only(cands, w, g))
    decreases |cands|
  {
    if cands != [] {
      OnlyIsSorted(cands[1..], w, g, keys);
      HeadComesFirst(cands, w, g, keys);
      AtEitherEnd(Only(cands[1..], w, g), keys, cands[0]);
      hide Ascending, Distinct;
      assert [] + Only(cands[1..], w, g) == Only(cands[1..], w, g);
    }
  }

  /**
   One rule acts on a prefix of exactly its candidates on the group, smallest
   first, and on all of them if it was not enough; every successful turn but a
   last one that sufficed was followed by a reading that was too low.
   */
  lemma RuleIsOrdered(env: Env, s: Snap, g: nat, needed: int, rule: Rule)
    requires Ok(env, s) && g < |env.groups|
    ensures var listed := Only(Listing(s.world, rule, |s.world|), s.world, g);
            && TrailOk(env, s, listed, g, needed, rule, Apply(env, s, g, needed, rule))
            && Ascending(listed, Keys(s.world, rule)) && Distinct(listed)
            && forall i: nat :: i in listed <==> i < |s.world| && Candidate(s.world[i], rule) && OnGroup(s.world[i], g)
  {
    hide Sweep, TrailOk, Candidate, Listing, Only;
    var cands := Listing(s.world, rule, |s.world|);
    ListedAreCandidates(s.world, rule);
    ListingIsSorted(s.world, rule, |s.world|);
    SweepTrail(env, s, cands, g, needed, rule);
    OnlyIsSorted(cands, s.world, g, Keys(s.world, rule));
    forall i: nat ensures i in Only(cands, s.world, g) <==> i < |s.world| && Candidate(s.world[i], rule) && OnGroup(s.world[i], g) {
      OnlyMembers(cands, s.world, g, i);
    }
  }

  /** Turns change no model's size, so each turn sees the sizes of the start. */
  lemma {:induction false} TrailKeepsSizes(env: Env, s: Snap, trail: seq<Deed>, s': Snap, g: nat, n: nat)
    requires Linked(s, trail, s') && n < |trail| && forall m | 0 <= m < |trail| :: Genuine(env, g, trail[m])
    ensures |trail[n].from.world| == |s.world|
    ensures forall i | 0 <= i < |s.world| :: trail[n].from.world[i].mem == s.world[i].mem
    decreases n
  {
    hide Try, WorldOk, Candidate, Excused;
    if n > 0 {
      TrailKeepsSizes(env, s, trail, s', g, n - 1);
      var d := trail[n - 1];
      assert Genuine(env, g, d);
      TryFacts(env, d.from, d.i, g, d.rule);
      assert trail[n].from == d.to;
      forall i | 0 <= i < |s.world| ensures d.to.world[i].mem == d.from.world[i].mem {
        assert Descends(d.from.world[i], d.to.world[i], d.from.world[i].run.group in if d.verdict == Done then {g} else {});
      }
    }
  }

  /**
   Smallest first, by the models' own sizes: of any two turns of one rule the
   earlier one took a model with no larger measured size (Rules 1, 2 and 4), or no
   larger weights (Rule 3), than the later one.
   */
  lemma TurnsGoBySize(env: Env, s: Snap, g: nat, needed: int, rule: Rule, m: nat, n: nat)
    requires Ok(env, s) && g < |env.groups| && m < n < |Apply(env, s, g, needed, rule).trail|
    ensures var trail := Apply(env, s, g, needed, rule).trail;
            && trail[m].i < |trail[m].from.world| && trail[n].i < |trail[n].from.world| && trail[m].i != trail[n].i
            && var a, b := trail[m].from.world[trail[m].i].mem, trail[n].from.world[trail[n].i].mem;
               match rule
               case Offload => a.fullKV <= b.fullKV
               case Kill => a.fullKV <= b.fullKV
               case Deepen => a.weights <= b.weights
  {
    hide Apply, Genuine, WorldOk;
    var r := Apply(env, s, g, needed, rule);
    var listed := Only(Listing(s.world, rule, |s.world|), s.world, g);
    RuleIsOrdered(env, s, g, needed, rule);
    TrailKeepsSizes(env, s, r.trail, r.s, g, m);
    TrailKeepsSizes(env, s, r.trail, r.s, g, n);
    hide Listing, Only;
    assert Tried(r.trail)[m] == listed[m] && Tried(r.trail)[n] == listed[n];
    assert Keys(s.world, rule)[listed[m]] <= Keys(s.world, rule)[listed[n]];
  }

  /** CPU RAM is freed smallest weights first. */
  lemma CpuTurnsGoByWeights(env: Env, s: Snap, need: int, m: nat, n: nat)
    requires Ok(env, s)
    requires m < n < |FreeCpu(env, s, Listing(s.world, Deepen, |s.world|), need).trail|
    ensures var trail := FreeCpu(env, s, Listing(s.world, Deepen, |s.world|), need).trail;
            && trail[m].i < |s.world| && trail[n].i < |s.world| && trail[m].i != trail[n].i
            && s.world[trail[m].i].mem.weights <= s.world[trail[n].i].mem.weights
            && Idle(s.world[trail[m].i], Sleep1)
  {
    hide FreeCpu, Listing, WorldOk;
    var cands := Listing(s.world, Deepen, |s.world|);
    ListingIsSorted(s.world, Deepen, |s.world|);
    FreeCpuIsFrugal(env, s, cands, need);
    var trail := FreeCpu(env, s, cands, need).trail;
    assert Tried(trail)[m] == cands[m] && Tried(trail)[n] == cands[n];
    assert cands[m] in cands;
    assert Keys(s.world, Deepen)[cands[m]] <= Keys(s.world, Deepen)[cands[n]];
  }

  // ---- the rules one after the other ----

  /** What every stage of the rules keeps. */
  ghost predicate StageOk(env: Env, s: Snap, g: nat, needed: int, r: Outcome) {
    && g < |env.groups| && Ok(env, r.s) && s.clock <= r.s.clock && Evicts(s.world, r.s.world, {g})
    && Linked(s, r.trail, r.s) && Frugal(r.trail, g, needed, r.done)
    && forall n | 0 <= n < |r.trail| :: Genuine(env, g, r.trail[n])
  }

  lemma ApplyStage(env: Env, s: Snap, g: nat, needed: int, rule: Rule)
    requires Ok(env, s) && g < |env.groups|
    ensures StageOk(env, s, g, needed, Apply(env, s, g, needed, rule))
  {
    hide Apply, Evicts, WorldOk, Genuine, Linked, Frugal;
    ApplyFrame(env, s, g, needed, rule);
    RuleIsOrdered(env, s, g, needed, rule);
  }

  lemma ThenStage(env: Env, s: Snap, r: Outcome, g: nat, needed: int, rule: Rule)
    requires g < |env.groups| && StageOk(env, s, g, needed, r)
    ensures StageOk(env, s, g, needed, Then(env, r, g, needed, rule))
  {
    hide Apply, WorldOk, Genuine, Evicts, Linked, Frugal;
    if !r.done {
      var n := Apply(env, r.s, g, needed, rule);
      ApplyStage(env, r.s, g, needed, rule);
      EvictsTrans(s.world, r.s.world, n.s.world, {g});
      LinkedAppend(s, r.trail, r.s, n.trail, n.s);
      FrugalAppend(r.trail, n.trail, g, needed, n.done);
    }
  }

  /**
   For every outcome of the queries and calls: the trail leads from the first
   snapshot to the last in turns of the code; every turn that freed memory, but a
   last one that sufficed, is followed by a reading below `needed`; the rules
   return true exactly on a reading that suffices; nobody rises on the ladder and
   other groups lose only idle SLEEP1 to SLEEP2.
   */
  lemma RulesAreFrugal(env: Env, s: Snap, g: nat, needed: int)
    requires Ok(env, s) && g < |env.groups|
    ensures StageOk(env, s, g, needed, FreeRules(env, s, g, needed))
  {
    hide Apply, Then, StageOk;
    var r1 := Apply(env, s, g, needed, Offload);
    var r2 := Then(env, r1, g, needed, Kill);
    var r3 := Then(env, r2, g, needed, Deepen);
    ApplyStage(env, s, g, needed, Offload);
    ThenStage(env, s, r1, g, needed, Kill);
    ThenStage(env, s, r2, g, needed, Deepen);
    ThenStage(env, s, r3, g, needed, Kill);
  }

  /** A reason found in a trail. */
  ghost predicate ExcusedIn(env: Env, trail: seq<Deed>, rule: Rule, i: nat, m: Model, after: nat, until: nat) {
    exists n :: 0 <= n < |trail| && trail[n].rule == rule && trail[n].i == i && Excused(env, trail[n], m, after, until)
  }

  lemma ExcuseStands(env: Env, front: seq<Deed>, trail: seq<Deed>, back: seq<Deed>, rule: Rule, i: nat, m: Model,
                     after: nat, until: nat, after': nat, until': nat)
    requires ExcusedIn(env, trail, rule, i, m, after, until) && after' <= after && until <= until'
    ensures ExcusedIn(env, front + trail + back, rule, i, m, after', until')
  {
    var n :| 0 <= n < |trail| && trail[n].rule == rule && trail[n].i == i && Excused(env, trail[n], m, after, until);
    assert (front + trail + back)[|front| + n] == trail[n];
  }

  /** After a rule that was not enough, its remaining candidates on the group each had a reason, and Kill leaves none. */
  lemma ApplyLeaves(env: Env, s: Snap, g: nat, needed: int, rule: Rule, i: nat)
    requires Ok(env, s) && g < |env.groups| && i < |s.world| && !Apply(env, s, g, needed, rule).done
    requires var r := Apply(env, s, g, needed, rule);
             Candidate(s.world[i], rule) && OnGroup(s.world[i], g) && Candidate(r.s.world[i], rule)
    ensures var r := Apply(env, s, g, needed, rule);
            rule != Kill && r.s.world[i] == s.world[i] && ExcusedIn(env, r.trail, rule, i, s.world[i], s.clock, r.s.clock)
  {
    hide Sweep, Candidate, Excused, Only, Listing, WorldOk;
    var cands := Listing(s.world, rule, |s.world|);
    ListedAreCandidates(s.world, rule);
    var n := SweepHandles(env, s, cands, g, needed, rule, i);
    SweepTrail(env, s, cands, g, needed, rule);
    var d := Apply(env, s, g, needed, rule).trail[n];
    assert Genuine(env, g, d);
  }

  lemma ApplyKeeps(env: Env, s: Snap, g: nat, needed: int, rule: Rule, i: nat)
    requires Ok(env, s) && g < |env.groups| && i < |s.world| && rule != Offload
    requires !(Candidate(s.world[i], rule) && OnGroup(s.world[i], g))
    ensures Apply(env, s, g, needed, rule).s.world[i] == s.world[i]
  {
    ApplyFrame(env, s, g, needed, rule);
  }

  lemma ActiveStayed(w: World, w': World, targets: set<int>, i: nat)
    requires Evicts(w, w', targets) && i < |w| && w'[i].run.state == Active
    ensures w'[i] == w[i]
  {
    assert Descends(w[i], w'[i], w[i].run.group in targets);
  }

  lemma GroupStayed(w: World, w': World, targets: set<int>, i: nat, g: int)
    requires Evicts(w, w', targets) && i < |w| && OnGroup(w'[i], g)
    ensures OnGroup(w[i], g)
  {
    assert Descends(w[i], w'[i], w[i].run.group in targets);
  }

  /** After Rule 2 or 4 no idle SLEEP2 model is left on the group, and idle SLEEP1 models are as before. */
  lemma AfterKill(env: Env, s: Snap, g: nat, needed: int, i: nat)
    requires Ok(env, s) && g < |env.groups| && i < |s.world| && !Apply(env, s, g, needed, Kill).done
    requires OnGroup(Apply(env, s, g, needed, Kill).s.world[i], g)
    ensures var m' := Apply(env, s, g, needed, Kill).s.world[i];
            !Idle(m', Sleep2) && (Idle(m', Sleep1) ==> m' == s.world[i])
  {
    hide Apply, WorldOk, Evicts;
    var r := Apply(env, s, g, needed, Kill);
    ApplyFrame(env, s, g, needed, Kill);
    GroupStayed(s.world, r.s.world, {g}, i, g);
    if Candidate(s.world[i], Kill) {
      if Candidate(r.s.world[i], Kill) {
        ApplyLeaves(env, s, g, needed, Kill, i);
      }
      NeverBack(s.world, r.s.world, g, i);
    } else {
      ApplyKeeps(env, s, g, needed, Kill, i);
    }
  }

  lemma NeverBack(w: World, w': World, g: int, i: nat)
    requires Evicts(w, w', {g}) && i < |w| && w[i].run.state == Sleep2
    ensures w'[i].run.state != Sleep1
  {
    assert Descends(w[i], w'[i], w[i].run.group in {g});
  }

  /** After Rule 3 an idle SLEEP1 model on the group is one whose sleep call failed. */
  lemma AfterDeepen(env: Env, s: Snap, g: nat, needed: int, i: nat)
    requires Ok(env, s) && g < |env.groups| && i < |s.world| && !Apply(env, s, g, needed, Deepen).done
    requires var m' := Apply(env, s, g, needed, Deepen).s.world[i]; OnGroup(m', g) && Idle(m', Sleep1)
    ensures var r := Apply(env, s, g, needed, Deepen);
            r.s.world[i] == s.world[i] && ExcusedIn(env, r.trail, Deepen, i, s.world[i], s.clock, r.s.clock)
  {
    hide Apply, WorldOk, Evicts;
    var r := Apply(env, s, g, needed, Deepen);
    ApplyFrame(env, s, g, needed, Deepen);
    GroupStayed(s.world, r.s.world, {g}, i, g);
    if Candidate(s.world[i], Deepen) {
      ApplyLeaves(env, s, g, needed, Deepen, i);
    } else {
      ApplyKeeps(env, s, g, needed, Deepen, i);
    }
  }

  /** After Rule 1 an ACTIVE model on the group has its reason. */
  lemma AfterOffload(env: Env, s: Snap, g: nat, needed: int, i: nat)
    requires Ok(env, s) && g < |env.groups| && i < |s.world| && !Apply(env, s, g, needed, Offload).done
    requires var m' := Apply(env, s, g, needed, Offload).s.world[i]; OnGroup(m', g) && m'.run.state == Active
    ensures var r := Apply(env, s, g, needed, Offload);
            r.s.world[i] == s.world[i] && ExcusedIn(env, r.trail, Offload, i, s.world[i], s.clock, r.s.clock)
  {
    hide Apply, WorldOk, Evicts;
    var r := Apply(env, s, g, needed, Offload);
    ApplyFrame(env, s, g, needed, Offload);
    ActiveStayed(s.world, r.s.world, {g}, i);
    ApplyLeaves(env, s, g, needed, Offload, i);
  }

  /** The five snapshots of a run of the rules that was not enough. */
  lemma RulesUnfold(env: Env, s: Snap, g: nat, needed: int)
    requires Ok(env, s) && g < |env.groups| && !FreeRules(env, s, g, needed).done
    ensures var a1 := Apply(env, s, g, needed, Offload);
            && !a1.done && Ok(env, a1.s) && s.clock <= a1.s.clock && Evicts(s.world, a1.s.world, {g})
            && var a2 := Apply(env, a1.s, g, needed, Kill);
            && !a2.done && Ok(env, a2.s) && a1.s.clock <= a2.s.clock && Evicts(a1.s.world, a2.s.world, {g})
            && var a3 := Apply(env, a2.s, g, needed, Deepen);
            && !a3.done && Ok(env, a3.s) && a2.s.clock <= a3.s.clock && Evicts(a2.s.world, a3.s.world, {g})
            && var a4 := Apply(env, a3.s, g, needed, Kill);
            && !a4.done && Ok(env, a4.s) && a3.s.clock <= a4.s.clock && Evicts(a3.s.world, a4.s.world, {g})
            && FreeRules(env, s, g, needed) == Outcome(false, a4.s, a1.trail + a2.trail + a3.trail + a4.trail)
  {
    hide Apply, Evicts, WorldOk;
    ApplyFrame(env, s, g, needed, Offload);
    var a1 := Apply(env, s, g, needed, Offload);
    ApplyFrame(env, a1.s, g, needed, Kill);
    var a2 := Apply(env, a1.s, g, needed, Kill);
    ApplyFrame(env, a2.s, g, needed, Deepen);
    var a3 := Apply(env, a2.s, g, needed, Deepen);
    ApplyFrame(env, a3.s, g, needed, Kill);
  }

  /**
   For every outcome of the queries and calls: when the rules return false, no
   idle SLEEP2 model is left on the group; an idle SLEEP1 model only if its
   level-2 sleep call failed; an ACTIVE llama_cpp model only if busy; an ACTIVE
   vLLM model only if its level-1 call failed or the CPU counter read for it was
   below its weights.
   */
  lemma RulesExhaust(env: Env, s: Snap, g: nat, needed: int, i: nat)
    requires Ok(env, s) && g < |env.groups| && i < |s.world| && !FreeRules(env, s, g, needed).done
    requires OnGroup(FreeRules(env, s, g, needed).s.world[i], g)
    ensures var r := FreeRules(env, s, g, needed);
            var m := r.s.world[i];
            && !Idle(m, Sleep2)
            && (Idle(m, Sleep1) ==> ExcusedIn(env, r.trail, Deepen, i, m, s.clock, r.s.clock))
            && (m.run.state == Active ==> ExcusedIn(env, r.trail, Offload, i, m, s.clock, r.s.clock))
  {
    hide Apply, WorldOk, FreeRules, ExcusedIn, Evicts;
    RulesUnfold(env, s, g, needed);
    var a1 := Apply(env, s, g, needed, Offload);
    var a2 := Apply(env, a1.s, g, needed, Kill);
    var a3 := Apply(env, a2.s, g, needed, Deepen);
    var a4 := Apply(env, a3.s, g, needed, Kill);
    var m := a4.s.world[i];
    AfterKill(env, a3.s, g, needed, i);
    if Idle(m, Sleep1) {
      AfterDeepen(env, a2.s, g, needed, i);
      ExcuseStands(env, a1.trail + a2.trail, a3.trail, a4.trail, Deepen, i, m, a2.s.clock, a3.s.clock, s.clock, a4.s.clock);
    }
    if m.run.state == Active {
      ActiveStayed(a3.s.world, a4.s.world, {g}, i);
      ActiveStayed(a2.s.world, a3.s.world, {g}, i);
      ActiveStayed(a1.s.world, a2.s.world, {g}, i);
      AfterOffload(env, s, g, needed, i);
      ExcuseStands(env, [], a1.trail, a2.trail + a3.trail + a4.trail, Offload, i, m, s.clock, a1.s.clock, s.clock, a4.s.clock);
      assert [] + a1.trail + (a2.trail + a3.trail + a4.trail) == a1.trail + a2.trail + a3.trail + a4.trail;
    }
  }

  lemma ApplyTouches(env: Env, s: Snap, g: nat, needed: int, rule: Rule)
    requires Ok(env, s) && g < |env.groups| && Apply(env, s, g, needed, rule).done
    ensures Touched(s.world, Apply(env, s, g, needed, rule).s.world, g)
  {
    hide Sweep, Touched, WorldOk;
    ListedAreCandidates(s.world, rule);
    SweepTouches(env, s, Listing(s.world, rule, |s.world|), g, needed, rule);
  }

  lemma ThenTouches(env: Env, s: Snap, r: Outcome, g: nat, needed: int, rule: Rule)
    requires g < |env.groups| && StageOk(env, s, g, needed, r) && (r.done ==> Touched(s.world, r.s.world, g))
    ensures var n := Then(env, r, g, needed, rule); n.done ==> Touched(s.world, n.s.world, g)
  {
    hide Apply, Touched, WorldOk, Evicts, Genuine, Linked, Frugal;
    if !r.done {
      var n := Apply(env, r.s, g, needed, rule);
      if n.done {
        ApplyFrame(env, r.s, g, needed, rule);
        ApplyTouches(env, r.s, g, needed, rule);
        TouchedJoin(s.world, r.s.world, n.s.world, g, {g});
      }
    }
  }

  /** Rules that were enough evicted a model on the group: they never succeed on the memory that was free before. */
  lemma RulesTouch(env: Env, s: Snap, g: nat, needed: int)
    requires Ok(env, s) && g < |env.groups| && FreeRules(env, s, g, needed).done
    ensures Touched(s.world, FreeRules(env, s, g, needed).s.world, g)
  {
    hide Apply, Then, StageOk, Touched;
    var r1 := Apply(env, s, g, needed, Offload);
    var r2 := Then(env, r1, g, needed, Kill);
    var r3 := Then(env, r2, g, needed, Deepen);
    ApplyStage(env, s, g, needed, Offload);
    if r1.done { ApplyTouches(env, s, g, needed, Offload); }
    ThenStage(env, s, r1, g, needed, Kill);
    ThenTouches(env, s, r1, g, needed, Kill);
    ThenStage(env, s, r2, g, needed, Deepen);
    ThenTouches(env, s, r2, g, needed, Deepen);
    ThenTouches(env, s, r3, g, needed, Kill);
  }

  /**
   So the rules return true on a group that needs no freeing only if they evict
   something: with nothing on the group they return false, whatever is free.
   */
  lemma EmptyGroupFails(env: Env, s: Snap, g: nat, needed: int)
    requires Ok(env, s) && g < |env.groups| && forall i | 0 <= i < |s.world| :: !OnGroup(s.world[i], g)
    ensures !FreeRules(env, s, g, needed).done
  {
    if FreeRules(env, s, g, needed).done {
      hide FreeRules;
      RulesTouch(env, s, g, needed);
    }
  }
}
