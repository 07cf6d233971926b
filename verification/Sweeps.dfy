/**
 What a sweep over the candidates of one rule promises: every turn is one of the
 code's, in order and frugal, and nobody is passed over without a reason.
 */
module Sweeps {
  import opened Lifecycle
  import opened Eviction
  import opened Snapshots
  import opened Sequences
  import opened Rules
  import opened Turns

  // ---- properties of a trail ----

  /** Each turn starts where the one before it ended; nothing happens in between. */
  ghost predicate Linked(s: Snap, trail: seq<Deed>, s': Snap) {
    if trail == [] then s' == s
    else
      && trail[0].from == s && trail[|trail| - 1].to == s'
      && forall n | 0 <= n < |trail| - 1 :: trail[n].to == trail[n + 1].from
  }

  /** Every successful turn but a last one that sufficed is followed by a reading that was too low, and only such a last one ends the rules. */
  ghost predicate Frugal(trail: seq<Deed>, g: nat, needed: int, done: bool) {
    && (forall n | 0 <= n < |trail| :: g < |trail[n].to.free|)
    && (forall n | 0 <= n < |trail| && trail[n].verdict == Done && !(done && n == |trail| - 1) :: trail[n].to.free[g] < needed)
    && (done ==> trail != [] && trail[|trail| - 1].verdict == Done && trail[|trail| - 1].to.free[g] >= needed)
  }

  /** A turn of the code: the model was a candidate on the group at that moment, and the code did what `Try` says. */
  ghost predicate Genuine(env: Env, g: nat, d: Deed) {
    && Ok(env, d.from) && g < |env.groups| && d.i < |d.from.world|
    && Candidate(d.from.world[d.i], d.rule) && OnGroup(d.from.world[d.i], g)
    && (d.verdict, d.to) == Try(env, d.from, d.i, g, d.rule)
  }

  lemma LinkedAppend(a: Snap, t: seq<Deed>, b: Snap, u: seq<Deed>, c: Snap)
    requires Linked(a, t, b) && Linked(b, u, c)
    ensures Linked(a, t + u, c)
  {
    if u == [] {
      assert t + u == t;
    } else if t == [] {
      assert t + u == u;
    }
  }

  lemma FrugalAppend(t: seq<Deed>, u: seq<Deed>, g: nat, needed: int, done: bool)
    requires Frugal(t, g, needed, false) && Frugal(u, g, needed, done)
    ensures Frugal(t + u, g, needed, done)
  {
  }

  /** The members of `cands` on group `g`, in order. */
  function Only(cands: seq<nat>, w: World, g: int): (r: seq<nat>)
    requires forall k | 0 <= k < |cands| :: cands[k] < |w|
    decreases |cands|
  {
    if cands == [] then []
    else (if OnGroup(w[cands[0]], g) then [cands[0]] else []) + Only(cands[1..], w, g)
  }

  lemma {:induction false} OnlyMembers(cands: seq<nat>, w: World, g: int, i: nat)
    requires forall k | 0 <= k < |cands| :: cands[k] < |w|
    ensures i in Only(cands, w, g) <==> i in cands && OnGroup(w[i], g)
    decreases |cands|
  {
    if cands != [] {
      OnlyMembers(cands[1..], w, g, i);
      assert i in cands <==> i == cands[0] || i in cands[1..];
    }
  }

  lemma {:induction false} OnlySame(cands: seq<nat>, w: World, w': World, g: int)
    requires forall k | 0 <= k < |cands| :: cands[k] < |w| && cands[k] < |w'| && w'[cands[k]] == w[cands[k]]
    ensures Only(cands, w', g) == Only(cands, w, g)
    decreases |cands|
  {
    if cands != [] {
      assert w'[cands[0]] == w[cands[0]];
      forall k | 0 <= k < |cands[1..]| ensures w'[cands[1..][k]] == w[cands[1..][k]] {
        assert cands[1..][k] == cands[k + 1];
      }
      OnlySame(cands[1..], w, w', g);
    }
  }

  // ---- one sweep ----

  ghost predicate AllCandidates(w: World, cands: seq<nat>, rule: Rule) {
    && Distinct(cands)
    && (forall k | 0 <= k < |cands| :: cands[k] < |w|)
    && (forall i | i in cands :: i < |w| && Candidate(w[i], rule))
  }

  lemma RestSkips(w: World, cands: seq<nat>, rule: Rule)
    requires AllCandidates(w, cands, rule) && cands != []
    ensures AllCandidates(w, cands[1..], rule) && cands[0] !in cands[1..] && cands[0] in cands
    ensures forall j :: j in cands <==> j == cands[0] || j in cands[1..]
  {
    forall j | j in cands[1..] ensures j in cands && j != cands[0] {
      var n :| 0 <= n < |cands[1..]| && cands[1..][n] == j;
      assert cands[n + 1] == j;
    }
  }

  /** After a turn the remaining candidates are as they were. */
  lemma RestStands(env: Env, s: Snap, s1: Snap, v: Verdict, cands: seq<nat>, g: nat, rule: Rule)
    requires AllCandidates(s.world, cands, rule) && cands != [] && TurnOk(env, s, cands[0], g, rule, v, s1)
    ensures AllCandidates(s1.world, cands[1..], rule)
    ensures forall j | j in cands[1..] :: s1.world[j] == s.world[j]
    ensures forall k | 0 <= k < |cands[1..]| :: s1.world[cands[1..][k]] == s.world[cands[1..][k]]
  {
    RestSkips(s.world, cands, rule);
    assert |s1.world| == |s.world|;
    forall j | j in cands[1..] ensures s1.world[j] == s.world[j] {
      assert Candidate(s.world[j], rule);
    }
  }

  /** A sweep changes candidates on the group, and under Rule 1 idle SLEEP1 models; nobody rises. */
  lemma {:induction false} SweepFrame(env: Env, s: Snap, cands: seq<nat>, g: nat, needed: int, rule: Rule)
    requires Ok(env, s) && g < |env.groups| && AllCandidates(s.world, cands, rule)
    ensures var r := Sweep(env, s, cands, g, needed, rule);
            && Ok(env, r.s) && s.clock <= r.s.clock && Evicts(s.world, r.s.world, {g})
            && (forall j: nat | j < |s.world| && !(j in cands && OnGroup(s.world[j], g)) && (rule == Offload ==> !Idle(s.world[j], Sleep1)) ::
                  r.s.world[j] == s.world[j])
    decreases |cands|
  {
    hide Try, Evicts, WorldOk, Candidate;
    if cands == [] {
      EvictsNothing(s.world, {g});
    } else {
      RestSkips(s.world, cands, rule);
      var i := cands[0];
      if !OnGroup(s.world[i], g) {
        SweepFrame(env, s, cands[1..], g, needed, rule);
      } else {
        var (v, s1) := Try(env, s, i, g, rule);
        TryFacts(env, s, i, g, rule);
        EvictsWiden(s.world, s1.world, if v == Done then {g} else {}, {g});
        if !(v == Done && s1.free[g] >= needed) {
          RestStands(env, s, s1, v, cands, g, rule);
          SweepFrame(env, s1, cands[1..], g, needed, rule);
          SweepKeepsOthers(env, s, s1, v, cands, g, needed, rule);
          EvictsTrans(s.world, s1.world, Sweep(env, s1, cands[1..], g, needed, rule).s.world, {g});
        }
      }
    }
  }

  lemma SweepKeepsOthers(env: Env, s: Snap, s1: Snap, v: Verdict, cands: seq<nat>, g: nat, needed: int, rule: Rule)
    requires Ok(env, s) && Ok(env, s1) && g < |env.groups| && AllCandidates(s.world, cands, rule) && cands != []
    requires TurnOk(env, s, cands[0], g, rule, v, s1) && OnGroup(s.world[cands[0]], g) && AllCandidates(s1.world, cands[1..], rule)
    requires var r := Sweep(env, s1, cands[1..], g, needed, rule);
             forall j: nat | j < |s1.world| && !(j in cands[1..] && OnGroup(s1.world[j], g)) && (rule == Offload ==> !Idle(s1.world[j], Sleep1)) ::
               r.s.world[j] == s1.world[j]
    ensures var r := Sweep(env, s1, cands[1..], g, needed, rule);
            forall j: nat | j < |s.world| && !(j in cands && OnGroup(s.world[j], g)) && (rule == Offload ==> !Idle(s.world[j], Sleep1)) ::
              r.s.world[j] == s.world[j]
  {
    hide Sweep, Excused, WorldOk, Candidate;
    RestSkips(s.world, cands, rule);
    var r := Sweep(env, s1, cands[1..], g, needed, rule);
    assert |s1.world| == |s.world|;
    forall j: nat | j < |s.world| && !(j in cands && OnGroup(s.world[j], g)) && (rule == Offload ==> !Idle(s.world[j], Sleep1))
      ensures r.s.world[j] == s.world[j]
    {
      assert j != cands[0];
      assert s1.world[j] == s.world[j];
    }
  }

  /**
   Linked genuine turns of one rule, frugal, over a prefix of the listed
   candidates, all of them if it was not enough.
   */
  ghost predicate TrailOk(env: Env, s: Snap, listed: seq<nat>, g: nat, needed: int, rule: Rule, r: Outcome) {
    && Linked(s, r.trail, r.s) && Frugal(r.trail, g, needed, r.done)
    && (forall n | 0 <= n < |r.trail| :: r.trail[n].rule == rule && Genuine(env, g, r.trail[n]))
    && Tried(r.trail) <= listed && (!r.done ==> Tried(r.trail) == listed)
  }

  lemma TrailCons(env: Env, d: Deed, listed: seq<nat>, g: nat, needed: int, rule: Rule, r: Outcome)
    requires d.rule == rule && Genuine(env, g, d) && g < |d.to.free| && (d.verdict == Done ==> d.to.free[g] < needed)
    requires TrailOk(env, d.to, listed, g, needed, rule, r)
    ensures TrailOk(env, d.from, [d.i] + listed, g, needed, rule, Outcome(r.done, r.s, [d] + r.trail))
  {
    hide Genuine;
    LinkedAppend(d.from, [d], d.to, r.trail, r.s);
    FrugalAppend([d], r.trail, g, needed, r.done);
    TriedCons(d, r.trail);
  }

  lemma TrailEnds(env: Env, d: Deed, listed: seq<nat>, g: nat, needed: int, rule: Rule)
    requires d.rule == rule && Genuine(env, g, d) && g < |d.to.free| && d.verdict == Done && d.to.free[g] >= needed
    ensures TrailOk(env, d.from, [d.i] + listed, g, needed, rule, Outcome(true, d.to, [d]))
  {
    hide Genuine;
    assert Tried([d]) == [d.i];
  }

  lemma {:induction false} SweepTrail(env: Env, s: Snap, cands: seq<nat>, g: nat, needed: int, rule: Rule)
    requires Ok(env, s) && g < |env.groups| && AllCandidates(s.world, cands, rule)
    ensures TrailOk(env, s, Only(cands, s.world, g), g, needed, rule, Sweep(env, s, cands, g, needed, rule))
    decreases |cands|
  {
    hide Try, Evicts, WorldOk, Candidate, TurnOk;
    if cands != [] {
      RestSkips(s.world, cands, rule);
      var i := cands[0];
      if !OnGroup(s.world[i], g) {
        SweepTrail(env, s, cands[1..], g, needed, rule);
      } else {
        hide TrailOk;
        var (v, s1) := Try(env, s, i, g, rule);
        var d := Deed(rule, i, v, s, s1);
        TryFacts(env, s, i, g, rule);
        assert Genuine(env, g, d);
        if v == Done && s1.free[g] >= needed {
          TrailEnds(env, d, Only(cands[1..], s.world, g), g, needed, rule);
        } else {
          RestStands(env, s, s1, v, cands, g, rule);
          NextOk(env, s, i, g, rule, v, s1);
          SweepTrail(env, s1, cands[1..], g, needed, rule);
          OnlySame(cands[1..], s.world, s1.world, g);
          TrailCons(env, d, Only(cands[1..], s.world, g), g, needed, rule, Sweep(env, s1, cands[1..], g, needed, rule));
        }
      }
    }
  }

  lemma NextOk(env: Env, s: Snap, i: nat, g: nat, rule: Rule, v: Verdict, s1: Snap)
    requires i < |s.world| && TurnOk(env, s, i, g, rule, v, s1)
    ensures Ok(env, s1) && s.clock <= s1.clock && |s1.world| == |s.world|
  {
  }

  /** What became of a candidate: evicted, or left as it was for the reason its turn gives. */
  ghost predicate Handled(env: Env, d: Deed, i: nat, m: Model, m': Model, after: nat, until: nat) {
    && d.i == i
    && (if d.verdict == Done then !Candidate(m', d.rule) else m' == m && Excused(env, d, m, after, until))
  }

  /** Descending from where a rule puts a model never makes it that rule's candidate again. */
  lemma NoComeback(m: Model, m1: Model, m2: Model, target: bool, rule: Rule)
    requires Candidate(m, rule) && m1 == Down(m, Target(m, rule)) && Descends(m1, m2, target)
    ensures !Candidate(m2, rule)
  {
  }

  /** If the sweep was not enough, every candidate on the group had its turn. */
  lemma {:induction false} SweepHandles(env: Env, s: Snap, cands: seq<nat>, g: nat, needed: int, rule: Rule, i: nat) returns (n: nat)
    requires Ok(env, s) && g < |env.groups| && AllCandidates(s.world, cands, rule)
    requires i in cands && OnGroup(s.world[i], g) && !Sweep(env, s, cands, g, needed, rule).done
    ensures var r := Sweep(env, s, cands, g, needed, rule);
            && n < |r.trail| && r.trail[n].rule == rule
            && Handled(env, r.trail[n], i, s.world[i], r.s.world[i], s.clock, r.s.clock)
    decreases |cands|
  {
    hide Try, WorldOk, Candidate, Evicts, Descends, Refreshed, Target;
    RestSkips(s.world, cands, rule);
    var c := cands[0];
    if !OnGroup(s.world[c], g) {
      n := SweepHandles(env, s, cands[1..], g, needed, rule, i);
    } else {
      var (v, s1) := Try(env, s, c, g, rule);
      TryFacts(env, s, c, g, rule);
      NextOk(env, s, c, g, rule, v, s1);
      RestStands(env, s, s1, v, cands, g, rule);
      SweepFrame(env, s1, cands[1..], g, needed, rule);
      if i == c {
        n := 0;
        TurnHandles(env, s, s1, v, cands, g, needed, rule);
      } else {
        var m := SweepHandles(env, s1, cands[1..], g, needed, rule, i);
        n := m + 1;
        HandledStands(env, Sweep(env, s1, cands[1..], g, needed, rule).trail[m], i, s.world[i],
                      Sweep(env, s1, cands[1..], g, needed, rule).s.world[i], s1.clock, Sweep(env, s1, cands[1..], g, needed, rule).s.clock, s.clock);
      }
    }
  }

  lemma HandledStands(env: Env, d: Deed, i: nat, m: Model, m': Model, after: nat, until: nat, after': nat)
    requires Handled(env, d, i, m, m', after, until) && after' <= after
    ensures Handled(env, d, i, m, m', after', until)
  {
  }

  /** The turn of the first candidate is its only one. */
  lemma TurnHandles(env: Env, s: Snap, s1: Snap, v: Verdict, cands: seq<nat>, g: nat, needed: int, rule: Rule)
    requires Ok(env, s) && Ok(env, s1) && g < |env.groups| && AllCandidates(s.world, cands, rule) && cands != []
    requires TurnOk(env, s, cands[0], g, rule, v, s1) && AllCandidates(s1.world, cands[1..], rule)
    requires OnGroup(s.world[cands[0]], g)
    requires (v, s1) == Try(env, s, cands[0], g, rule) && !Sweep(env, s, cands, g, needed, rule).done
    ensures var r := Sweep(env, s, cands, g, needed, rule);
            r.trail != [] && r.trail[0].rule == rule && Handled(env, r.trail[0], cands[0], s.world[cands[0]], r.s.world[cands[0]], s.clock, r.s.clock)
  {
    hide Try, Refreshed, WorldOk;
    RestSkips(s.world, cands, rule);
    var i := cands[0];
    var rest := Sweep(env, s1, cands[1..], g, needed, rule);
    SweepFrame(env, s1, cands[1..], g, needed, rule);
    if v == Done {
      assert Descends(s1.world[i], rest.s.world[i], s1.world[i].run.group in {g});
      NoComeback(s.world[i], s1.world[i], rest.s.world[i], s1.world[i].run.group in {g}, rule);
    } else {
      assert rest.s.world[i] == s1.world[i] == s.world[i];
    }
  }

  lemma DownTouches(w: World, w': World, i: nat, g: int, rule: Rule)
    requires i < |w| == |w'| && OnGroup(w[i], g) && Candidate(w[i], rule) && w'[i] == Down(w[i], Target(w[i], rule))
    ensures Touched(w, w', g)
  {
    assert w'[i].run != w[i].run;
  }

  /** A sweep that was enough evicted a model on the group. */
  lemma {:induction false} SweepTouches(env: Env, s: Snap, cands: seq<nat>, g: nat, needed: int, rule: Rule)
    requires Ok(env, s) && g < |env.groups| && AllCandidates(s.world, cands, rule) && Sweep(env, s, cands, g, needed, rule).done
    ensures Touched(s.world, Sweep(env, s, cands, g, needed, rule).s.world, g)
    decreases |cands|
  {
    hide Try, Evicts, WorldOk, Candidate, Touched, Target;
    RestSkips(s.world, cands, rule);
    var i := cands[0];
    if !OnGroup(s.world[i], g) {
      SweepTouches(env, s, cands[1..], g, needed, rule);
    } else {
      var (v, s1) := Try(env, s, i, g, rule);
      TryFacts(env, s, i, g, rule);
      NextOk(env, s, i, g, rule, v, s1);
      if v == Done && s1.free[g] >= needed {
        DownTouches(s.world, s1.world, i, g, rule);
      } else {
        RestStands(env, s, s1, v, cands, g, rule);
        SweepTouches(env, s1, cands[1..], g, needed, rule);
        SweepFrame(env, s1, cands[1..], g, needed, rule);
        EvictsWiden(s.world, s1.world, if v == Done then {g} else {}, {g});
        TouchedJoin(s.world, s1.world, Sweep(env, s1, cands[1..], g, needed, rule).s.world, g, {g});
      }
    }
  }
}
