/**
 The rules under the physical model, in which readings are exact and sleep calls
 succeed: giving up means that nothing evictable is left and the memory is short.
 */
module Completeness {
  import opened Lifecycle
  import opened Eviction
  import opened Snapshots
  import opened Rules
  import opened Turns
  import opened Sweeps
  import opened Exhaustion

  lemma WeightsOk(w: World, groups: nat)
    requires WorldOk(w, groups)
    ensures forall i | 0 <= i < |w| :: w[i].mem.weights >= 0 && (w[i].cfg.engine == LlamaCpp ==> !Asleep(w[i].run.state))
  {
  }

  /** Readings stay fair or exact, and a vLLM model left ACTIVE for lack of CPU RAM would not fit even if everything demotable were demoted. */
  lemma {:induction false} SweepIdeal(env: Env, ph: Physics, s: Snap, cands: seq<nat>, g: nat, needed: int, rule: Rule)
    requires Ideal(env, ph) && Ok(env, s) && Fair(ph, s) && g < |env.groups| && AllCandidates(s.world, cands, rule)
    ensures var r := Sweep(env, s, cands, g, needed, rule);
            && Fair(ph, r.s) && (r.done || Synced(ph, s) ==> Synced(ph, r.s))
            && (!r.done ==> forall i | i in cands && OnGroup(s.world[i], g) ::
                  i < |r.s.world| && (Candidate(r.s.world[i], rule) ==> Stuck(ph.ram, r.s.world, r.s.world[i])))
    decreases |cands|
  {
    hide Try, WorldOk, Evicts, Synced, Fair, Stuck, FreeUnder, CpuUnder, Candidate;
    if cands != [] {
      RestSkips(s.world, cands, rule);
      var c := cands[0];
      if !OnGroup(s.world[c], g) {
        SweepIdeal(env, ph, s, cands[1..], g, needed, rule);
      } else {
        var (v, s1) := Try(env, s, c, g, rule);
        TryFacts(env, s, c, g, rule);
        TryIdeal(env, ph, s, c, g, rule);
        NextOk(env, s, c, g, rule, v, s1);
        if !(v == Done && s1.free[g] >= needed) {
          RestStands(env, s, s1, v, cands, g, rule);
          SweepIdeal(env, ph, s1, cands[1..], g, needed, rule);
          var r := Sweep(env, s1, cands[1..], g, needed, rule);
          if !r.done {
            FirstIsStuck(env, ph, s, s1, v, cands, g, needed, rule);
          }
        }
      }
    }
  }

  lemma FirstIsStuck(env: Env, ph: Physics, s: Snap, s1: Snap, v: Verdict, cands: seq<nat>, g: nat, needed: int, rule: Rule)
    requires Ok(env, s) && Ok(env, s1) && g < |env.groups| && AllCandidates(s.world, cands, rule) && cands != []
    requires TurnOk(env, s, cands[0], g, rule, v, s1) && OnGroup(s.world[cands[0]], g) && AllCandidates(s1.world, cands[1..], rule)
    requires TurnIdeal(ph, s, cands[0], v, s1)
    ensures var w := Sweep(env, s1, cands[1..], g, needed, rule).s.world;
            cands[0] < |w| && (Candidate(w[cands[0]], rule) ==> Stuck(ph.ram, w, w[cands[0]]))
  {
    hide Sweep, CpuCeiling;
    RestSkips(s.world, cands, rule);
    var i := cands[0];
    var r := Sweep(env, s1, cands[1..], g, needed, rule);
    SweepFrame(env, s1, cands[1..], g, needed, rule);
    WeightsOk(s1.world, |env.groups|);
    CeilingFalls(ph.ram, s1.world, r.s.world, {g});
    if v == Done {
      NoComeback(s.world[i], s1.world[i], r.s.world[i], s1.world[i].run.group in {g}, rule);
    } else {
      assert r.s.world[i] == s1.world[i];
    }
  }

  /** Whether the memory is short, as far as a rule can tell before its first reading. */
  ghost predicate Short(ph: Physics, w: World, g: nat, needed: int, rule: Rule)
    requires g < |ph.capacity|
  {
    if rule == Offload then Deficit(ph.vram, ph.capacity, w, g, needed) else FreeUnder(ph.vram, ph.capacity, w)[g] < needed
  }

  /** A rule that was not enough leaves the group short of memory if it was short before. */
  lemma {:induction false} SweepStaysShort(env: Env, ph: Physics, s: Snap, cands: seq<nat>, g: nat, needed: int, rule: Rule)
    requires Ideal(env, ph) && Ok(env, s) && Fair(ph, s) && g < |env.groups| && AllCandidates(s.world, cands, rule)
    requires Short(ph, s.world, g, needed, rule) && !Sweep(env, s, cands, g, needed, rule).done
    ensures Short(ph, Sweep(env, s, cands, g, needed, rule).s.world, g, needed, rule)
    decreases |cands|
  {
    hide Try, WorldOk, Evicts, FreeUnder, CpuUnder, Candidate;
    if cands != [] {
      RestSkips(s.world, cands, rule);
      var c := cands[0];
      if !OnGroup(s.world[c], g) {
        SweepStaysShort(env, ph, s, cands[1..], g, needed, rule);
      } else {
        var (v, s1) := Try(env, s, c, g, rule);
        TryFacts(env, s, c, g, rule);
        TryIdeal(env, ph, s, c, g, rule);
        NextOk(env, s, c, g, rule, v, s1);
        RestStands(env, s, s1, v, cands, g, rule);
        if v != Done {
          assert rule == Offload;
          DeficitSurvives(ph.vram, ph.capacity, s.world, s1.world, {}, g, needed);
        }
        SweepStaysShort(env, ph, s1, cands[1..], g, needed, rule);
      }
    }
  }

  /** Rules 2 and 4 turn a deficit into a reading that is too low. */
  lemma KillClosesDeficit(env: Env, ph: Physics, s: Snap, g: nat, needed: int)
    requires Ideal(env, ph) && Ok(env, s) && Fair(ph, s) && g < |env.groups|
    requires Deficit(ph.vram, ph.capacity, s.world, g, needed) && !Apply(env, s, g, needed, Kill).done
    ensures FreeUnder(ph.vram, ph.capacity, Apply(env, s, g, needed, Kill).s.world)[g] < needed
  {
    hide Sweep, WorldOk, Evicts, FreeUnder, CpuUnder, Listing;
    var cands := Listing(s.world, Kill, |s.world|);
    ListedAreCandidates(s.world, Kill);
    if FreeUnder(ph.vram, ph.capacity, s.world)[g] < needed {
      SweepStaysShort(env, ph, s, cands, g, needed, Kill);
    } else {
      var i :| 0 <= i < |s.world| && OnGroup(s.world[i], g) && Idle(s.world[i], Sleep2);
      FirstKillMeasures(env, ph, s, cands, g, needed, i);
    }
  }

  lemma {:induction false} FirstKillMeasures(env: Env, ph: Physics, s: Snap, cands: seq<nat>, g: nat, needed: int, i: nat)
    requires Ideal(env, ph) && Ok(env, s) && Fair(ph, s) && g < |env.groups| && AllCandidates(s.world, cands, Kill)
    requires i in cands && OnGroup(s.world[i], g) && !Sweep(env, s, cands, g, needed, Kill).done
    ensures FreeUnder(ph.vram, ph.capacity, Sweep(env, s, cands, g, needed, Kill).s.world)[g] < needed
    decreases |cands|
  {
    hide Killed, WorldOk, Evicts, FreeUnder, CpuUnder, Candidate;
    RestSkips(s.world, cands, Kill);
    var c := cands[0];
    if !OnGroup(s.world[c], g) {
      FirstKillMeasures(env, ph, s, cands[1..], g, needed, i);
    } else {
      var (v, s1) := Try(env, s, c, g, Kill);
      TryFacts(env, s, c, g, Kill);
      TryIdeal(env, ph, s, c, g, Kill);
      NextOk(env, s, c, g, Kill, v, s1);
      RestStands(env, s, s1, v, cands, g, Kill);
      SweepStaysShort(env, ph, s1, cands[1..], g, needed, Kill);
    }
  }

  lemma ApplyIdeal(env: Env, ph: Physics, s: Snap, g: nat, needed: int, rule: Rule)
    requires Ideal(env, ph) && Ok(env, s) && Fair(ph, s) && g < |env.groups|
    ensures var r := Apply(env, s, g, needed, rule); Fair(ph, r.s) && (r.done || Synced(ph, s) ==> Synced(ph, r.s))
  {
    hide Sweep, Synced, Fair, Ideal, Ok;
    ListedAreCandidates(s.world, rule);
    SweepIdeal(env, ph, s, Listing(s.world, rule, |s.world|), g, needed, rule);
  }

  lemma ThenIdeal(env: Env, ph: Physics, r: Outcome, g: nat, needed: int, rule: Rule)
    requires Ideal(env, ph) && Ok(env, r.s) && Fair(ph, r.s) && g < |env.groups|
    ensures var n := Then(env, r, g, needed, rule); Ok(env, n.s) && Fair(ph, n.s) && (Synced(ph, r.s) || (n.done && !r.done) ==> Synced(ph, n.s))
  {
    hide Apply, Synced, Fair, Ideal;
    ApplyFrame(env, r.s, g, needed, rule);
    ApplyIdeal(env, ph, r.s, g, needed, rule);
  }

  /** Exact readings stay exact, and rules that were enough end with one. */
  lemma RulesSync(env: Env, ph: Physics, s: Snap, g: nat, needed: int)
    requires Ideal(env, ph) && Ok(env, s) && Fair(ph, s) && g < |env.groups|
    ensures var r := FreeRules(env, s, g, needed); Fair(ph, r.s) && (r.done || Synced(ph, s) ==> Synced(ph, r.s))
  {
    hide Apply, Then, Synced, Fair, Ideal;
    var r1 := Apply(env, s, g, needed, Offload);
    ApplyFrame(env, s, g, needed, Offload);
    ApplyIdeal(env, ph, s, g, needed, Offload);
    ThenIdeal(env, ph, r1, g, needed, Kill);
    var r2 := Then(env, r1, g, needed, Kill);
    ThenIdeal(env, ph, r2, g, needed, Deepen);
    ThenIdeal(env, ph, Then(env, r2, g, needed, Deepen), g, needed, Kill);
  }

  lemma OffloadStuck(env: Env, ph: Physics, s: Snap, g: nat, needed: int, i: nat)
    requires Ideal(env, ph) && Ok(env, s) && Fair(ph, s) && g < |env.groups| && !Apply(env, s, g, needed, Offload).done
    requires i < |s.world| && OnGroup(s.world[i], g) && s.world[i].run.state == Active
    requires Apply(env, s, g, needed, Offload).s.world[i].run.state == Active
    ensures var w := Apply(env, s, g, needed, Offload).s.world; Stuck(ph.ram, w, w[i])
  {
    hide Sweep, Synced, Fair, Ideal, Ok, Stuck;
    ListedAreCandidates(s.world, Offload);
    SweepIdeal(env, ph, s, Listing(s.world, Offload, |s.world|), g, needed, Offload);
  }

  lemma StuckStays(ram: int, w: World, w': World, g: nat, groups: nat, i: nat)
    requires Evicts(w, w', {g}) && WorldOk(w, groups) && i < |w| && w'[i] == w[i] && Stuck(ram, w, w[i])
    ensures Stuck(ram, w', w'[i])
  {
    WeightsOk(w, groups);
    CeilingFalls(ram, w, w', {g});
  }

  /**
   Under the physical model, unless the CPU counter was too low at the start, false
   means that every model still up on the group is stuck: a busy server, an ACTIVE
   vLLM model whose weights cannot be made to fit in CPU RAM, a sleeping model with
   a nonzero counter.  And if the memory was short before, or an idle SLEEP2 model was there, it is short now.
   */
  lemma RulesComplete(env: Env, ph: Physics, s: Snap, g: nat, needed: int)
    requires Ideal(env, ph) && Ok(env, s) && Fair(ph, s) && g < |env.groups| && !FreeRules(env, s, g, needed).done
    ensures var w := FreeRules(env, s, g, needed).s.world;
            && Exhausted(ph.ram, w, g)
            && (Deficit(ph.vram, ph.capacity, s.world, g, needed) ==> FreeUnder(ph.vram, ph.capacity, w)[g] < needed)
  {
    hide Apply, FreeRules, WorldOk, Synced, Fair, Deficit, FreeUnder, Stuck, ExcusedIn;
    RulesUnfold(env, s, g, needed);
    var a1 := Apply(env, s, g, needed, Offload);
    var a2 := Apply(env, a1.s, g, needed, Kill);
    var a3 := Apply(env, a2.s, g, needed, Deepen);
    var w := FreeRules(env, s, g, needed).s.world;
    forall i: int | 0 <= i < |w| && OnGroup(w[i], g) && Up(w[i].run.state) ensures Stuck(ph.ram, w, w[i]) {
      LeftIsStuck(env, ph, s, g, needed, i);
    }
    ApplyIdeal(env, ph, s, g, needed, Offload);
    ApplyIdeal(env, ph, a1.s, g, needed, Kill);
    ApplyIdeal(env, ph, a2.s, g, needed, Deepen);
    if Deficit(ph.vram, ph.capacity, s.world, g, needed) {
      ApplyStaysShort(env, ph, s, g, needed, Offload);
      KillClosesDeficit(env, ph, a1.s, g, needed);
      ApplyStaysShort(env, ph, a2.s, g, needed, Deepen);
      ApplyStaysShort(env, ph, a3.s, g, needed, Kill);
    }
  }

  lemma ApplyStaysShort(env: Env, ph: Physics, s: Snap, g: nat, needed: int, rule: Rule)
    requires Ideal(env, ph) && Ok(env, s) && Fair(ph, s) && g < |env.groups|
    requires Short(ph, s.world, g, needed, rule) && !Apply(env, s, g, needed, rule).done
    ensures Short(ph, Apply(env, s, g, needed, rule).s.world, g, needed, rule)
  {
    hide Sweep, Synced, Fair, Ideal, Ok, Short;
    ListedAreCandidates(s.world, rule);
    SweepStaysShort(env, ph, s, Listing(s.world, rule, |s.world|), g, needed, rule);
  }

  lemma NoRefusals(env: Env, ph: Physics, trail: seq<Deed>, rule: Rule, i: nat, m: Model, after: nat, until: nat)
    requires Ideal(env, ph) && rule != Offload
    ensures !ExcusedIn(env, trail, rule, i, m, after, until)
  {
  }

  lemma LeftIsStuck(env: Env, ph: Physics, s: Snap, g: nat, needed: int, i: nat)
    requires Ideal(env, ph) && Ok(env, s) && Fair(ph, s) && g < |env.groups| && !FreeRules(env, s, g, needed).done
    requires i < |s.world| && OnGroup(FreeRules(env, s, g, needed).s.world[i], g) && Up(FreeRules(env, s, g, needed).s.world[i].run.state)
    ensures var w := FreeRules(env, s, g, needed).s.world; Stuck(ph.ram, w, w[i])
  {
    hide Apply, FreeRules, Synced, Fair, Ideal, ExcusedIn, CpuCeiling, WorldOk, Evicts;
    RulesUnfold(env, s, g, needed);
    RulesExhaust(env, s, g, needed, i);
    var r := FreeRules(env, s, g, needed);
    var m := r.s.world[i];
    NoRefusals(env, ph, r.trail, Deepen, i, m, s.clock, r.s.clock);
    if m.run.state == Active {
      var a1 := Apply(env, s, g, needed, Offload);
      var a2 := Apply(env, a1.s, g, needed, Kill);
      var a3 := Apply(env, a2.s, g, needed, Deepen);
      EvictsTrans(a1.s.world, a2.s.world, a3.s.world, {g});
      EvictsTrans(a1.s.world, a3.s.world, r.s.world, {g});
      ActiveStayed(a1.s.world, r.s.world, {g}, i);
      ActiveStayed(s.world, a1.s.world, {g}, i);
      OffloadStuck(env, ph, s, g, needed, i);
      StuckStays(ph.ram, a1.s.world, r.s.world, g, |env.groups|, i);
    }
  }
}
