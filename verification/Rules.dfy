/**
 The eviction rules as functions of the snapshot: what each candidate's turn
 does, the sweep over the candidates of a rule, and the four rules in order.
 Every turn is kept as a `Deed` with the snapshots before and after it, so what
 the rules promise can be read off the trail.
 */
module Rules {
  import opened Lifecycle
  import opened Eviction
  import opened Snapshots
  import opened Candidates
  import opened Sequences

  /** Rule 1, Rules 2 and 4, Rule 3. */
  datatype Rule = Offload | Kill | Deepen

  datatype Verdict = Done | Busy | CpuShort | Refused

  datatype Deed = Deed(rule: Rule, i: nat, verdict: Verdict, from: Snap, to: Snap)

  /** `done` is what the rule returns. */
  datatype Outcome = Outcome(done: bool, s: Snap, trail: seq<Deed>)

  // ---- candidates ----

  /** Whom a rule considers: ACTIVE models busy or not, idle SLEEP2 models, idle SLEEP1 models. */
  predicate Candidate(m: Model, rule: Rule) {
    match rule
    case Offload => m.run.state == Active
    case Kill => Idle(m, Sleep2)
    case Deepen => Idle(m, Sleep1)
  }

  /** The size by which a rule orders its candidates. */
  function Keys(w: World, rule: Rule): (k: seq<int>)
    ensures |k| == |w|
  {
    seq(|w|, i requires 0 <= i < |w| => if rule == Deepen then w[i].mem.weights else w[i].mem.fullKV)
  }

  /** The candidates among the first `n` models, smallest first. */
  function Listing(w: World, rule: Rule, n: nat): (r: seq<nat>)
    requires n <= |w|
    ensures forall k | 0 <= k < |r| :: r[k] < |w|
  {
    if n == 0 then []
    else if Candidate(w[n - 1], rule) then Insert(Listing(w, rule, n - 1), Keys(w, rule), n - 1)
    else Listing(w, rule, n - 1)
  }

  lemma NoneIsSorted(keys: seq<int>)
    ensures Ascending([], keys) && Distinct<nat>([])
  {
  }

  /** Exactly the candidates, smallest first, none twice. */
  lemma {:induction false} ListingIsSorted(w: World, rule: Rule, n: nat)
    requires n <= |w|
    ensures var r := Listing(w, rule, n);
            && Ascending(r, Keys(w, rule)) && Distinct(r)
            && forall x: nat :: x in r <==> x < n && Candidate(w[x], rule)
  {
    hide Insert, Candidate, Ascending, Distinct;
    if n == 0 {
      NoneIsSorted(Keys(w, rule));
    } else {
      ListingIsSorted(w, rule, n - 1);
      if Candidate(w[n - 1], rule) {
        InsertKeepsOrder(Listing(w, rule, n - 1), Keys(w, rule), n - 1);
      }
    }
  }

  // ---- one candidate's turn ----

  function Down(m: Model, st: ModelState): Model {
    m.(run := if st == Unloaded then Unload(m.run) else m.run.(state := st))
  }

  function Lowered(w: World, i: nat, st: ModelState): (w': World)
    requires i < |w|
    ensures |w'| == |w|
  {
    w[i := Down(w[i], st)]
  }

  /** Kill a process and wait for its memory to come back. */
  function Killed(env: Env, s: Snap, i: nat, g: nat): (r: Snap)
    requires i < |s.world| && |s.free| == |env.groups| && g < |env.groups|
    ensures |r.free| == |env.groups| && r.world == Lowered(s.world, i, Unloaded) && r.clock > s.clock
  {
    Waited(env, s.(world := Lowered(s.world, i, Unloaded)), g, s.free[g], s.world[i].run.reserved)
  }

  /** A level-2 sleep call, and a new reading if it succeeded. */
  function Deepened(env: Env, s: Snap, i: nat): (r: (Verdict, Snap))
    requires i < |s.world| && |s.free| == |env.groups|
    ensures |r.1.free| == |env.groups| && |r.1.world| == |s.world| && r.1.clock > s.clock
  {
    var s1 := s.(clock := s.clock + 1);
    if env.sleepOk(s1.clock, i, 2) then (Done, Refreshed(env, s1.(world := Lowered(s.world, i, Sleep2))))
    else (Refused, s1)
  }

  /** `freeCPURam` over the candidates `cands`: before each one the counter is read again. */
  function FreeCpu(env: Env, s: Snap, cands: seq<nat>, need: int): (r: Outcome)
    requires |s.free| == |env.groups| && forall k | 0 <= k < |cands| :: cands[k] < |s.world|
    ensures |r.s.free| == |env.groups| && |r.s.world| == |s.world|
    decreases |cands|
  {
    if cands == [] then Outcome(false, s, [])
    else
      var s1 := Refreshed(env, s);
      if s1.cpu >= need then Outcome(true, s1, [])
      else
        var (v, s2) := Deepened(env, s1, cands[0]);
        var r := FreeCpu(env, s2, cands[1..], need);
        Outcome(r.done, r.s, [Deed(Deepen, cands[0], v, s1, s2)] + r.trail)
  }

  /** The room made in CPU RAM for one vLLM model, if its weights do not fit yet. */
  function RoomFor(env: Env, s: Snap, i: nat): (r: Snap)
    requires i < |s.world| && |s.free| == |env.groups|
    ensures |r.free| == |env.groups| && |r.world| == |s.world|
  {
    var need := s.world[i].mem.weights;
    if s.cpu < need then FreeCpu(env, s, Listing(s.world, Deepen, |s.world|), need).s else s
  }

  /** Rule 1 on a vLLM model: make room, then a level-1 sleep call, the charge and a new reading. */
  function Offloaded(env: Env, s: Snap, i: nat): (r: (Verdict, Snap))
    requires i < |s.world| && |s.free| == |env.groups|
    ensures |r.1.free| == |env.groups| && |r.1.world| == |s.world|
  {
    var need := s.world[i].mem.weights;
    var mid := RoomFor(env, s, i);
    if mid.cpu < need then (CpuShort, mid)
    else
      var s1 := mid.(clock := mid.clock + 1);
      if env.sleepOk(s1.clock, i, 1) then
        (Done, Refreshed(env, s1.(world := Lowered(mid.world, i, Sleep1), cpu := mid.cpu - need)))
      else (Refused, s1)
  }

  function Try(env: Env, s: Snap, i: nat, g: nat, rule: Rule): (r: (Verdict, Snap))
    requires i < |s.world| && |s.free| == |env.groups| && g < |env.groups|
    ensures |r.1.free| == |env.groups| && |r.1.world| == |s.world|
  {
    match rule
    case Offload =>
      if s.world[i].cfg.engine == LlamaCpp then
        (if s.world[i].run.active > 0 then (Busy, s) else (Done, Killed(env, s, i, g)))
      else Offloaded(env, s, i)
    case Kill => (Done, Killed(env, s, i, g))
    case Deepen => Deepened(env, s, i)
  }

  // ---- a sweep, and the rules in order ----

  /** The candidates on group `g`, one after the other, until a reading suffices. */
  function Sweep(env: Env, s: Snap, cands: seq<nat>, g: nat, needed: int, rule: Rule): (r: Outcome)
    requires |s.free| == |env.groups| && g < |env.groups| && forall k | 0 <= k < |cands| :: cands[k] < |s.world|
    ensures |r.s.free| == |env.groups| && |r.s.world| == |s.world|
    decreases |cands|
  {
    if cands == [] then Outcome(false, s, [])
    else if !OnGroup(s.world[cands[0]], g) then Sweep(env, s, cands[1..], g, needed, rule)
    else
      var (v, s1) := Try(env, s, cands[0], g, rule);
      var d := Deed(rule, cands[0], v, s, s1);
      if v == Done && s1.free[g] >= needed then Outcome(true, s1, [d])
      else
        var r := Sweep(env, s1, cands[1..], g, needed, rule);
        Outcome(r.done, r.s, [d] + r.trail)
  }

  function Apply(env: Env, s: Snap, g: nat, needed: int, rule: Rule): (r: Outcome)
    requires |s.free| == |env.groups| && g < |env.groups|
    ensures |r.s.free| == |env.groups| && |r.s.world| == |s.world|
  {
    Sweep(env, s, Listing(s.world, rule, |s.world|), g, needed, rule)
  }

  /** `rule` after what came before, unless that was enough. */
  function Then(env: Env, r: Outcome, g: nat, needed: int, rule: Rule): (r': Outcome)
    requires |r.s.free| == |env.groups| && g < |env.groups|
    ensures |r'.s.free| == |env.groups| && |r'.s.world| == |r.s.world|
  {
    if r.done then r
    else
      var n := Apply(env, r.s, g, needed, rule);
      Outcome(n.done, n.s, r.trail + n.trail)
  }

  /** `freeMemoryRules` */
  function FreeRules(env: Env, s: Snap, g: nat, needed: int): (r: Outcome)
    requires |s.free| == |env.groups| && g < |env.groups|
    ensures |r.s.free| == |env.groups| && |r.s.world| == |s.world|
  {
    var r1 := Apply(env, s, g, needed, Offload);
    var r2 := Then(env, r1, g, needed, Kill);
    var r3 := Then(env, r2, g, needed, Deepen);
    Then(env, r3, g, needed, Kill)
  }
}
