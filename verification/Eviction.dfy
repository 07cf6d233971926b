/**
 Eviction as a relation between snapshots of all models, and the physical model
 of GPU and CPU memory under which the scheduler's completeness is stated.
 */
module Eviction {
  import opened ByteStrings
  import opened Lifecycle
  import opened Sums

  datatype ModelCfg = ModelCfg(
    name: Bytes,
    engine: Engine,
    pin: Option<string>,     // gpu_group
    allocation: int,         // vram_allocation
    rset: nat)               // the replica set the entry belongs to

  datatype Memory = Memory(weights: int, fullKV: int, measured: bool)

  /** A snapshot of one entry. */
  datatype Model = Model(cfg: ModelCfg, mem: Memory, run: Core)

  type World = seq<Model>

  predicate Idle(m: Model, s: ModelState) {
    m.run.state == s && m.run.active == 0
  }

  predicate OnGroup(m: Model, g: int) {
    m.run.group == g && g >= 0
  }

  /** Height on the ladder ACTIVE > SLEEP1 > SLEEP2 > UNLOADED. */
  function Rank(s: ModelState): nat {
    match s
    case Unloaded => 0
    case Loading => 0
    case Sleep2 => 1
    case Sleep1 => 2
    case Active => 3
  }

  /**
   What eviction may have done to one model.  `target` says whether the model was
   on a group being freed; elsewhere only an idle SLEEP1 model may lose its CPU RAM.
   */
  predicate Descends(m: Model, m': Model, target: bool) {
    && m'.cfg == m.cfg && m'.mem == m.mem
    && (m'.run == m.run
        || (&& Up(m.run.state) && Rank(m'.run.state) < Rank(m.run.state) && m'.run.state != Loading
            && m'.run == (if m'.run.state == Unloaded then Unload(m.run) else m.run.(state := m'.run.state))
            && (m'.run.state == Sleep1 ==> m.cfg.engine == VLLM)
            && (m'.run.state == Sleep2 ==> m.run.active == 0 && m.cfg.engine == VLLM)
            && (m'.run.state == Unloaded ==> m.run.active == 0 || (m.cfg.engine == LlamaCpp && m.run.active <= 0))
            && (!target ==> m.run.state == Sleep1 && m'.run.state == Sleep2)))
  }

  /** Eviction on the groups in `targets`. */
  ghost predicate Evicts(w: World, w': World, targets: set<int>) {
    |w'| == |w| && forall i | 0 <= i < |w| :: Descends(w[i], w'[i], w[i].run.group in targets)
  }

  /** Entries as every reachable state of the protocol has them. */
  ghost predicate WorldOk(w: World, groups: nat) {
    forall i | 0 <= i < |w| ::
      && -1 <= w[i].run.group < groups
      && (w[i].run.state == Unloaded ==> w[i].run.proc == None && w[i].run.group == -1 && w[i].run.reserved == 0)
      && (Up(w[i].run.state) ==> w[i].run.proc.Some? && w[i].run.group >= 0)
      && (w[i].cfg.engine == LlamaCpp ==> !Asleep(w[i].run.state))
      && w[i].mem.weights >= 0
  }

  lemma EvictsTrans(a: World, b: World, c: World, targets: set<int>)
    requires Evicts(a, b, targets) && Evicts(b, c, targets) && -1 !in targets
    ensures Evicts(a, c, targets)
  {
    forall i | 0 <= i < |a| ensures Descends(a[i], c[i], a[i].run.group in targets) {
      assert Descends(a[i], b[i], a[i].run.group in targets);
      assert Descends(b[i], c[i], b[i].run.group in targets);
    }
  }

  lemma EvictsWiden(a: World, b: World, fewer: set<int>, more: set<int>)
    requires Evicts(a, b, fewer) && fewer <= more
    ensures Evicts(a, b, more)
  {
    forall i | 0 <= i < |a| ensures Descends(a[i], b[i], a[i].run.group in more) {
      assert Descends(a[i], b[i], a[i].run.group in fewer);
    }
  }

  lemma EvictsOne(w: World, i: nat, m': Model, targets: set<int>)
    requires i < |w| && Descends(w[i], m', w[i].run.group in targets)
    ensures Evicts(w, w[i := m'], targets)
  {
  }

  lemma EvictsKeepsOk(w: World, w': World, targets: set<int>, groups: nat)
    requires Evicts(w, w', targets) && WorldOk(w, groups)
    ensures WorldOk(w', groups)
  {
    forall i | 0 <= i < |w'|
      ensures && -1 <= w'[i].run.group < groups
              && (w'[i].run.state == Unloaded ==> w'[i].run.proc == None && w'[i].run.group == -1 && w'[i].run.reserved == 0)
              && (Up(w'[i].run.state) ==> w'[i].run.proc.Some? && w'[i].run.group >= 0)
              && (w'[i].cfg.engine == LlamaCpp ==> !Asleep(w'[i].run.state))
              && w'[i].mem.weights >= 0
    {
      assert Descends(w[i], w'[i], w[i].run.group in targets);
    }
  }

  lemma EvictsNothing(w: World, targets: set<int>)
    ensures Evicts(w, w, targets)
  {
  }

  /** Some model on group `g` was evicted. */
  ghost predicate Touched(w: World, w': World, g: int) {
    |w'| == |w| && exists i: nat :: i < |w| && OnGroup(w[i], g) && w'[i].run != w[i].run
  }

  /** Eviction never restores a model, so what was touched stays touched. */
  lemma TouchedJoin(a: World, b: World, c: World, g: int, targets: set<int>)
    requires Evicts(a, b, targets) && Evicts(b, c, targets) && (Touched(a, b, g) || Touched(b, c, g))
    ensures Touched(a, c, g)
  {
    var i: nat :| i < |a| && ((OnGroup(a[i], g) && b[i].run != a[i].run) || (OnGroup(b[i], g) && c[i].run != b[i].run));
    assert Descends(a[i], b[i], a[i].run.group in targets);
    assert Descends(b[i], c[i], b[i].run.group in targets);
    if OnGroup(b[i], g) {
      assert b[i].run.group == a[i].run.group;
    }
    assert OnGroup(a[i], g) && c[i].run != a[i].run;
  }

  // ---- the physical model ----

  /** Video memory that model number `i` uses in a state; an arbitrary function. */
  type Usage = (nat, ModelState) -> int

  function UsedOn(vram: Usage, w: World, g: int): int {
    Sum(seq(|w|, i requires 0 <= i < |w| => if OnGroup(w[i], g) then vram(i, w[i].run.state) else 0))
  }

  function FreeUnder(vram: Usage, capacity: seq<int>, w: World): (free: seq<int>)
    ensures |free| == |capacity|
  {
    seq(|capacity|, g requires 0 <= g < |capacity| => capacity[g] - UsedOn(vram, w, g))
  }

  function WeightsHeld(w: World): int {
    Sum(seq(|w|, i requires 0 <= i < |w| => if w[i].run.state == Sleep1 then w[i].mem.weights else 0))
  }

  /** MemAvailable: CPU RAM is charged for the models in SLEEP1. */
  function CpuUnder(ram: int, w: World): int {
    ram - WeightsHeld(w)
  }

  function BusyWeightsHeld(w: World): int {
    Sum(seq(|w|, i requires 0 <= i < |w| => if w[i].run.state == Sleep1 && w[i].run.active != 0 then w[i].mem.weights else 0))
  }

  /** The most CPU RAM that demoting every idle SLEEP1 model could make available. */
  function CpuCeiling(ram: int, w: World): int {
    ram - BusyWeightsHeld(w)
  }

  lemma SeqSumEqual(s: seq<int>, t: seq<int>)
    requires |s| == |t| && forall i | 0 <= i < |s| :: s[i] == t[i]
    ensures Sum(s) == Sum(t)
  {
    assert s == t;
  }

  /** Free memory of a group depends only on the models on it. */
  lemma FreeFrame(vram: Usage, capacity: seq<int>, w: World, w': World, g: nat)
    requires |w'| == |w| && g < |capacity|
    requires forall i | 0 <= i < |w| :: OnGroup(w[i], g) || OnGroup(w'[i], g) ==> w'[i] == w[i]
    ensures FreeUnder(vram, capacity, w')[g] == FreeUnder(vram, capacity, w)[g]
  {
    SeqSumEqual(seq(|w|, i requires 0 <= i < |w| => if OnGroup(w[i], g) then vram(i, w[i].run.state) else 0),
                seq(|w'|, i requires 0 <= i < |w'| => if OnGroup(w'[i], g) then vram(i, w'[i].run.state) else 0));
  }

  /** What is free now is at most that; so a model too large for the ceiling does not fit now either. */
  lemma CeilingBounds(ram: int, w: World)
    requires forall i | 0 <= i < |w| :: w[i].mem.weights >= 0
    ensures CpuUnder(ram, w) <= CpuCeiling(ram, w)
  {
    SumMonotone(
      seq(|w|, i requires 0 <= i < |w| => if w[i].run.state == Sleep1 && w[i].run.active != 0 then w[i].mem.weights else 0),
      seq(|w|, i requires 0 <= i < |w| => if w[i].run.state == Sleep1 then w[i].mem.weights else 0));
  }

  lemma CeilingReached(ram: int, w: World)
    requires forall i | 0 <= i < |w| :: !Idle(w[i], Sleep1)
    ensures CpuUnder(ram, w) == CpuCeiling(ram, w)
  {
    SeqSumEqual(
      seq(|w|, i requires 0 <= i < |w| => if w[i].run.state == Sleep1 && w[i].run.active != 0 then w[i].mem.weights else 0),
      seq(|w|, i requires 0 <= i < |w| => if w[i].run.state == Sleep1 then w[i].mem.weights else 0));
  }

  /** Eviction never touches a busy SLEEP1 model, so the ceiling only falls. */
  lemma CeilingFalls(ram: int, w: World, w': World, targets: set<int>)
    requires Evicts(w, w', targets)
    requires forall i | 0 <= i < |w| :: w[i].mem.weights >= 0 && (w[i].cfg.engine == LlamaCpp ==> !Asleep(w[i].run.state))
    ensures CpuCeiling(ram, w') <= CpuCeiling(ram, w)
  {
    var s := seq(|w|, i requires 0 <= i < |w| => if w[i].run.state == Sleep1 && w[i].run.active != 0 then w[i].mem.weights else 0);
    var s' := seq(|w'|, i requires 0 <= i < |w'| => if w'[i].run.state == Sleep1 && w'[i].run.active != 0 then w'[i].mem.weights else 0);
    forall i | 0 <= i < |s| ensures s[i] <= s'[i] {
      assert Descends(w[i], w'[i], w[i].run.group in targets);
    }
    SumMonotone(s, s');
  }

  // ---- what remains when the rules are exhausted ----

  /**
   Why a model still up on a freed group could not be evicted: a busy server, an
   ACTIVE vLLM model, busy or not, whose weights cannot be made to fit in CPU RAM,
   or a sleeping model with a nonzero counter.
   */
  predicate Stuck(ram: int, w: World, m: Model) {
    if m.run.state != Active then m.run.active != 0
    else if m.cfg.engine == LlamaCpp then m.run.active > 0
    else m.mem.weights > CpuCeiling(ram, w)
  }

  ghost predicate Exhausted(ram: int, w: World, g: int) {
    forall i | 0 <= i < |w| && OnGroup(w[i], g) && Up(w[i].run.state) :: Stuck(ram, w, w[i])
  }

  /** Too little is free, or an idle SLEEP2 model is there for Rule 2 to kill and measure after. */
  ghost predicate Deficit(vram: Usage, capacity: seq<int>, w: World, g: nat, needed: int)
    requires g < |capacity|
  {
    FreeUnder(vram, capacity, w)[g] < needed || exists i :: 0 <= i < |w| && OnGroup(w[i], g) && Idle(w[i], Sleep2)
  }

  /** Freeing other groups keeps a deficit: it only turns idle SLEEP1 models into idle SLEEP2 ones. */
  lemma DeficitSurvives(vram: Usage, capacity: seq<int>, w: World, w': World, targets: set<int>, g: nat, needed: int)
    requires g < |capacity| && Evicts(w, w', targets) && g !in targets && Deficit(vram, capacity, w, g, needed)
    ensures Deficit(vram, capacity, w', g, needed)
  {
    if i :| 0 <= i < |w| && OnGroup(w[i], g) && w'[i] != w[i] {
      assert Descends(w[i], w'[i], w[i].run.group in targets);
      assert OnGroup(w'[i], g) && Idle(w'[i], Sleep2);
    } else {
      forall i | 0 <= i < |w| && OnGroup(w'[i], g) ensures w'[i] == w[i] {
        assert Descends(w[i], w'[i], w[i].run.group in targets);
      }
      FreeFrame(vram, capacity, w, w', g);
    }
  }

  /** Freeing other groups leaves an exhausted group exactly as it was. */
  lemma ExhaustedSurvives(vram: Usage, capacity: seq<int>, ram: int, w: World, w': World, targets: set<int>, g: nat)
    requires g < |capacity| && Evicts(w, w', targets) && g !in targets && WorldOk(w, |capacity|) && Exhausted(ram, w, g)
    ensures Exhausted(ram, w', g) && FreeUnder(vram, capacity, w')[g] == FreeUnder(vram, capacity, w)[g]
  {
    CeilingFalls(ram, w, w', targets);
    forall i | 0 <= i < |w| && (OnGroup(w[i], g) || OnGroup(w'[i], g)) ensures w'[i] == w[i] {
      assert Descends(w[i], w'[i], w[i].run.group in targets);
      if Up(w[i].run.state) { assert Stuck(ram, w, w[i]); }
    }
    FreeFrame(vram, capacity, w, w', g);
  }
}
