/**
 What the scheduler sees and does, as values: a snapshot of all models with the
 recorded memory readings, and the effect of each query and call on it.  The
 outcomes of nvidia-smi, /proc/meminfo and the sleep endpoint are functions of
 time and of the state of all models.
 */
module Snapshots {
  import opened Lifecycle
  import opened Eviction

  /** A GPU group as configured and measured at start-up. */
  datatype Group = Group(id: string, total: int)

  datatype Env = Env(
    groups: seq<Group>,
    smi: (nat, World) -> Option<seq<int>>,     // free memory per group
    meminfo: (nat, World) -> Option<int>,
    sleepOk: (nat, nat, int) -> bool)          // time, model, level

  datatype Snap = Snap(clock: nat, world: World, free: seq<int>, cpu: int)

  ghost predicate Ok(env: Env, s: Snap) {
    |s.free| == |env.groups| && WorldOk(s.world, |env.groups|)
  }

  /** `refreshMemory`: a failed nvidia-smi query leaves everything, a failed meminfo read leaves the CPU counter. */
  function Refreshed(env: Env, s: Snap): (r: Snap)
    requires |s.free| == |env.groups|
    ensures |r.free| == |env.groups| && r.world == s.world && r.clock == s.clock + 1
  {
    var t := s.clock + 1;
    var free, cpu := env.smi(t, s.world), env.meminfo(t, s.world);
    if free.None? || |free.value| != |env.groups| then s.(clock := t)
    else if cpu.None? then s.(clock := t, free := free.value)
    else s.(clock := t, free := free.value, cpu := cpu.value)
  }

  /** A percentage in integer arithmetic that truncates towards zero. */
  function Percent(x: int, p: nat): int {
    if x >= 0 then x * p / 100 else -(-x * p / 100)
  }

  function Jitter(expected: int): int {
    if Percent(expected, 1) < 10 then 10 else Percent(expected, 1)
  }

  /** Enough has come back and the reading has stopped moving. */
  predicate Settled(prev: int, cur: int, threshold: int, jitter: int) {
    cur >= threshold && (if cur < prev then prev - cur else cur - prev) <= jitter
  }

  /** At most `left` more polls, up to the first settled one. */
  function Settle(env: Env, s: Snap, g: nat, threshold: int, jitter: int, left: nat): (r: Snap)
    requires |s.free| == |env.groups| && g < |env.groups|
    ensures |r.free| == |env.groups| && r.world == s.world && s.clock <= r.clock && (left > 0 ==> s.clock < r.clock)
    decreases left
  {
    if left == 0 then s
    else
      var s1 := Refreshed(env, s);
      if Settled(s.free[g], s1.free[g], threshold, jitter) then s1 else Settle(env, s1, g, threshold, jitter, left - 1)
  }

  /** `waitVRAMStable`: 20 polls of 500 ms, until 75% of `expected` is back and the reading moves by at most 1% of it. */
  function Waited(env: Env, s: Snap, g: nat, before: int, expected: int): (r: Snap)
    requires |s.free| == |env.groups| && g < |env.groups|
    ensures |r.free| == |env.groups| && r.world == s.world && s.clock < r.clock
  {
    Settle(env, s, g, before + Percent(expected, 75), Jitter(expected), 20)
  }

  /** The state after `n` polls. */
  function Polls(env: Env, s: Snap, n: nat): (r: Snap)
    requires |s.free| == |env.groups|
    ensures |r.free| == |env.groups|
  {
    if n == 0 then s else Refreshed(env, Polls(env, s, n - 1))
  }

  lemma {:induction false} PollsFromFirst(env: Env, s: Snap, n: nat)
    requires |s.free| == |env.groups|
    ensures Polls(env, Refreshed(env, s), n) == Polls(env, s, n + 1)
  {
    if n > 0 {
      PollsFromFirst(env, s, n - 1);
    }
  }

  /** The wait ends with the first poll that is settled against the one before it, and with the last one if none is. */
  lemma {:induction false} WaitEndsWhenSettled(env: Env, s: Snap, g: nat, threshold: int, jitter: int, left: nat) returns (n: nat)
    requires |s.free| == |env.groups| && g < |env.groups| && left > 0
    ensures 1 <= n <= left && Settle(env, s, g, threshold, jitter, left) == Polls(env, s, n)
    ensures n < left ==> Settled(Polls(env, s, n - 1).free[g], Polls(env, s, n).free[g], threshold, jitter)
    ensures forall m: nat | 0 < m < n :: !Settled(Polls(env, s, m - 1).free[g], Polls(env, s, m).free[g], threshold, jitter)
    decreases left
  {
    var s1 := Refreshed(env, s);
    assert Polls(env, s, 1) == s1 by { assert Polls(env, s, 0) == s; }
    if Settled(s.free[g], s1.free[g], threshold, jitter) || left == 1 {
      n := 1;
      if left == 1 { assert Settle(env, s1, g, threshold, jitter, 0) == s1; }
    } else {
      var m := WaitEndsWhenSettled(env, s1, g, threshold, jitter, left - 1);
      n := m + 1;
      forall k: nat | k <= m ensures Polls(env, s1, k) == Polls(env, s, k + 1) {
        PollsFromFirst(env, s, k);
      }
      assert Polls(env, s, 0) == s;
      forall k: nat | 0 < k < n ensures !Settled(Polls(env, s, k - 1).free[g], Polls(env, s, k).free[g], threshold, jitter) {
        if k > 1 {
          var j: nat := k - 1;
          assert !Settled(Polls(env, s1, j - 1).free[g], Polls(env, s1, j).free[g], threshold, jitter);
          PollsFromFirst(env, s, j - 1);
        }
      }
      PollsFromFirst(env, s, m - 1);
    }
  }

  /** 75% of the expected amount is back (to the MB), and the last reading moved by at most 1% of it, or 10 MB. */
  predicate ComeBack(before: int, expected: int, prev: int, cur: int) {
    && 100 * (cur - before) > 75 * expected - 100
    && (-10 <= cur - prev <= 10 || (100 * (cur - prev) <= expected && 100 * (prev - cur) <= expected))
  }

  lemma ComeBackIsSettled(before: int, expected: int, prev: int, cur: int)
    requires expected >= 0
    ensures Settled(prev, cur, before + Percent(expected, 75), Jitter(expected)) <==> ComeBack(before, expected, prev, cur)
  {
  }

  /** The wait for `expected` MB over the `before` MB that were free: the first of at most 20 readings that shows it, or the last. */
  lemma WaitsForExpected(env: Env, s: Snap, g: nat, before: int, expected: int) returns (n: nat)
    requires |s.free| == |env.groups| && g < |env.groups| && expected >= 0
    ensures 1 <= n <= 20 && Waited(env, s, g, before, expected) == Polls(env, s, n)
    ensures n < 20 ==> ComeBack(before, expected, Polls(env, s, n - 1).free[g], Polls(env, s, n).free[g])
    ensures forall m: nat | 0 < m < n :: !ComeBack(before, expected, Polls(env, s, m - 1).free[g], Polls(env, s, m).free[g])
  {
    hide Settled, Percent, Jitter, ComeBack;
    var threshold, jitter := before + Percent(expected, 75), Jitter(expected);
    n := WaitEndsWhenSettled(env, s, g, threshold, jitter, 20);
    forall m: nat | 0 < m < n ensures !ComeBack(before, expected, Polls(env, s, m - 1).free[g], Polls(env, s, m).free[g]) {
      ComeBackIsSettled(before, expected, Polls(env, s, m - 1).free[g], Polls(env, s, m).free[g]);
    }
    ComeBackIsSettled(before, expected, Polls(env, s, n - 1).free[g], Polls(env, s, n).free[g]);
  }

  // ---- the physical model ----

  datatype Physics = Physics(vram: Usage, capacity: seq<int>, ram: int)

  /** Readings are exact and sleep calls succeed. */
  ghost predicate Ideal(env: Env, ph: Physics) {
    && |ph.capacity| == |env.groups|
    && (forall t: nat, w: World :: env.smi(t, w) == Some(FreeUnder(ph.vram, ph.capacity, w)))
    && (forall t: nat, w: World :: env.meminfo(t, w) == Some(CpuUnder(ph.ram, w)))
    && (forall t, i: nat, level :: env.sleepOk(t, i, level))
  }

  /** The recorded readings describe the present state. */
  predicate Synced(ph: Physics, s: Snap) {
    s.free == FreeUnder(ph.vram, ph.capacity, s.world) && s.cpu == CpuUnder(ph.ram, s.world)
  }

  /** The recorded CPU counter is not too low; the other readings may be anything. */
  predicate Fair(ph: Physics, s: Snap) {
    s.cpu >= CpuUnder(ph.ram, s.world)
  }

  lemma RefreshSyncs(env: Env, ph: Physics, s: Snap)
    requires Ideal(env, ph) && |s.free| == |env.groups|
    ensures Synced(ph, Refreshed(env, s))
  {
    var t := s.clock + 1;
    assert env.smi(t, s.world) == Some(FreeUnder(ph.vram, ph.capacity, s.world));
    assert env.meminfo(t, s.world) == Some(CpuUnder(ph.ram, s.world));
  }

  lemma {:induction false} WaitSyncs(env: Env, ph: Physics, s: Snap, g: nat, threshold: int, jitter: int, left: nat)
    requires Ideal(env, ph) && |s.free| == |env.groups| && g < |env.groups| && left > 0
    ensures Synced(ph, Settle(env, s, g, threshold, jitter, left))
    decreases left
  {
    RefreshSyncs(env, ph, s);
    if left > 1 {
      WaitSyncs(env, ph, Refreshed(env, s), g, threshold, jitter, left - 1);
    } else {
      assert Settle(env, Refreshed(env, s), g, threshold, jitter, 0) == Refreshed(env, s);
    }
  }
}
