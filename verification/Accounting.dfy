/**
 Group sums from per-device readings: the totals taken at start-up and the free
 amounts taken at every refresh.
 */
module Accounting {
  import opened Lifecycle
  import opened Sequences
  import opened Sums
  import opened Orchestration
  import opened Snapshots
  import opened Config

  /** The readings of the listed devices; one that nvidia-smi did not report counts as nothing. */
  function Readings(devs: seq<int>, mb: map<int, int>): (r: seq<int>)
    ensures |r| == |devs|
  {
    seq(|devs|, i requires 0 <= i < |devs| => if devs[i] in mb then mb[devs[i]] else 0)
  }

  function PerGroup(groups: seq<GpuGroup>, mb: map<int, int>): (r: seq<int>)
    ensures |r| == |groups|
  {
    seq(|groups|, i requires 0 <= i < |groups| => Sum(Readings(groups[i].gpus, mb)))
  }

  lemma ReadingsAppend(s: seq<int>, t: seq<int>, mb: map<int, int>)
    ensures Readings(s + t, mb) == Readings(s, mb) + Readings(t, mb)
    ensures Sum(Readings(s + t, mb)) == Sum(Readings(s, mb)) + Sum(Readings(t, mb))
  {
    assert Readings(s + t, mb) == Readings(s, mb) + Readings(t, mb);
    SumAppend(Readings(s, mb), Readings(t, mb));
  }

  /** The inner loop of both functions: the sum over one group. */
  method SumDevices(devs: seq<int>, mb: map<int, int>) returns (sum: int)
    ensures sum == Sum(Readings(devs, mb))
  {
    sum := 0;
    for n := 0 to |devs|
      invariant sum == Sum(Readings(devs[..n], mb))
    {
      if devs[n] in mb {
        sum := sum + mb[devs[n]];
      }
      assert devs[..n + 1] == devs[..n] + [devs[n]];
      ReadingsAppend(devs[..n], [devs[n]], mb);
    }
    assert devs[..|devs|] == devs;
  }

  ghost predicate AllPresent(groups: seq<GpuGroup>, mb: map<int, int>) {
    forall g, d | g in groups && d in g.gpus :: d in mb
  }

  lemma Missing(groups: seq<GpuGroup>, mb: map<int, int>, g: GpuGroup, d: int)
    requires g in groups && d in g.gpus && d !in mb
    ensures !AllPresent(groups, mb)
  {
  }

  /**
   `initMemory`: fails exactly when the nvidia-smi query or its parsing failed, a
   configured device is missing, or meminfo is unreadable; nothing is free until measured.
   */
  method InitMemory(groups: seq<GpuGroup>, reported: Option<map<int, int>>, memAvailable: Option<int>) returns (ms: Option<MemoryState>)
    ensures ms.None? <==> reported.None? || memAvailable.None? || !AllPresent(groups, reported.value)
    ensures ms.Some? ==>
              && fresh(ms.value) && ms.value.Valid() && ms.value.freeCPURAMB == memAvailable.value
              && |ms.value.groups| == |groups|
              && (forall i | 0 <= i < |groups| :: ms.value.groups[i] == Group(groups[i].id, PerGroup(groups, reported.value)[i]))
              && (forall i | 0 <= i < |groups| :: ms.value.measuredFree[i] == -1)
  {
    if reported.None? {
      return None;
    }
    var deviceMB := reported.value;
    for n := 0 to |groups|
      invariant AllPresent(groups[..n], deviceMB)
    {
      var g := groups[n];
      for k := 0 to |g.gpus|
        invariant forall d | d in g.gpus[..k] :: d in deviceMB
      {
        var dev := g.gpus[k];
        if dev !in deviceMB {
          Missing(groups, deviceMB, g, dev);
          return None;
        }
      }
      assert g.gpus[..|g.gpus|] == g.gpus;
      assert groups[..n + 1] == groups[..n] + [g];
    }
    assert groups[..|groups|] == groups;
    var states: seq<Group> := [];
    for n := 0 to |groups|
      invariant |states| == n && forall i | 0 <= i < n :: states[i] == Group(groups[i].id, PerGroup(groups, deviceMB)[i])
    {
      var total := SumDevices(groups[n].gpus, deviceMB);
      states := states + [Group(groups[n].id, total)];
    }
    if memAvailable.None? {
      return None;
    }
    var m := new MemoryState(states, memAvailable.value);
    ms := Some(m);
  }

  /** `refreshMemory` from the raw outcomes of its two queries. */
  method Refresh(ms: MemoryState, groups: seq<GpuGroup>, freeByDev: Option<map<int, int>>, memAvailable: Option<int>)
    requires ms.Valid() && |ms.groups| == |groups|
    modifies ms
    ensures ms.Valid()
    ensures ms.measuredFree == if freeByDev.None? then old(ms.measuredFree) else PerGroup(groups, freeByDev.value)
    ensures ms.freeCPURAMB == if freeByDev.None? || memAvailable.None? then old(ms.freeCPURAMB) else memAvailable.value
  {
    if freeByDev.None? {
      return;
    }
    for n := 0 to |groups|
      invariant |ms.measuredFree| == |groups| && ms.freeCPURAMB == old(ms.freeCPURAMB)
      invariant forall i | 0 <= i < n :: ms.measuredFree[i] == PerGroup(groups, freeByDev.value)[i]
    {
      var free := SumDevices(groups[n].gpus, freeByDev.value);
      ms.measuredFree := ms.measuredFree[n := free];
    }
    if memAvailable.Some? {
      ms.freeCPURAMB := memAvailable.value;
    }
  }

  // ---- totals ----

  lemma {:induction false} GroupsAddUp(groups: seq<GpuGroup>, mb: map<int, int>)
    ensures Sum(PerGroup(groups, mb)) == Sum(Readings(Devices(groups), mb))
    decreases |groups|
  {
    if groups != [] {
      var front, last := groups[..|groups| - 1], groups[|groups| - 1];
      GroupsAddUp(front, mb);
      ReadingsAppend(Devices(front), last.gpus, mb);
      assert PerGroup(groups, mb) == PerGroup(front, mb) + [Sum(Readings(last.gpus, mb))];
      SumAppend(PerGroup(front, mb), [Sum(Readings(last.gpus, mb))]);
    }
  }

  lemma {:induction false} SumFollowsMultiset(s: seq<int>, t: seq<int>, mb: map<int, int>)
    requires multiset(s) == multiset(t)
    ensures Sum(Readings(s, mb)) == Sum(Readings(t, mb))
    decreases |s|
  {
    if s == [] {
      assert |multiset(t)| == |t|;
    } else {
      assert s[0] in multiset(t);
      var i :| 0 <= i < |t| && t[i] == s[0];
      assert s == [s[0]] + s[1..];
      assert t == t[..i] + [s[0]] + t[i + 1..];
      assert multiset(s[1..]) == multiset(s) - multiset{s[0]};
      assert multiset(t[..i] + t[i + 1..]) == multiset(t) - multiset{s[0]};
      SumFollowsMultiset(s[1..], t[..i] + t[i + 1..], mb);
      ReadingsAppend([s[0]], s[1..], mb);
      ReadingsAppend(t[..i] + [s[0]], t[i + 1..], mb);
      ReadingsAppend(t[..i], [s[0]], mb);
      ReadingsAppend(t[..i], t[i + 1..], mb);
    }
  }

  lemma {:induction false} DistinctCounts(s: seq<int>, d: int)
    requires Distinct(s)
    ensures multiset(s)[d] == if d in s then 1 else 0
    decreases |s|
  {
    if s != [] {
      var front, last := s[..|s| - 1], s[|s| - 1];
      assert s == front + [last];
      DistinctSnoc(front, last);
      DistinctCounts(front, d);
    }
  }

  lemma {:induction false} ProbeCounts(s: seq<int>, d: int)
    ensures Sum(Readings(s, map[d := 1])) == multiset(s)[d]
    decreases |s|
  {
    if s != [] {
      assert s == [s[0]] + s[1..];
      ProbeCounts(s[1..], d);
      ReadingsAppend([s[0]], s[1..], map[d := 1]);
    }
  }

  /** `order` lists the configured devices, each once. */
  ghost predicate Enumerates(order: seq<int>, groups: seq<GpuGroup>) {
    Distinct(order) && forall d :: d in order <==> d in Devices(groups)
  }

  /** Whatever the readings, the group sums add up to the sum over the distinct configured devices. */
  ghost predicate CountedOnce(groups: seq<GpuGroup>, order: seq<int>) {
    forall mb: map<int, int> :: Sum(PerGroup(groups, mb)) == Sum(Readings(order, mb))
  }

  lemma DisjointCountsOnce(groups: seq<GpuGroup>, order: seq<int>, mb: map<int, int>)
    requires Enumerates(order, groups) && Distinct(Devices(groups))
    ensures Sum(PerGroup(groups, mb)) == Sum(Readings(order, mb))
  {
    var devs := Devices(groups);
    GroupsAddUp(groups, mb);
    forall d ensures multiset(devs)[d] == multiset(order)[d] {
      DistinctCounts(devs, d);
      DistinctCounts(order, d);
    }
    assert multiset(devs) == multiset(order);
    SumFollowsMultiset(devs, order, mb);
  }

  lemma RepeatCountsTwice(groups: seq<GpuGroup>, order: seq<int>, i: nat, j: nat)
    requires Enumerates(order, groups) && i < j < |Devices(groups)| && Devices(groups)[i] == Devices(groups)[j]
    ensures !CountedOnce(groups, order)
  {
    var devs := Devices(groups);
    var d := devs[i];
    GroupsAddUp(groups, map[d := 1]);
    ProbeCounts(devs, d);
    ProbeCounts(order, d);
    DistinctCounts(order, d);
    assert devs == devs[..j] + [d] + devs[j + 1..];
    assert devs[..j][i] == d;
    assert Sum(PerGroup(groups, map[d := 1])) != Sum(Readings(order, map[d := 1]));
  }

  /** No device is counted twice, exactly when validation found no repeated device. */
  lemma CountedOnceIffDisjoint(groups: seq<GpuGroup>, order: seq<int>)
    requires Enumerates(order, groups)
    ensures CountedOnce(groups, order) <==> Distinct(Devices(groups))
  {
    if Distinct(Devices(groups)) {
      forall mb: map<int, int> ensures Sum(PerGroup(groups, mb)) == Sum(Readings(order, mb)) {
        DisjointCountsOnce(groups, order, mb);
      }
    } else {
      var i, j :| 0 <= i < j < |Devices(groups)| && Devices(groups)[i] == Devices(groups)[j];
      RepeatCountsTwice(groups, order, i, j);
    }
  }

  /** A group never shows more free memory than it has, if no device does. */
  lemma FreeAtMostTotal(groups: seq<GpuGroup>, free: map<int, int>, total: map<int, int>, i: nat)
    requires i < |groups|
    requires forall k | 0 <= k < |groups[i].gpus| :: Readings(groups[i].gpus, free)[k] <= Readings(groups[i].gpus, total)[k]
    ensures PerGroup(groups, free)[i] <= PerGroup(groups, total)[i]
  {
    SumMonotone(Readings(groups[i].gpus, free), Readings(groups[i].gpus, total));
  }
}
