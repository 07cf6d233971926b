/**
 Candidate lists of the eviction rules: the entries that satisfy a condition,
 smallest first.
 */
module Candidates {
  import opened Sequences

  ghost predicate Ascending(s: seq<nat>, keys: seq<int>) {
    && (forall n | 0 <= n < |s| :: s[n] < |keys|)
    && (forall m, n | 0 <= m < n < |s| :: keys[s[m]] <= keys[s[n]])
  }

  /** Insertion before the first larger key. */
  function Insert(s: seq<nat>, keys: seq<int>, i: nat): (r: seq<nat>)
    requires i < |keys| && forall n | 0 <= n < |s| :: s[n] < |keys|
    ensures forall n | 0 <= n < |r| :: r[n] < |keys|
  {
    if s == [] || keys[i] < keys[s[0]] then [i] + s else [s[0]] + Insert(s[1..], keys, i)
  }

  /** A smaller new element may go in front, a larger one at the end. */
  lemma AtEitherEnd(s: seq<nat>, keys: seq<int>, i: nat)
    requires i < |keys| && Ascending(s, keys) && Distinct(s) && i !in s
    ensures (forall n | 0 <= n < |s| :: keys[i] <= keys[s[n]]) ==> Ascending([i] + s, keys)
    ensures (forall n | 0 <= n < |s| :: keys[s[n]] <= keys[i]) ==> Ascending(s + [i], keys)
    ensures Distinct([i] + s) && Distinct(s + [i])
  {
  }

  lemma {:induction false} InsertAdds(s: seq<nat>, keys: seq<int>, i: nat, x: nat)
    requires i < |keys| && forall n | 0 <= n < |s| :: s[n] < |keys|
    ensures x in Insert(s, keys, i) <==> x == i || x in s
  {
    if s != [] && keys[i] >= keys[s[0]] {
      InsertAdds(s[1..], keys, i, x);
      assert x in s <==> x == s[0] || x in s[1..];
    }
  }

  /** The first element stays in front of what is inserted behind it. */
  lemma HeadStaysFirst(s: seq<nat>, keys: seq<int>, i: nat)
    requires i < |keys| && Ascending(s, keys) && Distinct(s) && i !in s
    requires s != [] && keys[i] >= keys[s[0]]
    ensures var rest := Insert(s[1..], keys, i);
            s[0] !in rest && forall n | 0 <= n < |rest| :: rest[n] < |keys| && keys[s[0]] <= keys[rest[n]]
  {
    hide Insert;
    var rest := Insert(s[1..], keys, i);
    InsertAdds(s[1..], keys, i, s[0]);
    forall n | 0 <= n < |rest| ensures rest[n] < |keys| && keys[s[0]] <= keys[rest[n]] {
      InsertAdds(s[1..], keys, i, rest[n]);
    }
  }

  lemma {:induction false} InsertKeepsOrder(s: seq<nat>, keys: seq<int>, i: nat)
    requires i < |keys| && Ascending(s, keys) && Distinct(s) && i !in s
    ensures var r := Insert(s, keys, i);
            Ascending(r, keys) && Distinct(r) && forall x :: x in r <==> x == i || x in s
  {
    forall x: nat ensures x in Insert(s, keys, i) <==> x == i || x in s {
      InsertAdds(s, keys, i, x);
    }
    if s == [] || keys[i] < keys[s[0]] {
      AtEitherEnd(s, keys, i);
    } else {
      InsertKeepsOrder(s[1..], keys, i);
      HeadStaysFirst(s, keys, i);
      AtEitherEnd(Insert(s[1..], keys, i), keys, s[0]);
    }
  }
}
