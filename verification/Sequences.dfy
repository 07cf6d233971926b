/** Sequences without repetition. */
module Sequences {

  ghost predicate Distinct<T>(s: seq<T>) {
    forall i, j | 0 <= i < j < |s| :: s[i] != s[j]
  }

  lemma DistinctSnoc<T>(s: seq<T>, x: T)
    ensures Distinct(s + [x]) <==> Distinct(s) && x !in s
  {
    var t := s + [x];
    assert forall i | 0 <= i < |s| :: t[i] == s[i];
    if Distinct(t) {
      assert forall i, j | 0 <= i < j < |s| :: t[i] != t[j];
      assert forall i | 0 <= i < |s| :: t[i] != t[|s|];
    }
  }

  lemma DistinctPrefix<T>(s: seq<T>, t: seq<T>)
    requires Distinct(s + t)
    ensures Distinct(s)
  {
    assert forall i | 0 <= i < |s| :: (s + t)[i] == s[i];
  }

  lemma DistinctAppend<T>(s: seq<T>, t: seq<T>)
    requires Distinct(s) && Distinct(t) && forall x | x in t :: x !in s
    ensures Distinct(s + t)
  {
    var r := s + t;
    forall i, j | 0 <= i < j < |r| ensures r[i] != r[j] {
      assert r[i] == if i < |s| then s[i] else t[i - |s|];
      assert r[j] == if j < |s| then s[j] else t[j - |s|];
      if i < |s| <= j {
        assert r[j] in t;
      }
    }
  }

  /** An element of `own` that already occurred makes every extension repetitive. */
  lemma Repeated<T>(front: seq<T>, own: seq<T>, k: nat, rest: seq<T>)
    requires k < |own| && own[k] in front + own[..k]
    ensures !Distinct(front + own + rest)
    ensures multiset(front + own + rest)[own[k]] >= 2
  {
    var before, after := front + own[..k], own[k + 1..] + rest;
    assert own == own[..k] + [own[k]] + own[k + 1..];
    assert front + own + rest == before + [own[k]] + after;
    assert multiset(before)[own[k]] >= 1;
    if Distinct(before + [own[k]] + after) {
      DistinctPrefix(before + [own[k]], after);
      DistinctSnoc(before, own[k]);
    }
  }
}
