/**
 Replica sets and their round-robin cursor.  The cursor is one atomic 64-bit
 add, so any interleaving of callers is a sequence of `Pick`s; the theorems are
 about every window of such a sequence, including windows across the wrap of
 the counter.
 */
module RoundRobin {
  import opened Orchestration

  const WRAP: nat := 0x1_0000_0000_0000_0000

  /** The index a call returns when it finds the counter at `next`. */
  function Turn(next: nat, n: nat): (i: nat)
    requires n > 0
    ensures i < n
  {
    if n == 1 then 0 else next % n
  }

  /** The counter after a call. */
  function Advance(next: nat, n: nat): nat {
    if n == 1 then next else (next + 1) % WRAP
  }

  class ReplicaSet {
    const entries: seq<ModelEntry>
    var next: nat

    ghost predicate Valid()
      reads this
    {
      entries != [] && next < WRAP
    }

    constructor (entries: seq<ModelEntry>)
      requires entries != []
      ensures this.entries == entries && Valid() && next == 0
    {
      this.entries, next := entries, 0;
    }

    /** A single entry is returned without touching the counter. */
    method Pick() returns (me: ModelEntry)
      requires Valid()
      modifies this
      ensures Valid() && me == entries[Turn(old(next), |entries|)]
      ensures next == Advance(old(next), |entries|)
    {
      if |entries| == 1 {
        return entries[0];
      }
      next := (next + 1) % WRAP;
      var n := (next - 1) % WRAP;      // Add(1) - 1 in 64-bit arithmetic
      me := entries[n % |entries|];
    }
  }

  /** How often entry `e` is chosen by the next `w` calls. */
  function Chosen(next: nat, w: nat, n: nat, e: nat): nat
    requires n > 0
    decreases w
  {
    if w == 0 then 0
    else (if Turn(next, n) == e then 1 else 0) + Chosen(Advance(next, n), w - 1, n, e)
  }

  predicate Fair(next: nat, w: nat, n: nat, e: nat)
    requires n > 0
  {
    w / n <= Chosen(next, w, n, e) <= (w + n - 1) / n
  }

  // ---- arithmetic of residues ----

  lemma Multiple(d: int, n: nat)
    ensures d >= 1 ==> d * n >= n
    ensures d <= -1 ==> d * n + n <= 0
  {
  }

  lemma DivMod(q: int, r: int, n: nat)
    requires 0 <= r < n
    ensures (q * n + r) / n == q && (q * n + r) % n == r
  {
    var x := q * n + r;
    assert x == (x / n) * n + x % n;
    var d := x / n - q;
    assert d * n == r - x % n;
    Multiple(d, n);
  }

  /** How many numbers below `x` leave remainder `e`. */
  function Below(x: nat, n: nat, e: nat): int
    requires e < n
  {
    (x + n - 1 - e) / n
  }

  lemma BelowStep(x: nat, n: nat, e: nat)
    requires e < n
    ensures Below(x + 1, n, e) == Below(x, n, e) + (if x % n == e then 1 else 0)
  {
    var q, r := x / n, x % n;
    assert x == q * n + r;
    if r > e {
      DivMod(q + 1, r - 1 - e, n);
      DivMod(q + 1, r - e, n);
      assert (q + 1) * n == q * n + n;
    } else if r == e {
      DivMod(q, n - 1, n);
      DivMod(q + 1, 0, n);
      assert (q + 1) * n == q * n + n;
    } else {
      DivMod(q, r + n - 1 - e, n);
      DivMod(q, r + n - e, n);
    }
  }

  /** Adding `w` to a number adds `w / n` to its quotient, or one more when the remainders carry. */
  lemma Carry(q: int, r: int, v: int, u: int, n: nat)
    requires 0 <= r < n && 0 <= u < n
    ensures (q * n + r + (v * n + u)) / n == q + v + (if r + u < n then 0 else 1)
  {
    assert (q + v) * n == q * n + v * n;
    if r + u < n {
      DivMod(q + v, r + u, n);
    } else {
      assert (q + v + 1) * n == (q + v) * n + n;
      DivMod(q + v + 1, r + u - n, n);
    }
  }

  lemma BelowSpread(x: nat, w: nat, n: nat, e: nat)
    requires e < n
    ensures w / n <= Below(x + w, n, e) - Below(x, n, e) <= (w + n - 1) / n
  {
    var a := x + n - 1 - e;
    var v, u := w / n, w % n;
    assert w == v * n + u;
    assert a == (a / n) * n + a % n;
    Carry(a / n, a % n, v, u, n);
    Carry(0, n - 1, v, u, n);
    assert (w + n - 1) / n == v + (if u == 0 then 0 else 1);
    assert Below(x + w, n, e) == (a + w) / n;
  }

  lemma {:induction false} ChosenCounts(next: nat, w: nat, n: nat, e: nat)
    requires e < n && n >= 2 && next + w <= WRAP
    ensures Chosen(next, w, n, e) == Below(next + w, n, e) - Below(next, n, e)
    decreases w
  {
    if w > 0 {
      BelowStep(next, n, e);
      if next + 1 < WRAP {
        assert (next + 1) % WRAP == next + 1;
        ChosenCounts(next + 1, w - 1, n, e);
      } else {
        assert w == 1;
      }
    }
  }

  lemma {:induction false} SingleAlwaysChosen(next: nat, w: nat)
    ensures Chosen(next, w, 1, 0) == w
    decreases w
  {
    if w > 0 {
      SingleAlwaysChosen(next, w - 1);
    }
  }

  /** Any window that does not cross the wrap gives each entry its share, rounded down or up. */
  lemma FairBeforeWrap(next: nat, w: nat, n: nat, e: nat)
    requires e < n && next + w <= WRAP
    ensures Fair(next, w, n, e)
  {
    if n == 1 {
      SingleAlwaysChosen(next, w);
    } else {
      ChosenCounts(next, w, n, e);
      BelowSpread(next, w, n, e);
    }
  }

  // ---- across the wrap ----

  lemma ModOfWrap(x: nat, n: nat)
    requires n >= 1 && WRAP % n == 0 && x <= WRAP
    ensures (x % WRAP) % n == x % n
  {
  }

  /** When the set size divides 2^64 the counter behaves as if it never wrapped. */
  lemma {:induction false} ChosenUnwrapped(next: nat, at: nat, w: nat, n: nat, e: nat)
    requires e < n && n >= 2 && WRAP % n == 0
    requires at < WRAP && at % n == next % n
    ensures Chosen(at, w, n, e) == Below(next + w, n, e) - Below(next, n, e)
    decreases w
  {
    if w > 0 {
      BelowStep(next, n, e);
      ModOfWrap(at + 1, n);
      SuccMod(at, next, n);
      ChosenUnwrapped(next + 1, (at + 1) % WRAP, w - 1, n, e);
    }
  }

  lemma SuccMod(a: nat, b: nat, n: nat)
    requires n > 0 && a % n == b % n
    ensures (a + 1) % n == (b + 1) % n
  {
    var r := a % n;
    assert a == (a / n) * n + r && b == (b / n) * n + r;
    if r + 1 < n {
      DivMod(a / n, r + 1, n);
      DivMod(b / n, r + 1, n);
    } else {
      assert (a / n + 1) * n == (a / n) * n + n && (b / n + 1) * n == (b / n) * n + n;
      DivMod(a / n + 1, 0, n);
      DivMod(b / n + 1, 0, n);
    }
  }

  /** From a multiple of `n` on, `w < n` calls choose entry 0 once, and the call after the wrap chooses it again. */
  lemma {:induction false} ZeroTwice(next: nat, w: nat, n: nat)
    requires n >= 2 && 1 <= w && next + w == WRAP
    ensures Chosen(next, w + 1, n, 0) >= 1 + (if next % n == 0 then 1 else 0)
    decreases w
  {
    if w == 1 {
      assert Chosen(next, 2, n, 0) == (if Turn(next, n) == 0 then 1 else 0) + Chosen(0, 1, n, 0);
    } else {
      assert (next + 1) % WRAP == next + 1;
      ZeroTwice(next + 1, w - 1, n);
    }
  }

  ghost predicate AlwaysFair(n: nat)
    requires n > 0
  {
    forall next: nat, w: nat, e: nat | next < WRAP && e < n :: Fair(next, w, n, e)
  }

  /** Fairness over every window, wherever the counter stands, holds exactly for set sizes that divide 2^64. */
  lemma FairAcrossWrapIff(n: nat)
    requires 1 <= n < WRAP
    ensures AlwaysFair(n) <==> WRAP % n == 0
  {
    if WRAP % n == 0 {
      forall next: nat, w: nat, e: nat | next < WRAP && e < n ensures Fair(next, w, n, e) {
        if n == 1 {
          SingleAlwaysChosen(next, w);
        } else {
          ChosenUnwrapped(next, next, w, n, e);
          BelowSpread(next, w, n, e);
        }
      }
    } else {
      var r := WRAP % n;
      var start := WRAP - r;
      assert start == (WRAP / n) * n + 0;
      DivMod(WRAP / n, 0, n);
      ZeroTwice(start, r, n);
      DivMod(1, r, n);
      assert (r + 1 + n - 1) / n == 1;
      assert !Fair(start, r + 1, n, 0);
    }
  }
}
