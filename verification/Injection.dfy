/**
 `injectState`: merging one more member into a raw JSON object by trimming its
 closing brace, and exactly when the result is still JSON.
 */
module Injection {
  import opened ByteStrings
  import opened Lifecycle
  import opened Json
  import opened Lexical
  import opened Splice
  import opened Stability

  const STATE_KEY: Bytes :=
    [0x6F, 0x72, 0x63, 0x68, 0x65, 0x73, 0x74, 0x72, 0x61, 0x74, 0x6F, 0x72, 0x5F, 0x73, 0x74, 0x61, 0x74, 0x65]

  function StateName(st: ModelState): Bytes {
    match st
    case Unloaded => [0x75, 0x6E, 0x6C, 0x6F, 0x61, 0x64, 0x65, 0x64]
    case Loading => [0x6C, 0x6F, 0x61, 0x64, 0x69, 0x6E, 0x67]
    case Active => [0x61, 0x63, 0x74, 0x69, 0x76, 0x65]
    case Sleep1 => [0x73, 0x6C, 0x65, 0x65, 0x70, 0x31]
    case Sleep2 => [0x73, 0x6C, 0x65, 0x65, 0x70, 0x32]
  }

  /** How many closing braces the text ends with. */
  function Braces(raw: Bytes): (n: nat)
    ensures n <= |raw|
  {
    if raw == [] || raw[|raw| - 1] != CLOSE_BRACE then 0 else Braces(raw[..|raw| - 1]) + 1
  }

  function Extra(st: ModelState): Bytes {
    [COMMA] + Quoted(STATE_KEY) + [COLON] + Quoted(StateName(st)) + [CLOSE_BRACE]
  }

  function Merge(raw: Bytes, st: ModelState): Bytes {
    raw[..|raw| - Braces(raw)] + Extra(st)
  }

  /** ASCII white space as `bytes.TrimSpace` knows it: JSON's, vertical tab and form feed. */
  predicate TrimsAway(b: Byte) {
    0x09 <= b <= 0x0D || b == 0x20
  }

  function TrimFront(raw: Bytes): Bytes {
    if raw != [] && TrimsAway(raw[0]) then TrimFront(raw[1..]) else raw
  }

  function TrimBack(raw: Bytes): Bytes {
    if raw != [] && TrimsAway(raw[|raw| - 1]) then TrimBack(raw[..|raw| - 1]) else raw
  }

  function Inject(raw: Bytes, st: ModelState): Bytes {
    Merge(TrimBack(TrimFront(raw)), st)
  }

  lemma BracesBack(raw: Bytes, n: nat)
    requires n <= |raw|
    ensures Braces(raw[..n]) == if n > 0 && raw[n - 1] == CLOSE_BRACE then Braces(raw[..n - 1]) + 1 else 0
  {
    if n > 0 {
      assert raw[..n][..n - 1] == raw[..n - 1];
    }
  }

  /** `injectState` */
  method InjectState(raw: Bytes, st: ModelState) returns (out: Bytes)
    ensures out == Inject(raw, st)
  {
    hide Braces, Extra, TrimBack, TrimFront;
    var trimmed := TrimBack(TrimFront(raw));
    var n: nat := |trimmed|;
    assert trimmed[..n] == trimmed;
    BracesBack(trimmed, n);
    while n > 0 && trimmed[n - 1] == CLOSE_BRACE
      invariant n <= |trimmed| && n - Braces(trimmed[..n]) == |trimmed| - Braces(trimmed)
    {
      BracesBack(trimmed, n);
      n := n - 1;
    }
    BracesBack(trimmed, n);
    out := trimmed[..n] + Extra(st);
  }

  /** A complete JSON value. */
  predicate IsJson(t: Bytes) {
    ScanValue(t, 0) == Some(|t|)
  }

  /** An object with at least one member whose text ends in a single brace. */
  predicate Injectable(raw: Bytes) {
    && At(raw, 0, OPEN_BRACE) && !At(raw, SkipSpace(raw, 1), CLOSE_BRACE)
    && Braces(raw) == 1
  }

  predicate Ordinary(x: Bytes) {
    forall k | 0 <= k < |x| :: x[k] >= 0x20 && x[k] != QUOTE && x[k] != BACKSLASH
  }

  lemma NamesAreOrdinary(st: ModelState)
    ensures Ordinary(STATE_KEY) && Ordinary(StateName(st))
  {
  }

  lemma QuotedScans(t: Bytes, i: nat, x: Bytes)
    requires i + |x| + 2 <= |t| && t[i..i + |x| + 2] == Quoted(x) && Ordinary(x)
    ensures ScanString(t, i + 1) == Some(i + |x| + 2)
  {
    forall k | i + 1 <= k < i + 1 + |x| ensures t[k] == x[k - i - 1] {
      assert t[k] == t[i..i + |x| + 2][k - i];
    }
    assert t[i + |x| + 1] == t[i..i + |x| + 2][|x| + 1];
    OrdinaryScans(t, i + 1, |x|);
  }

  /** One member with a string value, and the brace after it. */
  lemma OneMemberScans(t: Bytes, i: nat, key: Bytes, value: Bytes)
    requires Ordinary(key) && Ordinary(value) && |t| == i + |key| + |value| + 6
    requires t[i..i + |key| + 2] == Quoted(key) && t[i + |key| + 2] == COLON
    requires t[i + |key| + 3..|t| - 1] == Quoted(value) && t[|t| - 1] == CLOSE_BRACE
    ensures ScanMembers(t, i) == Some(|t|)
  {
    hide ScanString;
    var k := i + |key| + 2;
    var v := k + 1;
    var e: nat := |t| - 1;
    QuotedScans(t, i, key);
    QuotedScans(t, v, value);
    assert t[i] == t[i..k][0] && t[v] == t[v..e][0];
    assert SkipSpace(t, k) == k && SkipSpace(t, v) == v && SkipSpace(t, e) == e;
    assert ScanKey(t, i) == Some(v);
    assert ScanValue(t, v) == Some(e);
  }

  lemma SliceOfTail(t: Bytes, n: nat, a: nat, b: nat)
    requires a <= b && n + b <= |t|
    ensures t[n + a..n + b] == t[n..][a..b]
  {
  }

  lemma ExtraPieces(key: Bytes, name: Bytes)
    ensures var x := [COMMA] + Quoted(key) + [COLON] + Quoted(name) + [CLOSE_BRACE];
            && |x| == |key| + |name| + 7 && x[0] == COMMA && x[|key| + 3] == COLON && x[|x| - 1] == CLOSE_BRACE
            && x[1] == QUOTE
            && x[1..|key| + 3] == Quoted(key) && x[|key| + 4..|key| + |name| + 6] == Quoted(name)
  {
  }

  /** The injected text after its comma is one member and the closing brace. */
  lemma ExtraIsOneMember(t: Bytes, n: nat, st: ModelState)
    requires n <= |t| && t[n..] == Extra(st)
    ensures At(t, n, COMMA) && SkipSpace(t, n + 1) == n + 1 && ScanMembers(t, n + 1) == Some(|t|)
  {
    hide ScanString, ScanMembers, StateName;
    NamesAreOrdinary(st);
    var name := StateName(st);
    var x, m := t[n..], |STATE_KEY|;
    ExtraPieces(STATE_KEY, name);
    SliceOfTail(t, n, 1, m + 3);
    SliceOfTail(t, n, m + 4, m + |name| + 6);
    assert t[n] == x[0] && t[n + 1] == x[1] && t[n + m + 3] == x[m + 3] && t[|t| - 1] == x[|x| - 1];
    OneMemberScans(t, n + 1, STATE_KEY, name);
  }

  // ---- a single closing brace: the members continue ----

  /** Members whose closing brace at `n` is replaced by a comma and more members scan on to the end of those. */
  lemma {:induction false} MembersContinue(s: Bytes, t: Bytes, i: nat, n: nat)
    requires ScanMembers(s, i) == Some(n + 1) && Agree(s, t, n) && At(t, n, COMMA) && ScanMembers(t, SkipSpace(t, n + 1)).Some?
    ensures ScanMembers(t, i) == ScanMembers(t, SkipSpace(t, n + 1))
    decreases |s| - i
  {
    hide SkipSpace, ScanKey, ScanValue, ScanString;
    var v := ScanKey(s, i).value;
    var e := ScanValue(s, v).value;
    var p := SkipSpace(s, e);
    MembersUnfold(s, i, v, e, p);
    if At(s, p, COMMA) {
      MembersContinue(s, t, SkipSpace(s, p + 1), n);
      SpaceStable(s, t, p + 1, n);
    }
    SpaceStable(s, t, e, n);
    ValueStable(s, t, v, n);
    KeyStable(s, t, i, n);
    MembersUnfold(t, i, v, e, p);
  }

  lemma SingleBraceInjects(raw: Bytes, st: ModelState)
    requires IsJson(raw) && Injectable(raw)
    ensures IsJson(Merge(raw, st))
  {
    hide SkipSpace, ScanString, ScanMembers, Braces, Extra;
    var t := Merge(raw, st);
    var n: nat := |raw| - 1;
    assert t[n..] == Extra(st);
    ExtraIsOneMember(t, n, st);
    var i := SkipSpace(raw, 1);
    MembersContinue(raw, t, i, n);
    SpaceStable(raw, t, 1, n);
  }

  // ---- otherwise ----

  lemma NonObjectFails(raw: Bytes, st: ModelState)
    requires IsJson(raw) && !At(raw, 0, OPEN_BRACE)
    ensures !IsJson(Merge(raw, st))
  {
    hide Extra;
    var t := Merge(raw, st);
    NonObjectEnds(raw);
    ExtraIsOneMember(t, |raw|, st);
    ValueStable(raw, t, 0, |raw|);
  }

  /** Only an object ends in a closing brace. */
  lemma NonObjectEnds(raw: Bytes)
    requires IsJson(raw) && !At(raw, 0, OPEN_BRACE)
    ensures Braces(raw) == 0
  {
    hide SkipSpace, ScanMembers, ScanNumber, ScanText;
    var e := raw[|raw| - 1];
    if raw[0] == OPEN_BRACKET {
      if !At(raw, SkipSpace(raw, 1), CLOSE_BRACKET) {
        ElementsEnd(raw, SkipSpace(raw, 1));
      }
    } else if raw[0] != QUOTE {
      FlatValue(raw, 0);
    }
  }

  lemma {:induction false} ElementsEnd(s: Bytes, i: nat)
    requires ScanElements(s, i).Some?
    ensures s[ScanElements(s, i).value - 1] == CLOSE_BRACKET
    decreases |s| - i
  {
    hide SkipSpace, ScanValue;
    var p := SkipSpace(s, ScanValue(s, i).value);
    if At(s, p, COMMA) {
      ElementsEnd(s, SkipSpace(s, p + 1));
    }
  }

  lemma NoMemberAtComma(t: Bytes, n: nat)
    requires At(t, n, COMMA)
    ensures ScanMembers(t, n).None?
  {
  }

  lemma EmptyObjectEnds(raw: Bytes)
    requires IsJson(raw) && At(raw, 0, OPEN_BRACE) && At(raw, SkipSpace(raw, 1), CLOSE_BRACE)
    ensures |raw| >= 2 && SkipSpace(raw, 1) == |raw| - 1 && Braces(raw) == 1
  {
    hide SkipSpace, ScanMembers, Braces;
    EmptyHasOneBrace(raw);
  }

  lemma EmptyObjectFails(raw: Bytes, st: ModelState)
    requires IsJson(raw) && At(raw, 0, OPEN_BRACE) && At(raw, SkipSpace(raw, 1), CLOSE_BRACE)
    ensures !IsJson(Merge(raw, st))
  {
    hide SkipSpace, Extra, ScanMembers, Braces, ScanElements, ScanString, ScanNumber;
    var t := Merge(raw, st);
    EmptyObjectEnds(raw);
    var n: nat := |raw| - 1;
    assert t[n..] == Extra(st);
    ExtraIsOneMember(t, n, st);
    SpaceStable(raw, t, 1, n);
    NoMemberAtComma(t, n);
    assert t[0] == OPEN_BRACE;
  }

  lemma EmptyHasOneBrace(raw: Bytes)
    requires |raw| >= 2 && raw[0] == OPEN_BRACE && SkipSpace(raw, 1) == |raw| - 1 && raw[|raw| - 1] == CLOSE_BRACE
    ensures Braces(raw) == 1
  {
    SpaceIsFlat(raw, 1);
    var front := raw[..|raw| - 1];
    assert front[|front| - 1] == raw[|raw| - 2];
  }

  lemma {:induction false} LexAgrees(s: Bytes, t: Bytes, n: nat)
    requires Agree(s, t, n)
    ensures LexAt(t, n) == LexAt(s, n)
    decreases n
  {
    if n > 0 {
      LexAgrees(s, t, n - 1);
    }
  }

  /** Going back over closing braces, every one of them was outside strings and raised the depth. */
  lemma {:induction false} BracesNest(raw: Bytes, i: nat, d: int)
    requires i <= |raw| && Open(raw, i, d)
    ensures var k := Braces(raw[..i]);
            Open(raw, i - k, d + k)
    decreases i
  {
    if i > 0 && raw[i - 1] == CLOSE_BRACE {
      Next(raw, i - 1);
      assert raw[..i][..i - 1] == raw[..i - 1];
      BracesNest(raw, i - 1, d + 1);
    }
  }

  /** What an object of JSON text leaves open when all its trailing braces are gone is one level per brace. */
  lemma ManyBracesFail(raw: Bytes, st: ModelState)
    requires IsJson(raw) && Braces(raw) >= 2
    ensures !IsJson(Merge(raw, st))
  {
    hide Extra, LexAt, Braces, ScanMembers, ScanValue;
    var t := Merge(raw, st);
    var k := Braces(raw);
    var n: nat := |raw| - k;
    ValueIsBalanced(raw, 0, 0) by { assert LexAt(raw, 0) == Lex(0, false, false) by { StartsOpen(raw); } }
    assert raw[..|raw|] == raw;
    BracesNest(raw, |raw|, 0);
    LexAgrees(raw, t, n);
    assert t[n..] == Extra(st);
    ExtraIsOneMember(t, n, st);
    BracketMoves(t, n, k);
    MembersAreBalanced(t, n + 1, k);
    StartsOpen(t);
    if IsJson(t) {
      ValueIsBalanced(t, 0, 0);
    }
  }

  lemma StartsOpen(s: Bytes)
    ensures LexAt(s, 0) == Lex(0, false, false)
  {
  }

  lemma ObjectHasABrace(raw: Bytes)
    requires IsJson(raw) && At(raw, 0, OPEN_BRACE)
    ensures Braces(raw) >= 1
  {
    hide SkipSpace, ScanMembers;
    if !At(raw, SkipSpace(raw, 1), CLOSE_BRACE) {
      MembersEnd(raw, SkipSpace(raw, 1));
    }
  }

  lemma {:induction false} MembersEnd(s: Bytes, i: nat)
    requires ScanMembers(s, i).Some?
    ensures s[ScanMembers(s, i).value - 1] == CLOSE_BRACE
    decreases |s| - i
  {
    hide SkipSpace, ScanValue, ScanKey;
    var p := SkipSpace(s, ScanValue(s, ScanKey(s, i).value).value);
    if At(s, p, COMMA) {
      MembersEnd(s, SkipSpace(s, p + 1));
    }
  }

  lemma MergeIsJsonIff(raw: Bytes, st: ModelState)
    requires IsJson(raw)
    ensures IsJson(Merge(raw, st)) <==> Injectable(raw)
  {
    hide SkipSpace, Braces, Merge, IsJson;
    if Injectable(raw) {
      SingleBraceInjects(raw, st);
    } else if Braces(raw) >= 2 {
      ManyBracesFail(raw, st);
    } else if !At(raw, 0, OPEN_BRACE) {
      NonObjectFails(raw, st);
    } else if At(raw, SkipSpace(raw, 1), CLOSE_BRACE) {
      EmptyObjectFails(raw, st);
    } else {
      ObjectHasABrace(raw);
    }
  }

  // ---- outer white space ----

  predicate AllSpace(x: Bytes) {
    forall k | 0 <= k < |x| :: IsSpace(x[k])
  }

  lemma {:induction false} DigitsEnd(s: Bytes, i: nat)
    requires i < |s| && IsDigit(s[i])
    ensures IsDigit(s[SkipDigits(s, i) - 1])
    decreases |s| - i
  {
    if i + 1 < |s| && IsDigit(s[i + 1]) {
      DigitsEnd(s, i + 1);
    } else {
      assert SkipDigits(s, i) == i + 1;
    }
  }

  lemma ScanDigitsEnd(s: Bytes, i: nat)
    requires ScanDigits(s, i).Some?
    ensures IsDigit(s[ScanDigits(s, i).value - 1])
  {
    DigitsEnd(s, i);
  }

  lemma NumberEnds(s: Bytes, i: nat)
    requires ScanNumber(s, i).Some?
    ensures IsDigit(s[ScanNumber(s, i).value - 1])
  {
    hide ScanDigits;
    var j := if At(s, i, MINUS) then i + 1 else i;
    var a := ScanInteger(s, j).value;
    if !At(s, j, ZERO) { ScanDigitsEnd(s, j); }
    var b := ScanFraction(s, a).value;
    if At(s, a, DOT) { ScanDigitsEnd(s, a + 1); }
    if At(s, b, 0x65) || At(s, b, 0x45) {
      ScanDigitsEnd(s, if At(s, b + 1, PLUS) || At(s, b + 1, MINUS) then b + 2 else b + 1);
    }
  }

  /** A value neither begins nor ends with white space. */
  lemma ValueIsTrimmed(v: Bytes)
    requires IsJson(v)
    ensures v != [] && !TrimsAway(v[0]) && !TrimsAway(v[|v| - 1])
  {
    hide SkipSpace, ScanMembers, ScanElements, ScanString;
    if v[0] == OPEN_BRACE {
      if !At(v, SkipSpace(v, 1), CLOSE_BRACE) { MembersEnd(v, SkipSpace(v, 1)); }
    } else if v[0] == OPEN_BRACKET {
      if !At(v, SkipSpace(v, 1), CLOSE_BRACKET) { ElementsEnd(v, SkipSpace(v, 1)); }
    } else if v[0] != QUOTE && v[0] != 0x74 && v[0] != 0x66 && v[0] != 0x6E {
      NumberEnds(v, 0);
    } else if v[0] == 0x74 {
      assert v[|v| - 1] == v[0..4][3];
    } else if v[0] == 0x66 {
      assert v[|v| - 1] == v[0..5][4];
    } else if v[0] == 0x6E {
      assert v[|v| - 1] == v[0..4][3];
    }
  }

  lemma {:induction false} FrontTrims(a: Bytes, v: Bytes)
    requires AllSpace(a) && v != [] && !TrimsAway(v[0])
    ensures TrimFront(a + v) == v
  {
    if a == [] {
      assert a + v == v;
    } else {
      assert IsSpace(a[0]) && (a + v)[1..] == a[1..] + v;
      FrontTrims(a[1..], v);
    }
  }

  lemma {:induction false} BackTrims(v: Bytes, b: Bytes)
    requires AllSpace(b) && v != [] && !TrimsAway(v[|v| - 1])
    ensures TrimBack(v + b) == v
    decreases |b|
  {
    if b == [] {
      assert v + b == v;
    } else {
      assert IsSpace(b[|b| - 1]) && (v + b)[..|v + b| - 1] == v + b[..|b| - 1];
      BackTrims(v, b[..|b| - 1]);
    }
  }

  /**
   For every JSON text, that is a value between white space, the result is JSON
   exactly when the value is a non-empty object whose text ends in a single brace.
   */
  lemma InjectionIsJsonIff(before: Bytes, value: Bytes, after: Bytes, st: ModelState)
    requires AllSpace(before) && IsJson(value) && AllSpace(after)
    ensures IsJson(Inject(before + value + after, st)) <==> Injectable(value)
  {
    hide IsJson, Merge, Injectable, TrimFront, TrimBack;
    ValueIsTrimmed(value);
    assert before + value + after == before + (value + after);
    FrontTrims(before, value + after);
    BackTrims(value, after);
    MergeIsJsonIff(value, st);
  }

  // ---- what the result says ----

  /** A member of an object: its key, read, and the text of its value. */
  datatype Pair = Pair(key: Bytes, value: Bytes)

  /** The members from the one at `i` on. */
  function Pairs(s: Bytes, i: nat): Option<seq<Pair>>
    decreases |s| - i
  {
    var v := ScanKey(s, i);
    if v.None? then None
    else
      var e := ScanValue(s, v.value);
      if e.None? then None
      else
        var pair := Pair(KeyAt(s, i), s[v.value..e.value]);
        var p := SkipSpace(s, e.value);
        if At(s, p, CLOSE_BRACE) then Some([pair])
        else if At(s, p, COMMA) then
          var rest := Pairs(s, SkipSpace(s, p + 1));
          if rest.None? then None else Some([pair] + rest.value)
        else None
  }

  lemma PairsUnfold(t: Bytes, i: nat, v: nat, e: nat, p: nat)
    requires ScanKey(t, i) == Some(v) && ScanValue(t, v) == Some(e) && SkipSpace(t, e) == p
    ensures Pairs(t, i) ==
              if At(t, p, CLOSE_BRACE) then Some([Pair(KeyAt(t, i), t[v..e])])
              else if At(t, p, COMMA) then
                (if Pairs(t, SkipSpace(t, p + 1)).None? then None
                 else Some([Pair(KeyAt(t, i), t[v..e])] + Pairs(t, SkipSpace(t, p + 1)).value))
              else None
  {
    hide ScanKey, ScanValue, SkipSpace, KeyAt;
  }

  lemma MemberParts(s: Bytes, i: nat) returns (v: nat, e: nat, p: nat)
    requires ScanMembers(s, i).Some?
    ensures ScanKey(s, i) == Some(v) && ScanString(s, i + 1).Some? && ScanValue(s, v) == Some(e) && SkipSpace(s, e) == p
    ensures i < v < e <= p < |s| && (At(s, p, CLOSE_BRACE) || At(s, p, COMMA))
    ensures ScanMembers(s, i) == if At(s, p, CLOSE_BRACE) then Some(p + 1) else ScanMembers(s, SkipSpace(s, p + 1))
  {
    hide SkipSpace, ScanValue, ScanString;
    v := ScanKey(s, i).value;
    e := ScanValue(s, v).value;
    p := SkipSpace(s, e);
  }

  /** Members whose closing brace at `n` is replaced by a comma and more members: the old ones as they were, then the new ones. */
  lemma {:induction false} PairsContinue(s: Bytes, t: Bytes, i: nat, n: nat)
    requires ScanMembers(s, i) == Some(n + 1) && Agree(s, t, n) && At(t, n, COMMA) && Pairs(t, SkipSpace(t, n + 1)).Some?
    ensures Pairs(s, i).Some? && Pairs(t, i) == Some(Pairs(s, i).value + Pairs(t, SkipSpace(t, n + 1)).value)
    decreases |s| - i
  {
    hide SkipSpace, ScanKey, ScanValue, ScanString, ScanMembers, KeyAt, Pairs;
    var v, e, p := MemberParts(s, i);
    var own := Pair(KeyAt(s, i), s[v..e]);
    PairsUnfold(s, i, v, e, p);
    if At(s, p, COMMA) {
      PairsContinue(s, t, SkipSpace(s, p + 1), n);
      SpaceStable(s, t, p + 1, n);
    }
    SpaceStable(s, t, e, n);
    ValueStable(s, t, v, n);
    KeyStable(s, t, i, n);
    PairsUnfold(t, i, v, e, p);
    assert s[v..e] == t[v..e];
    if At(s, p, COMMA) {
      var added := Pairs(t, SkipSpace(t, n + 1)).value;
      assert [own] + (Pairs(s, SkipSpace(s, p + 1)).value + added) == ([own] + Pairs(s, SkipSpace(s, p + 1)).value) + added;
    }
  }

  lemma OrdinaryReads(x: Bytes)
    requires Ordinary(x) && forall b | b in x :: b < 0x80
    ensures Unquote(x, 0) == x
  {
    AsciiIsPlain(x, 0);
    PlainUnquotes(x, 0);
    assert x[0..] == x;
  }

  lemma {:induction false} AsciiIsPlain(x: Bytes, i: nat)
    requires Ordinary(x) && (forall b | b in x :: b < 0x80) && i <= |x|
    ensures Plain(x, i)
    decreases |x| - i
  {
    if i < |x| {
      assert x[i] in x && NextChunk(x, i).len == 1;
      AsciiIsPlain(x, i + 1);
    }
  }

  lemma OnePair(t: Bytes, i: nat, key: Bytes, value: Bytes)
    requires Ordinary(key) && Ordinary(value) && |t| == i + |key| + |value| + 6 && forall b | b in key :: b < 0x80
    requires t[i..i + |key| + 2] == Quoted(key) && t[i + |key| + 2] == COLON
    requires t[i + |key| + 3..|t| - 1] == Quoted(value) && t[|t| - 1] == CLOSE_BRACE
    ensures Pairs(t, i) == Some([Pair(key, Quoted(value))])
  {
    hide ScanString, Unquote, Pairs;
    var k := i + |key| + 2;
    var v := k + 1;
    var e: nat := |t| - 1;
    QuotedScans(t, i, key);
    QuotedScans(t, v, value);
    assert t[i] == t[i..k][0] && t[v] == t[v..e][0];
    assert SkipSpace(t, k) == k && SkipSpace(t, v) == v && SkipSpace(t, e) == e;
    assert ScanKey(t, i) == Some(v);
    assert ScanValue(t, v) == Some(e);
    PairsUnfold(t, i, v, e, e);
    assert Content(t, i + 1, k) == t[i..k][1..|key| + 1] == key;
    OrdinaryReads(key);
  }

  /** The five words a client sees. */
  function Word(st: ModelState): string {
    match st
    case Unloaded => "unloaded"
    case Loading => "loading"
    case Active => "active"
    case Sleep1 => "sleep1"
    case Sleep2 => "sleep2"
  }

  /** The member that tells the state. */
  function StatePair(st: ModelState): Pair {
    Pair(Ascii("orchestrator_state"), Ascii("\"") + Ascii(Word(st)) + Ascii("\""))
  }

  lemma WordsSpelled(st: ModelState)
    ensures STATE_KEY == Ascii("orchestrator_state") && StateName(st) == Ascii(Word(st))
    ensures forall b | b in STATE_KEY :: b < 0x80
  {
  }

  /** The injected text, read as members. */
  lemma ExtraIsOnePair(t: Bytes, n: nat, st: ModelState)
    requires n <= |t| && t[n..] == Extra(st)
    ensures At(t, n, COMMA) && SkipSpace(t, n + 1) == n + 1
    ensures Pairs(t, n + 1) == Some([StatePair(st)])
  {
    hide ScanString, ScanMembers, StateName, Pairs;
    NamesAreOrdinary(st);
    WordsSpelled(st);
    var name := StateName(st);
    var x, m := t[n..], |STATE_KEY|;
    ExtraPieces(STATE_KEY, name);
    SliceOfTail(t, n, 1, m + 3);
    SliceOfTail(t, n, m + 4, m + |name| + 6);
    assert t[n] == x[0] && t[n + 1] == x[1] && t[n + m + 3] == x[m + 3] && t[|t| - 1] == x[|x| - 1];
    OnePair(t, n + 1, STATE_KEY, name);
    assert Ascii("\"") == [QUOTE];
  }

  /** The result of a successful injection is an object with the old members, unchanged and in order, and the state as one more. */
  lemma InjectionAddsTheState(before: Bytes, value: Bytes, after: Bytes, st: ModelState)
    requires AllSpace(before) && IsJson(value) && AllSpace(after) && Injectable(value)
    ensures var t := Inject(before + value + after, st);
            && At(t, 0, OPEN_BRACE)
            && Pairs(value, SkipSpace(value, 1)).Some?
            && Pairs(t, SkipSpace(t, 1)) ==
                 Some(Pairs(value, SkipSpace(value, 1)).value + [StatePair(st)])
  {
    hide SkipSpace, ScanString, ScanMembers, Braces, Extra, TrimFront, TrimBack, Pairs;
    ValueIsTrimmed(value);
    assert before + value + after == before + (value + after);
    FrontTrims(before, value + after);
    BackTrims(value, after);
    var t := Merge(value, st);
    var n: nat := |value| - 1;
    assert t[n..] == Extra(st);
    ExtraIsOnePair(t, n, st);
    PairsContinue(value, t, SkipSpace(value, 1), n);
    SpaceStable(value, t, 1, n);
  }
}
