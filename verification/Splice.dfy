/**
 Rewriting the "model" value inside a request body, and the round trip: which
 canonical names can be read back from the rewritten body.
 */
module Splice {
  import opened ByteStrings
  import opened Lifecycle
  import opened Json
  import opened Decoding
  import opened Stability

  function Quoted(name: Bytes): Bytes {
    [QUOTE] + name + [QUOTE]
  }

  /** The body with its "model" literal replaced; a body without one is left alone. */
  function Rewrite(s: Bytes, name: Bytes): Bytes {
    match Locate(s)
    case None => s
    case Some(f) => s[..f.start] + Quoted(name) + s[f.end..]
  }

  /** `extractModelField`. */
  function Extract(s: Bytes): Bytes {
    match Locate(s)
    case None => []
    case Some(f) => f.value
  }

  method ExtractModelField(data: Bytes) returns (value: Bytes)
    ensures value == Extract(data)
  {
    var f := LocateTopLevelModelValue(data);
    value := if f.None? then [] else f.value.value;
  }

  /** `rewriteModelField`: everything outside the literal is preserved byte for byte. */
  method RewriteModelField(buf: Bytes, canonicalName: Bytes) returns (out: Bytes)
    ensures out == Rewrite(buf, canonicalName)
  {
    hide Locate;
    var f := LocateTopLevelModelValue(buf);
    if f.None? {
      return buf;
    }
    var valueEnd := f.value.end - 1;    // the closing quote
    var quoted: Bytes := [];
    quoted := quoted + [QUOTE];
    quoted := quoted + canonicalName;
    quoted := quoted + [QUOTE];
    out := [];
    out := out + buf[..f.value.start];
    out := out + quoted;
    out := out + buf[valueEnd + 1..];
  }

  // ---- names that need no escaping ----

  /** No quote, backslash or control character at `i`, and well-formed UTF-8. */
  predicate PlainAt(x: Bytes, i: nat)
    requires i < |x|
  {
    x[i] >= 0x20 && x[i] != QUOTE && x[i] != BACKSLASH && (x[i] >= 0x80 ==> RuneLength(x, i) > 0)
  }

  /** Section 7 of RFC 8259: a string that may stand between quotes as it is. */
  predicate Plain(x: Bytes, i: nat)
    requires i <= |x|
    decreases |x| - i
  {
    i == |x| || (PlainAt(x, i) && Plain(x, i + NextChunk(x, i).len))
  }

  lemma PlainChunk(x: Bytes, i: nat)
    requires i < |x| && PlainAt(x, i)
    ensures NextChunk(x, i).out == x[i..i + NextChunk(x, i).len]
    ensures forall k | i <= k < i + NextChunk(x, i).len :: x[k] >= 0x20 && x[k] != QUOTE && x[k] != BACKSLASH
  {
  }

  lemma {:induction false} PlainUnquotes(x: Bytes, i: nat)
    requires i <= |x| && Plain(x, i)
    ensures Unquote(x, i) == x[i..]
    decreases |x| - i
  {
    if i < |x| {
      PlainChunk(x, i);
      PlainUnquotes(x, i + NextChunk(x, i).len);
    }
  }

  lemma {:induction false} OrdinaryScans(s: Bytes, i: nat, n: nat)
    requires i + n <= |s| && forall k | i <= k < i + n :: s[k] >= 0x20 && s[k] != QUOTE && s[k] != BACKSLASH
    ensures ScanString(s, i) == ScanString(s, i + n)
    decreases n
  {
    if n > 0 {
      OrdinaryScans(s, i + 1, n - 1);
    }
  }

  lemma {:induction false} PlainScans(s: Bytes, o: nat, x: Bytes, i: nat)
    requires o + |x| < |s| && s[o..o + |x|] == x && s[o + |x|] == QUOTE && i <= |x| && Plain(x, i)
    ensures ScanString(s, o + i) == Some(o + |x| + 1)
    decreases |x| - i
  {
    if i < |x| {
      var n := NextChunk(x, i).len;
      PlainChunk(x, i);
      forall k | o + i <= k < o + i + n ensures s[k] == x[k - o] {
        assert s[k] == s[o..o + |x|][k - o];
      }
      OrdinaryScans(s, o + i, n);
      PlainScans(s, o, x, i + n);
    }
  }

  /** The new body, piece by piece. */
  lemma Pieces(s: Bytes, name: Bytes)
    requires Locate(s).Some?
    ensures var f, t := Locate(s).value, Rewrite(s, name);
            var v := f.start;
            && |t| == v + |name| + 2 + |s[f.end..]| && Agree(s, t, v)
            && t[..v] == s[..v] && At(t, v, QUOTE)
            && t[v + 1..v + 1 + |name|] == name && At(t, v + 1 + |name|, QUOTE)
            && t[v + |name| + 2..] == s[f.end..]
  {
    hide Locate, Literal;
    var f := Locate(s).value;
    var v, t, tail := f.start, Rewrite(s, name), s[f.end..];
    assert t == s[..v] + Quoted(name) + tail;
    assert t == (s[..v] + [QUOTE]) + name + ([QUOTE] + tail);
    assert t == (s[..v] + [QUOTE] + name + [QUOTE]) + tail;
  }

  lemma LiteralIs(t: Bytes, v: nat, e: nat, x: Bytes)
    requires At(t, v, QUOTE) && v + 1 < e <= |t| && ScanString(t, v + 1) == Some(e) && t[v + 1..e - 1] == x
    ensures Literal(t, v) == Some(Found(v, e, Unquote(x, 0)))
  {
    hide ScanString, Unquote;
  }

  /** A plain name is found again, where the old literal was. */
  lemma PlainIsFound(s: Bytes, name: Bytes)
    requires Locate(s).Some? && Plain(name, 0)
    ensures var v := Locate(s).value.start;
            Locate(Rewrite(s, name)) == Some(Found(v, v + |name| + 2, name))
  {
    hide Plain, ScanString, Unquote, Locate, Rewrite, Literal;
    var v := Locate(s).value.start;
    var t := Rewrite(s, name);
    Pieces(s, name);
    LocateStable(s, t, v);
    PlainScans(t, v + 1, name, 0);
    PlainUnquotes(name, 0);
    LiteralIs(t, v, v + |name| + 2, name);
    assert name[0..] == name;
  }

  // ---- names that do need escaping are not read back ----

  /** `x` is the content of a string literal from `i` on. */
  predicate ScansToEnd(x: Bytes, i: nat) {
    ScanString(x + [QUOTE], i) == Some(|x| + 1)
  }

  lemma EscapeIsNotLast(x: Bytes, i: nat)
    requires i < |x| && ScansToEnd(x, i) && x[i] == BACKSLASH
    ensures i + 1 < |x|
  {
    var y := x + [QUOTE];
    assert ScanString(y, |y|).None?;
  }

  lemma ContentScans(x: Bytes, i: nat)
    requires i < |x| && ScansToEnd(x, i)
    ensures x[i] >= 0x20 && x[i] != QUOTE
    ensures ScansToEnd(x, i + NextChunk(x, i).len)
    ensures x[i] == BACKSLASH ==>
              || (i + 1 < |x| && SimpleEscape(x[i + 1]) && NextChunk(x, i) == Chunk(2, [SimpleValue(x[i + 1])]))
              || (At(x, i + 1, LOWER_U) && FourHex(x, i + 2) && NextChunk(x, i) == UnicodeChunk(x, i))
  {
    var y := x + [QUOTE];
    if x[i] == BACKSLASH {
      EscapeIsNotLast(x, i);
      if !SimpleEscape(x[i + 1]) {
        EscapeScans(x, i);
      }
    } else {
      var n := NextChunk(x, i).len;
      OrdinaryScans(y, i, n);
    }
  }

  lemma EscapeScans(x: Bytes, i: nat)
    requires i < |x| && ScansToEnd(x, i) && x[i] == BACKSLASH && !SimpleEscape((x + [QUOTE])[i + 1])
    ensures At(x, i + 1, LOWER_U) && FourHex(x, i + 2)
    ensures ScansToEnd(x, i + UnicodeChunk(x, i).len)
  {
    var y := x + [QUOTE];
    assert At(y, i + 1, LOWER_U) && FourHex(y, i + 2);
    assert y[i + 2] == x[i + 2] && y[i + 3] == x[i + 3] && y[i + 4] == x[i + 4] && y[i + 5] == x[i + 5];
    assert ScanString(y, i + 6) == Some(|x| + 1);
    if UnicodeChunk(x, i).len == 12 {
      assert y[i + 6] == BACKSLASH && y[i + 7] == LOWER_U && FourHex(y, i + 8);
      assert ScanString(y, i + 12) == ScanString(y, i + 6);
    }
  }

  /** Two texts of which one is a prefix of the other. */
  ghost predicate Comparable(a: Bytes, b: Bytes) {
    forall k | 0 <= k < |a| && k < |b| :: a[k] == b[k]
  }

  /** Neither a quote nor the lead byte of the replacement character. */
  ghost predicate Clean(x: Bytes, from: nat, to: nat) {
    to <= |x| && forall k | from <= k < to :: x[k] != QUOTE && x[k] != 0xEF
  }

  /** One chunk that begins with a clean byte of output is clean itself and does not grow. */
  lemma CleanChunk(x: Bytes, i: nat)
    requires i < |x| && ScansToEnd(x, i)
    ensures var c := NextChunk(x, i);
            c.out != [] && (c.out[0] != QUOTE && c.out[0] != 0xEF ==> |c.out| <= c.len && Clean(x, i, i + c.len))
  {
    hide ScanString;
    ContentScans(x, i);
    if x[i] == BACKSLASH && !(i + 1 < |x| && SimpleEscape(x[i + 1])) {
      UnicodeIsClean(x, i);
    }
  }

  lemma EscapeIsClean(x: Bytes, i: nat)
    requires At(x, i, BACKSLASH) && At(x, i + 1, LOWER_U) && FourHex(x, i + 2)
    ensures Clean(x, i, i + 6)
  {
  }

  lemma UnicodeIsClean(x: Bytes, i: nat)
    requires At(x, i, BACKSLASH) && At(x, i + 1, LOWER_U) && FourHex(x, i + 2)
    ensures Clean(x, i, i + UnicodeChunk(x, i).len)
  {
    EscapeIsClean(x, i);
    if UnicodeChunk(x, i).len == 12 {
      EscapeIsClean(x, i + 6);
    }
    hide CodeUnit, Encode, FourHex;
  }

  /**
   Once an escape has made the output lag behind the content, output and content
   cannot agree to the end: the lag never shrinks, because only a replacement
   character grows and its lead byte would have to occur in the content earlier.
   */
  lemma {:induction false} LagNeverCloses(x: Bytes, p: nat, i: nat, produced: Bytes)
    requires p <= |produced| < i <= |x| && ScansToEnd(x, i) && Clean(x, p, i)
    ensures !Comparable(produced + Unquote(x, i) + [QUOTE], x + [QUOTE])
    decreases |x| - i
  {
    hide ScansToEnd, NextChunk;
    var out := produced + Unquote(x, i) + [QUOTE];
    var k := |produced|;
    assert (x + [QUOTE])[k] == x[k];
    if i == |x| {
      assert out[k] == QUOTE;
    } else {
      var c := NextChunk(x, i);
      CleanChunk(x, i);
      assert out[k] == c.out[0];
      if out[k] == x[k] {
        ContentScans(x, i);
        LagNeverCloses(x, p, i + c.len, produced + c.out);
        assert out == produced + c.out + Unquote(x, i + c.len) + [QUOTE];
      }
    }
  }

  lemma FirstOutput(x: Bytes, i: nat)
    requires i < |x| && ScansToEnd(x, i)
    ensures var c := NextChunk(x, i);
            c.out != [] && x[..i] + Unquote(x, i) + [QUOTE] == x[..i] + c.out + Unquote(x, i + c.len) + [QUOTE]
  {
    CleanChunk(x, i);
  }

  lemma EscapeLags(x: Bytes, i: nat)
    requires i < |x| && ScansToEnd(x, i) && x[i] == BACKSLASH && NextChunk(x, i).out != [] && NextChunk(x, i).out[0] == BACKSLASH
    ensures Clean(x, i, i + NextChunk(x, i).len) && |NextChunk(x, i).out| < NextChunk(x, i).len
  {
    hide ScanString;
    CleanChunk(x, i);
    ContentScans(x, i);
  }

  lemma EscapeCannotAgree(x: Bytes, i: nat)
    requires i < |x| && ScansToEnd(x, i) && x[i] == BACKSLASH
    ensures !Comparable(x[..i] + Unquote(x, i) + [QUOTE], x + [QUOTE])
  {
    hide ScansToEnd, NextChunk, Unquote;
    var c := NextChunk(x, i);
    var out := x[..i] + Unquote(x, i) + [QUOTE];
    FirstOutput(x, i);
    ContentScans(x, i);
    assert out[i] == c.out[0] && (x + [QUOTE])[i] == BACKSLASH;
    if out[i] == BACKSLASH {
      EscapeLags(x, i);
      LagNeverCloses(x, i, i + c.len, x[..i] + c.out);
    }
  }

  /** Ill-formed UTF-8 is replaced by bytes that would have made it well-formed. */
  lemma IllFormedCannotAgree(x: Bytes, i: nat)
    requires i < |x| && ScansToEnd(x, i) && x[i] >= 0x80 && RuneLength(x, i) == 0
    ensures !Comparable(x[..i] + Unquote(x, i) + [QUOTE], x + [QUOTE])
  {
    hide ScansToEnd, Unquote;
    var out, y := x[..i] + Unquote(x, i) + [QUOTE], x + [QUOTE];
    FirstOutput(x, i);
    assert out[i] == 0xEF && out[i + 1] == 0xBF && out[i + 2] == 0xBD;
    assert y[i] == x[i] && (i + 1 < |x| ==> y[i + 1] == x[i + 1]) && (i + 2 < |x| ==> y[i + 2] == x[i + 2]);
    if i + 1 == |x| {
      assert out[i + 1] != y[i + 1];
    } else if i + 2 == |x| {
      assert out[i + 2] != y[i + 2];
    }
  }

  /** A content that reads as itself, as far as both go, is plain. */
  lemma {:induction false} SelfReadingIsPlain(x: Bytes, i: nat)
    requires i <= |x| && ScansToEnd(x, i)
    requires Comparable(x[..i] + Unquote(x, i) + [QUOTE], x + [QUOTE])
    ensures Plain(x, i)
    decreases |x| - i
  {
    hide ScansToEnd, NextChunk, Unquote, Comparable, RuneLength;
    if i < |x| {
      ContentScans(x, i);
      if PlainAt(x, i) {
        var n := NextChunk(x, i).len;
        FirstOutput(x, i);
        PlainChunk(x, i);
        assert x[..i + n] == x[..i] + x[i..i + n];
        SelfReadingIsPlain(x, i + n);
      } else if x[i] == BACKSLASH {
        EscapeCannotAgree(x, i);
      } else {
        IllFormedCannotAgree(x, i);
      }
    }
  }

  lemma {:induction false} StringShift(t: Bytes, o: nat, i: nat, e: nat)
    requires o + i < e <= |t| && ScanString(t, o + i) == Some(e)
    ensures ScanString(t[o..e], i) == Some(e - o)
    decreases e - i
  {
    var s := t[o..e];
    assert s[i] == t[o + i];
    if t[o + i] == QUOTE {
    } else if t[o + i] != BACKSLASH {
      StringShift(t, o, i + 1, e);
    } else if SimpleEscape(t[o + i + 1]) {
      StringShift(t, o, i + 2, e);
      assert s[i + 1] == t[o + i + 1];
    } else {
      StringShift(t, o, i + 6, e);
      assert s[i + 1] == t[o + i + 1] && s[i + 2] == t[o + i + 2] && s[i + 3] == t[o + i + 3]
          && s[i + 4] == t[o + i + 4] && s[i + 5] == t[o + i + 5];
    }
  }

  /** If a literal that starts with `name` and a quote reads as `name`, then `name` is plain. */
  lemma ReadBackIsPlain(t: Bytes, o: nat, name: Bytes, e: nat)
    requires o + |name| < |t| && t[o..o + |name|] == name && t[o + |name|] == QUOTE
    requires ScanString(t, o) == Some(e) && Unquote(Content(t, o, e), 0) == name
    ensures Plain(name, 0)
  {
    hide ScanString, Unquote, Plain;
    var x := Content(t, o, e);
    StringShift(t, o, 0, e);
    assert t[o..e] == x + [QUOTE];
    assert t[o..o + |name| + 1] == name + [QUOTE];
    SameTextIsComparable(t, o, o + |name| + 1, e);
    assert x[..0] + Unquote(x, 0) + [QUOTE] == name + [QUOTE];
    SelfReadingIsPlain(x, 0);
    PlainUnquotes(x, 0);
    assert x[0..] == x;
  }

  lemma SameTextIsComparable(t: Bytes, o: nat, a: nat, b: nat)
    requires o <= a <= |t| && o <= b <= |t|
    ensures Comparable(t[o..a], t[o..b])
  {
  }

  /** The round trip holds exactly for names that need no escaping. */
  lemma RoundTripIff(s: Bytes, name: Bytes)
    requires Locate(s).Some?
    ensures Extract(Rewrite(s, name)) == name <==> Plain(name, 0)
  {
    hide Locate, ScanString, Unquote, Rewrite;
    if Plain(name, 0) {
      PlainIsFound(s, name);
    } else {
      var v := Locate(s).value.start;
      var t := Rewrite(s, name);
      Pieces(s, name);
      LocateStable(s, t, v);
      if Extract(t) == name {
        if Locate(t).Some? {
          ReadBackIsPlain(t, v + 1, name, Locate(t).value.end);
        }
      }
    }
  }

  /** Only the literal changes, and for a plain name a second rewrite changes nothing. */
  lemma RewriteTouchesOnlyTheLiteral(s: Bytes, name: Bytes)
    requires Locate(s).Some? && Plain(name, 0)
    ensures var f, t := Locate(s).value, Rewrite(s, name);
            var g := Locate(t);
            && g.Some? && g.value.start == f.start
            && t[..g.value.start] == s[..f.start] && t[g.value.end..] == s[f.end..]
            && t[g.value.start..g.value.end] == Quoted(name)
    ensures Rewrite(Rewrite(s, name), name) == Rewrite(s, name)
  {
    hide Locate, Plain;
    PlainIsFound(s, name);
    Pieces(s, name);
    var t, v := Rewrite(s, name), Locate(s).value.start;
    assert t[v..v + |name| + 2] == Quoted(name);
  }
}
