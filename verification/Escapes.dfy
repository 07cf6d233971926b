/**
 Escape sequences stand for what they should: writing any Unicode scalar value
 as `\uXXXX`, with a surrogate pair beyond the basic plane, and unescaping it
 gives its UTF-8 bytes, which decode to that value again.
 */
module Escapes {
  import opened ByteStrings
  import opened Json

  predicate Scalar(r: nat) {
    r < 0x110000 && !(0xD800 <= r < 0xE000)
  }

  /** The code point of one UTF-8 sequence, by its length. */
  function CodePoint(s: Bytes): int
    requires 1 <= |s| <= 4
  {
    if |s| == 1 then s[0]
    else if |s| == 2 then (s[0] as int - 0xC0) * 0x40 + (s[1] as int - 0x80)
    else if |s| == 3 then ((s[0] as int - 0xE0) * 0x40 + (s[1] as int - 0x80)) * 0x40 + (s[2] as int - 0x80)
    else (((s[0] as int - 0xF0) * 0x40 + (s[1] as int - 0x80)) * 0x40 + (s[2] as int - 0x80)) * 0x40 + (s[3] as int - 0x80)
  }

  /** Dividing step by step is dividing at once. */
  lemma Digits(r: nat, b: nat)
    requires b == 0x40 || b == 0x10
    ensures r == r / b * b + r % b && r / (b * b) == r / b / b && r / (b * b * b) == r / b / b / b
  {
    DivDiv(r, b, b);
    DivDiv(r, b * b, b);
  }

  lemma DivDiv(r: nat, a: nat, b: nat)
    requires (a == 0x40 && b == 0x40) || (a == 0x1000 && b == 0x40) || (a == 0x10 && b == 0x10) || (a == 0x100 && b == 0x10)
    ensures r / (a * b) == r / a / b
  {
    var q, m := r / a, r % a;
    assert r == q * a + m;
    assert q == q / b * b + q % b;
    if a == 0x40 {
      assert r == q / 0x40 * 0x1000 + (q % 0x40 * 0x40 + m);
    } else if a == 0x1000 {
      assert r == q / 0x40 * 0x40000 + (q % 0x40 * 0x1000 + m);
    } else if a == 0x10 {
      assert r == q / 0x10 * 0x100 + (q % 0x10 * 0x10 + m);
    } else {
      assert r == q / 0x10 * 0x1000 + (q % 0x10 * 0x100 + m);
    }
  }

  lemma TwoBytes(a: nat, b: nat)
    requires 2 <= a < 0x20 && b < 0x40
    ensures var s: Bytes := [0xC0 + a, 0x80 + b]; RuneLength(s, 0) == 2 && CodePoint(s) == a * 0x40 + b
  {
  }

  lemma ThreeBytes(a: nat, b: nat, c: nat)
    requires a < 0x10 && b < 0x40 && c < 0x40 && (a == 0 ==> b >= 0x20) && (a == 0xD ==> b < 0x20)
    ensures var s: Bytes := [0xE0 + a, 0x80 + b, 0x80 + c];
            RuneLength(s, 0) == 3 && CodePoint(s) == (a * 0x40 + b) * 0x40 + c
  {
  }

  lemma FourBytes(a: nat, b: nat, c: nat, d: nat)
    requires a < 5 && b < 0x40 && c < 0x40 && d < 0x40 && (a == 0 ==> b >= 0x10) && (a == 4 ==> b < 0x10)
    ensures var s: Bytes := [0xF0 + a, 0x80 + b, 0x80 + c, 0x80 + d];
            RuneLength(s, 0) == 4 && CodePoint(s) == ((a * 0x40 + b) * 0x40 + c) * 0x40 + d
  {
  }

  /** The base-64 digits of a number. */
  lemma Sextets(r: nat)
    ensures r / 0x40 == r / 0x1000 * 0x40 + r / 0x40 % 0x40
    ensures r / 0x1000 == r / 0x40000 * 0x40 + r / 0x1000 % 0x40
    ensures r == (r / 0x1000 * 0x40 + r / 0x40 % 0x40) * 0x40 + r % 0x40
  {
    Digits(r, 0x40);
    Digits(r / 0x40, 0x40);
    Digits(r / 0x1000, 0x40);
  }

  /** Encoding gives well-formed UTF-8 that decodes to the same value. */
  lemma EncodeDecodes(r: nat)
    requires Scalar(r)
    ensures CodePoint(Encode(r)) == r
    ensures if r < 0x80 then Encode(r) == [r] else RuneLength(Encode(r), 0) == |Encode(r)|
  {
    hide CodePoint, RuneLength;
    if r < 0x80 {
      OneByte(r);
    } else {
      Sextets(r);
      if r < 0x800 {
        TwoBytes(r / 0x40, r % 0x40);
      } else if r < 0x10000 {
        ThreeBytes(r / 0x1000, r / 0x40 % 0x40, r % 0x40);
      } else {
        FourBytes(r / 0x40000, r / 0x1000 % 0x40, r / 0x40 % 0x40, r % 0x40);
      }
    }
  }

  /** The base-64 digits of what two, three or four bytes stand for. */
  lemma DigitsOf(a: nat, b: nat, c: nat, d: nat)
    requires a < 0x20 && b < 0x40 && c < 0x40 && d < 0x40
    ensures var r := a * 0x40 + b; r / 0x40 == a && r % 0x40 == b
    ensures var r := (a * 0x40 + b) * 0x40 + c; r / 0x1000 == a && r / 0x40 % 0x40 == b && r % 0x40 == c
    ensures var r := ((a * 0x40 + b) * 0x40 + c) * 0x40 + d;
            r / 0x40000 == a && r / 0x1000 % 0x40 == b && r / 0x40 % 0x40 == c && r % 0x40 == d
  {
    var r := ((a * 0x40 + b) * 0x40 + c) * 0x40 + d;
    Digits(r, 0x40);
    assert r / 0x40 == (a * 0x40 + b) * 0x40 + c;
    Digits(r / 0x40, 0x40);
  }

  lemma TwoByteShape(s: Bytes)
    requires |s| == 2 && RuneLength(s, 0) == 2
    ensures 0xC2 <= s[0] <= 0xDF && 0x80 <= s[1] <= 0xBF
  {
  }

  lemma ThreeByteShape(s: Bytes)
    requires |s| == 3 && RuneLength(s, 0) == 3
    ensures 0xE0 <= s[0] <= 0xEF && 0x80 <= s[1] <= 0xBF && 0x80 <= s[2] <= 0xBF
    ensures (s[0] == 0xE0 ==> s[1] >= 0xA0) && (s[0] == 0xED ==> s[1] <= 0x9F)
  {
  }

  lemma FourByteShape(s: Bytes)
    requires |s| == 4 && RuneLength(s, 0) == 4
    ensures 0xF0 <= s[0] <= 0xF4 && 0x80 <= s[1] <= 0xBF && 0x80 <= s[2] <= 0xBF && 0x80 <= s[3] <= 0xBF
    ensures (s[0] == 0xF0 ==> s[1] >= 0x90) && (s[0] == 0xF4 ==> s[1] <= 0x8F)
  {
  }

  /** The other way: every sequence taken for well-formed is the encoding of one scalar value beyond ASCII. */
  lemma WellFormedIsEncoding(s: Bytes)
    requires s != [] && RuneLength(s, 0) == |s|
    ensures Scalar(CodePoint(s)) && CodePoint(s) >= 0x80 && Encode(CodePoint(s)) == s
  {
    assert 2 <= |s| <= 4;
    hide RuneLength;
    if |s| == 2 {
      TwoByteShape(s);
      DigitsOf(s[0] - 0xC0, s[1] - 0x80, 0, 0);
    } else if |s| == 3 {
      ThreeByteShape(s);
      DigitsOf(s[0] - 0xE0, s[1] - 0x80, s[2] - 0x80, 0);
    } else {
      FourByteShape(s);
      DigitsOf(s[0] - 0xF0, s[1] - 0x80, s[2] - 0x80, s[3] - 0x80);
    }
  }

  lemma OneByte(b: Byte)
    ensures CodePoint([b]) == b
  {
  }

  /** A hexadecimal digit, in either case. */
  function HexDigit(v: nat, upper: bool): (b: Byte)
    requires v < 16
    ensures IsHex(b) && HexValue(b) == v
  {
    if v < 10 then ZERO + v else if upper then 0x41 + (v - 10) else 0x61 + (v - 10)
  }

  function HexUnit(u: nat, upper: bool): Bytes
    requires u < 0x10000
  {
    [BACKSLASH, LOWER_U, HexDigit(u / 0x1000, upper), HexDigit(u / 0x100 % 0x10, upper),
     HexDigit(u / 0x10 % 0x10, upper), HexDigit(u % 0x10, upper)]
  }

  /** The hexadecimal digits of a code unit. */
  lemma Nibbles(u: nat)
    ensures u == ((u / 0x1000 * 0x10 + u / 0x100 % 0x10) * 0x10 + u / 0x10 % 0x10) * 0x10 + u % 0x10
  {
    Digits(u, 0x10);
    Digits(u / 0x10, 0x10);
    Digits(u / 0x100, 0x10);
  }

  lemma UnitReads(x: Bytes, i: nat, u: nat, upper: bool)
    requires u < 0x10000 && i + 6 <= |x| && x[i..i + 6] == HexUnit(u, upper)
    ensures x[i] == BACKSLASH && x[i + 1] == LOWER_U && FourHex(x, i + 2) && CodeUnit(x, i + 2) == u
  {
    var h := x[i..i + 6];
    assert x[i] == h[0] && x[i + 1] == h[1] && x[i + 2] == h[2] && x[i + 3] == h[3] && x[i + 4] == h[4] && x[i + 5] == h[5];
    Nibbles(u);
    hide HexDigit;
  }

  /** The escape of one scalar value. */
  function Escape(r: nat, upper: bool): Bytes
    requires Scalar(r)
  {
    if r < 0x10000 then HexUnit(r, upper)
    else HexUnit(0xD800 + (r - 0x10000) / 0x400, upper) + HexUnit(0xDC00 + (r - 0x10000) % 0x400, upper)
  }

  /** Inside any string content, the escape of a scalar value is read as a whole and yields its UTF-8 bytes. */
  lemma EscapeReads(r: nat, upper: bool, tail: Bytes)
    requires Scalar(r)
    ensures var x := Escape(r, upper) + tail;
            NextChunk(x, 0) == Chunk(|Escape(r, upper)|, Encode(r))
  {
    hide Encode, CodeUnit, FourHex, HexUnit;
    var x := Escape(r, upper) + tail;
    if r < 0x10000 {
      assert x[0..6] == HexUnit(r, upper) by { UnitLength(r, upper); }
      UnitReads(x, 0, r, upper);
    } else {
      var hi, lo := 0xD800 + (r - 0x10000) / 0x400, 0xDC00 + (r - 0x10000) % 0x400;
      UnitLength(hi, upper);
      UnitLength(lo, upper);
      assert x[0..6] == HexUnit(hi, upper) && x[6..12] == HexUnit(lo, upper);
      UnitReads(x, 0, hi, upper);
      UnitReads(x, 6, lo, upper);
      assert (hi - 0xD800) * 0x400 + (lo - 0xDC00) + 0x10000 == r;
    }
  }

  lemma UnitLength(u: nat, upper: bool)
    requires u < 0x10000
    ensures |HexUnit(u, upper)| == 6
  {
  }

  function EscapeAll(rs: seq<nat>, upper: bool): Bytes
    requires forall r | r in rs :: Scalar(r)
  {
    if rs == [] then [] else Escape(rs[0], upper) + EscapeAll(rs[1..], upper)
  }

  function EncodeAll(rs: seq<nat>): Bytes
    requires forall r | r in rs :: Scalar(r)
  {
    if rs == [] then []
    else
      assert Scalar(rs[0]);
      Encode(rs[0]) + EncodeAll(rs[1..])
  }

  lemma {:induction false} UnquoteShift(x: Bytes, y: Bytes, i: nat)
    requires i <= |y|
    ensures Unquote(x + y, |x| + i) == Unquote(y, i)
    decreases |y| - i
  {
    hide NextChunk;
    if i < |y| {
      ChunkShift(x, y, i);
      UnquoteShift(x, y, i + NextChunk(y, i).len);
    }
  }

  /** A chunk depends only on the bytes from its start on. */
  lemma ChunkShift(x: Bytes, y: Bytes, i: nat)
    requires i < |y|
    ensures NextChunk(x + y, |x| + i) == NextChunk(y, i)
  {
    hide Encode, HexValue;
    var z := x + y;
    assert forall k | 0 <= k < |y| :: z[|x| + k] == y[k];
    assert |x| + i < |z|;
    assert RuneLength(z, |x| + i) == RuneLength(y, i);
    var n := RuneLength(y, i);
    assert z[|x| + i..|x| + i + n] == y[i..i + n];
  }

  /** Unescaping a text written entirely in escapes gives its UTF-8 form. */
  lemma {:induction false} EscapedTextReads(rs: seq<nat>, upper: bool)
    requires forall r | r in rs :: Scalar(r)
    ensures Unquote(EscapeAll(rs, upper), 0) == EncodeAll(rs)
    decreases |rs|
  {
    hide NextChunk, Escape, Encode, Scalar;
    if rs != [] {
      var head, tail := Escape(rs[0], upper), EscapeAll(rs[1..], upper);
      EscapeReads(rs[0], upper, tail);
      UnquoteShift(head, tail, 0);
      EscapedTextReads(rs[1..], upper);
    }
  }
}
