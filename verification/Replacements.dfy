/**
 What unescaping does with text that is not well-formed: an unpaired surrogate
 and a byte that begins no UTF-8 sequence each read as U+FFFD, so the extracted
 name is well-formed UTF-8 whatever the body holds.
 */
module Replacements {
  import opened ByteStrings
  import opened Json
  import opened Escapes
  import opened Spelling
  import Splice

  const REPLACED: nat := 0xFFFD

  predicate Lead(u: nat) { 0xD800 <= u <= 0xDBFF }

  predicate Trail(u: nat) { 0xDC00 <= u <= 0xDFFF }

  type Unit = u: nat | u < 0x10000

  /** The text of a sequence of UTF-16 code units, with U+FFFD for each unpaired surrogate. */
  function FromUtf16(us: seq<Unit>): (rs: seq<nat>)
    ensures forall r | r in rs :: Scalar(r)
  {
    if us == [] then []
    else if Lead(us[0]) && |us| > 1 && Trail(us[1]) then
      var lead: nat, trail: nat := us[0], us[1];
      [0x10000 + (lead - 0xD800) * 0x400 + (trail - 0xDC00)] + FromUtf16(us[2..])
    else
      var single: nat := if Lead(us[0]) || Trail(us[0]) then REPLACED else us[0];
      [single] + FromUtf16(us[1..])
  }

  /** Each unit as a `\u` escape. */
  function WriteUnits(us: seq<Unit>, upper: bool): (x: Bytes)
    ensures |x| == 6 * |us|
  {
    if us == [] then [] else HexUnit(us[0], upper) + WriteUnits(us[1..], upper)
  }

  lemma ReplacedIsEncoded()
    ensures Scalar(REPLACED) && REPLACEMENT == Encode(REPLACED)
  {
  }

  /** What follows the first escape matters only if it completes a pair. */
  lemma FirstUnit(us: seq<Unit>, upper: bool)
    requires us != []
    ensures var x := WriteUnits(us, upper);
            && At(x, 0, BACKSLASH) && At(x, 1, LOWER_U) && FourHex(x, 2) && CodeUnit(x, 2) == us[0]
            && (|us| > 1 <==> At(x, 6, BACKSLASH))
            && (|us| > 1 ==> At(x, 7, LOWER_U) && FourHex(x, 8) && CodeUnit(x, 8) == us[1])
  {
    var x := WriteUnits(us, upper);
    hide FourHex, CodeUnit, HexUnit;
    UnitLength(us[0], upper);
    assert x[0..6] == HexUnit(us[0], upper);
    UnitReads(x, 0, us[0], upper);
    if |us| > 1 {
      UnitLength(us[1], upper);
      assert WriteUnits(us[1..], upper)[..6] == HexUnit(us[1], upper);
      assert x[6..12] == HexUnit(us[1], upper);
      UnitReads(x, 6, us[1], upper);
    }
  }

  /** How many units the first character of `us` takes. */
  function Taken(us: seq<Unit>): (n: nat)
    requires us != []
    ensures 1 <= n <= |us| && n <= 2
  {
    if Lead(us[0]) && |us| > 1 && Trail(us[1]) then 2 else 1
  }

  lemma FromTaken(us: seq<Unit>)
    requires us != []
    ensures FromUtf16(us) != [] && FromUtf16(us)[0] in FromUtf16(us)
    ensures FromUtf16(us)[1..] == FromUtf16(us[Taken(us)..])
  {
  }

  lemma FirstChunk(us: seq<Unit>, upper: bool)
    requires us != []
    ensures FromUtf16(us) != [] && Scalar(FromUtf16(us)[0])
    ensures NextChunk(WriteUnits(us, upper), 0) == Chunk(6 * Taken(us), Encode(FromUtf16(us)[0]))
  {
    FirstUnit(us, upper);
    FromTaken(us);
    ReplacedIsEncoded();
    hide FourHex, CodeUnit, Encode, WriteUnits;
  }

  lemma DropUnits(us: seq<Unit>, n: nat, upper: bool)
    requires n <= |us| && n <= 2
    ensures WriteUnits(us, upper) == WriteUnits(us, upper)[..6 * n] + WriteUnits(us[n..], upper)
  {
    if n > 0 {
      assert us[1..][n - 1..] == us[n..];
      DropUnits(us[1..], n - 1, upper);
      UnitLength(us[0], upper);
    }
  }

  /** Any code units, paired or not, written as escapes read as the UTF-8 form of their text. */
  lemma {:induction false} UnitsRead(us: seq<Unit>, upper: bool)
    ensures Unquote(WriteUnits(us, upper), 0) == EncodeAll(FromUtf16(us))
    decreases |us|
  {
    if us != [] {
      var x, n := WriteUnits(us, upper), Taken(us);
      FirstChunk(us, upper);
      FromTaken(us);
      DropUnits(us, n, upper);
      UnitsRead(us[n..], upper);
      hide NextChunk, WriteUnits, FromUtf16, Encode, Scalar, Taken;
      UnquoteShift(x[..6 * n], WriteUnits(us[n..], upper), 0);
    }
  }

  /** A scalar value's UTF-8 form stands at `i`. */
  predicate Stands(x: Bytes, i: nat, r: nat) {
    Scalar(r) && i + |Encode(r)| <= |x| && x[i..i + |Encode(r)|] == Encode(r)
  }

  lemma StandingReads(x: Bytes, i: nat, r: nat)
    requires i < |x| && x[i] != BACKSLASH && Stands(x, i, r)
    ensures NextChunk(x, i) == Chunk(|Encode(r)|, Encode(r))
  {
    var c := Encode(r);
    EncodeDecodes(r);
    var tail := x[i + |c|..];
    assert x == x[..i] + (c + tail);
    assert x[i] == c[0];
    ChunkShift(x[..i], c + tail, 0);
    if r >= 0x80 {
      RuneLengthExtends(c, tail);
      assert (c + tail)[..|c|] == c;
    }
    hide RuneLength, Encode;
    assert (c + tail)[0] == c[0];
  }

  /** Outside escapes, the next character if one stands there, and otherwise one byte read as U+FFFD. */
  lemma RawBytesRead(x: Bytes, i: nat)
    requires i < |x| && x[i] != BACKSLASH
    ensures forall r | Stands(x, i, r) :: NextChunk(x, i) == Chunk(|Encode(r)|, Encode(r))
    ensures (forall r :: !Stands(x, i, r)) ==> NextChunk(x, i) == Chunk(1, Encode(REPLACED))
  {
    forall r | Stands(x, i, r) ensures NextChunk(x, i) == Chunk(|Encode(r)|, Encode(r)) {
      StandingReads(x, i, r);
    }
    if x[i] < 0x80 || RuneLength(x, i) > 0 {
      var r := SomethingStands(x, i);
    } else {
      ReplacedIsEncoded();
    }
  }

  lemma SomethingStands(x: Bytes, i: nat) returns (r: nat)
    requires i < |x| && (x[i] < 0x80 || RuneLength(x, i) > 0)
    ensures Stands(x, i, r)
  {
    if x[i] < 0x80 {
      r := x[i];
      assert Encode(r) == [x[i]] == x[i..i + 1];
    } else {
      var c := x[i..i + RuneLength(x, i)];
      assert RuneLength(c, 0) == |c|;
      WellFormedIsEncoding(c);
      r := CodePoint(c);
    }
  }

  /** A chunk produces one character, or nothing where the text is no literal's content. */
  lemma ChunkIsText(x: Bytes, i: nat) returns (rs: seq<nat>)
    requires i < |x|
    ensures |rs| <= 1 && (forall r | r in rs :: Scalar(r)) && NextChunk(x, i).out == EncodeAll(rs)
  {
    var c := NextChunk(x, i);
    ReplacedIsEncoded();
    if c.out == [] {
      rs := [];
    } else {
      var r := OneCharacter(x, i);
      rs := [r];
      assert EncodeAll(rs) == Encode(r) by { assert rs[1..] == []; }
    }
  }

  lemma OneCharacter(x: Bytes, i: nat) returns (r: nat)
    requires i < |x| && NextChunk(x, i).out != []
    ensures Scalar(r) && NextChunk(x, i).out == Encode(r)
  {
    ReplacedIsEncoded();
    if x[i] != BACKSLASH {
      RawBytesRead(x, i);
      if s: nat :| Stands(x, i, s) {
        r := s;
      } else {
        r := REPLACED;
      }
    } else if i + 1 < |x| && SimpleEscape(x[i + 1]) {
      r := SimpleValue(x[i + 1]);
    } else {
      r := UnicodeCharacter(x, i);
    }
  }

  lemma UnicodeCharacter(x: Bytes, i: nat) returns (r: nat)
    requires FourHex(x, i + 2)
    ensures Scalar(r) && UnicodeChunk(x, i).out == Encode(r)
  {
    ReplacedIsEncoded();
    hide Encode, CodeUnit, FourHex;
    var u := CodeUnit(x, i + 2);
    if !Lead(u) && !Trail(u) {
      r := u;
    } else if UnicodeChunk(x, i).len == 6 {
      r := REPLACED;
    } else {
      r := (u - 0xD800) * 0x400 + (CodeUnit(x, i + 8) - 0xDC00) + 0x10000;
    }
  }

  /** Whatever the bytes, what they read as is well-formed UTF-8. */
  lemma {:induction false} UnquoteIsUtf8(x: Bytes, i: nat) returns (rs: seq<nat>)
    requires i <= |x|
    ensures (forall r | r in rs :: Scalar(r)) && Unquote(x, i) == EncodeAll(rs)
    decreases |x| - i
  {
    hide NextChunk, Encode;
    if i == |x| {
      rs := [];
    } else {
      var head := ChunkIsText(x, i);
      var tail := UnquoteIsUtf8(x, i + NextChunk(x, i).len);
      rs := head + tail;
      if head == [] {
        assert rs == tail;
      } else {
        assert rs[1..] == tail && head[1..] == [] && Scalar(head[0]);
        assert EncodeAll(head) == Encode(head[0]) + [];
      }
    }
  }

  /** The name extracted from any body is well-formed UTF-8. */
  lemma NameIsUtf8(body: Bytes) returns (rs: seq<nat>)
    ensures (forall r | r in rs :: Scalar(r)) && Splice.Extract(body) == EncodeAll(rs)
  {
    hide Unquote, Locate;
    match Locate(body)
    case None =>
      rs := [];
    case Some(f) =>
      rs := UnquoteIsUtf8(Content(body, f.start + 1, f.end), 0);
  }
}
