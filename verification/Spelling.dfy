/**
 Reading JSON strings as section 7 of RFC 8259 writes them: every character may
 stand raw where that is allowed, as its two-character escape where it has one, or
 as `\u`, each as the writer likes.
 */
module Spelling {
  import opened ByteStrings
  import opened Lifecycle
  import opened Json
  import opened Escapes
  import opened Splice

  // ---- the writer ----

  datatype Style = Raw | Short | Unicode(upper: bool)

  /** The letter of a character's two-character escape. */
  function ShortLetter(r: nat): Option<char> {
    match r
    case 0x22 => Some('"')
    case 0x5C => Some('\\')
    case 0x2F => Some('/')
    case 0x08 => Some('b')
    case 0x0C => Some('f')
    case 0x0A => Some('n')
    case 0x0D => Some('r')
    case 0x09 => Some('t')
    case _ => None
  }

  /** Whether character `r` may be written in that style: control characters, quote and backslash must be escaped. */
  predicate Spellable(r: nat, style: Style) {
    && Scalar(r)
    && (style.Raw? ==> r >= 0x20 && r != 0x22 && r != 0x5C)
    && (style.Short? ==> ShortLetter(r).Some?)
  }

  function Spell(r: nat, style: Style): Bytes
    requires Spellable(r, style)
  {
    match style
    case Raw => Encode(r)
    case Short => Ascii(['\\', ShortLetter(r).value])
    case Unicode(upper) => Escape(r, upper)
  }

  ghost predicate AllSpellable(text: seq<nat>, styles: seq<Style>) {
    && |text| == |styles| && (forall r | r in text :: Scalar(r))
    && (forall n | 0 <= n < |text| :: Spellable(text[n], styles[n]))
  }

  function SpellAll(text: seq<nat>, styles: seq<Style>): Bytes
    requires AllSpellable(text, styles)
  {
    if text == [] then [] else Spell(text[0], styles[0]) + SpellAll(text[1..], styles[1..])
  }

  // ---- one character ----

  lemma RuneLengthExtends(s: Bytes, t: Bytes)
    requires s != [] && RuneLength(s, 0) > 0
    ensures RuneLength(s + t, 0) == RuneLength(s, 0)
  {
    var u := s + t;
    assert forall k | 0 <= k < |s| :: u[k] == s[k];
  }

  lemma RawReads(r: nat, tail: Bytes)
    requires Spellable(r, Raw)
    ensures NextChunk(Encode(r) + tail, 0) == Chunk(|Encode(r)|, Encode(r))
    ensures forall b | b in Encode(r) :: b >= 0x20 && b != QUOTE && b != BACKSLASH
  {
    EncodeDecodes(r);
    var c := Encode(r);
    if r >= 0x80 {
      RuneLengthExtends(c, tail);
      assert (c + tail)[0..|c|] == c;
    }
    hide RuneLength;
    assert (c + tail)[0] == c[0];
  }

  lemma ShortReads(r: nat, tail: Bytes)
    requires Spellable(r, Short)
    ensures NextChunk(Spell(r, Short) + tail, 0) == Chunk(2, Encode(r))
    ensures var c := Spell(r, Short); |c| == 2 && c[0] == BACKSLASH && SimpleEscape(c[1])
  {
    var c := Spell(r, Short);
    assert (c + tail)[0] == c[0] && (c + tail)[1] == c[1];
  }

  /** Read as a whole, giving its UTF-8 bytes. */
  lemma SpelledReads(r: nat, style: Style, tail: Bytes)
    requires Spellable(r, style)
    ensures NextChunk(Spell(r, style) + tail, 0) == Chunk(|Spell(r, style)|, Encode(r))
  {
    hide NextChunk, Encode, Escape;
    match style
    case Raw => RawReads(r, tail);
    case Short => ShortReads(r, tail);
    case Unicode(upper) => EscapeReads(r, upper, tail);
  }

  /** A hexadecimal escape at `i` is scanned over. */
  lemma UnitScans(s: Bytes, i: nat, u: nat, upper: bool)
    requires u < 0x10000 && i + 6 <= |s| && s[i..i + 6] == HexUnit(u, upper)
    ensures ScanString(s, i) == ScanString(s, i + 6)
  {
    UnitReads(s, i, u, upper);
  }

  /** No character is taken for the end of the string. */
  lemma SpelledScans(s: Bytes, i: nat, r: nat, style: Style)
    requires Spellable(r, style)
    requires var c := Spell(r, style); i + |c| <= |s| && s[i..i + |c|] == c
    ensures ScanString(s, i) == ScanString(s, i + |Spell(r, style)|)
  {
    hide ScanString, Encode, HexUnit;
    var c := Spell(r, style);
    match style
    case Raw =>
      RawReads(r, []);
      forall k | i <= k < i + |c| ensures s[k] >= 0x20 && s[k] != QUOTE && s[k] != BACKSLASH {
        assert s[k] == s[i..i + |c|][k - i] && c[k - i] in c;
      }
      OrdinaryScans(s, i, |c|);
    case Short =>
      ShortReads(r, []);
      assert s[i] == s[i..i + |c|][0] && s[i + 1] == s[i..i + |c|][1];
      ShortScans(s, i);
    case Unicode(upper) =>
      if r < 0x10000 {
        UnitLength(r, upper);
        UnitScans(s, i, r, upper);
      } else {
        var hi, lo := 0xD800 + (r - 0x10000) / 0x400, 0xDC00 + (r - 0x10000) % 0x400;
        UnitLength(hi, upper);
        UnitLength(lo, upper);
        assert s[i..i + 6] == c[0..6] == HexUnit(hi, upper) && s[i + 6..i + 12] == c[6..12] == HexUnit(lo, upper);
        UnitScans(s, i, hi, upper);
        UnitScans(s, i + 6, lo, upper);
      }
  }

  lemma ShortScans(s: Bytes, i: nat)
    requires i + 2 <= |s| && s[i] == BACKSLASH && SimpleEscape(s[i + 1])
    ensures ScanString(s, i) == ScanString(s, i + 2)
  {
  }

  // ---- whole texts ----

  /** However it is spelled, a text is read as its UTF-8 form. */
  lemma {:induction false} SpelledTextReads(text: seq<nat>, styles: seq<Style>)
    requires AllSpellable(text, styles)
    ensures Unquote(SpellAll(text, styles), 0) == EncodeAll(text)
    decreases |text|
  {
    hide NextChunk, Encode, Spell;
    if text != [] {
      var head, tail := Spell(text[0], styles[0]), SpellAll(text[1..], styles[1..]);
      SpelledReads(text[0], styles[0], tail);
      SpellIsSome(text[0], styles[0]);
      UnquoteShift(head, tail, 0);
      SpelledTextReads(text[1..], styles[1..]);
    }
  }

  lemma SpellIsSome(r: nat, style: Style)
    requires Spellable(r, style)
    ensures Spell(r, style) != []
  {
  }

  /** And it ends at the quote that was written after it. */
  lemma {:induction false} SpelledTextScans(s: Bytes, i: nat, text: seq<nat>, styles: seq<Style>)
    requires AllSpellable(text, styles)
    requires var c := SpellAll(text, styles); i + |c| < |s| && s[i..i + |c|] == c && s[i + |c|] == QUOTE
    ensures ScanString(s, i) == Some(i + |SpellAll(text, styles)| + 1)
    decreases |text|
  {
    hide Spell;
    if text != [] {
      var head, tail := Spell(text[0], styles[0]), SpellAll(text[1..], styles[1..]);
      var c := head + tail;
      assert s[i..i + |head|] == c[..|head|] == head by {
        assert s[i..i + |c|][..|head|] == s[i..i + |head|];
      }
      assert s[i + |head|..i + |head| + |tail|] == tail by {
        assert s[i..i + |c|][|head|..] == s[i + |head|..i + |c|];
      }
      SpelledScans(s, i, text[0], styles[0]);
      SpelledTextScans(s, i + |head|, text[1..], styles[1..]);
    }
  }

  /** The characters of "model". */
  const MODEL_TEXT: seq<nat> := [0x6D, 0x6F, 0x64, 0x65, 0x6C]

  lemma ModelText()
    ensures (forall r | r in MODEL_TEXT :: Scalar(r)) && EncodeAll(MODEL_TEXT) == Ascii("model") == MODEL
  {
    assert MODEL_TEXT[1..] == [0x6F, 0x64, 0x65, 0x6C] && MODEL_TEXT[1..][1..] == [0x64, 0x65, 0x6C]
        && MODEL_TEXT[1..][1..][1..] == [0x65, 0x6C] && MODEL_TEXT[1..][1..][1..][1..] == [0x6C];
    assert EncodeAll([0x6C]) == [0x6C];
    assert EncodeAll([0x65, 0x6C]) == [0x65, 0x6C];
    assert EncodeAll([0x64, 0x65, 0x6C]) == [0x64, 0x65, 0x6C];
    assert EncodeAll([0x6F, 0x64, 0x65, 0x6C]) == [0x6F, 0x64, 0x65, 0x6C];
  }

  lemma HexSpelled()
    ensures forall b: Byte :: IsHex(b) <==> b in Ascii("0123456789abcdefABCDEF")
  {
    assert Ascii("0123456789abcdefABCDEF") ==
      [0x30, 0x31, 0x32, 0x33, 0x34, 0x35, 0x36, 0x37, 0x38, 0x39,
       0x61, 0x62, 0x63, 0x64, 0x65, 0x66, 0x41, 0x42, 0x43, 0x44, 0x45, 0x46];
  }

  lemma ClassesSpelled()
    ensures forall b: Byte :: IsSpace(b) <==> b in Ascii(" \t\n\r")
    ensures forall b: Byte :: IsDigit(b) <==> b in Ascii("0123456789")
    ensures forall b: Byte :: SimpleEscape(b) <==> b in Ascii("\"\\/bfnrt")
  {
    assert Ascii(" \t\n\r") == [0x20, 0x09, 0x0A, 0x0D];
    assert Ascii("0123456789") == [0x30, 0x31, 0x32, 0x33, 0x34, 0x35, 0x36, 0x37, 0x38, 0x39];
    assert Ascii("\"\\/bfnrt") == [0x22, 0x5C, 0x2F, 0x62, 0x66, 0x6E, 0x72, 0x74];
  }

  /** The words and marks of the grammar, sections 2 to 7. */
  lemma GrammarSpelled()
    ensures TRUE_TEXT == Ascii("true") && FALSE_TEXT == Ascii("false") && NULL_TEXT == Ascii("null")
    ensures [OPEN_BRACE, CLOSE_BRACE, OPEN_BRACKET, CLOSE_BRACKET, COMMA, COLON] == Ascii("{}[],:")
    ensures [QUOTE, BACKSLASH, SLASH, MINUS, PLUS, DOT, ZERO, LOWER_U] == Ascii("\"\\/-+.0u")
    ensures forall b: Byte :: IsSpace(b) <==> b in Ascii(" \t\n\r")
    ensures forall b: Byte :: IsDigit(b) <==> b in Ascii("0123456789")
    ensures forall b: Byte :: IsHex(b) <==> b in Ascii("0123456789abcdefABCDEF")
    ensures forall b: Byte :: SimpleEscape(b) <==> b in Ascii("\"\\/bfnrt")
  {
    ClassesSpelled();
    HexSpelled();
    hide IsSpace, IsDigit, IsHex, SimpleEscape;
  }

  /** An object whose first member is "model", key and value spelled in any way, with anything after it. */
  function Body(key: seq<Style>, text: seq<nat>, styles: seq<Style>, rest: Bytes): Bytes
    requires AllSpellable(MODEL_TEXT, key) && AllSpellable(text, styles)
  {
    Ascii("{\"") + SpellAll(MODEL_TEXT, key) + Ascii("\":\"") + SpellAll(text, styles) + Ascii("\"") + rest
  }

  lemma Pieces(k: Bytes, v: Bytes, rest: Bytes)
    ensures var s := Ascii("{\"") + k + Ascii("\":\"") + v + Ascii("\"") + rest;
            && |s| == 6 + |k| + |v| + |rest|
            && s[0] == OPEN_BRACE && s[1] == QUOTE && s[2..2 + |k|] == k
            && s[2 + |k|] == QUOTE && s[3 + |k|] == COLON && s[4 + |k|] == QUOTE
            && s[5 + |k|..5 + |k| + |v|] == v && s[5 + |k| + |v|] == QUOTE
  {
  }

  /** An object that starts with a "model" member whose value is a string. */
  lemma FirstMemberExtracts(s: Bytes, c: nat, e: nat)
    requires |s| > 1 && s[0] == OPEN_BRACE && s[1] == QUOTE
    requires ScanString(s, 2) == Some(c) && Unquote(Content(s, 2, c), 0) == MODEL
    requires At(s, c, COLON) && At(s, c + 1, QUOTE) && ScanString(s, c + 2) == Some(e)
    ensures Extract(s) == Unquote(Content(s, c + 2, e), 0)
  {
    hide ScanString, Unquote, NextMember, Content;
    assert SkipSpace(s, 0) == 0 && SkipSpace(s, 1) == 1 && SkipSpace(s, c) == c && SkipSpace(s, c + 1) == c + 1;
    assert ScanKey(s, 1) == Some(c + 1);
  }

  /** What is extracted from it is the text. */
  lemma SpelledNameIsExtracted(key: seq<Style>, text: seq<nat>, styles: seq<Style>, rest: Bytes)
    requires AllSpellable(MODEL_TEXT, key) && AllSpellable(text, styles)
    ensures Extract(Body(key, text, styles, rest)) == EncodeAll(text)
  {
    hide ScanString, Unquote, SpellAll, EncodeAll, AllSpellable, Extract, Scalar;
    var k, v := SpellAll(MODEL_TEXT, key), SpellAll(text, styles);
    var s := Body(key, text, styles, rest);
    hide Body;
    Splits(key, text, styles, rest);
    SpelledTextScans(s, 2, MODEL_TEXT, key);
    SpelledTextScans(s, 5 + |k|, text, styles);
    SpelledTextReads(MODEL_TEXT, key);
    SpelledTextReads(text, styles);
    ModelText();
    var c: nat := 3 + |k|;
    assert Content(s, 2, c) == k;
    assert Content(s, c + 2, c + 3 + |v|) == v;
    FirstMemberExtracts(s, c, c + 3 + |v|);
  }

  lemma Splits(key: seq<Style>, text: seq<nat>, styles: seq<Style>, rest: Bytes)
    requires AllSpellable(MODEL_TEXT, key) && AllSpellable(text, styles)
    ensures var s, k, v := Body(key, text, styles, rest), SpellAll(MODEL_TEXT, key), SpellAll(text, styles);
            && |s| == 6 + |k| + |v| + |rest|
            && s[0] == OPEN_BRACE && s[1] == QUOTE && s[2..2 + |k|] == k
            && s[2 + |k|] == QUOTE && s[3 + |k|] == COLON && s[4 + |k|] == QUOTE
            && s[5 + |k|..5 + |k| + |v|] == v && s[5 + |k| + |v|] == QUOTE
  {
    hide SpellAll, AllSpellable;
    Pieces(SpellAll(MODEL_TEXT, key), SpellAll(text, styles), rest);
  }
}
