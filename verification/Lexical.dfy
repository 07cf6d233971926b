/**
 An independent reading of the body: a byte-by-byte automaton that only tracks
 nesting depth and string literals.  Against it, the scan never selects a nested
 "model" and takes the first top-level one.
 */
module Lexical {
  import opened ByteStrings
  import opened Json

  datatype Lex = Lex(depth: int, inString: bool, escaped: bool)

  function Feed(l: Lex, b: Byte): Lex {
    if l.inString then
      if l.escaped then l.(escaped := false)
      else if b == BACKSLASH then l.(escaped := true)
      else if b == QUOTE then l.(inString := false)
      else l
    else if b == QUOTE then l.(inString := true)
    else if b == OPEN_BRACE || b == OPEN_BRACKET then l.(depth := l.depth + 1)
    else if b == CLOSE_BRACE || b == CLOSE_BRACKET then l.(depth := l.depth - 1)
    else l
  }

  /** The automaton's state before byte `i`. */
  function LexAt(s: Bytes, i: nat): Lex
    requires i <= |s|
  {
    if i == 0 then Lex(0, false, false) else Feed(LexAt(s, i - 1), s[i - 1])
  }

  /** Outside strings at nesting depth `d`. */
  predicate Open(s: Bytes, i: nat, d: int) {
    i <= |s| && LexAt(s, i) == Lex(d, false, false)
  }

  /** A string literal starts at `i`. */
  predicate Starts(s: Bytes, i: nat) {
    At(s, i, QUOTE) && !LexAt(s, i).inString
  }

  /** Every literal that starts between `i` and `e` starts deeper than `d`. */
  ghost predicate Deep(s: Bytes, i: nat, e: nat, d: int) {
    e <= |s| && forall k | i <= k < e && Starts(s, k) :: LexAt(s, k).depth > d
  }

  ghost predicate NoneStart(s: Bytes, i: nat, e: nat) {
    e <= |s| && forall k | i <= k < e :: !Starts(s, k)
  }

  predicate Structural(b: Byte) {
    b == QUOTE || b == OPEN_BRACE || b == OPEN_BRACKET || b == CLOSE_BRACE || b == CLOSE_BRACKET
  }

  lemma Next(s: Bytes, i: nat)
    requires i < |s|
    ensures LexAt(s, i + 1) == Feed(LexAt(s, i), s[i])
  {
  }

  lemma {:induction false} FlatStaysOpen(s: Bytes, i: nat, e: nat, d: int)
    requires i <= e <= |s| && Open(s, i, d) && forall k | i <= k < e :: !Structural(s[k])
    ensures Open(s, e, d)
    decreases e - i
  {
    if i < e {
      Next(s, i);
      FlatStaysOpen(s, i + 1, e, d);
    }
  }

  lemma {:induction false} SpaceIsFlat(s: Bytes, i: nat)
    requires i <= |s|
    ensures forall k | i <= k < SkipSpace(s, i) :: !Structural(s[k])
    decreases |s| - i
  {
    if i < |s| && IsSpace(s[i]) {
      SpaceIsFlat(s, i + 1);
    }
  }

  lemma SpaceStaysOpen(s: Bytes, i: nat, d: int)
    requires i <= |s| && Open(s, i, d)
    ensures Open(s, SkipSpace(s, i), d)
    ensures NoneStart(s, i, SkipSpace(s, i))
  {
    SpaceIsFlat(s, i);
    FlatStaysOpen(s, i, SkipSpace(s, i), d);
  }

  lemma {:induction false} StringCloses(s: Bytes, i: nat, d: int)
    requires ScanString(s, i).Some? && LexAt(s, i) == Lex(d, true, false)
    ensures Open(s, ScanString(s, i).value, d)
    ensures forall k | i <= k < ScanString(s, i).value :: LexAt(s, k).inString
    decreases |s| - i
  {
    hide LexAt;
    Next(s, i);
    if s[i] != QUOTE {
      if s[i] != BACKSLASH {
        StringCloses(s, i + 1, d);
      } else {
        Next(s, i + 1);
        if SimpleEscape(s[i + 1]) {
          StringCloses(s, i + 2, d);
        } else {
          Next(s, i + 2);
          Next(s, i + 3);
          Next(s, i + 4);
          Next(s, i + 5);
          StringCloses(s, i + 6, d);
        }
      }
    }
  }

  /** A literal ends at the depth at which it starts, and none starts inside it. */
  lemma LiteralCloses(s: Bytes, i: nat, d: int)
    requires At(s, i, QUOTE) && Open(s, i, d) && ScanString(s, i + 1).Some?
    ensures Open(s, ScanString(s, i + 1).value, d)
    ensures NoneStart(s, i + 1, ScanString(s, i + 1).value)
  {
    hide ScanString, LexAt;
    Next(s, i);
    StringCloses(s, i + 1, d);
  }

  lemma {:induction false} DigitsAreFlat(s: Bytes, i: nat)
    requires i <= |s|
    ensures forall k | i <= k < SkipDigits(s, i) :: !Structural(s[k])
    decreases |s| - i
  {
    if i < |s| && IsDigit(s[i]) {
      DigitsAreFlat(s, i + 1);
    }
  }

  lemma ScanDigitsIsFlat(s: Bytes, i: nat)
    ensures ScanDigits(s, i).Some? ==> forall k | i <= k < ScanDigits(s, i).value :: !Structural(s[k])
  {
    if i < |s| {
      DigitsAreFlat(s, i + 1);
    }
  }

  lemma NumberIsFlat(s: Bytes, i: nat)
    requires ScanNumber(s, i).Some?
    ensures forall k | i <= k < ScanNumber(s, i).value :: !Structural(s[k])
  {
    hide ScanDigits;
    var j := if At(s, i, MINUS) then i + 1 else i;
    var a := ScanInteger(s, j).value;
    var b := ScanFraction(s, a).value;
    ScanDigitsIsFlat(s, j);
    ScanDigitsIsFlat(s, a + 1);
    ScanDigitsIsFlat(s, b + 1);
    ScanDigitsIsFlat(s, b + 2);
  }

  lemma TextIsFlat(s: Bytes, i: nat, text: Bytes)
    requires text != [] && ScanText(s, i, text).Some? && forall k | 0 <= k < |text| :: !Structural(text[k])
    ensures forall k | i <= k < i + |text| :: !Structural(s[k])
  {
    forall k | i <= k < i + |text| ensures !Structural(s[k]) {
      assert s[k] == s[i..i + |text|][k - i];
    }
  }

  lemma FlatValue(s: Bytes, i: nat)
    requires ScanValue(s, i).Some? && s[i] != QUOTE && s[i] != OPEN_BRACE && s[i] != OPEN_BRACKET
    ensures forall k | i <= k < ScanValue(s, i).value :: !Structural(s[k])
  {
    hide ScanNumber;
    if s[i] == 0x74 {
      TextIsFlat(s, i, TRUE_TEXT);
    } else if s[i] == 0x66 {
      TextIsFlat(s, i, FALSE_TEXT);
    } else if s[i] == 0x6E {
      TextIsFlat(s, i, NULL_TEXT);
    } else {
      NumberIsFlat(s, i);
    }
  }

  /** A bracket outside strings moves the depth by one, a separator does not. */
  lemma BracketMoves(s: Bytes, i: nat, d: int)
    requires i < |s| && Open(s, i, d)
    ensures s[i] == OPEN_BRACE || s[i] == OPEN_BRACKET ==> Open(s, i + 1, d + 1)
    ensures s[i] == CLOSE_BRACE || s[i] == CLOSE_BRACKET ==> Open(s, i + 1, d - 1)
    ensures s[i] == COMMA || s[i] == COLON ==> Open(s, i + 1, d)
  {
    Next(s, i);
  }

  lemma DeepJoin(s: Bytes, i: nat, j: nat, e: nat, d: int)
    requires Deep(s, i, j, d) && Deep(s, j, e, d)
    ensures Deep(s, i, e, d)
  {
  }

  /** Between a key and its value: the value is at the key's depth. */
  lemma KeyStaysOpen(s: Bytes, i: nat, d: int)
    requires ScanKey(s, i).Some? && Open(s, i, d)
    ensures Open(s, ScanKey(s, i).value, d) && NoneStart(s, i + 1, ScanKey(s, i).value)
  {
    hide SkipSpace, ScanString, LexAt;
    var e := ScanString(s, i + 1).value;
    var c := SkipSpace(s, e);
    LiteralCloses(s, i, d);
    SpaceStaysOpen(s, e, d);
    BracketMoves(s, c, d);
    SpaceStaysOpen(s, c + 1, d);
  }

  /** A value leaves the depth as it found it, and every literal that starts inside it is nested in it. */
  lemma {:induction false} ValueIsBalanced(s: Bytes, i: nat, d: int)
    requires ScanValue(s, i).Some? && Open(s, i, d)
    ensures Open(s, ScanValue(s, i).value, d) && Deep(s, i + 1, ScanValue(s, i).value, d)
    decreases |s| - i, 1
  {
    hide SkipSpace, ScanString, ScanMembers, ScanElements, ScanNumber, ScanText, LexAt;
    var e := ScanValue(s, i).value;
    if s[i] == QUOTE {
      LiteralCloses(s, i, d);
    } else if s[i] == OPEN_BRACE || s[i] == OPEN_BRACKET {
      var k := SkipSpace(s, i + 1);
      BracketMoves(s, i, d);
      SpaceStaysOpen(s, i + 1, d + 1);
      if At(s, k, if s[i] == OPEN_BRACE then CLOSE_BRACE else CLOSE_BRACKET) {
        BracketMoves(s, k, d + 1);
      } else if s[i] == OPEN_BRACE {
        MembersAreBalanced(s, k, d + 1);
      } else {
        ElementsAreBalanced(s, k, d + 1);
      }
    } else {
      FlatValue(s, i);
      FlatStaysOpen(s, i, e, d);
    }
  }

  lemma {:induction false} MembersAreBalanced(s: Bytes, i: nat, d: int)
    requires ScanMembers(s, i).Some? && Open(s, i, d)
    ensures Open(s, ScanMembers(s, i).value, d - 1) && Deep(s, i, ScanMembers(s, i).value, d - 1)
    decreases |s| - i, 3
  {
    hide SkipSpace, ScanKey, ScanValue, LexAt, Deep;
    var v := ScanKey(s, i).value;
    var e := ScanValue(s, v).value;
    var p := SkipSpace(s, e);
    MemberIsNested(s, i, d);
    BracketMoves(s, p, d);
    if At(s, p, COMMA) {
      var m := SkipSpace(s, p + 1);
      SpaceStaysOpen(s, p + 1, d);
      MembersAreBalanced(s, m, d);
      SeparatorIsFlat(s, p, d - 1);
      DeepJoin(s, i, p, m, d - 1);
      DeepJoin(s, i, m, ScanMembers(s, i).value, d - 1);
    } else {
      OneByteIsFlat(s, p, d - 1);
      DeepJoin(s, i, p, p + 1, d - 1);
    }
  }

  lemma OneByteIsFlat(s: Bytes, p: nat, d: int)
    requires p < |s| && s[p] != QUOTE
    ensures Deep(s, p, p + 1, d)
  {
  }

  lemma SeparatorIsFlat(s: Bytes, p: nat, d: int)
    requires At(s, p, COMMA)
    ensures Deep(s, p, SkipSpace(s, p + 1), d)
  {
    SpaceIsFlat(s, p + 1);
  }

  /** One member, up to the byte after its value and the white space there. */
  lemma MemberIsNested(s: Bytes, i: nat, d: int)
    requires ScanKey(s, i).Some? && ScanValue(s, ScanKey(s, i).value).Some? && Open(s, i, d)
    ensures var p := SkipSpace(s, ScanValue(s, ScanKey(s, i).value).value);
            Open(s, p, d) && Deep(s, i, p, d - 1)
    decreases |s| - i, 2
  {
    hide SkipSpace, ScanString, ScanValue, LexAt;
    var v := ScanKey(s, i).value;
    var e := ScanValue(s, v).value;
    KeyStaysOpen(s, i, d);
    ValueIsBalanced(s, v, d);
    SpaceStaysOpen(s, e, d);
    OwnDepth(s, i, d);
    OwnDepth(s, v, d);
  }

  lemma OwnDepth(s: Bytes, i: nat, d: int)
    requires i < |s| && Open(s, i, d)
    ensures Deep(s, i, i + 1, d - 1)
  {
  }

  lemma {:induction false} ElementsAreBalanced(s: Bytes, i: nat, d: int)
    requires ScanElements(s, i).Some? && Open(s, i, d)
    ensures Open(s, ScanElements(s, i).value, d - 1) && Deep(s, i, ScanElements(s, i).value, d - 1)
    decreases |s| - i, 3
  {
    hide SkipSpace, ScanValue, LexAt, Deep;
    var e := ScanValue(s, i).value;
    var p := SkipSpace(s, e);
    ElementIsNested(s, i, d);
    BracketMoves(s, p, d);
    if At(s, p, COMMA) {
      var m := SkipSpace(s, p + 1);
      SpaceStaysOpen(s, p + 1, d);
      ElementsAreBalanced(s, m, d);
      SeparatorIsFlat(s, p, d - 1);
      DeepJoin(s, i, p, m, d - 1);
      DeepJoin(s, i, m, ScanElements(s, i).value, d - 1);
    } else {
      OneByteIsFlat(s, p, d - 1);
      DeepJoin(s, i, p, p + 1, d - 1);
    }
  }

  lemma ElementIsNested(s: Bytes, i: nat, d: int)
    requires ScanValue(s, i).Some? && Open(s, i, d)
    ensures var p := SkipSpace(s, ScanValue(s, i).value);
            Open(s, p, d) && Deep(s, i, p, d - 1)
    decreases |s| - i, 2
  {
    hide SkipSpace, ScanValue, LexAt;
    ValueIsBalanced(s, i, d);
    SpaceStaysOpen(s, ScanValue(s, i).value, d);
    OwnDepth(s, i, d);
  }
}
