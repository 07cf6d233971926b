/**
 A scan depends only on the bytes it passes and on the byte that stops it: two
 bodies that agree up to `n` scan alike up to `n`.
 */
module Stability {
  import opened ByteStrings
  import opened Lifecycle
  import opened Json

  ghost predicate Agree(s: Bytes, t: Bytes, n: nat) {
    n <= |s| && n <= |t| && forall k | 0 <= k < n :: s[k] == t[k]
  }

  /** A byte that continues neither white space nor a number. */
  predicate Stop(t: Bytes, n: nat) {
    n < |t| ==> !IsSpace(t[n]) && !IsDigit(t[n]) && t[n] != DOT && t[n] != 0x65 && t[n] != 0x45
  }

  lemma {:induction false} SpaceStable(s: Bytes, t: Bytes, i: nat, n: nat)
    requires Agree(s, t, n) && Stop(t, n) && i <= |s| && SkipSpace(s, i) <= n
    ensures SkipSpace(t, i) == SkipSpace(s, i)
    decreases |s| - i
  {
    if i < |s| && IsSpace(s[i]) {
      SpaceStable(s, t, i + 1, n);
    }
  }

  lemma {:induction false} StringStable(s: Bytes, t: Bytes, i: nat, n: nat)
    requires Agree(s, t, n) && ScanString(s, i).Some? && ScanString(s, i).value <= n
    ensures ScanString(t, i) == ScanString(s, i)
    decreases |s| - i
  {
    if s[i] == QUOTE {
    } else if s[i] != BACKSLASH {
      StringStable(s, t, i + 1, n);
    } else if i + 1 < |s| && SimpleEscape(s[i + 1]) {
      StringStable(s, t, i + 2, n);
    } else {
      StringStable(s, t, i + 6, n);
    }
  }

  lemma {:induction false} DigitsStable(s: Bytes, t: Bytes, i: nat, n: nat)
    requires Agree(s, t, n) && Stop(t, n) && i <= |s| && SkipDigits(s, i) <= n
    ensures SkipDigits(t, i) == SkipDigits(s, i)
    decreases |s| - i
  {
    if i < |s| && IsDigit(s[i]) {
      DigitsStable(s, t, i + 1, n);
    }
  }

  lemma ScanDigitsStable(s: Bytes, t: Bytes, i: nat, n: nat)
    requires Agree(s, t, n) && Stop(t, n) && ScanDigits(s, i).Some? && ScanDigits(s, i).value <= n
    ensures ScanDigits(t, i) == ScanDigits(s, i)
  {
    DigitsStable(s, t, i + 1, n);
  }

  lemma ExponentStable(s: Bytes, t: Bytes, i: nat, n: nat)
    requires Agree(s, t, n) && Stop(t, n) && i <= |s| && ScanExponent(s, i).Some? && ScanExponent(s, i).value <= n
    ensures i <= |t| && ScanExponent(t, i) == ScanExponent(s, i)
  {
    if At(s, i, 0x65) || At(s, i, 0x45) {
      ScanDigitsStable(s, t, if At(s, i + 1, PLUS) || At(s, i + 1, MINUS) then i + 2 else i + 1, n);
    }
  }

  lemma FractionStable(s: Bytes, t: Bytes, i: nat, n: nat)
    requires Agree(s, t, n) && Stop(t, n) && i <= |s| && ScanFraction(s, i).Some? && ScanFraction(s, i).value <= n
    ensures i <= |t| && ScanFraction(t, i) == ScanFraction(s, i)
  {
    if At(s, i, DOT) {
      ScanDigitsStable(s, t, i + 1, n);
    }
  }

  lemma IntegerStable(s: Bytes, t: Bytes, i: nat, n: nat)
    requires Agree(s, t, n) && Stop(t, n) && ScanInteger(s, i).Some? && ScanInteger(s, i).value <= n
    ensures ScanInteger(t, i) == ScanInteger(s, i)
  {
    if !At(s, i, ZERO) {
      ScanDigitsStable(s, t, i, n);
    }
  }

  lemma NumberStable(s: Bytes, t: Bytes, i: nat, n: nat)
    requires Agree(s, t, n) && Stop(t, n) && ScanNumber(s, i).Some? && ScanNumber(s, i).value <= n
    ensures ScanNumber(t, i) == ScanNumber(s, i)
  {
    hide ScanInteger, ScanFraction, ScanExponent;
    var j := if At(s, i, MINUS) then i + 1 else i;
    var a := ScanInteger(s, j).value;
    var b := ScanFraction(s, a).value;
    ExponentStable(s, t, b, n);
    FractionStable(s, t, a, n);
    IntegerStable(s, t, j, n);
  }

  lemma TextStable(s: Bytes, t: Bytes, i: nat, n: nat, text: Bytes)
    requires Agree(s, t, n) && text != [] && ScanText(s, i, text).Some? && ScanText(s, i, text).value <= n
    ensures ScanText(t, i, text) == ScanText(s, i, text)
  {
    assert s[i..i + |text|] == t[i..i + |text|];
  }

  lemma KeyStable(s: Bytes, t: Bytes, i: nat, n: nat)
    requires Agree(s, t, n) && Stop(t, n) && ScanKey(s, i).Some? && ScanKey(s, i).value <= n
    ensures ScanKey(t, i) == ScanKey(s, i) && ScanString(t, i + 1) == ScanString(s, i + 1) && KeyAt(t, i) == KeyAt(s, i)
  {
    hide SkipSpace, ScanString, Unquote;
    var e := ScanString(s, i + 1).value;
    var c := SkipSpace(s, e);
    StringStable(s, t, i + 1, n);
    SpaceStable(s, t, e, n);
    SpaceStable(s, t, c + 1, n);
    assert Content(s, i + 1, e) == Content(t, i + 1, e);
  }

  lemma {:induction false} ValueStable(s: Bytes, t: Bytes, i: nat, n: nat)
    requires Agree(s, t, n) && Stop(t, n) && ScanValue(s, i).Some? && ScanValue(s, i).value <= n
    ensures ScanValue(t, i) == ScanValue(s, i)
    decreases |s| - i, 2
  {
    hide SkipSpace, ScanString, ScanMembers, ScanElements, ScanNumber, ScanText;
    if s[i] == QUOTE {
      StringStable(s, t, i + 1, n);
    } else if s[i] == OPEN_BRACE {
      SpaceStable(s, t, i + 1, n);
      if !At(s, SkipSpace(s, i + 1), CLOSE_BRACE) {
        MembersStable(s, t, SkipSpace(s, i + 1), n);
      }
    } else if s[i] == OPEN_BRACKET {
      SpaceStable(s, t, i + 1, n);
      if !At(s, SkipSpace(s, i + 1), CLOSE_BRACKET) {
        ElementsStable(s, t, SkipSpace(s, i + 1), n);
      }
    } else if s[i] == 0x74 {
      TextStable(s, t, i, n, TRUE_TEXT);
    } else if s[i] == 0x66 {
      TextStable(s, t, i, n, FALSE_TEXT);
    } else if s[i] == 0x6E {
      TextStable(s, t, i, n, NULL_TEXT);
    } else {
      NumberStable(s, t, i, n);
    }
  }

  /** One member of a list, from its parts. */
  lemma MembersUnfold(t: Bytes, i: nat, v: nat, e: nat, p: nat)
    requires ScanKey(t, i) == Some(v) && ScanValue(t, v) == Some(e) && SkipSpace(t, e) == p
    ensures ScanMembers(t, i) ==
              if At(t, p, CLOSE_BRACE) then Some(p + 1)
              else if At(t, p, COMMA) then ScanMembers(t, SkipSpace(t, p + 1))
              else None
  {
    hide ScanKey, ScanValue, SkipSpace;
  }

  lemma {:induction false} MembersStable(s: Bytes, t: Bytes, i: nat, n: nat)
    requires Agree(s, t, n) && Stop(t, n) && ScanMembers(s, i).Some? && ScanMembers(s, i).value <= n
    ensures ScanMembers(t, i) == ScanMembers(s, i)
    decreases |s| - i, 3
  {
    hide SkipSpace, ScanKey, ScanValue, ScanString;
    var v := ScanKey(s, i).value;
    var e := ScanValue(s, v).value;
    var p := SkipSpace(s, e);
    if At(s, p, COMMA) {
      MembersStable(s, t, SkipSpace(s, p + 1), n);
      SpaceStable(s, t, p + 1, n);
    }
    SpaceStable(s, t, e, n);
    ValueStable(s, t, v, n);
    KeyStable(s, t, i, n);
    MembersUnfold(t, i, v, e, p);
  }

  lemma {:induction false} ElementsStable(s: Bytes, t: Bytes, i: nat, n: nat)
    requires Agree(s, t, n) && Stop(t, n) && ScanElements(s, i).Some? && ScanElements(s, i).value <= n
    ensures ScanElements(t, i) == ScanElements(s, i)
    decreases |s| - i, 3
  {
    hide SkipSpace, ScanValue;
    var e := ScanValue(s, i).value;
    var p := SkipSpace(s, e);
    if At(s, p, COMMA) {
      ElementsStable(s, t, SkipSpace(s, p + 1), n);
      SpaceStable(s, t, p + 1, n);
    }
    SpaceStable(s, t, e, n);
    ValueStable(s, t, i, n);
  }

  lemma NextMemberStable(s: Bytes, t: Bytes, v: nat, n: nat)
    requires Agree(s, t, n) && Stop(t, n) && NextMember(s, v).Some? && NextMember(s, v).value <= n
    ensures NextMember(t, v) == NextMember(s, v)
  {
    hide SkipSpace, ScanValue;
    var e := ScanValue(s, v).value;
    var p := SkipSpace(s, e);
    SpaceStable(s, t, p + 1, n);
    SpaceStable(s, t, e, n);
    ValueStable(s, t, v, n);
  }

  lemma {:induction false} MemberStable(s: Bytes, t: Bytes, i: nat, v: nat)
    requires LocateMember(s, i).Some? && LocateMember(s, i).value.start == v && Agree(s, t, v) && At(t, v, QUOTE)
    ensures LocateMember(t, i) == Literal(t, v)
    decreases |s| - i
  {
    hide SkipSpace, NextMember, KeyAt, ScanString;
    var k := ScanKey(s, i).value;
    if KeyAt(s, i) != MODEL {
      MemberStable(s, t, NextMember(s, k).value, v);
      NextMemberStable(s, t, k, v);
    }
    KeyStable(s, t, i, v);
  }

  /** The search finds the value at the same place in every body that agrees up to there and has a quote there. */
  lemma LocateStable(s: Bytes, t: Bytes, v: nat)
    requires Locate(s).Some? && Locate(s).value.start == v && Agree(s, t, v) && At(t, v, QUOTE)
    ensures Locate(t) == Literal(t, v)
  {
    hide SkipSpace, LocateMember, ScanString;
    var b := SkipSpace(s, 0);
    MemberStable(s, t, SkipSpace(s, b + 1), v);
    SpaceStable(s, t, b + 1, v);
    SpaceStable(s, t, 0, v);
  }
}
