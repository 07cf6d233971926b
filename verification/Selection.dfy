/**
 Which member the search selects, stated by the lexical automaton alone: the
 first key at nesting depth one that spells "model".
 */
module Selection {
  import opened ByteStrings
  import opened Lifecycle
  import opened Json
  import opened Lexical

  /** The last byte before `i` that is not white space. */
  function Previous(s: Bytes, i: nat): Option<Byte>
    requires i <= |s|
  {
    if i == 0 then None else if IsSpace(s[i - 1]) then Previous(s, i - 1) else Some(s[i - 1])
  }

  /** A literal in key position of the outermost object. */
  predicate TopKey(s: Bytes, a: nat) {
    Starts(s, a) && LexAt(s, a).depth == 1 && Previous(s, a) != Some(COLON)
  }

  predicate ModelKey(s: Bytes, a: nat) {
    TopKey(s, a) && ScanKey(s, a).Some? && KeyAt(s, a) == MODEL
  }

  /** The reference: the first such key between `i` and `e`. */
  function FirstKey(s: Bytes, i: nat, e: nat): (r: Option<nat>)
    ensures r.Some? ==> i <= r.value < e && ModelKey(s, r.value)
    decreases e - i
  {
    if i >= e then None else if ModelKey(s, i) then Some(i) else FirstKey(s, i + 1, e)
  }

  lemma {:induction false} FirstKeySkips(s: Bytes, i: nat, m: nat, e: nat)
    requires i <= m && forall a | i <= a < m && a < e :: !ModelKey(s, a)
    ensures FirstKey(s, i, e) == FirstKey(s, m, e)
    decreases m - i
  {
    if i < m && i < e {
      FirstKeySkips(s, i + 1, m, e);
    }
  }

  lemma FirstKeyAfter(s: Bytes, i: nat, m: nat, e: nat)
    requires i < m && !ModelKey(s, i) && forall a | i < a < m :: !TopKey(s, a)
    ensures FirstKey(s, i, e) == FirstKey(s, m, e)
  {
    hide TopKey, FirstKey;
    FirstKeySkips(s, i, m, e);
  }

  lemma {:induction false} PreviousOfSpaces(s: Bytes, p: nat, i: nat)
    requires p < i <= |s| && !IsSpace(s[p]) && forall k | p < k < i :: IsSpace(s[k])
    ensures Previous(s, i) == Some(s[p])
    decreases i
  {
    if i > p + 1 {
      PreviousOfSpaces(s, p, i - 1);
    }
  }

  lemma {:induction false} SkippedAreSpaces(s: Bytes, i: nat)
    requires i <= |s|
    ensures forall k | i <= k < SkipSpace(s, i) :: IsSpace(s[k])
    decreases |s| - i
  {
    if i < |s| && IsSpace(s[i]) {
      SkippedAreSpaces(s, i + 1);
    }
  }

  lemma PreviousOfSkip(s: Bytes, p: nat)
    requires p < |s| && !IsSpace(s[p])
    ensures Previous(s, SkipSpace(s, p + 1)) == Some(s[p])
  {
    SkippedAreSpaces(s, p + 1);
    PreviousOfSpaces(s, p, SkipSpace(s, p + 1));
  }

  /** Inside one member, up to where its value ends, no other key starts. */
  lemma OneKeyPerMember(s: Bytes, i: nat)
    requires Open(s, i, 1) && ScanKey(s, i).Some? && ScanValue(s, ScanKey(s, i).value).Some?
    ensures var p := SkipSpace(s, ScanValue(s, ScanKey(s, i).value).value);
            Open(s, p, 1) && forall a | i < a < p :: !TopKey(s, a)
  {
    hide SkipSpace, ScanString, ScanValue, LexAt, Previous;
    var v := ScanKey(s, i).value;
    var e := ScanValue(s, v).value;
    KeyStaysOpen(s, i, 1);
    ValueIsBalanced(s, v, 1);
    SpaceStaysOpen(s, e, 1);
    ValueFollowsColon(s, i);
  }

  lemma ValueFollowsColon(s: Bytes, i: nat)
    requires ScanKey(s, i).Some?
    ensures Previous(s, ScanKey(s, i).value) == Some(COLON)
  {
    hide ScanString, Previous;
    PreviousOfSkip(s, SkipSpace(s, ScanString(s, i + 1).value));
  }

  /** The next member starts a key again. */
  lemma NextStartsKey(s: Bytes, i: nat)
    requires Open(s, i, 1) && ScanKey(s, i).Some? && NextMember(s, ScanKey(s, i).value).Some?
    ensures var m := NextMember(s, ScanKey(s, i).value).value;
            Open(s, m, 1) && Previous(s, m) == Some(COMMA) && forall a | i < a < m :: !TopKey(s, a)
  {
    hide SkipSpace, ScanString, ScanValue, LexAt, Previous, ScanKey;
    var p := SkipSpace(s, ScanValue(s, ScanKey(s, i).value).value);
    OneKeyPerMember(s, i);
    BracketMoves(s, p, 1);
    SpaceStaysOpen(s, p + 1, 1);
    PreviousOfSkip(s, p);
  }

  /** From any key position: whatever is found belongs to the first "model" key from there on. */
  lemma {:induction false} MemberIsFirst(s: Bytes, i: nat)
    requires Open(s, i, 1) && Previous(s, i) != Some(COLON) && LocateMember(s, i).Some?
    ensures var v := LocateMember(s, i).value.start;
            Open(s, v, 1) && FirstKey(s, i, v).Some? && ScanKey(s, FirstKey(s, i, v).value) == Some(v)
    decreases |s| - i
  {
    hide SkipSpace, ScanString, ScanValue, LexAt, Previous, KeyAt;
    var v := LocateMember(s, i).value.start;
    var k := ScanKey(s, i).value;
    if KeyAt(s, i) == MODEL {
      KeyStaysOpen(s, i, 1);
    } else {
      var m := NextMember(s, k).value;
      NextStartsKey(s, i);
      MemberIsFirst(s, m);
      FirstKeyAfter(s, i, m, v);
    }
  }

  /** What the search returns for the first key the reference finds. */
  function ValueOf(s: Bytes, key: Option<nat>): Option<Found>
    requires key.Some? ==> ScanKey(s, key.value).Some?
  {
    if key.None? then None else Literal(s, ScanKey(s, key.value).value)
  }

  /** In the members of a well-formed object the search and the reference agree. */
  lemma {:induction false} MembersAgree(s: Bytes, i: nat)
    requires Open(s, i, 1) && Previous(s, i) != Some(COLON) && ScanMembers(s, i).Some?
    ensures LocateMember(s, i) == ValueOf(s, FirstKey(s, i, ScanMembers(s, i).value))
    decreases |s| - i
  {
    hide SkipSpace, ScanString, ScanValue, LexAt, Previous, KeyAt;
    var e := ScanMembers(s, i).value;
    var v := ScanKey(s, i).value;
    if KeyAt(s, i) != MODEL {
      OneKeyPerMember(s, i);
      if NextMember(s, v).Some? {
        var m := NextMember(s, v).value;
        NextStartsKey(s, i);
        MembersAgree(s, m);
        FirstKeyAfter(s, i, m, e);
      } else {
        FirstKeyAfter(s, i, e, e);
      }
    }
  }

  lemma BeforeTheBrace(s: Bytes)
    requires var b := SkipSpace(s, 0); At(s, b, OPEN_BRACE)
    ensures var b := SkipSpace(s, 0);
            var i := SkipSpace(s, b + 1);
            Open(s, i, 1) && Previous(s, i) == Some(OPEN_BRACE) && forall a | 0 <= a < i :: !TopKey(s, a)
  {
    hide SkipSpace, Previous;
    var b := SkipSpace(s, 0);
    SpaceStaysOpen(s, 0, 0);
    BracketMoves(s, b, 0);
    SpaceStaysOpen(s, b + 1, 1);
    PreviousOfSkip(s, b);
  }

  /** In every body, what is found is at depth one and belongs to the first top-level "model" key: a nested one is never selected. */
  lemma NestedIsNeverSelected(s: Bytes)
    requires Locate(s).Some?
    ensures var v := Locate(s).value.start;
            Open(s, v, 1) && FirstKey(s, 0, v).Some? && ScanKey(s, FirstKey(s, 0, v).value) == Some(v)
  {
    hide SkipSpace, Previous, LexAt;
    var i := SkipSpace(s, SkipSpace(s, 0) + 1);
    BeforeTheBrace(s);
    MemberIsFirst(s, i);
    FirstKeySkips(s, 0, i, Locate(s).value.start);
  }

  /** In every body that is a JSON object, the search finds the value of the first top-level "model" key, if that is a string, and nothing otherwise. */
  lemma ObjectSearchIsExact(s: Bytes)
    requires var b := SkipSpace(s, 0); At(s, b, OPEN_BRACE) && ScanValue(s, b).Some?
    ensures Locate(s) == ValueOf(s, FirstKey(s, 0, ScanValue(s, SkipSpace(s, 0)).value))
  {
    hide SkipSpace, Previous, LexAt, LocateMember, ScanMembers, FirstKey;
    var b := SkipSpace(s, 0);
    var i := SkipSpace(s, b + 1);
    var e := ScanValue(s, b).value;
    BeforeTheBrace(s);
    if At(s, i, CLOSE_BRACE) {
      EmptyObject(s, i, e);
    } else {
      MembersAgree(s, i);
      FirstKeySkips(s, 0, i, e);
    }
  }

  lemma EmptyObject(s: Bytes, i: nat, e: nat)
    requires At(s, i, CLOSE_BRACE) && e == i + 1 && forall a | 0 <= a < i :: !TopKey(s, a)
    ensures LocateMember(s, i) == None && FirstKey(s, 0, e) == None
  {
    hide LexAt;
    FirstKeySkips(s, 0, e, e);
  }
}
