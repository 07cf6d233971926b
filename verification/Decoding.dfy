/**
 The streaming decoder as `locateTopLevelModelValue` drives it (peek, More,
 Token, Decode over an advancing cursor with a token state), and the proof that
 this loop computes `Json.Locate`.
 */
module Decoding {
  import opened ByteStrings
  import opened Lifecycle
  import opened Json

  datatype TokenState = TopValue | ObjectStart | ObjectKey | ObjectColon | ObjectValue | ObjectComma

  datatype Token = Delim(b: Byte) | Str(value: Bytes) | Other

  /** The next significant byte and the state there, once a separator that the state calls for is behind. */
  function PastSeparator(s: Bytes, p: nat, st: TokenState): (r: (nat, TokenState))
    requires p <= |s|
    ensures p <= r.0 <= |s|
  {
    var i := SkipSpace(s, p);
    if st == ObjectColon && At(s, i, COLON) then (SkipSpace(s, i + 1), ObjectValue)
    else if st == ObjectComma && At(s, i, COMMA) then (SkipSpace(s, i + 1), ObjectKey)
    else (i, st)
  }

  /** Where a string token starts, when the cursor is at `p` in a state inside an object. */
  function StringStart(s: Bytes, p: nat, st: TokenState): (r: Option<nat>)
    requires p <= |s|
    ensures r.Some? ==> p <= r.value < |s|
  {
    var (i, st') := PastSeparator(s, p, st);
    if At(s, i, QUOTE) && (st' == ObjectStart || st' == ObjectKey || st' == ObjectValue) then Some(i) else None
  }

  /** The string token there, and the position after it. */
  function StringToken(s: Bytes, p: nat, st: TokenState): (r: Option<(Bytes, nat)>)
    requires p <= |s|
    ensures r.Some? ==> p < r.value.1 <= |s|
  {
    var k := StringStart(s, p, st);
    if k.None? then None
    else
      var e := ScanString(s, k.value + 1);
      if e.None? then None else Some((Unquote(Content(s, k.value + 1, e.value), 0), e.value))
  }

  /** The position after the value of a member whose key ends at `p`. */
  function SkipMember(s: Bytes, p: nat): (r: Option<nat>)
    requires p <= |s|
    ensures r.Some? ==> p < r.value <= |s|
  {
    var c := SkipSpace(s, p);
    if At(s, c, COLON) then ScanValue(s, SkipSpace(s, c + 1)) else None
  }

  class Decoder {
    const data: Bytes
    var scanp: nat
    var state: TokenState

    ghost predicate Valid()
      reads this
    {
      scanp <= |data|
    }

    constructor (data: Bytes)
      ensures this.data == data && Valid() && scanp == 0 && state == TopValue
    {
      this.data, scanp, state := data, 0, TopValue;
    }

    /** The next non-space byte; the cursor moves to it, or stays when there is none. */
    method Peek() returns (c: Option<Byte>)
      requires Valid()
      modifies this`scanp
      ensures Valid() && scanp >= old(scanp) && SkipSpace(data, scanp) == SkipSpace(data, old(scanp))
      ensures c == if SkipSpace(data, scanp) < |data| then Some(data[SkipSpace(data, scanp)]) else None
      ensures c.Some? ==> scanp == SkipSpace(data, scanp)
    {
      var i := scanp;
      while i < |data|
        invariant scanp <= i <= |data| && SkipSpace(data, i) == SkipSpace(data, scanp) && scanp == old(scanp)
      {
        if !IsSpace(data[i]) {
          scanp := i;
          return Some(data[i]);
        }
        i := i + 1;
      }
      c := None;
    }

    method More() returns (b: bool)
      requires Valid()
      modifies this`scanp
      ensures Valid() && scanp >= old(scanp) && SkipSpace(data, scanp) == SkipSpace(data, old(scanp))
      ensures b <==> SkipSpace(data, scanp) < |data| && data[SkipSpace(data, scanp)] != CLOSE_BRACE && data[SkipSpace(data, scanp)] != CLOSE_BRACKET
    {
      var c := Peek();
      b := c.Some? && c.value != CLOSE_BRACKET && c.value != CLOSE_BRACE;
    }

    predicate ValueAllowed()
      reads this
    {
      state == TopValue || state == ObjectValue
    }

    method ValueEnd()
      modifies this`state
      ensures state == if old(state) == ObjectValue then ObjectComma else old(state)
    {
      if state == ObjectValue {
        state := ObjectComma;
      }
    }

    /** Reads one value at the cursor; after a key the colon comes first. */
    method Decode() returns (start: Option<nat>)
      requires Valid()
      modifies this`scanp, this`state
      ensures Valid() && scanp >= old(scanp)
      ensures old(state) == ObjectColon ==>
                && (start.Some? <==> SkipMember(data, old(scanp)).Some?)
                && (start.Some? ==> Some(scanp) == SkipMember(data, old(scanp)) && state == ObjectComma)
      ensures var v := SkipSpace(data, old(scanp));
              old(state) == TopValue || old(state) == ObjectValue ==>
                && (start.Some? <==> ScanValue(data, v).Some?)
                && (start.Some? ==> && start.value == v && Some(scanp) == ScanValue(data, v)
                                    && state == if old(state) == TopValue then TopValue else ObjectComma)
    {
      if state == ObjectColon {
        var c := Peek();
        if c != Some(COLON) {
          return None;
        }
        scanp := scanp + 1;
        state := ObjectValue;
      }
      if !ValueAllowed() {
        return None;
      }
      var v := SkipSpace(data, scanp);
      var e := ScanValue(data, v);
      if e.None? {
        return None;
      }
      scanp := e.value;
      ValueEnd();
      start := Some(v);
    }

    /**
     The next token.  Inside an object it is a string exactly where the grammar
     has one.  A `[` or a nested `{` or `}` makes the caller give up, so the
     nesting stack is not kept.
     */
    method Token() returns (t: Option<Token>)
      requires Valid()
      modifies this`scanp, this`state
      ensures Valid() && scanp >= old(scanp)
      ensures old(state) == TopValue ==>
                var i := SkipSpace(data, old(scanp));
                && (t == Some(Delim(OPEN_BRACE)) <==> At(data, i, OPEN_BRACE))
                && (At(data, i, OPEN_BRACE) ==> scanp == i + 1 && state == ObjectStart)
      ensures old(state) == ObjectStart || old(state) == ObjectComma || old(state) == ObjectColon ==>
                var k := StringToken(data, old(scanp), old(state));
                && (t.Some? && t.value.Str? <==> k.Some?)
                && (k.Some? ==> && t.value.value == k.value.0 && scanp == k.value.1
                                && state == if old(state) == ObjectColon then ObjectComma else ObjectColon)
    {
      var c := Separator();
      if c.None? {
        return None;
      }
      t := TokenAt(c.value);
    }

    /** Consumes the separator that the state calls for, if it is there. */
    method Separator() returns (c: Option<Byte>)
      requires Valid()
      modifies this`scanp, this`state
      ensures Valid() && scanp >= old(scanp)
      ensures var (i, st) := PastSeparator(data, old(scanp), old(state));
              && state == st
              && (if i < |data| then c == Some(data[i]) && scanp == i && SkipSpace(data, i) == i else c == None)
    {
      hide ScanString, ScanValue, Unquote;
      c := Peek();
      if c == Some(COLON) && state == ObjectColon {
        scanp := scanp + 1;
        state := ObjectValue;
        c := Peek();
      } else if c == Some(COMMA) && state == ObjectComma {
        scanp := scanp + 1;
        state := ObjectKey;
        c := Peek();
      }
    }

    /** The token that starts with the byte at the cursor, separators being behind it. */
    method TokenAt(c: Byte) returns (t: Option<Token>)
      requires Valid() && At(data, scanp, c) && SkipSpace(data, scanp) == scanp
      modifies this`scanp, this`state
      ensures Valid() && scanp >= old(scanp)
      ensures old(state) == TopValue ==>
                && (t == Some(Delim(OPEN_BRACE)) <==> c == OPEN_BRACE)
                && (c == OPEN_BRACE ==> scanp == old(scanp) + 1 && state == ObjectStart)
      ensures var e := ScanString(data, old(scanp) + 1);
              old(state) == ObjectStart || old(state) == ObjectKey || old(state) == ObjectValue ==>
                && (t.Some? && t.value.Str? <==> c == QUOTE && e.Some?)
                && (c == QUOTE && e.Some? ==> && t.value.value == Unquote(Content(data, old(scanp) + 1, e.value), 0) && scanp == e.value
                                              && state == if old(state) == ObjectValue then ObjectComma else ObjectColon)
      ensures old(state) == ObjectColon || old(state) == ObjectComma ==> t.None? || !t.value.Str?
    {
      if c == CLOSE_BRACE {
        if state != ObjectStart && state != ObjectComma {
          return None;
        }
        scanp := scanp + 1;
        return Some(Delim(CLOSE_BRACE));
      }
      if c == QUOTE && (state == ObjectStart || state == ObjectKey) {
        state := TopValue;
        var at := Decode();
        if at.None? {
          return None;
        }
        state := ObjectColon;
        return Some(Str(Unquote(Content(data, at.value + 1, scanp), 0)));
      }
      if !ValueAllowed() {
        return None;
      }
      if c == OPEN_BRACE || c == OPEN_BRACKET {
        scanp := scanp + 1;
        state := ObjectStart;
        return Some(Delim(c));
      }
      var at := Decode();
      if at.None? {
        return None;
      }
      if c == QUOTE {
        return Some(Str(Unquote(Content(data, at.value + 1, scanp), 0)));
      }
      t := Some(Other);
    }
  }

  /** What is left to find when the cursor stands between two members. */
  function Rest(s: Bytes, p: nat, st: TokenState): Option<Found>
    requires p <= |s|
  {
    var k := StringStart(s, p, st);
    if k.None? then None else LocateMember(s, k.value)
  }

  /** With a string token at `k` the member there is found, or skipped, or the search ends. */
  lemma MemberUnfolds(s: Bytes, k: nat, e: nat)
    requires At(s, k, QUOTE) && ScanString(s, k + 1) == Some(e)
    ensures var c := SkipSpace(s, e);
            LocateMember(s, k) ==
              if !At(s, c, COLON) then None
              else if KeyAt(s, k) == MODEL then Literal(s, SkipSpace(s, c + 1))
              else
                var n := NextMember(s, SkipSpace(s, c + 1));
                if n.None? then None else LocateMember(s, n.value)
  {
    hide SkipSpace, ScanString, ScanValue, Unquote, NextMember, Literal;
  }

  lemma ModelUnfolds(s: Bytes, k: nat, e: nat)
    requires At(s, k, QUOTE) && ScanString(s, k + 1) == Some(e) && KeyAt(s, k) == MODEL
    ensures var v := StringToken(s, e, ObjectColon);
            LocateMember(s, k) == if v.None? then None else Some(Found(StringStart(s, e, ObjectColon).value, v.value.1, v.value.0))
  {
    hide SkipSpace, ScanString, ScanValue, Unquote, LocateMember;
    MemberUnfolds(s, k, e);
  }

  lemma RestAfterValue(s: Bytes, v: nat, e: nat)
    requires ScanValue(s, v) == Some(e)
    ensures var n := NextMember(s, v);
            Rest(s, e, ObjectComma) == if n.None? then None else LocateMember(s, n.value)
  {
    hide SkipSpace, ScanString, ScanValue, Unquote;
    var n := SkipSpace(s, e);
    if At(s, n, COMMA) && !At(s, SkipSpace(s, n + 1), QUOTE) {
      assert LocateMember(s, SkipSpace(s, n + 1)) == None;
    }
  }

  lemma OtherUnfolds(s: Bytes, k: nat, e: nat)
    requires At(s, k, QUOTE) && ScanString(s, k + 1) == Some(e) && KeyAt(s, k) != MODEL
    ensures var m := SkipMember(s, e);
            LocateMember(s, k) == if m.None? then None else Rest(s, m.value, ObjectComma)
  {
    hide SkipSpace, ScanString, ScanValue, Unquote, LocateMember;
    MemberUnfolds(s, k, e);
    var c := SkipSpace(s, e);
    if At(s, c, COLON) {
      var v := SkipSpace(s, c + 1);
      if ScanValue(s, v).Some? {
        RestAfterValue(s, v, ScanValue(s, v).value);
      }
    }
  }

  lemma NoKeyNoMember(s: Bytes, k: nat)
    requires At(s, k, QUOTE) && ScanString(s, k + 1).None?
    ensures LocateMember(s, k) == None
  {
  }

  lemma LocateStarts(s: Bytes)
    ensures var b := SkipSpace(s, 0);
            Locate(s) == if At(s, b, OPEN_BRACE) then Rest(s, b + 1, ObjectStart) else None
  {
    var b := SkipSpace(s, 0);
    if At(s, b, OPEN_BRACE) && !At(s, SkipSpace(s, b + 1), QUOTE) {
      assert LocateMember(s, SkipSpace(s, b + 1)) == None;
    }
  }

  /** What one turn of the loop leaves to find. */
  lemma RestUnfolds(s: Bytes, p: nat, st: TokenState)
    requires p <= |s| && (st == ObjectStart || st == ObjectComma)
    ensures var k := StringToken(s, p, st);
            k.None? ==> Rest(s, p, st) == None
    ensures var k := StringToken(s, p, st);
            k.Some? && k.value.0 == MODEL ==>
              var v := StringToken(s, k.value.1, ObjectColon);
              Rest(s, p, st) == if v.None? then None else Some(Found(StringStart(s, k.value.1, ObjectColon).value, v.value.1, v.value.0))
    ensures var k := StringToken(s, p, st);
            k.Some? && k.value.0 != MODEL ==>
              var e := SkipMember(s, k.value.1);
              Rest(s, p, st) == if e.None? then None else Rest(s, e.value, ObjectComma)
  {
    hide SkipSpace, ScanString, ScanValue, Unquote, LocateMember;
    var k := StringStart(s, p, st);
    if k.Some? {
      var e := ScanString(s, k.value + 1);
      if e.None? {
        NoKeyNoMember(s, k.value);
      } else if KeyAt(s, k.value) == MODEL {
        ModelUnfolds(s, k.value, e.value);
      } else {
        OtherUnfolds(s, k.value, e.value);
      }
    }
  }

  lemma {:induction false} SpacesAreNotQuotes(s: Bytes, i: nat)
    requires i <= |s|
    ensures forall k | i <= k < SkipSpace(s, i) :: s[k] != QUOTE
    decreases |s| - i
  {
    if i < |s| && IsSpace(s[i]) {
      SpacesAreNotQuotes(s, i + 1);
    }
  }

  method IndexByte(s: Bytes, from: nat, b: Byte) returns (i: nat)
    requires from <= |s|
    ensures from <= i <= |s| && (forall k | from <= k < i :: s[k] != b) && (i < |s| ==> s[i] == b)
  {
    i := from;
    while i < |s| && s[i] != b
      invariant from <= i <= |s| && forall k | from <= k < i :: s[k] != b
    {
      i := i + 1;
    }
  }

  /** The first quote after the key opens the value, since only spaces and the colon come between. */
  lemma FirstQuoteOpensValue(s: Bytes, p: nat, q: nat)
    requires p <= q <= |s| && StringToken(s, p, ObjectColon).Some?
    requires (forall k | p <= k < q :: s[k] != QUOTE) && (q < |s| ==> s[q] == QUOTE)
    ensures StringStart(s, p, ObjectColon) == Some(q)
  {
    hide SkipSpace, ScanString, Unquote;
    var c := SkipSpace(s, p);
    SpacesAreNotQuotes(s, p);
    SpacesAreNotQuotes(s, c + 1);
  }

  lemma SpacesDoNotMatter(s: Bytes, p: nat, q: nat, st: TokenState)
    requires p <= |s| && q <= |s| && SkipSpace(s, p) == SkipSpace(s, q)
    ensures Rest(s, p, st) == Rest(s, q, st)
  {
    hide SkipSpace, LocateMember;
  }

  lemma NothingAfterBrace(s: Bytes, p: nat, st: TokenState)
    requires p <= |s| && (st == ObjectStart || st == ObjectComma)
    requires var i := SkipSpace(s, p); i == |s| || s[i] == CLOSE_BRACE || s[i] == CLOSE_BRACKET
    ensures Rest(s, p, st) == None
  {
    hide SkipSpace, LocateMember;
  }

  /** `locateTopLevelModelValue`: the decoder loop finds exactly what the grammar says. */
  method LocateTopLevelModelValue(data: Bytes) returns (f: Option<Found>)
    ensures f == Locate(data)
  {
    hide SkipSpace, ScanString, ScanValue, Unquote, LocateMember, StringStart, StringToken, SkipMember, Rest;
    LocateStarts(data);
    var dec := new Decoder(data);
    var tok := dec.Token();
    if tok != Some(Delim(OPEN_BRACE)) {
      return None;
    }
    while true
      invariant dec.data == data && dec.Valid() && (dec.state == ObjectStart || dec.state == ObjectComma)
      invariant fresh(dec) && Locate(data) == Rest(data, dec.scanp, dec.state)
      decreases |data| - dec.scanp
    {
      ghost var before := dec.scanp;
      var more := dec.More();
      SpacesDoNotMatter(data, before, dec.scanp, dec.state);
      if !more {
        NothingAfterBrace(data, dec.scanp, dec.state);
        return None;
      }
      RestUnfolds(data, dec.scanp, dec.state);
      var keyTok := dec.Token();
      if keyTok.None? || !keyTok.value.Str? {
        return None;
      }
      if keyTok.value.value != MODEL {
        var skip := dec.Decode();
        if skip.None? {
          return None;
        }
        continue;
      }
      var afterKey := dec.scanp;
      var valTok := dec.Token();
      if valTok.None? || !valTok.value.Str? {
        return None;
      }
      var valueStart := IndexByte(data, afterKey, QUOTE);
      FirstQuoteOpensValue(data, afterKey, valueStart);
      return Some(Found(valueStart, dec.scanp, valTok.value.value));
    }
  }
}
