/**
 The part of JSON (RFC 8259) that the proxy's body scan relies on: a scanner
 that finds where a value ends, and the unescaping of string literals as
 encoding/json does it.  Positions are byte offsets into the body.
 */
module Json {
  import opened ByteStrings
  import opened Lifecycle

  const QUOTE: Byte := 0x22
  const BACKSLASH: Byte := 0x5C
  const SLASH: Byte := 0x2F
  const COMMA: Byte := 0x2C
  const COLON: Byte := 0x3A
  const OPEN_BRACE: Byte := 0x7B
  const CLOSE_BRACE: Byte := 0x7D
  const OPEN_BRACKET: Byte := 0x5B
  const CLOSE_BRACKET: Byte := 0x5D
  const MINUS: Byte := 0x2D
  const PLUS: Byte := 0x2B
  const DOT: Byte := 0x2E
  const ZERO: Byte := 0x30
  const LOWER_U: Byte := 0x75

  const TRUE_TEXT: Bytes := [0x74, 0x72, 0x75, 0x65]
  const FALSE_TEXT: Bytes := [0x66, 0x61, 0x6C, 0x73, 0x65]
  const NULL_TEXT: Bytes := [0x6E, 0x75, 0x6C, 0x6C]
  const MODEL: Bytes := [0x6D, 0x6F, 0x64, 0x65, 0x6C]

  // ---- scanning: where does a value end? ----

  predicate IsSpace(b: Byte) {
    b == 0x20 || b == 0x09 || b == 0x0A || b == 0x0D
  }

  predicate IsDigit(b: Byte) {
    ZERO <= b <= 0x39
  }

  predicate IsHex(b: Byte) {
    IsDigit(b) || 0x41 <= b <= 0x46 || 0x61 <= b <= 0x66
  }

  /** Section 2: insignificant white space. */
  function SkipSpace(s: Bytes, i: nat): (r: nat)
    requires i <= |s|
    ensures i <= r <= |s|
    decreases |s| - i
  {
    if i < |s| && IsSpace(s[i]) then SkipSpace(s, i + 1) else i
  }

  predicate At(s: Bytes, i: nat, b: Byte) {
    i < |s| && s[i] == b
  }

  predicate FourHex(s: Bytes, i: nat) {
    i + 4 <= |s| && IsHex(s[i]) && IsHex(s[i + 1]) && IsHex(s[i + 2]) && IsHex(s[i + 3])
  }

  predicate SimpleEscape(b: Byte) {
    b == QUOTE || b == BACKSLASH || b == SLASH || b == 0x62 || b == 0x66 || b == 0x6E || b == 0x72 || b == 0x74
  }

  /** Section 7: from inside a string, the position after its closing quote. */
  function ScanString(s: Bytes, i: nat): (r: Option<nat>)
    ensures r.Some? ==> i < r.value <= |s| && s[r.value - 1] == QUOTE
    decreases |s| - i
  {
    if i >= |s| || s[i] < 0x20 then None
    else if s[i] == QUOTE then Some(i + 1)
    else if s[i] != BACKSLASH then ScanString(s, i + 1)
    else if i + 1 < |s| && SimpleEscape(s[i + 1]) then ScanString(s, i + 2)
    else if At(s, i + 1, LOWER_U) && FourHex(s, i + 2) then ScanString(s, i + 6)
    else None
  }

  function SkipDigits(s: Bytes, i: nat): (r: nat)
    requires i <= |s|
    ensures i <= r <= |s|
    decreases |s| - i
  {
    if i < |s| && IsDigit(s[i]) then SkipDigits(s, i + 1) else i
  }

  /** At least one digit. */
  function ScanDigits(s: Bytes, i: nat): (r: Option<nat>)
    ensures r.Some? ==> i < r.value <= |s|
  {
    if i < |s| && IsDigit(s[i]) then Some(SkipDigits(s, i + 1)) else None
  }

  function ScanInteger(s: Bytes, i: nat): (r: Option<nat>)
    ensures r.Some? ==> i < r.value <= |s|
  {
    if At(s, i, ZERO) then Some(i + 1) else ScanDigits(s, i)
  }

  function ScanFraction(s: Bytes, i: nat): (r: Option<nat>)
    requires i <= |s|
    ensures r.Some? ==> i <= r.value <= |s|
  {
    if At(s, i, DOT) then ScanDigits(s, i + 1) else Some(i)
  }

  function ScanExponent(s: Bytes, i: nat): (r: Option<nat>)
    requires i <= |s|
    ensures r.Some? ==> i <= r.value <= |s|
  {
    if At(s, i, 0x65) || At(s, i, 0x45) then
      ScanDigits(s, if At(s, i + 1, PLUS) || At(s, i + 1, MINUS) then i + 2 else i + 1)
    else Some(i)
  }

  /** Section 6: numbers. */
  function ScanNumber(s: Bytes, i: nat): (r: Option<nat>)
    ensures r.Some? ==> i < r.value <= |s|
  {
    var a := ScanInteger(s, if At(s, i, MINUS) then i + 1 else i);
    if a.None? then None
    else
      var b := ScanFraction(s, a.value);
      if b.None? then None else ScanExponent(s, b.value)
  }

  function ScanText(s: Bytes, i: nat, text: Bytes): (r: Option<nat>)
    requires text != []
    ensures r.Some? ==> i < r.value <= |s|
  {
    if i + |text| <= |s| && s[i..i + |text|] == text then Some(i + |text|) else None
  }

  /** Section 3: from the first byte of a value, the position after it. */
  function ScanValue(s: Bytes, i: nat): (r: Option<nat>)
    ensures r.Some? ==> i < r.value <= |s|
    decreases |s| - i, 2
  {
    if i >= |s| then None
    else if s[i] == QUOTE then ScanString(s, i + 1)
    else if s[i] == OPEN_BRACE then
      var k := SkipSpace(s, i + 1);
      if At(s, k, CLOSE_BRACE) then Some(k + 1) else ScanMembers(s, k)
    else if s[i] == OPEN_BRACKET then
      var k := SkipSpace(s, i + 1);
      if At(s, k, CLOSE_BRACKET) then Some(k + 1) else ScanElements(s, k)
    else if s[i] == 0x74 then ScanText(s, i, TRUE_TEXT)
    else if s[i] == 0x66 then ScanText(s, i, FALSE_TEXT)
    else if s[i] == 0x6E then ScanText(s, i, NULL_TEXT)
    else ScanNumber(s, i)
  }

  /** A key at `i`, its colon and its value: the position of the value, if the colon is there. */
  function ScanKey(s: Bytes, i: nat): (r: Option<nat>)
    ensures r.Some? ==> i < r.value <= |s|
  {
    if !At(s, i, QUOTE) then None
    else
      var k := ScanString(s, i + 1);
      if k.None? then None
      else
        var c := SkipSpace(s, k.value);
        if At(s, c, COLON) then Some(SkipSpace(s, c + 1)) else None
  }

  /** Section 4: the members of an object, from the first key to the position after the closing brace. */
  function ScanMembers(s: Bytes, i: nat): (r: Option<nat>)
    ensures r.Some? ==> i < r.value <= |s|
    decreases |s| - i, 3
  {
    var v := ScanKey(s, i);
    if v.None? then None
    else
      var e := ScanValue(s, v.value);
      if e.None? then None
      else
        var n := SkipSpace(s, e.value);
        if At(s, n, CLOSE_BRACE) then Some(n + 1)
        else if At(s, n, COMMA) then ScanMembers(s, SkipSpace(s, n + 1))
        else None
  }

  /** Section 5: the elements of an array. */
  function ScanElements(s: Bytes, i: nat): (r: Option<nat>)
    ensures r.Some? ==> i < r.value <= |s|
    decreases |s| - i, 3
  {
    var e := ScanValue(s, i);
    if e.None? then None
    else
      var n := SkipSpace(s, e.value);
      if At(s, n, CLOSE_BRACKET) then Some(n + 1)
      else if At(s, n, COMMA) then ScanElements(s, SkipSpace(s, n + 1))
      else None
  }

  // ---- unescaping ----

  const REPLACEMENT: Bytes := [0xEF, 0xBF, 0xBD]

  function HexValue(b: Byte): (r: nat)
    ensures r < 16
  {
    if IsDigit(b) then b - ZERO
    else if 0x41 <= b <= 0x46 then b - 0x41 + 10
    else if 0x61 <= b <= 0x66 then b - 0x61 + 10
    else 0
  }

  function CodeUnit(s: Bytes, i: nat): (r: nat)
    requires FourHex(s, i)
    ensures r < 0x10000
  {
    HexValue(s[i]) * 0x1000 + HexValue(s[i + 1]) * 0x100 + HexValue(s[i + 2]) * 0x10 + HexValue(s[i + 3])
  }

  /** UTF-8 of a code point that is not a surrogate. */
  function Encode(r: nat): (out: Bytes)
    requires r < 0x110000
    ensures 1 <= |out| <= 4
  {
    if r < 0x80 then [r]
    else if r < 0x800 then [0xC0 + r / 0x40, 0x80 + r % 0x40]
    else if r < 0x10000 then [0xE0 + r / 0x1000, 0x80 + r / 0x40 % 0x40, 0x80 + r % 0x40]
    else [0xF0 + r / 0x40000, 0x80 + r / 0x1000 % 0x40, 0x80 + r / 0x40 % 0x40, 0x80 + r % 0x40]
  }

  predicate Continues(s: Bytes, i: nat, lo: int, hi: int) {
    i < |s| && lo <= s[i] <= hi
  }

  /** The length of the well-formed multi-byte sequence at `i` (table 3-7 of the Unicode standard), or 0. */
  function RuneLength(s: Bytes, i: nat): (n: nat)
    requires i < |s|
    ensures n <= 4 && i + n <= |s|
  {
    var b := s[i];
    if 0xC2 <= b <= 0xDF then
      if Continues(s, i + 1, 0x80, 0xBF) then 2 else 0
    else if 0xE0 <= b <= 0xEF then
      var lo, hi := if b == 0xE0 then 0xA0 else 0x80, if b == 0xED then 0x9F else 0xBF;
      if Continues(s, i + 1, lo, hi) && Continues(s, i + 2, 0x80, 0xBF) then 3 else 0
    else if 0xF0 <= b <= 0xF4 then
      var lo, hi := if b == 0xF0 then 0x90 else 0x80, if b == 0xF4 then 0x8F else 0xBF;
      if Continues(s, i + 1, lo, hi) && Continues(s, i + 2, 0x80, 0xBF) && Continues(s, i + 3, 0x80, 0xBF) then 4 else 0
    else 0
  }

  /** One step of unescaping: bytes consumed and bytes produced. */
  datatype Chunk = Chunk(len: nat, out: Bytes)

  function SimpleValue(b: Byte): Byte {
    if b == 0x62 then 0x08 else if b == 0x66 then 0x0C else if b == 0x6E then 0x0A
    else if b == 0x72 then 0x0D else if b == 0x74 then 0x09 else b
  }

  /** A `\u` escape, with the second half of a surrogate pair if one follows; a lone surrogate is replaced. */
  function UnicodeChunk(x: Bytes, i: nat): (c: Chunk)
    requires FourHex(x, i + 2)
    ensures c.len <= |x| - i && 1 <= |c.out| < c.len
  {
    var hi := CodeUnit(x, i + 2);
    if !(0xD800 <= hi < 0xE000) then Chunk(6, Encode(hi))
    else if hi < 0xDC00 && At(x, i + 6, BACKSLASH) && At(x, i + 7, LOWER_U) && FourHex(x, i + 8)
            && 0xDC00 <= CodeUnit(x, i + 8) < 0xE000 then
      Chunk(12, Encode((hi - 0xD800) * 0x400 + (CodeUnit(x, i + 8) - 0xDC00) + 0x10000))
    else Chunk(6, REPLACEMENT)
  }

  /** The next step inside a string literal's content. */
  function NextChunk(x: Bytes, i: nat): (c: Chunk)
    requires i < |x|
    ensures 1 <= c.len <= |x| - i
  {
    if x[i] == BACKSLASH then
      if i + 1 < |x| && SimpleEscape(x[i + 1]) then Chunk(2, [SimpleValue(x[i + 1])])
      else if At(x, i + 1, LOWER_U) && FourHex(x, i + 2) then UnicodeChunk(x, i)
      else Chunk(|x| - i, [])                       // not a literal's content
    else if x[i] < 0x80 then Chunk(1, [x[i]])
    else
      var n := RuneLength(x, i);
      if n == 0 then Chunk(1, REPLACEMENT) else Chunk(n, x[i..i + n])
  }

  /** The string that the content of a literal stands for. */
  function Unquote(x: Bytes, i: nat): Bytes
    requires i <= |x|
    decreases |x| - i
  {
    if i == |x| then [] else NextChunk(x, i).out + Unquote(x, i + NextChunk(x, i).len)
  }

  function Content(s: Bytes, i: nat, e: nat): Bytes
    requires i < e <= |s|
  {
    s[i..e - 1]
  }

  // ---- the top-level "model" member ----

  /** Where the quoted literal is (`end` is the position after it) and what it stands for. */
  datatype Found = Found(start: nat, end: nat, value: Bytes)

  /** The value literal at `v`, if there is a string there. */
  function Literal(s: Bytes, v: nat): (r: Option<Found>)
    ensures r.Some? ==> r.value.start == v && v < r.value.end <= |s| && At(s, v, QUOTE) && ScanString(s, v + 1) == Some(r.value.end)
  {
    if !At(s, v, QUOTE) then None
    else
      var e := ScanString(s, v + 1);
      if e.None? then None else Some(Found(v, e.value, Unquote(Content(s, v + 1, e.value), 0)))
  }

  function KeyAt(s: Bytes, i: nat): Bytes
    requires ScanString(s, i + 1).Some?
  {
    Unquote(Content(s, i + 1, ScanString(s, i + 1).value), 0)
  }

  /** The position of the member after the one whose value is at `v`. */
  function NextMember(s: Bytes, v: nat): (r: Option<nat>)
    ensures r.Some? ==> v < r.value <= |s|
  {
    var e := ScanValue(s, v);
    if e.None? then None
    else
      var n := SkipSpace(s, e.value);
      if At(s, n, COMMA) then Some(SkipSpace(s, n + 1)) else None
  }

  /** The first member named "model" among the members from `i` on. */
  function LocateMember(s: Bytes, i: nat): (r: Option<Found>)
    ensures r.Some? ==> i < r.value.start && Literal(s, r.value.start) == r
    decreases |s| - i
  {
    var v := ScanKey(s, i);
    if v.None? then None
    else if KeyAt(s, i) == MODEL then Literal(s, v.value)
    else
      var n := NextMember(s, v.value);
      if n.None? then None else LocateMember(s, n.value)
  }

  /** The value of the first top-level "model" member, if the body is an object up to there and the value is a string. */
  function Locate(s: Bytes): (r: Option<Found>)
    ensures r.Some? ==> Literal(s, r.value.start) == r
  {
    var b := SkipSpace(s, 0);
    if At(s, b, OPEN_BRACE) then LocateMember(s, SkipSpace(s, b + 1)) else None
  }
}
