/** Go strings and byte slices. */
module ByteStrings {
  type Byte = b: int | 0 <= b < 256
  type Bytes = seq<Byte>

  /** The bytes of a text in ASCII. */
  function Ascii(text: string): (b: Bytes)
    requires forall i | 0 <= i < |text| :: text[i] as int < 128
    ensures |b| == |text| && forall i | 0 <= i < |b| :: b[i] == text[i] as int
  {
    seq(|text|, i requires 0 <= i < |text| => text[i] as int)
  }
}
