/** Go byte slices and the `string(b)` / `[]byte(s)` conversions. A Go string
    is a sequence of bytes; the model keeps each byte as one character whose
    code is the byte's value, so no byte is lost or reinterpreted. */
module GoBytes {

  newtype Byte = b: int | 0 <= b < 256

  type Bytes = seq<Byte>

  /** `string(b)`. */
  function ToString(b: Bytes): (s: string)
    ensures |s| == |b|
    ensures forall i :: 0 <= i < |b| ==> s[i] as int == b[i] as int
  {
    seq(|b|, i requires 0 <= i < |b| => b[i] as int as char)
  }

  /** `[]byte(s)` for strings made of byte-valued characters. Neither `main`
      calls it; it is here as the inverse that shows `ToString` loses nothing. */
  function FromString(s: string): (b: Bytes)
    requires forall i :: 0 <= i < |s| ==> s[i] as int < 256
    ensures |b| == |s|
    ensures forall i :: 0 <= i < |s| ==> b[i] as int == s[i] as int
  {
    seq(|s|, i requires 0 <= i < |s| => s[i] as int as Byte)
  }

  /** Converting bytes to a string and back gives the same bytes. */
  lemma BytesRoundTrip(b: Bytes)
    ensures FromString(ToString(b)) == b
  {
  }
}
