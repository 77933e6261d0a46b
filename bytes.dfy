/** Go's byte slices and strings. A Go `string` is a sequence of bytes; here it is a
    Dafny string whose every character is below 256, so that the conversions
    `string(b)` and `[]byte(s)` are exact inverses. */
module Bytes {

  newtype byte = x: int | 0 <= x < 256

  /** Every character of `s` stands for one byte. */
  predicate IsByteString(s: string) {
    forall i | 0 <= i < |s| :: s[i] as int < 256
  }

  /** Go's `string(b)`. */
  function ToString(b: seq<byte>): (s: string)
    ensures IsByteString(s)
  {
    seq(|b|, i requires 0 <= i < |b| => b[i] as int as char)
  }

  /** Go's `[]byte(s)`. */
  function ToBytes(s: string): seq<byte>
    requires IsByteString(s)
  {
    seq(|s|, i requires 0 <= i < |s| => s[i] as int as byte)
  }

  lemma ToBytesToString(b: seq<byte>)
    ensures ToBytes(ToString(b)) == b
  {
  }

  lemma ToStringToBytes(s: string)
    requires IsByteString(s)
    ensures ToString(ToBytes(s)) == s
  {
  }

}
