/**
 * Node's `Buffer.prototype.toString("hex")`: each byte becomes two lower-case
 * hexadecimal digits, high nibble first. The moderator schema builds its
 * default access token this way from 128 random bytes.
 */
module Hex {
  import opened Wrappers

  type byte = x: int | 0 <= x < 256

  predicate IsHexDigit(c: char) {
    ('0' <= c <= '9') || ('a' <= c <= 'f')
  }

  /** The lower-case digit of a nibble. */
  function Digit(n: int): (c: char)
    requires 0 <= n < 16
    ensures IsHexDigit(c)
  {
    if n < 10 then (48 + n) as char else (87 + n) as char
  }

  /** The nibble a digit stands for; `None` for anything that is not a
      lower-case hexadecimal digit. */
  function DigitValue(c: char): (v: Option<int>)
    ensures v.Some? <==> IsHexDigit(c)
    ensures v.Some? ==> 0 <= v.value < 16 && Digit(v.value) == c
  {
    if '0' <= c <= '9' then Some(c as int - 48)
    else if 'a' <= c <= 'f' then Some(c as int - 87)
    else None
  }

  function Encode(bytes: seq<byte>): (s: string)
    ensures |s| == 2 * |bytes|
    ensures forall i :: 0 <= i < |s| ==> IsHexDigit(s[i])
  {
    if bytes == [] then "" else [Digit(bytes[0] / 16), Digit(bytes[0] % 16)] + Encode(bytes[1..])
  }

  /** Reads pairs of digits back into bytes; `None` for an odd length or a
      character that is not a digit. */
  function Decode(s: string): (r: Option<seq<byte>>)
    ensures r.Some? ==> 2 * |r.value| == |s|
  {
    if |s| < 2 then (if s == [] then Some([]) else None)
    else match (DigitValue(s[0]), DigitValue(s[1]), Decode(s[2..]))
      case (Some(hi), Some(lo), Some(rest)) => Some([16 * hi + lo] + rest)
      case _ => None
  }

  /** Decoding undoes encoding, so the hex text carries every bit of the bytes. */
  lemma {:induction false} DecodeEncode(bytes: seq<byte>)
    ensures Decode(Encode(bytes)) == Some(bytes)
  {
    if bytes != [] {
      var b := bytes[0];
      var s := Encode(bytes);
      assert s[2..] == Encode(bytes[1..]);
      DecodeEncode(bytes[1..]);
      assert DigitValue(s[0]) == Some(b / 16);
      assert DigitValue(s[1]) == Some(b % 16);
      assert [b] + bytes[1..] == bytes;
    }
  }

  /** Distinct bytes give distinct hex text. */
  lemma EncodeInjective(a: seq<byte>, b: seq<byte>)
    requires Encode(a) == Encode(b)
    ensures a == b
  {
    DecodeEncode(a);
    DecodeEncode(b);
  }
}
