/** The hex step of `sha256(_:)`: each byte of the SHA-256 digest formatted
    with `%02x` and the pieces joined. The hash itself is a parameter. */
module Digest {
  import opened AuthTypes

  /** A SHA-256 digest: 32 bytes. */
  type Sha256Digest = s: seq<UInt8> | |s| == 32 witness seq(32, _ => 0)

  /** A lower-case hexadecimal digit, as `%x` prints it. */
  predicate IsLowerHex(c: char)
  {
    '0' <= c <= '9' || 'a' <= c <= 'f'
  }

  function HexDigit(d: int): (c: char)
    requires 0 <= d < 16
    ensures IsLowerHex(c)
  {
    if d < 10 then ('0' as int + d) as char else ('a' as int + d - 10) as char
  }

  function HexDigitValue(c: char): (r: Option<int>)
    ensures r.Some? <==> IsLowerHex(c)
    ensures r.Some? ==> 0 <= r.value < 16 && HexDigit(r.value) == c
  {
    if '0' <= c <= '9' then Some(c as int - '0' as int)
    else if 'a' <= c <= 'f' then Some(c as int - 'a' as int + 10)
    else None
  }

  /** `String(format: "%02x", byte)`: two digits, the high nibble first,
      padded with a zero. */
  function HexByte(b: UInt8): (r: string)
    ensures |r| == 2 && IsLowerHex(r[0]) && IsLowerHex(r[1])
    ensures HexDigitValue(r[0]).value * 16 + HexDigitValue(r[1]).value == b
  {
    [HexDigit(b / 16), HexDigit(b % 16)]
  }

  /** The map over the bytes followed by `joined()`. */
  function Hex(bytes: seq<UInt8>): (r: string)
    ensures |r| == 2 * |bytes|
    ensures forall i :: 0 <= i < |r| ==> IsLowerHex(r[i])
  {
    if bytes == [] then "" else HexByte(bytes[0]) + Hex(bytes[1..])
  }

  /** Reads a string of digit pairs back into bytes. */
  function ParseHex(s: string): Option<seq<UInt8>>
    decreases |s|
  {
    if s == [] then Some([])
    else if |s| == 1 then None
    else
      match (HexDigitValue(s[0]), HexDigitValue(s[1]), ParseHex(s[2..]))
      case (Some(hi), Some(lo), Some(rest)) => Some([hi * 16 + lo] + rest)
      case _ => None
  }

  /** The rendering loses nothing: the digest can be read back from it. */
  lemma {:induction false} ParseHexInverse(bytes: seq<UInt8>)
    ensures ParseHex(Hex(bytes)) == Some(bytes)
    decreases |bytes|
  {
    if bytes != [] {
      var h := Hex(bytes);
      ParseHexInverse(bytes[1..]);
      assert h[2..] == Hex(bytes[1..]);
      assert [bytes[0]] + bytes[1..] == bytes;
    }
  }

  /** Byte i of the digest is rendered at positions 2i and 2i + 1. */
  lemma {:induction false} HexAt(bytes: seq<UInt8>, i: nat)
    requires i < |bytes|
    ensures Hex(bytes)[2 * i..2 * i + 2] == HexByte(bytes[i])
    decreases i
  {
    if i > 0 {
      HexAt(bytes[1..], i - 1);
      assert Hex(bytes)[2..] == Hex(bytes[1..]);
    }
  }

  /** `sha256(_:)`: the hex rendering of the digest of the input. */
  function Sha256(hash: string -> Sha256Digest, input: string): (r: string)
    ensures |r| == 64
    ensures forall i :: 0 <= i < |r| ==> IsLowerHex(r[i])
    ensures ParseHex(r) == Some(hash(input))
  {
    ParseHexInverse(hash(input));
    Hex(hash(input))
  }
}
