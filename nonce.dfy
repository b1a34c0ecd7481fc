/** The nonce generator of the Apple sign-in flow (`randomNonceString`, which
    AppleAuthProvider.swift and SimplifiedAuthKit.swift both carry, verbatim).

    The secure random source is the parameter `rng`: the bytes that
    `SecRandomCopyBytes` would deliver, in the order they are drawn. The
    generator draws them 16 at a time, keeps a byte only if it is below the
    size of the alphabet, and maps each kept byte to the alphabet symbol it
    indexes, until `length` symbols exist. */
module Nonce {
  import opened AuthTypes

  /** The alphabet of the source, character for character, written here as
      its five runs: digits, upper case, lower case and three marks. The
      upper-case run skips the letter 'W' (…UV, XY…), so it has 64 symbols. */
  const Charset: string :=
    "0123456789" + "ABCDEFGHIJKLMNOPQRSTUV" + "XYZ" + "abcdefghijklmnopqrstuvwxyz" + "-._"

  /** The alphabet size the generator compares each byte against. */
  const CharsetCount: nat := 64

  /** The number of random bytes drawn per round. */
  const BatchSize: nat := 16

  /** The `length` argument's default value. */
  const DefaultLength: nat := 32

  /** A byte the generator keeps: an index into the alphabet. */
  type Symbol = b: UInt8 | b < 64

  /** The character `Charset[b]`, computed from the runs it falls in. */
  function CharsetSymbol(b: Symbol): char
  {
    if b < 10 then ('0' as int + b) as char
    else if b < 32 then ('A' as int + b - 10) as char
    else if b < 35 then ('X' as int + b - 32) as char
    else if b < 61 then ('a' as int + b - 35) as char
    else if b == 61 then '-'
    else if b == 62 then '.'
    else '_'
  }

  lemma CharsetAt(b: Symbol)
    ensures |Charset| == CharsetCount
    ensures Charset[b] == CharsetSymbol(b)
  {
  }

  /** The position of a character in the alphabet, if it has one. */
  function CharsetIndex(c: char): Option<Symbol>
  {
    if '0' <= c <= '9' then Some(c as int - '0' as int)
    else if 'A' <= c <= 'V' then Some(c as int - 'A' as int + 10)
    else if 'X' <= c <= 'Z' then Some(c as int - 'X' as int + 32)
    else if 'a' <= c <= 'z' then Some(c as int - 'a' as int + 35)
    else if c == '-' then Some(61)
    else if c == '.' then Some(62)
    else if c == '_' then Some(63)
    else None
  }

  /** Each alphabet character is found at its own position, and only a
      character of the alphabet is found at all; so the 64 characters are
      distinct and 'W' is not among them. */
  lemma CharsetIndexInverse(b: Symbol, c: char)
    ensures CharsetIndex(Charset[b]) == Some(b)
    ensures CharsetIndex(c) == Some(b) ==> Charset[b] == c
    ensures Charset[b] != 'W'
  {
    CharsetAt(b);
  }

  lemma CharsetShape()
    ensures |Charset| == CharsetCount
    ensures 'W' !in Charset
    ensures forall i, j :: 0 <= i < j < |Charset| ==> Charset[i] != Charset[j]
  {
    CharsetAt(0);
    forall i | 0 <= i < |Charset| ensures Charset[i] != 'W' {
      CharsetIndexInverse(i, 'W');
    }
    forall i, j | 0 <= i < j < |Charset| ensures Charset[i] != Charset[j] {
      CharsetIndexInverse(i, 'W');
      CharsetIndexInverse(j, 'W');
    }
  }

  function Min(a: int, b: int): int
  {
    if a <= b then a else b
  }

  /** The bytes the generator keeps, in the order drawn: those below the
      alphabet size. */
  function Accepted(bytes: seq<UInt8>): (r: seq<Symbol>)
    ensures |r| <= |bytes|
  {
    if bytes == [] then []
    else
      var last := bytes[|bytes| - 1];
      Accepted(bytes[..|bytes| - 1]) + (if last < CharsetCount then [last as Symbol] else [])
  }

  /** The symbols the kept bytes stand for. */
  function Encode(bytes: seq<Symbol>): (r: string)
    ensures |r| == |bytes|
  {
    if bytes == [] then ""
    else Encode(bytes[..|bytes| - 1]) + [CharsetSymbol(bytes[|bytes| - 1])]
  }

  /** The i-th symbol of an encoding is the one the i-th byte indexes. */
  lemma {:induction false} EncodeAt(bytes: seq<Symbol>, i: nat)
    requires i < |bytes|
    ensures Encode(bytes)[i] == Charset[bytes[i]]
    decreases |bytes|
  {
    if i < |bytes| - 1 {
      EncodeAt(bytes[..|bytes| - 1], i);
    } else {
      CharsetAt(bytes[i]);
    }
  }

  /** Reads a nonce back into the alphabet positions it was made from. */
  function Decode(s: string): Option<seq<Symbol>>
  {
    if s == [] then Some([])
    else
      match (Decode(s[..|s| - 1]), CharsetIndex(s[|s| - 1]))
      case (Some(prefix), Some(b)) => Some(prefix + [b])
      case _ => None
  }

  /** Encoding loses nothing: distinct kept bytes give distinct nonces. */
  lemma {:induction false} DecodeEncode(bytes: seq<Symbol>)
    ensures Decode(Encode(bytes)) == Some(bytes)
    decreases |bytes|
  {
    if bytes != [] {
      var init := bytes[..|bytes| - 1];
      var last := bytes[|bytes| - 1];
      DecodeEncode(init);
      CharsetAt(last);
      CharsetIndexInverse(last, 'W');
      var e := Encode(bytes);
      assert e[..|e| - 1] == Encode(init);
      assert init + [last] == bytes;
    }
  }

  /** The nonce a random source yields: the symbols of its first `length`
      kept bytes. */
  function NonceFrom(rng: seq<UInt8>, length: nat): (r: string)
    requires length <= |Accepted(rng)|
    ensures |r| == length
  {
    Encode(Accepted(rng)[..length])
  }

  /** Filtering distributes over concatenation: what is kept from a stream is
      what is kept from each part, in order. */
  lemma {:induction false} AcceptedAppend(a: seq<UInt8>, b: seq<UInt8>)
    ensures Accepted(a + b) == Accepted(a) + Accepted(b)
    decreases |b|
  {
    if b == [] {
      assert a + b == a;
    } else {
      var b' := b[..|b| - 1];
      assert (a + b)[..|a + b| - 1] == a + b';
      AcceptedAppend(a, b');
    }
  }

  /** A byte is kept if and only if it is below the alphabet size. */
  lemma AcceptedSingle(x: UInt8)
    ensures Accepted([x]) == if x < CharsetCount then [x] else []
  {
    assert [x][..0] == [];
  }

  /** A stream whose bytes are all below 64 is kept whole. */
  lemma {:induction false} AcceptedAllSmall(bytes: seq<UInt8>)
    requires forall i :: 0 <= i < |bytes| ==> bytes[i] < CharsetCount
    ensures Accepted(bytes) == bytes
    decreases |bytes|
  {
    if bytes != [] {
      AcceptedAllSmall(bytes[..|bytes| - 1]);
    }
  }

  /** Bytes drawn after the nonce is complete do not change it. */
  lemma NonceIgnoresLaterBytes(rng: seq<UInt8>, later: seq<UInt8>, length: nat)
    requires length <= |Accepted(rng)|
    ensures length <= |Accepted(rng + later)|
    ensures NonceFrom(rng + later, length) == NonceFrom(rng, length)
  {
    AcceptedAppend(rng, later);
    assert Accepted(rng + later)[..length] == Accepted(rng)[..length];
  }

  /** Every symbol of a nonce belongs to the alphabet, and its i-th symbol is
      the one indexed by the i-th kept byte. */
  lemma NonceSymbols(rng: seq<UInt8>, length: nat)
    requires length <= |Accepted(rng)|
    ensures |NonceFrom(rng, length)| == length
    ensures forall i :: 0 <= i < length ==>
      NonceFrom(rng, length)[i] == Charset[Accepted(rng)[i]] && NonceFrom(rng, length)[i] in Charset
  {
    forall i | 0 <= i < length
      ensures NonceFrom(rng, length)[i] == Charset[Accepted(rng)[i]]
    {
      EncodeAt(Accepted(rng)[..length], i);
    }
  }

  lemma AcceptedSnoc(bytes: seq<UInt8>, pos: nat)
    requires pos < |bytes|
    ensures Accepted(bytes[..pos + 1])
         == Accepted(bytes[..pos]) + (if bytes[pos] < CharsetCount then [bytes[pos]] else [])
  {
    assert bytes[..pos + 1][..pos] == bytes[..pos];
  }

  lemma EncodeSnoc(bytes: seq<Symbol>, x: Symbol)
    ensures Encode(bytes + [x]) == Encode(bytes) + [CharsetSymbol(x)]
  {
    assert (bytes + [x])[..|bytes|] == bytes;
  }

  /** The generator's state after it has scanned the first `pos` bytes of
      the source, byte by byte: a byte contributes its symbol when it is kept
      and fewer than `length` symbols exist. */
  function Partial(rng: seq<UInt8>, pos: nat, length: nat): string
    requires pos <= |rng|
  {
    if pos == 0 then ""
    else
      var prev := Partial(rng, pos - 1, length);
      var x := rng[pos - 1];
      if |prev| < length && x < CharsetCount then prev + [CharsetSymbol(x)] else prev
  }

  /** The byte-by-byte scan yields the symbols of the first `length` kept
      bytes, or of all of them when fewer were kept. */
  lemma {:induction false} PartialIsPrefixOfNonce(rng: seq<UInt8>, pos: nat, length: nat)
    requires pos <= |rng|
    ensures |Partial(rng, pos, length)| == Min(length, |Accepted(rng[..pos])|)
    ensures Partial(rng, pos, length) == Encode(Accepted(rng[..pos])[..Min(length, |Accepted(rng[..pos])|)])
    decreases pos
  {
    if pos == 0 {
      assert rng[..0] == [];
    } else {
      PartialIsPrefixOfNonce(rng, pos - 1, length);
      AcceptedSnoc(rng, pos - 1);
      var x := rng[pos - 1];
      var prevAcc := Accepted(rng[..pos - 1]);
      var prev := Partial(rng, pos - 1, length);
      if x < CharsetCount {
        assert Accepted(rng[..pos]) == prevAcc + [x as Symbol];
        KeptByteStep(prevAcc, x, length);
        if |prevAcc| < length {
          assert Partial(rng, pos, length) == prev + [CharsetSymbol(x)];
        } else {
          assert Partial(rng, pos, length) == prev;
        }
      } else {
        assert Accepted(rng[..pos]) == prevAcc;
        assert Partial(rng, pos, length) == prev;
      }
    }
  }

  lemma KeptByteStep(prevAcc: seq<Symbol>, x: Symbol, length: nat)
    ensures |prevAcc| < length ==>
      Encode((prevAcc + [x])[..Min(length, |prevAcc| + 1)]) == Encode(prevAcc[..Min(length, |prevAcc|)]) + [CharsetSymbol(x)]
    ensures |prevAcc| >= length ==>
      (prevAcc + [x])[..Min(length, |prevAcc| + 1)] == prevAcc[..Min(length, |prevAcc|)]
  {
    if |prevAcc| < length {
      assert (prevAcc + [x])[..|prevAcc| + 1] == prevAcc + [x];
      assert prevAcc[..|prevAcc|] == prevAcc;
      EncodeSnoc(prevAcc, x);
    } else {
      assert (prevAcc + [x])[..length] == prevAcc[..length];
    }
  }

  /** Once `length` bytes have been kept, the scan has produced the nonce. */
  lemma PartialComplete(rng: seq<UInt8>, pos: nat, length: nat)
    requires pos <= |rng|
    requires length <= |Accepted(rng[..pos])|
    ensures length <= |Accepted(rng)|
    ensures Partial(rng, pos, length) == NonceFrom(rng, length)
  {
    PartialIsPrefixOfNonce(rng, pos, length);
    AcceptedAppend(rng[..pos], rng[pos..]);
    assert rng[..pos] + rng[pos..] == rng;
    assert Accepted(rng)[..length] == Accepted(rng[..pos])[..length];
  }

  lemma BatchFits(drawn: nat, total: nat)
    requires drawn % BatchSize == 0 && total % BatchSize == 0 && drawn < total
    ensures drawn + BatchSize <= total
    ensures (drawn + BatchSize) % BatchSize == 0
  {
  }

  /** `randomNonceString(length:)`. Each round draws a batch of 16 bytes; a
      batch is scanned to its end even after the nonce is complete, and the
      bytes scanned after that are discarded. `drawn` is the number of bytes
      taken from the source: whole batches, and no batch more than needed.
      The source must hold enough kept bytes, in whole batches, for the loop
      to end; the real source is unbounded. */
  method RandomNonceString(length: int, rng: seq<UInt8>) returns (result: string, drawn: nat)
    requires length > 0
    requires |rng| % BatchSize == 0
    requires length <= |Accepted(rng)|
    ensures result == NonceFrom(rng, length)
    ensures |result| == length
    ensures forall i :: 0 <= i < |result| ==> result[i] in Charset
    ensures drawn % BatchSize == 0 && BatchSize <= drawn <= |rng|
    ensures |Accepted(rng[..drawn - BatchSize])| < length <= |Accepted(rng[..drawn])|
  {
    result := "";
    var remainingLength := length;
    drawn := 0;
    while remainingLength > 0
      invariant drawn % BatchSize == 0 && drawn <= |rng|
      invariant result == Partial(rng, drawn, length)
      invariant remainingLength == length - |result|
      invariant drawn > 0 ==> BatchSize <= drawn && |Accepted(rng[..drawn - BatchSize])| < length
      decreases |rng| - drawn
    {
      PartialIsPrefixOfNonce(rng, drawn, length);
      assert rng[..|rng|] == rng;
      BatchFits(drawn, |rng|);
      var randoms := rng[drawn..drawn + BatchSize];
      for j := 0 to BatchSize
        invariant result == Partial(rng, drawn + j, length)
        invariant remainingLength == length - |result|
      {
        var random := randoms[j];
        if remainingLength == 0 {
          continue;
        }
        if random < CharsetCount {
          CharsetAt(random);
          result := result + [Charset[random]];
          remainingLength := remainingLength - 1;
        }
      }
      drawn := drawn + BatchSize;
    }
    assert drawn != 0;
    PartialIsPrefixOfNonce(rng, drawn, length);
    PartialComplete(rng, drawn, length);
    NonceSymbols(rng, length);
  }
}
