/** The base32 text form of MFA secrets (the alphabet of section 6 of RFC 4648, without padding). */
module Base32 {
  import opened Common

  type Byte = b: nat | b < 256

  /** Five-bit value of a base32 character. */
  type Quintet = q: nat | q < 32

  const BASE32_ALPHABET := "ABCDEFGHIJKLMNOPQRSTUVWXYZ234567"

  // ---------------------------------------------------------------- bits

  function Pow2(n: nat): nat {
    if n == 0 then 1 else 2 * Pow2(n - 1)
  }

  /** Binary digits, most significant first, padded on the left to a width. */
  function ToBits(value: nat, width: nat): (bits: seq<bool>)
    ensures |bits| == width
  {
    if width == 0 then [] else ToBits(value / 2, width - 1) + [value % 2 == 1]
  }

  function FromBits(bits: seq<bool>): nat {
    if bits == [] then 0 else 2 * FromBits(bits[..|bits| - 1]) + if bits[|bits| - 1] then 1 else 0
  }

  lemma {:induction false} FromBitsIsBounded(bits: seq<bool>)
    ensures FromBits(bits) < Pow2(|bits|)
  {
    if bits != [] {
      FromBitsIsBounded(bits[..|bits| - 1]);
    }
  }

  lemma {:induction false} BitsOfValue(value: nat, width: nat)
    requires value < Pow2(width)
    ensures FromBits(ToBits(value, width)) == value
  {
    if width > 0 {
      BitsOfValue(value / 2, width - 1);
      var bits := ToBits(value, width);
      assert bits[..|bits| - 1] == ToBits(value / 2, width - 1);
    }
  }

  lemma {:induction false} ValueOfBits(bits: seq<bool>)
    ensures ToBits(FromBits(bits), |bits|) == bits
  {
    if bits != [] {
      ValueOfBits(bits[..|bits| - 1]);
      assert bits == bits[..|bits| - 1] + [bits[|bits| - 1]];
    }
  }

  // ---------------------------------------------------------------- characters

  predicate InAlphabet(c: char) {
    'A' <= c <= 'Z' || '2' <= c <= '7'
  }

  function Symbol(q: Quintet): (c: char)
    ensures InAlphabet(c)
  {
    if q < 26 then ('A' as int + q) as char else ('2' as int + q - 26) as char
  }

  function IndexOf(c: char): Quintet
    requires InAlphabet(c)
  {
    if 'A' <= c <= 'Z' then c as int - 'A' as int else c as int - '2' as int + 26
  }

  lemma AlphabetMeaning(q: Quintet, c: char)
    ensures BASE32_ALPHABET[q] == Symbol(q)
    ensures IndexOf(Symbol(q)) == q
    ensures InAlphabet(c) ==> Symbol(IndexOf(c)) == c
  {
  }

  function UpperChar(c: char): char {
    if 'a' <= c <= 'z' then (c as int - 'a' as int + 'A' as int) as char else c
  }

  function Upper(s: string): string {
    seq(|s|, i requires 0 <= i < |s| => UpperChar(s[i]))
  }

  function StripPadding(s: string): string {
    if s != "" && s[|s| - 1] == '=' then StripPadding(s[..|s| - 1]) else s
  }

  function Symbols(): char -> bool {
    (c: char) => InAlphabet(c)
  }

  function Normalize(secret: string): string {
    Filter(StripPadding(Upper(secret)), Symbols())
  }

  // ---------------------------------------------------------------- encoding and decoding

  function BytesToBits(bytes: seq<Byte>): (bits: seq<bool>)
    ensures |bits| == 8 * |bytes|
  {
    if bytes == [] then [] else BytesToBits(bytes[..|bytes| - 1]) + ToBits(bytes[|bytes| - 1], 8)
  }

  function SymbolsToBits(s: string): (bits: seq<bool>)
    requires forall c :: c in s ==> InAlphabet(c)
    ensures |bits| == 5 * |s|
  {
    if s == "" then [] else SymbolsToBits(s[..|s| - 1]) + ToBits(IndexOf(s[|s| - 1]), 5)
  }

  /** Padded on the right with zeros to a width. */
  function PadEnd(bits: seq<bool>, width: nat): (padded: seq<bool>)
    ensures |padded| == if |bits| <= width then width else |bits|
  {
    if |bits| < width then bits + seq(width - |bits|, _ => false) else bits
  }

  function QuintetOf(bits: seq<bool>): Quintet
    requires |bits| == 5
  {
    FromBitsIsBounded(bits);
    assert Pow2(5) == 32;
    FromBits(bits)
  }

  function OctetOf(bits: seq<bool>): Byte
    requires |bits| == 8
  {
    FromBitsIsBounded(bits);
    assert Pow2(8) == 256;
    FromBits(bits)
  }

  function BitsToSymbols(bits: seq<bool>): string {
    if bits == [] then ""
    else if |bits| <= 5 then [Symbol(QuintetOf(PadEnd(bits, 5)))]
    else [Symbol(QuintetOf(bits[..5]))] + BitsToSymbols(bits[5..])
  }

  /** Whole bytes only; a rest of fewer than eight bits is dropped. */
  function BitsToBytes(bits: seq<bool>): seq<Byte> {
    if |bits| < 8 then [] else [OctetOf(bits[..8])] + BitsToBytes(bits[8..])
  }

  function Encode(bytes: seq<Byte>): string {
    BitsToSymbols(BytesToBits(bytes))
  }

  lemma NormalizedIsInAlphabet(secret: string)
    ensures forall c :: c in Normalize(secret) ==> InAlphabet(c)
  {
    forall c | c in Normalize(secret) ensures InAlphabet(c) {
      FilterKeeps(StripPadding(Upper(secret)), Symbols(), c);
    }
  }

  function Decode(secret: string): seq<Byte> {
    NormalizedIsInAlphabet(secret);
    BitsToBytes(SymbolsToBits(Normalize(secret)))
  }

  /** The encoding of a tail of the bits: a symbol for the next chunk, then the encoding of what follows. */
  lemma NextSymbol(bits: seq<bool>, index: nat)
    requires index < |bits|
    ensures var end := if index + 5 <= |bits| then index + 5 else |bits|;
            BitsToSymbols(bits[index..]) == [Symbol(QuintetOf(PadEnd(bits[index..end], 5)))] + BitsToSymbols(bits[end..])
  {
    if index + 5 < |bits| {
      assert bits[index..][..5] == bits[index..index + 5] && bits[index..][5..] == bits[index + 5..];
    } else {
      assert bits[index..] == bits[index..|bits|];
    }
  }

  /** The text of a secret made of the given random bytes. */
  method GenerateBase32Secret(bytes: seq<Byte>) returns (output: string)
    ensures output == Encode(bytes)
  {
    var bits: seq<bool> := [];
    for i := 0 to |bytes|
      invariant bits == BytesToBits(bytes[..i])
    {
      assert bytes[..i + 1][..i] == bytes[..i];
      bits := bits + ToBits(bytes[i], 8);
    }
    assert bytes[..|bytes|] == bytes;
    output := WriteSymbols(bits);
  }

  /** The loop of the encoder over chunks of five bits, the last one padded. */
  method WriteSymbols(bits: seq<bool>) returns (output: string)
    ensures output == BitsToSymbols(bits)
  {
    output := "";
    var index := 0;
    while index < |bits|
      invariant 0 <= index
      invariant output + (if index <= |bits| then BitsToSymbols(bits[index..]) else "") == BitsToSymbols(bits)
    {
      NextSymbol(bits, index);
      var chunk := PadEnd(bits[index..if index + 5 <= |bits| then index + 5 else |bits|], 5);
      output := output + [Symbol(QuintetOf(chunk))];
      index := index + 5;
    }
  }

  /** Never fails: after normalisation every character has a value. */
  method DecodeBase32(secret: string) returns (bytes: seq<Byte>)
    ensures bytes == Decode(secret)
  {
    var normalized := Normalize(secret);
    NormalizedIsInAlphabet(secret);
    var bits: seq<bool> := [];
    for i := 0 to |normalized|
      invariant bits == SymbolsToBits(normalized[..i])
    {
      assert normalized[..i + 1][..i] == normalized[..i];
      bits := bits + ToBits(IndexOf(normalized[i]), 5);
    }
    assert normalized[..|normalized|] == normalized;
    bytes := [];
    var index := 0;
    while index + 8 <= |bits|
      invariant 0 <= index <= |bits|
      invariant bytes + BitsToBytes(bits[index..]) == BitsToBytes(bits)
    {
      assert bits[index..][..8] == bits[index..index + 8] && bits[index..][8..] == bits[index + 8..];
      bytes := bytes + [OctetOf(bits[index..index + 8])];
      index := index + 8;
    }
  }

  // ---------------------------------------------------------------- round trip

  lemma {:induction false} EncodedIsInAlphabet(bits: seq<bool>)
    ensures forall c :: c in BitsToSymbols(bits) ==> InAlphabet(c)
  {
    if |bits| > 5 {
      EncodedIsInAlphabet(bits[5..]);
    }
  }

  lemma {:induction false} SymbolsToBitsPrepend(c: char, s: string)
    requires InAlphabet(c) && forall x :: x in s ==> InAlphabet(x)
    ensures SymbolsToBits([c] + s) == ToBits(IndexOf(c), 5) + SymbolsToBits(s)
  {
    var all := [c] + s;
    if s == "" {
      assert all == [c] && all[..0] == "";
      assert SymbolsToBits("") == [];
    } else {
      var n := |s| - 1;
      SymbolsToBitsPrepend(c, s[..n]);
      assert all[..|s|] == [c] + s[..n] && all[|s|] == s[n];
      assert SymbolsToBits(all) == SymbolsToBits([c] + s[..n]) + ToBits(IndexOf(s[n]), 5);
      assert SymbolsToBits(s) == SymbolsToBits(s[..n]) + ToBits(IndexOf(s[n]), 5);
    }
  }

  /** Reading an encoding back gives the bits, and fewer than five zeros more. */
  lemma {:induction false} SymbolsGiveBitsBack(bits: seq<bool>)
    ensures forall c :: c in BitsToSymbols(bits) ==> InAlphabet(c)
    ensures var back := SymbolsToBits(BitsToSymbols(bits));
            |bits| <= |back| < |bits| + 5 && back[..|bits|] == bits
  {
    EncodedIsInAlphabet(bits);
    if bits == [] {
    } else if |bits| <= 5 {
      QuintetGivesBitsBack(PadEnd(bits, 5));
      SymbolsToBitsPrepend(Symbol(QuintetOf(PadEnd(bits, 5))), "");
    } else {
      SymbolsGiveBitsBack(bits[5..]);
      QuintetGivesBitsBack(bits[..5]);
      SymbolsToBitsPrepend(Symbol(QuintetOf(bits[..5])), BitsToSymbols(bits[5..]));
      assert bits == bits[..5] + bits[5..];
    }
  }

  lemma QuintetGivesBitsBack(bits: seq<bool>)
    requires |bits| == 5
    ensures ToBits(IndexOf(Symbol(QuintetOf(bits))), 5) == bits
  {
    AlphabetMeaning(QuintetOf(bits), 'A');
    ValueOfBits(bits);
  }

  lemma {:induction false} BytesToBitsPrepend(b: Byte, bytes: seq<Byte>)
    ensures BytesToBits([b] + bytes) == ToBits(b, 8) + BytesToBits(bytes)
  {
    if bytes != [] {
      BytesToBitsPrepend(b, bytes[..|bytes| - 1]);
      assert ([b] + bytes)[..|bytes|] == [b] + bytes[..|bytes| - 1];
    }
  }

  /** Packing the bits of bytes gives the bytes, whatever fewer than eight bits follow. */
  lemma {:induction false} BitsGiveBytesBack(bytes: seq<Byte>, rest: seq<bool>)
    requires |rest| < 8
    ensures BitsToBytes(BytesToBits(bytes) + rest) == bytes
  {
    if bytes != [] {
      BitsGiveBytesBack(bytes[1..], rest);
      BytesToBitsPrepend(bytes[0], bytes[1..]);
      assert bytes == [bytes[0]] + bytes[1..];
      var bits := BytesToBits(bytes) + rest;
      assert bits[..8] == ToBits(bytes[0], 8) && bits[8..] == BytesToBits(bytes[1..]) + rest;
      assert Pow2(8) == 256;
      BitsOfValue(bytes[0], 8);
    }
  }

  lemma EncodedIsNormal(s: string)
    requires forall c :: c in s ==> InAlphabet(c)
    ensures Normalize(s) == s
  {
    assert forall i :: 0 <= i < |s| ==> s[i] in s;
    assert Upper(s) == s;
    assert StripPadding(s) == s;
    FilterAll(s, Symbols());
  }

  /** Decoding the encoding of any bytes gives the bytes. */
  lemma RoundTrip(bytes: seq<Byte>)
    ensures Decode(Encode(bytes)) == bytes
  {
    var bits := BytesToBits(bytes);
    SymbolsGiveBitsBack(bits);
    EncodedIsNormal(Encode(bytes));
    var back := SymbolsToBits(Encode(bytes));
    assert back == bits + back[|bits|..];
    BitsGiveBytesBack(bytes, back[|bits|..]);
  }

  /** The small letters stand thirty-two places after the capitals. */
  predicate SameButCase(s: string, s': string) {
    && |s| == |s'|
    && forall i :: 0 <= i < |s| ==>
         || s[i] == s'[i]
         || ('A' <= s[i] <= 'Z' && s'[i] as int == s[i] as int + 32)
         || ('A' <= s'[i] <= 'Z' && s[i] as int == s'[i] as int + 32)
  }

  /** The case of the letters of a secret does not matter. */
  lemma DecodeIgnoresCase(secret: string, retyped: string)
    requires SameButCase(secret, retyped)
    ensures Decode(retyped) == Decode(secret)
  {
    assert Upper(retyped) == Upper(secret);
  }

  /** Trailing padding does not matter. */
  lemma {:induction false} DecodeIgnoresPadding(secret: string, padding: string)
    requires forall i :: 0 <= i < |padding| ==> padding[i] == '='
    ensures Decode(secret + padding) == Decode(secret)
  {
    if padding == "" {
      assert secret + padding == secret;
    } else {
      DecodeIgnoresPadding(secret, padding[..|padding| - 1]);
      var shorter := secret + padding[..|padding| - 1];
      assert secret + padding == shorter + ['='];
      assert Upper(shorter + ['=']) == Upper(shorter) + ['='];
      assert (Upper(shorter) + ['='])[..|shorter|] == Upper(shorter);
    }
  }

  /** A secret can be typed in any case and padded, and still decodes to the bytes it was made of. */
  lemma SecretsSurviveRetyping(bytes: seq<Byte>, retyped: string, padding: string)
    requires SameButCase(Encode(bytes), retyped) && forall i :: 0 <= i < |padding| ==> padding[i] == '='
    ensures Decode(retyped + padding) == bytes
  {
    DecodeIgnoresPadding(retyped, padding);
    DecodeIgnoresCase(Encode(bytes), retyped);
    RoundTrip(bytes);
  }

  // ---------------------------------------------------------------- what the text says

  /** The letters stand for 0 to 25 and the digits 2 to 7 for 26 to 31, by their places in ASCII. */
  function SymbolValue(c: char): nat {
    if 'A' <= c <= 'Z' then c as int - 65 else if '2' <= c <= '7' then c as int - 24 else 0
  }

  /** The text as a number in base 32. */
  function Base32Number(s: string): nat {
    if s == "" then 0 else 32 * Base32Number(s[..|s| - 1]) + SymbolValue(s[|s| - 1])
  }

  /** The bytes as a number in base 256. */
  function Base256Number(bytes: seq<Byte>): nat {
    if bytes == [] then 0 else 256 * Base256Number(bytes[..|bytes| - 1]) + bytes[|bytes| - 1]
  }

  lemma {:induction false} FromBitsAppend(a: seq<bool>, b: seq<bool>)
    ensures FromBits(a + b) == FromBits(a) * Pow2(|b|) + FromBits(b)
  {
    if b == [] {
      assert a + b == a;
    } else {
      var n := |b| - 1;
      FromBitsAppend(a, b[..n]);
      assert (a + b)[..|a| + n] == a + b[..n];
      assert FromBits(a) * Pow2(|b|) == 2 * (FromBits(a) * Pow2(n));
    }
  }

  lemma {:induction false} NothingIsZero(n: nat)
    ensures FromBits(seq(n, _ => false)) == 0
  {
    if n > 0 {
      NothingIsZero(n - 1);
      assert seq(n, _ => false)[..n - 1] == seq(n - 1, _ => false);
    }
  }

  lemma {:induction false} DigitAppended(bits: seq<bool>, digit: nat, width: nat)
    requires digit < Pow2(width)
    ensures FromBits(bits + ToBits(digit, width)) == FromBits(bits) * Pow2(width) + digit
  {
    FromBitsAppend(bits, ToBits(digit, width));
    BitsOfValue(digit, width);
  }

  lemma {:induction false} BytesAreTheirNumber(bytes: seq<Byte>)
    ensures FromBits(BytesToBits(bytes)) == Base256Number(bytes)
  {
    assert Pow2(8) == 256;
    if bytes != [] {
      var n := |bytes| - 1;
      BytesAreTheirNumber(bytes[..n]);
      DigitAppended(BytesToBits(bytes[..n]), bytes[n], 8);
    }
  }

  lemma {:induction false} SymbolAppended(bits: seq<bool>, c: char)
    requires InAlphabet(c)
    ensures FromBits(bits + ToBits(IndexOf(c), 5)) == 32 * FromBits(bits) + SymbolValue(c)
  {
    assert Pow2(5) == 32;
    DigitAppended(bits, IndexOf(c), 5);
  }

  lemma {:induction false} SymbolsAreTheirNumber(s: string)
    requires forall c :: c in s ==> InAlphabet(c)
    ensures FromBits(SymbolsToBits(s)) == Base32Number(s)
  {
    if s != "" {
      var n := |s| - 1;
      assert s[n] in s;
      SymbolsAreTheirNumber(s[..n]);
      SymbolAppended(SymbolsToBits(s[..n]), s[n]);
    }
  }

  /** The bits that complete the last symbol are zeros. */
  lemma {:induction false} BitsAreFilledWithZeros(bits: seq<bool>)
    ensures forall c :: c in BitsToSymbols(bits) ==> InAlphabet(c)
    ensures var filled := 5 * |BitsToSymbols(bits)|;
            && |bits| <= filled < |bits| + 5
            && SymbolsToBits(BitsToSymbols(bits)) == bits + seq(filled - |bits|, _ => false)
  {
    EncodedIsInAlphabet(bits);
    if bits == [] {
    } else if |bits| <= 5 {
      QuintetGivesBitsBack(PadEnd(bits, 5));
      SymbolsToBitsPrepend(Symbol(QuintetOf(PadEnd(bits, 5))), "");
    } else {
      BitsAreFilledWithZeros(bits[5..]);
      QuintetGivesBitsBack(bits[..5]);
      SymbolsToBitsPrepend(Symbol(QuintetOf(bits[..5])), BitsToSymbols(bits[5..]));
      assert bits == bits[..5] + bits[5..];
    }
  }

  /** The text of n bytes has as many symbols as it takes, and its number in base 32 is the one of the bytes in base 256,
      shifted by the bits that the last symbol has to spare. */
  lemma {:induction false} EncodingIsTheNumber(bytes: seq<Byte>)
    ensures forall c :: c in Encode(bytes) ==> 'A' <= c <= 'Z' || '2' <= c <= '7'
    ensures 8 * |bytes| <= 5 * |Encode(bytes)| < 8 * |bytes| + 5
    ensures Base32Number(Encode(bytes)) == Base256Number(bytes) * Pow2(5 * |Encode(bytes)| - 8 * |bytes|)
  {
    var bits := BytesToBits(bytes);
    BitsAreFilledWithZeros(bits);
    SymbolsAreTheirNumber(Encode(bytes));
    BytesAreTheirNumber(bytes);
    var spare := 5 * |Encode(bytes)| - |bits|;
    FromBitsAppend(bits, seq(spare, _ => false));
    NothingIsZero(spare);
  }

  lemma {:induction false} PaddingIsNoSymbol(s: string)
    ensures Filter(StripPadding(s), Symbols()) == Filter(s, Symbols())
  {
    if s != "" && s[|s| - 1] == '=' {
      PaddingIsNoSymbol(s[..|s| - 1]);
    }
  }

  /** Normalising is dropping what is no symbol, in upper case. */
  lemma {:induction false} NormalizeSplits(before: string, after: string)
    ensures Normalize(before + after) == Filter(Upper(before), Symbols()) + Filter(Upper(after), Symbols())
  {
    PaddingIsNoSymbol(Upper(before + after));
    assert Upper(before + after) == Upper(before) + Upper(after);
    FilterAppend(Upper(before), Upper(after), Symbols());
  }

  /** Whatever is no letter and no digit from 2 to 7 can be anywhere in a secret, and does not matter. */
  lemma {:induction false} DecodeIgnoresOthers(before: string, c: char, after: string)
    requires !('A' <= c <= 'Z' || 'a' <= c <= 'z' || '2' <= c <= '7')
    ensures Decode(before + [c] + after) == Decode(before + after)
  {
    NormalizeSplits(before + [c], after);
    NormalizeSplits(before, after);
    assert Upper(before + [c]) == Upper(before) + [c];
    FilterOneMore(Upper(before), c, Symbols());
    assert Normalize(before + [c] + after) == Normalize(before + after);
  }
}
