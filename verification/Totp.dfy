/** Time-based one-time codes (section 4 of RFC 6238 over the truncation of section 5.3 of RFC 4226).
    Times are in milliseconds; HMAC-SHA-1 is a parameter. */
module Totp {
  import opened Common
  import opened Base32

  /** What HMAC-SHA-1 returns. */
  type Digest = d: seq<Byte> | |d| == 20 witness seq(20, _ => 0)

  type Hmac = (seq<Byte>, seq<Byte>) -> Digest

  datatype TotpError = CounterOutOfRange

  /** How a verification ends: true, false, or the range error of a code it could not compute. */
  datatype Verification = Accepted | Refused | RangeError

  const STEP_MS := 30_000
  const COUNTER_LIMIT := 0x1_0000_0000_0000_0000

  // ---------------------------------------------------------------- codes

  function Counter(now: int): int {
    now / STEP_MS
  }

  /** Big-endian bytes, least significant last. */
  function BigEndian(value: nat, width: nat): (bytes: seq<Byte>)
    ensures |bytes| == width
  {
    if width == 0 then [] else BigEndian(value / 256, width - 1) + [value % 256]
  }

  function FromBigEndian(bytes: seq<Byte>): nat {
    if bytes == [] then 0 else 256 * FromBigEndian(bytes[..|bytes| - 1]) + bytes[|bytes| - 1]
  }

  function BinaryCode(hash: Digest): (code: nat)
    ensures code < 0x8000_0000
  {
    var offset := hash[19] % 16;
    var h0: nat, h1: nat, h2: nat, h3: nat := hash[offset], hash[offset + 1], hash[offset + 2], hash[offset + 3];
    h0 % 128 * 0x100_0000 + h1 * 0x1_0000 + h2 * 0x100 + h3
  }

  function Decimal(n: nat): (s: string)
    ensures s != "" && AllDigits(s)
  {
    var digit := ('0' as int + n % 10) as char;
    if n < 10 then [digit] else Decimal(n / 10) + [digit]
  }

  function PadStart(s: string, width: nat): (padded: string)
    ensures |padded| == if |s| < width then width else |s|
    ensures AllDigits(s) ==> AllDigits(padded)
  {
    if |s| < width then seq(width - |s|, _ => '0') + s else s
  }

  predicate AllDigits(s: string) {
    forall i :: 0 <= i < |s| ==> '0' <= s[i] <= '9'
  }

  function CodeText(binaryCode: nat): string {
    PadStart(Decimal(binaryCode % 1_000_000), 6)
  }

  /** The code of a secret at a time. The counter is written into an unsigned 64-bit buffer,
      and a counter that does not fit raises a range error. */
  function GenerateTotp(hmac: Hmac, secret: string, now: int): (r: Result<string, TotpError>)
    ensures r.Ok? <==> 0 <= Counter(now) < COUNTER_LIMIT
  {
    if 0 <= Counter(now) < COUNTER_LIMIT
    then Ok(CodeText(BinaryCode(hmac(Decode(secret), BigEndian(Counter(now), 8)))))
    else Err(CounterOutOfRange)
  }

  // ---------------------------------------------------------------- verification

  predicate IsSpace(c: char) {
    || '\t' <= c <= '\r' || c == ' ' || c == '\U{00A0}' || c == '\U{1680}' || '\U{2000}' <= c <= '\U{200A}'
    || c == '\U{2028}' || c == '\U{2029}' || c == '\U{202F}' || c == '\U{205F}' || c == '\U{3000}' || c == '\U{FEFF}'
  }

  function NormalizeToken(token: string): string {
    Filter(token, (c: char) => !IsSpace(c))
  }

  predicate IsSixDigits(s: string) {
    |s| == 6 && AllDigits(s)
  }

  function CodeAt(hmac: Hmac, secret: string, now: int, offset: int): Result<string, TotpError> {
    GenerateTotp(hmac, secret, now + offset * STEP_MS)
  }

  /** The offset is the first of the window whose code decides: one that matches, or one that cannot be computed. */
  predicate Decides(hmac: Hmac, secret: string, token: string, now: int, window: int, offset: int) {
    && -window <= offset <= window
    && (CodeAt(hmac, secret, now, offset).Err? || CodeAt(hmac, secret, now, offset) == Ok(token))
    && forall o {:trigger CodeAt(hmac, secret, now, o)} :: -window <= o < offset ==>
         CodeAt(hmac, secret, now, o).Ok? && CodeAt(hmac, secret, now, o) != Ok(token)
  }

  /** The outcome of a verification in terms of the codes of the window: a token that is not six digits is refused,
      a code that matches accepts unless an earlier one cannot be computed. */
  ghost predicate Verdict(hmac: Hmac, secret: string, token: string, now: int, window: int,
                          r: Verification) {
    var normalized := NormalizeToken(token);
    if !IsSixDigits(normalized) then r == Refused
    else if r == Refused then
      forall o {:trigger CodeAt(hmac, secret, now, o)} :: -window <= o <= window ==>
        CodeAt(hmac, secret, now, o).Ok? && CodeAt(hmac, secret, now, o) != Ok(normalized)
    else
      exists o :: Decides(hmac, secret, normalized, now, window, o) && (CodeAt(hmac, secret, now, o).Ok? <==> r == Accepted)
  }

  method VerifyTotp(hmac: Hmac, secret: string, token: string, now: int, window: int)
    returns (r: Verification)
    ensures Verdict(hmac, secret, token, now, window, r)
  {
    var normalizedToken := NormalizeToken(token);
    if !IsSixDigits(normalizedToken) {
      return Refused;
    }
    var offset := -window;
    while offset <= window
      invariant forall o {:trigger CodeAt(hmac, secret, now, o)} :: -window <= o < offset ==>
        CodeAt(hmac, secret, now, o).Ok? && CodeAt(hmac, secret, now, o) != Ok(normalizedToken)
    {
      var code := CodeAt(hmac, secret, now, offset);
      if code.Err? {
        assert Decides(hmac, secret, normalizedToken, now, window, offset);
        return RangeError;
      }
      if code.value == normalizedToken {
        assert Decides(hmac, secret, normalizedToken, now, window, offset);
        return Accepted;
      }
      offset := offset + 1;
    }
    return Refused;
  }

  // ---------------------------------------------------------------- codes are six digits of the counter's hash

  /** Value of a decimal text. */
  function FromDecimal(s: string): nat
    requires AllDigits(s)
  {
    if s == "" then 0 else 10 * FromDecimal(s[..|s| - 1]) + (s[|s| - 1] as int - '0' as int)
  }

  function Pow10(n: nat): nat {
    if n == 0 then 1 else 10 * Pow10(n - 1)
  }

  lemma {:induction false} DecimalMeansItsValue(n: nat, width: nat)
    requires n < Pow10(width) && width > 0
    ensures FromDecimal(Decimal(n)) == n && |Decimal(n)| <= width
  {
    var s := Decimal(n);
    if n < 10 {
      assert s[..|s| - 1] == "";
    } else {
      DecimalMeansItsValue(n / 10, width - 1);
      assert s[..|s| - 1] == Decimal(n / 10);
    }
  }

  lemma {:induction false} ZerosAreSilent(zeros: nat, s: string)
    requires AllDigits(s)
    ensures AllDigits(seq(zeros, _ => '0') + s)
    ensures FromDecimal(seq(zeros, _ => '0') + s) == FromDecimal(s)
  {
    var padded := seq(zeros, _ => '0') + s;
    if s != "" {
      ZerosAreSilent(zeros, s[..|s| - 1]);
      assert padded[..|padded| - 1] == seq(zeros, _ => '0') + s[..|s| - 1];
    } else if zeros > 0 {
      ZerosAreSilent(zeros - 1, "");
      assert padded[..|padded| - 1] == seq(zeros - 1, _ => '0') + "";
    }
  }

  /** A code is always six digits, and its number is the truncated hash modulo a million. */
  lemma CodeIsSixDigits(binaryCode: nat)
    ensures IsSixDigits(CodeText(binaryCode))
    ensures FromDecimal(CodeText(binaryCode)) == binaryCode % 1_000_000
  {
    var n := binaryCode % 1_000_000;
    assert Pow10(6) == 1_000_000;
    DecimalMeansItsValue(n, 6);
    if |Decimal(n)| < 6 {
      ZerosAreSilent(6 - |Decimal(n)|, Decimal(n));
    }
  }

  /** The truncated hash is the number in four bytes of the hash, from the place its last four bits name,
      without its top bit. */
  lemma TruncationReadsFourBytes(hash: Digest)
    ensures var offset := hash[19] % 16;
            BinaryCode(hash) == FromBigEndian(hash[offset..offset + 4]) % 0x8000_0000
  {
    var offset := hash[19] % 16;
    var b := hash[offset..offset + 4];
    assert b[..3][..2] == b[..2] && b[..2][..1] == b[..1] && b[..1][..0] == [];
    assert FromBigEndian(b[..1]) == b[0];
    assert FromBigEndian(b[..2]) == 256 * FromBigEndian(b[..1]) + b[1];
    assert FromBigEndian(b[..3]) == 256 * FromBigEndian(b[..2]) + b[2];
    assert FromBigEndian(b) == 256 * FromBigEndian(b[..3]) + b[3];
  }

  function Pow256(n: nat): nat {
    if n == 0 then 1 else 256 * Pow256(n - 1)
  }

  lemma {:induction false} CounterBytesGiveCounterBack(value: nat, width: nat)
    requires value < Pow256(width)
    ensures FromBigEndian(BigEndian(value, width)) == value
  {
    if width > 0 {
      CounterBytesGiveCounterBack(value / 256, width - 1);
      var bytes := BigEndian(value, width);
      assert bytes[..|bytes| - 1] == BigEndian(value / 256, width - 1);
    }
  }

  /** Times of different steps are hashed from different messages. */
  lemma StepsHashDifferently(now: int, now': int)
    requires 0 <= Counter(now) < COUNTER_LIMIT && 0 <= Counter(now') < COUNTER_LIMIT
    ensures BigEndian(Counter(now), 8) == BigEndian(Counter(now'), 8) <==> Counter(now) == Counter(now')
  {
    assert Pow256(8) == COUNTER_LIMIT;
    CounterBytesGiveCounterBack(Counter(now), 8);
    CounterBytesGiveCounterBack(Counter(now'), 8);
  }

  /** The code of a secret made of key bytes: the number of the thirty-second step, written in eight bytes, is hashed
      under the key; the code is the number in four bytes of the hash, from the place its last four bits name, without
      its top bit and modulo a million, in six digits. There is none for a time before the epoch or beyond the eight
      bytes. */
  lemma CodeReadsHash(hmac: Hmac, key: seq<Byte>, now: int) returns (message: seq<Byte>, code: string)
    ensures GenerateTotp(hmac, Encode(key), now).Ok? <==> now >= 0 && now / 30_000 < 0x1_0000_0000_0000_0000
    ensures GenerateTotp(hmac, Encode(key), now).Ok? ==>
              && |message| == 8 && Base256Number(message) == now / 30_000
              && GenerateTotp(hmac, Encode(key), now) == Ok(code) && IsSixDigits(code)
              && var hash: seq<Byte> := hmac(key, message);
                 var offset := hash[19] % 16;
                 FromDecimal(code) == Base256Number(hash[offset..offset + 4]) % 0x8000_0000 % 1_000_000
  {
    message, code := [], "";
    if 0 <= Counter(now) < COUNTER_LIMIT {
      message := BigEndian(Counter(now), 8);
      code := GenerateTotp(hmac, Encode(key), now).value;
      RoundTrip(key);
      assert Pow256(8) == COUNTER_LIMIT;
      CounterBytesGiveCounterBack(Counter(now), 8);
      SameNumber(message);
      var hash := hmac(key, message);
      TruncationReadsFourBytes(hash);
      SameNumber(hash[hash[19] % 16..hash[19] % 16 + 4]);
      CodeIsSixDigits(BinaryCode(hash));
    }
  }

  lemma {:induction false} SameNumber(bytes: seq<Byte>)
    ensures FromBigEndian(bytes) == Base256Number(bytes)
  {
    if bytes != [] {
      SameNumber(bytes[..|bytes| - 1]);
    }
  }

  // ---------------------------------------------------------------- acceptance

  lemma CodeAtOffset(hmac: Hmac, secret: string, t: int, now: int, offset: int)
    ensures CodeAt(hmac, secret, now, offset).Ok? <==> 0 <= Counter(now) + offset < COUNTER_LIMIT
    ensures Counter(now) + offset == Counter(t) ==> CodeAt(hmac, secret, now, offset) == GenerateTotp(hmac, secret, t)
  {
    assert Counter(now + offset * STEP_MS) == Counter(now) + offset;
  }

  /** A verdict is unique, so the method's answer is determined by it. */
  lemma VerdictIsUnique(hmac: Hmac, secret: string, token: string, now: int, window: int,
                        r: Verification, r': Verification)
    requires Verdict(hmac, secret, token, now, window, r)
    requires Verdict(hmac, secret, token, now, window, r')
    ensures r == r'
  {
    var normalized := NormalizeToken(token);
    if IsSixDigits(normalized) && r != Refused && r' != Refused {
      var o :| Decides(hmac, secret, normalized, now, window, o) && (CodeAt(hmac, secret, now, o).Ok? <==> r == Accepted);
      var o' :| Decides(hmac, secret, normalized, now, window, o')
                && (CodeAt(hmac, secret, now, o').Ok? <==> r' == Accepted);
      DeciderIsUnique(hmac, secret, normalized, now, window, o, o');
    }
  }

  lemma DeciderIsUnique(hmac: Hmac, secret: string, token: string, now: int, window: int, o: int, o': int)
    requires Decides(hmac, secret, token, now, window, o) && Decides(hmac, secret, token, now, window, o')
    ensures o == o'
  {
    assert o < o' ==> CodeAt(hmac, secret, now, o).Ok?;
    assert o' < o ==> CodeAt(hmac, secret, now, o').Ok?;
  }

  /** A code shown at t, typed with or without spaces, is accepted at every t' within the window exactly if the
      window does not reach before the epoch; if it does, verification raises the range error instead. */
  lemma CodeIsAccepted(hmac: Hmac, secret: string, token: string, t: int, t': int, window: int,
                       r: Verification)
    requires GenerateTotp(hmac, secret, t) == Ok(NormalizeToken(token))
    requires -window * STEP_MS <= t' - t <= window * STEP_MS
    requires Verdict(hmac, secret, token, t', window, r)
    ensures r == if t' >= window * STEP_MS then Accepted else RangeError
  {
    var normalized := NormalizeToken(token);
    GeneratedIsSixDigits(hmac, secret, t, normalized);
    StepsApart(t, t', window);
    if t' < window * STEP_MS {
      CodeAtOffset(hmac, secret, t, t', -window);
      assert Decides(hmac, secret, normalized, t', window, -window);
      VerdictIsUnique(hmac, secret, token, t', window, r, RangeError);
    } else {
      var last := Counter(t) - Counter(t');
      CodeAtOffset(hmac, secret, t, t', last);
      MatchDecides(hmac, secret, normalized, t, t', window, last);
      VerdictIsUnique(hmac, secret, token, t', window, r, Accepted);
    }
  }

  lemma GeneratedIsSixDigits(hmac: Hmac, secret: string, t: int, code: string)
    requires GenerateTotp(hmac, secret, t) == Ok(code)
    ensures IsSixDigits(code)
  {
    CodeIsSixDigits(BinaryCode(hmac(Decode(secret), BigEndian(Counter(t), 8))));
  }

  lemma StepsApart(t: int, t': int, window: int)
    requires -window * STEP_MS <= t' - t <= window * STEP_MS
    ensures -window <= Counter(t) - Counter(t') <= window
    ensures t' < window * STEP_MS <==> Counter(t') - window < 0
  {
    assert Counter(t' + window * STEP_MS) == Counter(t') + window;
    assert Counter(t' - window * STEP_MS) == Counter(t') - window;
  }

  /** If the window stays in range, some code no later than the one of t decides, and it matches. */
  lemma {:induction false} MatchDecides(hmac: Hmac, secret: string, token: string, t: int, now: int, window: int, last: int)
    requires GenerateTotp(hmac, secret, t) == Ok(token)
    requires Counter(now) - window >= 0 && -window <= last <= window
    requires CodeAt(hmac, secret, now, last) == Ok(token)
    ensures exists o :: Decides(hmac, secret, token, now, window, o) && CodeAt(hmac, secret, now, o).Ok?
    decreases last + window
  {
    CodeAtOffset(hmac, secret, t, now, last);
    if o :| -window <= o < last && CodeAt(hmac, secret, now, o) == Ok(token) {
      MatchDecides(hmac, secret, token, t, now, window, o);
    } else {
      forall o | -window <= o < last ensures CodeAt(hmac, secret, now, o).Ok? {
        CodeAtOffset(hmac, secret, t, now, o);
      }
      assert Decides(hmac, secret, token, now, window, last);
    }
  }

  /** The default window tolerates thirty seconds either way, from half a minute after the epoch on. */
  lemma {:induction false} CodeIsAcceptedWithinThirtySeconds(hmac: Hmac, secret: string, token: string, t: int, t': int,
                                          r: Verification)
    requires GenerateTotp(hmac, secret, t) == Ok(NormalizeToken(token))
    requires -30_000 <= t' - t <= 30_000
    requires Verdict(hmac, secret, token, t', 1, r)
    ensures r == Accepted <==> t' >= 30_000
  {
    CodeIsAccepted(hmac, secret, token, t, t', 1, r);
  }

  /** Nothing else is accepted: an accepted token is the code of the secret at the time of a step of the window. */
  lemma {:induction false} OnlyCodesAreAccepted(hmac: Hmac, secret: string, token: string, now: int, window: int)
    requires Verdict(hmac, secret, token, now, window, Accepted)
    ensures exists o :: -window <= o <= window && GenerateTotp(hmac, secret, now + o * 30_000) == Ok(NormalizeToken(token))
  {
    var normalized := NormalizeToken(token);
    var o :| Decides(hmac, secret, normalized, now, window, o) && CodeAt(hmac, secret, now, o).Ok?;
    assert GenerateTotp(hmac, secret, now + o * 30_000) == Ok(normalized);
  }

  /** And a token that is not six digits, once spaces are taken out, is refused at any time. */
  lemma {:induction false} OthersAreRefused(hmac: Hmac, secret: string, token: string, now: int, window: int, r: Verification)
    requires Verdict(hmac, secret, token, now, window, r)
    requires var t := NormalizeToken(token); |t| != 6 || exists i :: 0 <= i < |t| && !('0' <= t[i] <= '9')
    ensures r == Refused
  {
  }

  /** The white space and line ends of ECMAScript. */
  const SPACES := "\t\n\U{000B}\U{000C}\r \U{00A0}\U{1680}\U{2000}\U{2001}\U{2002}\U{2003}\U{2004}\U{2005}\U{2006}"
    + "\U{2007}\U{2008}\U{2009}\U{200A}\U{2028}\U{2029}\U{202F}\U{205F}\U{3000}\U{FEFF}"

  /** Spaces anywhere in a token do not matter, and nothing else is taken out of it. */
  lemma {:induction false} SpacesDoNotMatter(before: string, c: char, after: string)
    ensures NormalizeToken(before + [c] + after)
         == NormalizeToken(before) + (if c in SPACES then [] else [c]) + NormalizeToken(after)
    ensures NormalizeToken("") == ""
  {
    var kept := (x: char) => !IsSpace(x);
    FilterAppend(before + [c], after, kept);
    FilterOneMore(before, c, kept);
    SpacesAreListed(c);
  }

  lemma SpacesAreListed(c: char)
    ensures IsSpace(c) <==> c in SPACES
  {
    assert '\t' <= c <= '\r' ==> c in {'\t', '\n', '\U{000B}', '\U{000C}', '\r'};
  }
}
