/** Conversion between a 64-bit Steam community id and the legacy `STEAM_X:Y:Z` text
    (routes/auth.js, convertSteamId64ToSteamId and convertSteamIdToSteamId64).
    BigInt arithmetic becomes arithmetic on `int`: `>> k` is division by 2^k rounded
    down and `& (2^k - 1)` is the remainder modulo 2^k, which is what Dafny's Euclidean
    `/` and `%` by a positive number give, negative operands included. */
module SteamId {
  import opened Js

  const Pow31: nat := 0x8000_0000
  const Pow32: nat := 0x1_0000_0000
  const Pow48: nat := 0x1_0000_0000_0000
  const Pow52: nat := 0x10_0000_0000_0000
  const Pow56: nat := 0x100_0000_0000_0000

  /** 0x0110000100000000 = 76561197960265728 = 2^56 + 2^52 + 2^32: universe 1 (bits
      56-63), account type 1 (bits 52-55), instance 1 (bits 32-51), account number 0. */
  const SteamBase: nat := 0x0110_0001_0000_0000

  /** The three numbers of `STEAM_X:Y:Z`. The decoder can produce a negative universe
      (from a negative BigInt); the parser only non-negative ones. */
  datatype LegacyId = LegacyId(universe: int, y: nat, z: nat)

  // ---------------------------------------------------------------- decimal text

  function DigitValue(c: char): nat
    requires IsDigit(c)
  {
    c as int - '0' as int
  }

  function DigitChar(d: nat): (c: char)
    requires d < 10
    ensures IsDigit(c) && DigitValue(c) == d
  {
    ('0' as int + d) as char
  }

  /** `n.toString()`: decimal digits without leading zeros. */
  function Digits(n: nat): (s: string)
    ensures |s| >= 1 && AllDigits(s)
    ensures n >= 10 ==> s[0] != '0'
  {
    if n < 10 then [DigitChar(n)] else Digits(n / 10) + [DigitChar(n % 10)]
  }

  /** The value of a string of ASCII digits (leading zeros allowed, `""` is 0). */
  function ParseDigits(s: string): nat
    requires AllDigits(s)
  {
    if s == [] then 0 else ParseDigits(s[..|s| - 1]) * 10 + DigitValue(s[|s| - 1])
  }

  lemma {:induction false} ParseDigitsOfDigits(n: nat)
    ensures ParseDigits(Digits(n)) == n
  {
    if n >= 10 {
      var s := Digits(n);
      assert s[..|s| - 1] == Digits(n / 10);
      ParseDigitsOfDigits(n / 10);
    }
  }

  /** Length of the longest prefix of ASCII digits. */
  function DigitRun(s: string): (k: nat)
    ensures k <= |s| && AllDigits(s[..k])
    ensures k < |s| ==> !IsDigit(s[k])
  {
    if s != [] && IsDigit(s[0]) then
      var k := 1 + DigitRun(s[1..]);
      assert forall i :: 1 <= i < k ==> s[..k][i] == s[1..][..k - 1][i - 1];
      k
    else 0
  }

  lemma {:induction false} DigitRunOf(a: string, rest: string)
    requires AllDigits(a)
    requires rest == [] || !IsDigit(rest[0])
    ensures DigitRun(a + rest) == |a|
  {
    if a != [] {
      assert (a + rest)[1..] == a[1..] + rest;
      DigitRunOf(a[1..], rest);
    } else {
      assert a + rest == rest;
    }
  }

  /** A BigInt in a template literal: a minus sign, then the digits of the magnitude. */
  function IntText(i: int): string {
    if i < 0 then "-" + Digits(-i) else Digits(i)
  }

  // ---------------------------------------------------------------- BigInt(string)

  /** The value of a digit in the bases up to 16: `0-9`, `a-f`, `A-F`. */
  function HexValue(c: char): Option<nat> {
    if '0' <= c <= '9' then Some(c as int - '0' as int)
    else if 'a' <= c <= 'f' then Some(c as int - 'a' as int + 10)
    else if 'A' <= c <= 'F' then Some(c as int - 'A' as int + 10)
    else None
  }

  predicate AllInRadix(s: string, radix: nat) {
    forall i :: 0 <= i < |s| ==> HexValue(s[i]).Some? && HexValue(s[i]).value < radix
  }

  function ParseRadix(s: string, radix: nat): nat
    requires AllInRadix(s, radix)
  {
    if s == [] then 0 else ParseRadix(s[..|s| - 1], radix) * radix + HexValue(s[|s| - 1]).value
  }

  /** The base named by the letter of a `0x`, `0o` or `0b` prefix. */
  function RadixOf(c: char): Option<nat> {
    if c == 'x' || c == 'X' then Some(16)
    else if c == 'o' || c == 'O' then Some(8)
    else if c == 'b' || c == 'B' then Some(2)
    else None
  }

  /** StringToBigInt on a text already stripped of white space: empty is 0; a decimal
      integer may carry a `+` or `-` sign; `0x`, `0o` and `0b` (either case) introduce an
      unsigned integer in base 16, 8 or 2. Anything else is a SyntaxError (`None`). */
  function BigIntOfTrimmed(t: string): (r: Option<int>)
    ensures AllDigits(t) ==> r == Some(ParseDigits(t))
    ensures r.Some? && t != [] ==> IsDigit(t[0]) || t[0] == '+' || t[0] == '-'
  {
    if AllDigits(t) then Some(ParseDigits(t))
    else if |t| >= 2 && (t[0] == '+' || t[0] == '-') && AllDigits(t[1..]) then
      var m: int := ParseDigits(t[1..]);
      Some(if t[0] == '-' then -m else m)
    else if |t| >= 3 && t[0] == '0' && RadixOf(t[1]).Some? && AllInRadix(t[2..], RadixOf(t[1]).value) then
      Some(ParseRadix(t[2..], RadixOf(t[1]).value))
    else None
  }

  /** Digits are not white space, so a text of digits is its own trim. */
  lemma TrimDigits(s: string)
    ensures AllDigits(s) ==> Trim(s) == s
  {
    if AllDigits(s) {
      TrimUnpadded(s);
    }
  }

  /** `BigInt(s)` on a string: white space at either end is ignored, then the rest is
      read as above; a SyntaxError is `None`. */
  function BigIntOf(s: string): (r: Option<int>)
    ensures AllDigits(s) ==> r == Some(ParseDigits(s))
  {
    TrimDigits(s);
    BigIntOfTrimmed(Trim(s))
  }

  /** A text without white space at either end is read as it stands. */
  lemma BigIntOfUnpadded(t: string)
    requires t == [] || (!IsSpace(t[0]) && !IsSpace(t[|t| - 1]))
    ensures BigIntOf(t) == BigIntOfTrimmed(t)
  {
    TrimUnpadded(t);
  }

  /** A text without white space at either end that is neither decimal, nor signed,
      nor prefixed throws. */
  lemma BigIntOfRejected(t: string)
    requires t != [] && !IsSpace(t[0]) && !IsSpace(t[|t| - 1])
    requires exists i :: 0 <= i < |t| && !IsDigit(t[i])
    requires t[0] != '+' && t[0] != '-'
    requires |t| < 3 || t[0] != '0' || RadixOf(t[1]).None?
    ensures BigIntOf(t).None?
  {
    BigIntOfUnpadded(t);
  }

  /** Leading white space is ignored. */
  lemma BigIntOfLeadingSpace(c: char, s: string)
    requires IsSpace(c)
    ensures BigIntOf([c] + s) == BigIntOf(s)
  {
    TrimLeadingSpace(c, s);
  }

  /** A text of white space only, the empty text included, is 0. */
  lemma BigIntOfBlank(s: string)
    requires AllSpaces(s)
    ensures BigIntOf(s) == Some(0)
  {
    TrimBlank(s);
  }

  /** A decimal integer may carry a sign. */
  lemma BigIntOfSigned(s: string)
    requires s != [] && AllDigits(s)
    ensures BigIntOf("-" + s) == Some(-(ParseDigits(s) as int))
    ensures BigIntOf("+" + s) == Some(ParseDigits(s))
  {
    SignedText('-', s);
    assert "-" + s == ['-'] + s;
    SignedText('+', s);
    assert "+" + s == ['+'] + s;
  }

  lemma SignedText(sign: char, s: string)
    requires sign == '-' || sign == '+'
    requires s != [] && AllDigits(s)
    ensures BigIntOf([sign] + s) == Some(if sign == '-' then -(ParseDigits(s) as int) else ParseDigits(s))
  {
    var t := [sign] + s;
    assert t[|t| - 1] == s[|s| - 1];
    BigIntOfUnpadded(t);
    assert !IsDigit(t[0]) && t[1..] == s;
  }

  /** `0x`, `0o` and `0b` (either case) read the rest in base 16, 8 or 2. */
  lemma BigIntOfRadix(p: char, s: string)
    requires RadixOf(p).Some? && s != [] && AllInRadix(s, RadixOf(p).value)
    ensures BigIntOf(['0', p] + s) == Some(ParseRadix(s, RadixOf(p).value))
  {
    var t := ['0', p] + s;
    assert t[|t| - 1] == s[|s| - 1];
    BigIntOfUnpadded(t);
    assert !IsDigit(t[1]) && t[2..] == s;
  }

  /** A prefix with nothing after it throws. */
  lemma BigIntOfBarePrefix(p: char)
    requires RadixOf(p).Some?
    ensures BigIntOf(['0', p]).None?
  {
    var t := ['0', p];
    assert !IsDigit(t[1]);
    BigIntOfRejected(t);
  }

  /** A sign before a prefix throws: only decimal integers may be signed. */
  lemma BigIntOfSignedPrefix(sign: char, p: char, s: string)
    requires RadixOf(p).Some? && s != [] && AllInRadix(s, RadixOf(p).value)
    requires sign == '-' || sign == '+'
    ensures BigIntOf([sign, '0', p] + s).None?
  {
    var t := [sign, '0', p] + s;
    assert t[|t| - 1] == s[|s| - 1];
    BigIntOfUnpadded(t);
    assert !IsDigit(t[0]) && !IsDigit(t[2]) && t[1..] == ['0', p] + s;
  }

  /** A fraction throws. */
  lemma BigIntOfFraction(a: string, b: string)
    requires a != [] && b != [] && AllDigits(a) && AllDigits(b)
    ensures BigIntOf(a + "." + b).None?
  {
    var t := a + "." + b;
    assert t[|t| - 1] == b[|b| - 1] && t[0] == a[0];
    assert !IsDigit(t[|a|]);
    assert |t| >= 3 && t[0] == '0' ==> t[1] == '.' || t[1] == a[1];
    BigIntOfRejected(t);
  }

  /** Digits followed by a letter throw, unless the text is a bare `0x`-style prefix. */
  lemma BigIntOfTrailingLetter(s: string, c: char)
    requires s != [] && AllDigits(s) && IsAsciiLetter(c)
    ensures BigIntOf(s + [c]).None?
  {
    var t := s + [c];
    assert t[0] == s[0];
    assert !IsDigit(t[|s|]);
    assert |t| >= 3 ==> t[1] == s[1];
    BigIntOfRejected(t);
  }

  // ---------------------------------------------------------------- the legacy text

  /** `STEAM_${universe}:${Y}:${Z}` */
  function RenderLegacy(id: LegacyId): string {
    "STEAM_" + (IntText(id.universe) + ":" + (Digits(id.y) + ":" + Digits(id.z)))
  }

  /** `steamId.match(/^STEAM_(\d+):(\d+):(\d+)$/)` with the three groups read by
      `BigInt`; `None` when the text does not match. */
  function ParseLegacy(s: string): Option<LegacyId> {
    if !StartsWith(s, "STEAM_") then None
    else
      match DigitsThenColon(s[6..])
      case None => None
      case Some(i) =>
        var b := s[6..][i + 1..];
        match DigitsThenColon(b)
        case None => None
        case Some(j) =>
          var c := b[j + 1..];
          if c == [] || !AllDigits(c) then None
          else Some(LegacyId(ParseDigits(s[6..][..i]), ParseDigits(b[..j]), ParseDigits(c)))
  }

  /** `(\d+):` at the start of `s`: the length of the digit group. */
  function DigitsThenColon(s: string): (r: Option<nat>)
    ensures r.Some? ==> 0 < r.value < |s| && AllDigits(s[..r.value]) && s[r.value] == ':'
  {
    var i := DigitRun(s);
    if i == 0 || i == |s| || s[i] != ':' then None else Some(i)
  }

  lemma DigitsThenColonOf(a: string, tail: string)
    requires a != [] && AllDigits(a)
    ensures DigitsThenColon(a + ":" + tail) == Some(|a|)
    ensures (a + ":" + tail)[..|a|] == a && (a + ":" + tail)[|a| + 1..] == tail
  {
    assert a + ":" + tail == a + (":" + tail);
    DigitRunOf(a, ":" + tail);
  }

  /** The regular expression `^STEAM_(\d+):(\d+):(\d+)$`, written as a property of the text. */
  ghost predicate MatchesLegacyPattern(s: string) {
    exists a: string, b: string, c: string ::
      s == "STEAM_" + (a + ":" + (b + ":" + c))
      && a != [] && b != [] && c != [] && AllDigits(a) && AllDigits(b) && AllDigits(c)
  }

  /** Parsing a matching text reads the three digit groups. */
  lemma ParseLegacyGroups(a: string, b: string, c: string)
    requires a != [] && b != [] && c != [] && AllDigits(a) && AllDigits(b) && AllDigits(c)
    ensures ParseLegacy("STEAM_" + (a + ":" + (b + ":" + c)))
         == Some(LegacyId(ParseDigits(a), ParseDigits(b), ParseDigits(c)))
  {
    var s := "STEAM_" + (a + ":" + (b + ":" + c));
    assert s[..6] == "STEAM_" && s[6..] == a + ":" + (b + ":" + c);
    DigitsThenColonOf(a, b + ":" + c);
    DigitsThenColonOf(b, c);
  }

  /** What the parser accepts matches the regular expression: its three digit groups. */
  lemma ParseLegacySound(s: string)
    requires ParseLegacy(s).Some?
    ensures MatchesLegacyPattern(s)
  {
    var rest := s[6..];
    var i := DigitsThenColon(rest).value;
    var b := rest[i + 1..];
    var j := DigitsThenColon(b).value;
    var c := b[j + 1..];
    assert b == b[..j] + ":" + c;
    assert rest == rest[..i] + ":" + b;
    assert s == s[..6] + rest;
    assert s == "STEAM_" + (rest[..i] + ":" + (b[..j] + ":" + c));
  }

  /** The parser accepts exactly the texts the regular expression matches. */
  lemma ParseLegacyMatches(s: string)
    ensures ParseLegacy(s).Some? <==> MatchesLegacyPattern(s)
  {
    if ParseLegacy(s).Some? {
      ParseLegacySound(s);
    }
    if MatchesLegacyPattern(s) {
      var a: string, b: string, c: string :|
        s == "STEAM_" + (a + ":" + (b + ":" + c))
        && a != [] && b != [] && c != [] && AllDigits(a) && AllDigits(b) && AllDigits(c);
      ParseLegacyGroups(a, b, c);
    }
  }

  /** Rendering and parsing the legacy text are inverse. */
  lemma ParseRenderLegacy(id: LegacyId)
    ensures id.universe >= 0 ==> ParseLegacy(RenderLegacy(id)) == Some(id)
    ensures id.universe < 0 ==> ParseLegacy(RenderLegacy(id)).None?
  {
    var s := RenderLegacy(id);
    if id.universe >= 0 {
      ParseLegacyGroups(Digits(id.universe), Digits(id.y), Digits(id.z));
      ParseDigitsOfDigits(id.universe);
      ParseDigitsOfDigits(id.y);
      ParseDigitsOfDigits(id.z);
    } else {
      assert s[..6] == "STEAM_" && s[6] == '-';
      assert DigitRun(s[6..]) == 0;
    }
  }

  // ---------------------------------------------------------------- 64-bit -> legacy

  /** convertSteamId64ToSteamId on the BigInt, as written: the universe is bits 56-63,
      and Y and Z split the low 48 bits (`& 0xffffffffffff`), so the account-instance
      bit 32 ends up in Z. */
  function DecodeSteamId64(n: int): (id: LegacyId)
    ensures id.universe * Pow56 <= n < (id.universe + 1) * Pow56
    ensures id.y <= 1 && 2 * id.z + id.y == n % Pow48
  {
    var account := n % Pow48;
    LegacyId(n / Pow56, account % 2, account / 2)
  }

  /** convertSteamId64ToSteamId on the text: `None` when `BigInt` throws. */
  function ToLegacyId(steamId64: string): (r: Option<string>)
    ensures r.Some? <==> BigIntOf(steamId64).Some?
    ensures AllDigits(steamId64) ==> r == Some(RenderLegacy(DecodeSteamId64(ParseDigits(steamId64))))
  {
    match BigIntOf(steamId64)
    case None => None
    case Some(n) => Some(RenderLegacy(DecodeSteamId64(n)))
  }

  /** A negative id (`BigIntOfSigned`: a `-` before the digits) still converts, to a
      legacy text that the legacy pattern refuses. */
  lemma ToLegacyIdNegative(s: string)
    requires BigIntOf(s).Some? && BigIntOf(s).value < 0
    ensures ToLegacyId(s).Some?
    ensures ParseLegacy(ToLegacyId(s).value).None?
  {
    NegativeRendered(BigIntOf(s).value);
  }

  /** The legacy text of a negative id does not match the legacy pattern. */
  lemma NegativeRendered(n: int)
    requires n < 0
    ensures ParseLegacy(RenderLegacy(DecodeSteamId64(n))).None?
  {
    var id := DecodeSteamId64(n);
    assert id.universe * Pow56 <= n;
    ParseRenderLegacy(id);
  }

  /** A blank id converts to `STEAM_0:0:0`. */
  lemma ToLegacyIdBlank(s: string)
    requires AllSpaces(s)
    ensures ToLegacyId(s) == Some(RenderLegacy(LegacyId(0, 0, 0)))
  {
    BigIntOfBlank(s);
    assert DecodeSteamId64(0) == LegacyId(0, 0, 0);
  }

  /** Valve's layout puts only the account number in bits 0-31; with the 32-bit mask
      the decoder inverts the encoder (see RoundTripCorrected). */
  function DecodeSteamId64Corrected(n: int): (id: LegacyId)
    ensures id.universe * Pow56 <= n < (id.universe + 1) * Pow56
    ensures id.y <= 1 && 2 * id.z + id.y == n % Pow32
  {
    var account := n % Pow32;
    LegacyId(n / Pow56, account % 2, account / 2)
  }

  function ToLegacyIdCorrected(steamId64: string): (r: Option<string>)
    ensures r.Some? <==> BigIntOf(steamId64).Some?
    ensures AllDigits(steamId64) ==> r == Some(RenderLegacy(DecodeSteamId64Corrected(ParseDigits(steamId64))))
  {
    match BigIntOf(steamId64)
    case None => None
    case Some(n) => Some(RenderLegacy(DecodeSteamId64Corrected(n)))
  }

  // ---------------------------------------------------------------- legacy -> 64-bit

  /** BigInt `a | b` on non-negative numbers. */
  function BitOr(a: nat, b: nat): nat
    decreases a + b
  {
    if a == 0 then b
    else if b == 0 then a
    else 2 * BitOr(a / 2, b / 2) + (if a % 2 == 1 || b % 2 == 1 then 1 else 0)
  }

  /** For a parity bit, `(Z << 1) | Y` is `2Z + Y`. */
  lemma ShiftOrLowBit(z: nat, y: nat)
    ensures y <= 1 ==> BitOr(2 * z, y) == 2 * z + y
  {
    if y == 1 && z > 0 {
      assert BitOr(2 * z, 1) == 2 * BitOr(z, 0) + 1;
    }
  }

  /** `0x0110000100000000n + ((Z << 1n) | Y)`; the universe is not used. */
  function EncodeSteamId64(id: LegacyId): (n: nat)
    ensures n >= SteamBase
    ensures id.y <= 1 ==> n == SteamBase + 2 * id.z + id.y
  {
    ShiftOrLowBit(id.z, id.y);
    SteamBase + BitOr(2 * id.z, id.y)
  }

  /** convertSteamIdToSteamId64: `None` (the source's `null`) unless the text matches
      the pattern, else the decimal text of the 64-bit id. */
  function ToCommunityId64(steamId: string): (r: Option<string>)
    ensures r.Some? <==> ParseLegacy(steamId).Some?
    ensures r.Some? ==> AllDigits(r.value) && ParseDigits(r.value) == EncodeSteamId64(ParseLegacy(steamId).value)
  {
    match ParseLegacy(steamId)
    case None => None
    case Some(id) =>
      ParseDigitsOfDigits(EncodeSteamId64(id));
      Some(Digits(EncodeSteamId64(id)))
  }

  /** The encoder answers `null` exactly when the text does not match
      `^STEAM_(\d+):(\d+):(\d+)$`. */
  lemma EncoderRejectsMalformed(steamId: string)
    ensures ToCommunityId64(steamId).None? <==> !MatchesLegacyPattern(steamId)
  {
    ParseLegacyMatches(steamId);
  }

  /** The encoder on a rendered legacy id answers the decimal text of its 64-bit id. */
  lemma EncodeRendered(id: LegacyId)
    ensures id.universe >= 0 ==> ToCommunityId64(RenderLegacy(id)) == Some(Digits(EncodeSteamId64(id)))
    ensures id.universe < 0 ==> ToCommunityId64(RenderLegacy(id)).None?
    ensures ParseDigits(Digits(EncodeSteamId64(id))) == EncodeSteamId64(id)
  {
    ParseRenderLegacy(id);
    ParseDigitsOfDigits(EncodeSteamId64(id));
  }

  /** The universe digit has no influence on the 64-bit id. */
  lemma EncodingIgnoresUniverse(id: LegacyId, universe: nat)
    ensures id.universe >= 0 ==> ToCommunityId64(RenderLegacy(id)) == ToCommunityId64(RenderLegacy(id.(universe := universe)))
    ensures id.universe >= 0 ==> ToCommunityId64(RenderLegacy(id)).Some?
  {
    var other := LegacyId(universe, id.y, id.z);
    assert other == id.(universe := universe);
    assert EncodeSteamId64(other) == EncodeSteamId64(id);
    EncodeRendered(id);
    EncodeRendered(other);
  }

  /** Only the 17-digit / `7656119` checks log a warning; neither changes a result. */
  predicate LoginFormatWarning(steamId64: string) {
    steamId64 == "" || |steamId64| < 17 || !StartsWith(steamId64, "7656119")
  }

  predicate EncoderFormatWarning(steamId64: string) {
    !StartsWith(steamId64, "7656119") || |steamId64| != 17
  }

  // ---------------------------------------------------------------- round trips

  /** The 64-bit id of account number `account`: above bit 48 it holds the universe
      (1) and the account type (1); bit 32 is the instance (1). */
  lemma SteamBaseLayout(account: nat)
    requires account < Pow32
    ensures (SteamBase + account) / Pow56 == 1
    ensures (SteamBase + account) % Pow48 == Pow32 + account
    ensures (SteamBase + account) % Pow32 == account
  {
    var n := SteamBase + account;
    assert n == Pow56 + (Pow52 + Pow32 + account);
    assert n == 272 * Pow48 + (Pow32 + account);
    assert n == 0x110_0001 * Pow32 + account;
  }

  /** As written, a legacy id comes back with the instance bit in Z: `Z + 2^31`. */
  lemma RoundTripAsWritten(id: LegacyId)
    requires id.y <= 1 && 2 * id.z + id.y < Pow32
    ensures DecodeSteamId64(EncodeSteamId64(id)) == LegacyId(1, id.y, id.z + Pow31)
  {
    SteamBaseLayout(2 * id.z + id.y);
  }

  /** The same on the texts: `STEAM_X:Y:Z` -> 64-bit text -> `STEAM_1:Y:(Z + 2^31)`. */
  lemma RoundTripTextAsWritten(id: LegacyId)
    requires 0 <= id.universe && id.y <= 1 && 2 * id.z + id.y < Pow32
    ensures ToCommunityId64(RenderLegacy(id)).Some?
    ensures ToLegacyId(ToCommunityId64(RenderLegacy(id)).value) == Some(RenderLegacy(LegacyId(1, id.y, id.z + Pow31)))
  {
    EncodeRendered(id);
    RoundTripAsWritten(id);
  }

  /** The smallest individual account: the code answers `STEAM_1:0:2147483648`,
      Valve's layout gives `STEAM_1:0:0`. */
  lemma BaseIdDecodes()
    ensures DecodeSteamId64(76561197960265728) == LegacyId(1, 0, 2147483648)
    ensures DecodeSteamId64Corrected(76561197960265728) == LegacyId(1, 0, 0)
  {
    SteamBaseLayout(0);
  }

  /** With the 32-bit mask the decoder is the inverse of the encoder on every
      account number that fits in 32 bits. */
  lemma RoundTripCorrected(id: LegacyId)
    requires id.y <= 1 && 2 * id.z + id.y < Pow32
    ensures DecodeSteamId64Corrected(EncodeSteamId64(id)) == LegacyId(1, id.y, id.z)
  {
    SteamBaseLayout(2 * id.z + id.y);
  }

  /** The same on the texts: `STEAM_X:Y:Z` -> 64-bit text -> `STEAM_1:Y:Z`. */
  lemma RoundTripTextCorrected(id: LegacyId)
    requires 0 <= id.universe && id.y <= 1 && 2 * id.z + id.y < Pow32
    ensures ToCommunityId64(RenderLegacy(id)).Some?
    ensures ToLegacyIdCorrected(ToCommunityId64(RenderLegacy(id)).value) == Some(RenderLegacy(LegacyId(1, id.y, id.z)))
  {
    EncodeRendered(id);
    RoundTripCorrected(id);
  }

  /** And in the other direction: every individual-account id decodes to a legacy id
      that encodes back to it. */
  lemma RoundTripCorrectedFrom64(n: nat)
    requires SteamBase <= n < SteamBase + Pow32
    ensures EncodeSteamId64(DecodeSteamId64Corrected(n)) == n
  {
    SteamBaseLayout(n - SteamBase);
  }

  /** The examples of the identity resolver: `STEAM_1:0:100` and `STEAM_1:1:100`. */
  lemma EncodeExamples()
    ensures EncodeSteamId64(LegacyId(1, 0, 100)) == 76561197960265928
    ensures EncodeSteamId64(LegacyId(1, 1, 100)) == 76561197960265929
    ensures EncodeSteamId64(LegacyId(0, 3, 0)) == SteamBase + 3
  {
    assert BitOr(0, 3) == 3;
  }
}
