/**
 * Decoding of the advisory `exp` claim of an access token and the
 * arithmetic of the proactive refresh schedule (src/stores/auth.ts).
 * Base64 decoding and JSON parsing are not modelled: they are a decoder
 * the caller supplies, which either throws or yields the parsed `exp` field.
 */
module TokenCodec {
  import opened Js

  /** How far ahead of expiry a long-lived token is refreshed. */
  const REFRESH_MARGIN_MS: int := 60000
  /** The floor of the lead time for short-lived tokens. */
  const MIN_LEAD_MS: int := 1000

  /** What `JSON.parse(atob(padded))` produces: a thrown error, or the `exp` field. */
  datatype Decoded = Threw | Parsed(exp: JsValue)

  /** `s.replace(/from/g, to)` for single characters. */
  function ReplaceAll(s: string, from: char, to: char): string {
    if s == [] then [] else [if s[0] == from then to else s[0]] + ReplaceAll(s[1..], from, to)
  }

  /** Every `from` becomes `to`; every other character stays where it was. */
  lemma {:induction false} ReplaceAllSpec(s: string, from: char, to: char)
    ensures var r := ReplaceAll(s, from, to);
      && |r| == |s|
      && (forall i | 0 <= i < |s| :: r[i] == if s[i] == from then to else s[i])
  {
    if s != [] {
      ReplaceAllSpec(s[1..], from, to);
    }
  }

  /** The URL-safe base64 alphabet mapped back to the standard one. */
  function ToStandardAlphabet(segment: string): string {
    ReplaceAll(ReplaceAll(segment, '-', '+'), '_', '/')
  }

  /**
   * The substitution keeps the length, leaves no `-` or `_`, turns `-` into
   * `+` and `_` into `/`, and keeps every other character.
   */
  lemma StandardAlphabetSpec(segment: string)
    ensures var r := ToStandardAlphabet(segment);
      && |r| == |segment|
      && '-' !in r && '_' !in r
      && (forall i | 0 <= i < |segment| ::
            r[i] == (if segment[i] == '-' then '+' else if segment[i] == '_' then '/' else segment[i]))
  {
    ReplaceAllSpec(segment, '-', '+');
    ReplaceAllSpec(ReplaceAll(segment, '-', '+'), '_', '/');
  }

  /** Number of `=` characters that restore base64 padding. */
  function PaddingLength(n: nat): (p: nat)
    ensures p <= 3
    ensures (n + p) % 4 == 0
    ensures n % 4 == 0 ==> p == 0
  {
    (4 - n % 4) % 4
  }

  function Repeat(c: char, n: nat): (r: string)
    ensures |r| == n
    ensures forall i | 0 <= i < n :: r[i] == c
  {
    if n == 0 then [] else [c] + Repeat(c, n - 1)
  }

  /** `segment.padEnd(len + paddingLength, '=')` */
  function Padded(segment: string): (r: string)
    ensures |r| % 4 == 0
    ensures |segment| <= |r| <= |segment| + 3
    ensures r[..|segment|] == segment
    ensures forall i | |segment| <= i < |r| :: r[i] == '='
  {
    segment + Repeat('=', PaddingLength(|segment|))
  }

  /** The text handed to the decoder: the middle segment, re-alphabeted and padded. */
  function PayloadText(token: string): string
    requires '.' in token
  {
    Padded(ToStandardAlphabet(Split(token, '.')[1]))
  }

  /**
   * getTokenExpiresAt: the expiry in milliseconds, or None. `atobAvailable`
   * says whether the runtime has a base64 decoder at all.
   */
  function GetTokenExpiresAt(token: string, atobAvailable: bool, decode: string -> Decoded): (r: Option<int>)
    ensures '.' !in token ==> r == None
    ensures !atobAvailable ==> r == None
    ensures r.Some? ==> r.value % 1000 == 0
  {
    var segments := Split(token, '.');
    if |segments| < 2 then None
    else
      var padded := Padded(ToStandardAlphabet(segments[1]));
      if !atobAvailable then None
      else
        match decode(padded)
        case Threw => None
        case Parsed(exp) => if exp.Num? then Some(exp.n * 1000) else None
  }

  /**
   * The expiry is known exactly when the token has a middle segment, a
   * decoder exists, and decoding that segment yields a numeric `exp`; it is
   * then `exp` seconds in milliseconds.
   */
  lemma GetTokenExpiresAtSpec(token: string, atobAvailable: bool, decode: string -> Decoded)
    ensures var r := GetTokenExpiresAt(token, atobAvailable, decode);
      && (r.Some? <==> '.' in token && atobAvailable && decode(PayloadText(token)).Parsed?
                       && decode(PayloadText(token)).exp.Num?)
      && (r.Some? ==> r.value == decode(PayloadText(token)).exp.n * 1000)
  {
  }

  function Max(a: int, b: int): int {
    if a >= b then a else b
  }

  /** How long before expiry the refresh fires, for a positive time to live. */
  function LeadTime(ttl: int): int
    requires ttl > 0
  {
    if ttl > REFRESH_MARGIN_MS then REFRESH_MARGIN_MS else Max(ttl / 2, MIN_LEAD_MS)
  }

  /** The timer delay for a token with `ttl` milliseconds left; zero when already expired. */
  function RefreshDelay(ttl: int): nat {
    if ttl <= 0 then 0 else Max(ttl - LeadTime(ttl), 0)
  }

  /**
   * The refresh always fires before expiry, never earlier than one margin
   * before it, and never later than one second before it (or at once, when
   * less than a second is left). Tokens with more than a margin to live are
   * refreshed exactly one margin before expiry; shorter ones halfway, rounded up.
   */
  lemma DelayBounds(ttl: int)
    ensures ttl <= 0 ==> RefreshDelay(ttl) == 0
    ensures ttl > 0 ==> 0 <= RefreshDelay(ttl) < ttl
    ensures ttl > 0 ==> ttl - RefreshDelay(ttl) <= REFRESH_MARGIN_MS
    ensures ttl > 0 ==> ttl - RefreshDelay(ttl) >= (if ttl < MIN_LEAD_MS then ttl else MIN_LEAD_MS)
    ensures ttl > REFRESH_MARGIN_MS ==> RefreshDelay(ttl) == ttl - REFRESH_MARGIN_MS
    ensures 2 * MIN_LEAD_MS <= ttl <= REFRESH_MARGIN_MS ==> RefreshDelay(ttl) == ttl - ttl / 2
  {
  }

  /** The lead time written as `min(margin, max(ttl/2, floor))`. */
  function MinFormulaLeadTime(ttl: int): int
    requires ttl > 0
  {
    var m := Max(ttl / 2, MIN_LEAD_MS);
    if m < REFRESH_MARGIN_MS then m else REFRESH_MARGIN_MS
  }

  /**
   * The conditional lead time never schedules later than the `min` formula,
   * agrees with it outside (60 s, 120 s), and inside that window fires
   * strictly earlier (for instance 40 s instead of 50 s for a 100 s token).
   */
  lemma LeadTimeVersusMinFormula(ttl: int)
    requires ttl > 0
    ensures LeadTime(ttl) >= MinFormulaLeadTime(ttl)
    ensures (ttl <= REFRESH_MARGIN_MS || ttl >= 2 * REFRESH_MARGIN_MS) ==> LeadTime(ttl) == MinFormulaLeadTime(ttl)
    ensures REFRESH_MARGIN_MS < ttl < 2 * REFRESH_MARGIN_MS ==> LeadTime(ttl) > MinFormulaLeadTime(ttl)
  {
  }

  /**
   * The delay the scheduler arms for a token at time `now`, or None when it
   * arms nothing: an empty or null token, or an expiry that is unknown or zero.
   */
  function ArmedDelay(token: Option<string>, now: int, atobAvailable: bool, decode: string -> Decoded): (r: Option<nat>)
    ensures !Present(token) ==> r == None
  {
    if !Present(token) then None
    else
      var expiresAt := GetTokenExpiresAt(token.value, atobAvailable, decode);
      if expiresAt.None? || expiresAt.value == 0 then None
      else Some(RefreshDelay(expiresAt.value - now))
  }

  /**
   * A timer is armed exactly for a present token with a known, non-zero
   * expiry, and it fires before that expiry (at once when already expired).
   */
  lemma ArmedDelaySpec(token: Option<string>, now: int, atobAvailable: bool, decode: string -> Decoded)
    ensures var r := ArmedDelay(token, now, atobAvailable, decode);
      && (r.Some? <==> (Present(token)
           && GetTokenExpiresAt(token.value, atobAvailable, decode).Some?
           && GetTokenExpiresAt(token.value, atobAvailable, decode).value != 0))
      && (r.Some? ==> var ttl := GetTokenExpiresAt(token.value, atobAvailable, decode).value - now;
           (ttl <= 0 ==> r.value == 0) && (ttl > 0 ==> r.value < ttl))
  {
    if Present(token) {
      var expiresAt := GetTokenExpiresAt(token.value, atobAvailable, decode);
      if expiresAt.Some? {
        DelayBounds(expiresAt.value - now);
      }
    }
  }
}
