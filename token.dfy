/** The fake session token: `"fake-jwt-token."` followed by the encoded JSON payload
    `{"exp":<seconds>,"id":<account id>}`, the bearer check on it, and its expiry arithmetic. */
module Token {
  import opened Wrappers
  import opened Text

  datatype Payload = Payload(exp: int, id: int)

  const TokenPrefix := "fake-jwt-token."
  /** What `isLoggedIn` looks for at the front of the `Authorization` header. */
  const BearerPrefix := "Bearer fake-jwt-token"
  /** 15 minutes, in milliseconds. */
  const TokenLifetimeMs := 15 * 60 * 1000
  /** The refresh timer fires one minute before expiry. */
  const RefreshMarginMs := 60 * 1000

  const ExpKey := "{\"exp\":"
  const IdKey := ",\"id\":"

  /** `JSON.stringify` of an integer. */
  function IntText(i: int): (r: string)
    ensures |r| > 0 && (r[0] == '-' <==> i < 0)
    ensures i >= 0 ==> AllDigits(r)
  {
    if i < 0 then "-" + NatText(-i) else NatText(i)
  }

  /** `JSON.stringify({exp, id})`. */
  function PayloadJson(p: Payload): (r: string)
    ensures StartsWith(r, ExpKey) && r[|r| - 1] == '}'
    ensures '.' !in r
  {
    IntTextHasNoDot(p.exp);
    IntTextHasNoDot(p.id);
    SplitAfter(ExpKey, IntText(p.exp) + IdKey + IntText(p.id) + "}");
    ExpKey + IntText(p.exp) + IdKey + IntText(p.id) + "}"
  }

  /** `generateJwtToken`, with the base64 step as the identity (see README). */
  function GenerateJwtToken(p: Payload): (r: string)
    ensures StartsWith(r, TokenPrefix)
    ensures DecodeToken(r) == Some(p)
  {
    SplitAfter(TokenPrefix, PayloadJson(p));
    TokenRoundTrip(p);
    TokenPrefix + PayloadJson(p)
  }

  /** An optionally negative integer literal at the front of `s`, and what follows it. */
  function ParseIntPrefix(s: string): (r: Option<(int, string)>)
    ensures r.Some? ==> |r.value.1| < |s| && s[|s| - |r.value.1|..] == r.value.1
    ensures r.Some? ==> r.value.1 == [] || !IsDigit(r.value.1[0])
    ensures r.None? <==> LeadingDigitCount(if |s| > 0 && s[0] == '-' then s[1..] else s) == 0
  {
    if |s| > 0 && s[0] == '-' then
      var k := LeadingDigitCount(s[1..]);
      var magnitude: int := DigitsValue(s[1..][..k]);
      if k == 0 then None else Some((-magnitude, s[1..][k..]))
    else
      var k := LeadingDigitCount(s);
      if k == 0 then None else Some((DigitsValue(s[..k]), s[k..]))
  }

  /** `JSON.parse` of a payload, for the text shape that `JSON.stringify` writes. */
  function PayloadFromJson(s: string): (r: Option<Payload>)
    ensures r.Some? ==> StartsWith(s, ExpKey) && s[|s| - 1] == '}'
  {
    if !StartsWith(s, ExpKey) then None
    else
      match ParseIntPrefix(s[|ExpKey|..])
      case None => None
      case Some((exp, r1)) =>
        if !StartsWith(r1, IdKey) then None
        else
          match ParseIntPrefix(r1[|IdKey|..])
          case None => None
          case Some((id, r2)) => if r2 == "}" then Some(Payload(exp, id)) else None
  }

  /** The index of the first `c` in `s`. */
  function IndexOf(s: string, c: char): (r: Option<nat>)
    ensures r.Some? ==> r.value < |s| && s[r.value] == c && c !in s[..r.value]
    ensures r.None? ==> c !in s
  {
    if s == [] then None
    else if s[0] == c then Some(0)
    else
      match IndexOf(s[1..], c)
      case None => None
      case Some(i) =>
        assert s[..i + 1] == [s[0]] + s[1..][..i];
        Some(i + 1)
  }

  /** Everything before the first `'.'` of `s`, or all of `s`. */
  function UpToDot(s: string): (r: string)
    ensures r <= s && '.' !in r
    ensures |r| < |s| ==> s[|r|] == '.'
  {
    match IndexOf(s, '.')
    case None => s
    case Some(i) => s[..i]
  }

  /** `token.split('.')[1]`; `None` when there is no dot and the element is `undefined`. */
  function SecondSegment(token: string): (r: Option<string>)
    ensures r.None? <==> '.' !in token
    ensures r.Some? ==> '.' !in r.value
  {
    match IndexOf(token, '.')
    case None => None
    case Some(i) => Some(UpToDot(token[i + 1..]))
  }

  /** `JSON.parse(atob(token.split('.')[1]))`, as the account service reads the expiry. */
  function DecodeToken(token: string): (r: Option<Payload>)
    ensures '.' !in token ==> r.None?
  {
    match SecondSegment(token)
    case None => None
    case Some(seg) => PayloadFromJson(seg)
  }

  /** A digit run followed by a non-digit is read as the run and the rest. */
  lemma DigitsThenRest(d: string, rest: string)
    requires |d| > 0 && AllDigits(d)
    requires rest == [] || !IsDigit(rest[0])
    ensures var s := d + rest;
            var k := LeadingDigitCount(s);
            k == |d| && s[..k] == d && s[k..] == rest
  {
    LeadingDigitsOf(d, rest);
    assert (d + rest)[..|d|] == d;
    assert (d + rest)[|d|..] == rest;
  }

  lemma {:induction false} NatTextParses(n: nat, rest: string)
    requires rest == [] || !IsDigit(rest[0])
    ensures ParseIntPrefix(NatText(n) + rest) == Some((n, rest))
  {
    var d := NatText(n);
    DigitsThenRest(d, rest);
    NatTextValue(n);
    assert (d + rest)[0] == d[0] && IsDigit(d[0]);
  }

  lemma {:induction false} NegativeTextParses(n: nat, rest: string)
    requires n > 0
    requires rest == [] || !IsDigit(rest[0])
    ensures ParseIntPrefix("-" + NatText(n) + rest) == Some((0 - n as int, rest))
  {
    var d := NatText(n);
    var s := "-" + d + rest;
    assert s[0] == '-';
    assert s[1..] == d + rest;
    DigitsThenRest(d, rest);
    NatTextValue(n);
  }

  /** The text of an integer, followed by anything that does not start with a digit, reads
      back as that integer and leaves the rest. */
  lemma IntTextParses(i: int, rest: string)
    requires rest == [] || !IsDigit(rest[0])
    ensures ParseIntPrefix(IntText(i) + rest) == Some((i, rest))
  {
    if i < 0 {
      NegativeTextParses(-i, rest);
    } else {
      NatTextParses(i, rest);
    }
  }

  lemma SplitAfter(a: string, b: string)
    ensures StartsWith(a + b, a) && (a + b)[|a|..] == b
  {
    assert (a + b)[..|a|] == a;
  }

  /** Reading back the JSON text of a payload gives the payload. */
  lemma PayloadJsonRoundTrip(p: Payload)
    ensures PayloadFromJson(PayloadJson(p)) == Some(p)
  {
    var tail := IntText(p.id) + "}";
    var r1 := IdKey + tail;
    var afterExp := IntText(p.exp) + r1;
    assert PayloadJson(p) == ExpKey + afterExp;
    SplitAfter(ExpKey, afterExp);
    IntTextParses(p.exp, r1);
    SplitAfter(IdKey, tail);
    IntTextParses(p.id, "}");
  }

  /** The text of an integer has no dot. */
  lemma IntTextHasNoDot(i: int)
    ensures '.' !in IntText(i)
  {
    var d := NatText(if i < 0 then -i else i);
    assert forall j :: 0 <= j < |d| ==> IsDigit(d[j]);
  }

  /** The prefix followed by the JSON text of a payload decodes to that payload: the expiry
      that the account service reads is the one the backend wrote. */
  lemma TokenRoundTrip(p: Payload)
    ensures DecodeToken(TokenPrefix + PayloadJson(p)) == Some(p)
  {
    assert TokenPrefix == "fake-jwt-token" + ".";
    assert '.' !in "fake-jwt-token";
    DecodeAfterDot("fake-jwt-token", PayloadJson(p));
    PayloadJsonRoundTrip(p);
  }

  /** With one dot between two dot-free texts, the second text is what gets decoded. */
  lemma DecodeAfterDot(w: string, json: string)
    requires '.' !in w && '.' !in json
    ensures DecodeToken(w + "." + json) == PayloadFromJson(json)
  {
    var t := w + "." + json;
    assert t[|w|] == '.' && t[..|w|] == w && t[|w| + 1..] == json;
    assert IndexOf(t, '.') == Some(|w|);
    assert UpToDot(json) == json;
  }

  /** Different payloads give different tokens. */
  lemma TokenInjective(p: Payload, q: Payload)
    requires GenerateJwtToken(p) == GenerateJwtToken(q)
    ensures p == q
  {
  }

  /** `isLoggedIn`: the `Authorization` header is present and starts with the bearer prefix. */
  predicate IsLoggedIn(authorization: Option<string>): (b: bool)
    ensures b <==> authorization.Some? && |authorization.value| >= |BearerPrefix|
                   && authorization.value == BearerPrefix + authorization.value[|BearerPrefix|..]
  {
    authorization.Some? && StartsWith(authorization.value, BearerPrefix)
  }

  /** `"Bearer "` and a text with the token prefix pass the check. */
  lemma BearerOfToken(t: string)
    requires StartsWith(t, TokenPrefix)
    ensures IsLoggedIn(Some("Bearer " + t))
  {
    var h := "Bearer " + t;
    assert t[..14] == TokenPrefix[..14];
    assert h[..|BearerPrefix|] == "Bearer " + t[..14];
  }

  /** Presenting an issued token as a bearer token passes the check. */
  lemma IssuedTokenIsLoggedIn(p: Payload)
    ensures IsLoggedIn(Some("Bearer " + GenerateJwtToken(p)))
  {
    BearerOfToken(GenerateJwtToken(p));
  }

  /** The check looks only at the prefix: a header with no payload at all passes it. */
  lemma IsLoggedInIgnoresPayload()
    ensures IsLoggedIn(Some(BearerPrefix))
    ensures DecodeToken(BearerPrefix[7..]) == None
  {
    assert BearerPrefix[7..] == "fake-jwt-token";
  }

  /** `Math.round((nowMs + 15 min) / 1000)`: seconds, rounded half up. */
  function ExpiryFor(nowMs: int): (exp: int)
    ensures nowMs + TokenLifetimeMs - 500 < exp * 1000 <= nowMs + TokenLifetimeMs + 500
  {
    (nowMs + TokenLifetimeMs + 500) / 1000
  }

  /** Issued on a whole second, the token expires exactly 900 seconds later. */
  lemma ExpiryOnWholeSecond(nowMs: int)
    requires nowMs % 1000 == 0
    ensures ExpiryFor(nowMs) == nowMs / 1000 + 900
  {
  }

  /** `exp * 1000 - Date.now() - 60 * 1000`: the delay of the refresh timer. */
  function RefreshDelay(exp: int, nowMs: int): (delay: int)
    ensures nowMs + delay == exp * 1000 - RefreshMarginMs
  {
    exp * 1000 - nowMs - RefreshMarginMs
  }

  /** For a token issued at `issuedMs` and read at `nowMs`, the refresh comes 14 minutes
      after issue, give or take the half second of rounding. */
  lemma RefreshDelayOfFreshToken(issuedMs: int, nowMs: int)
    ensures var d := RefreshDelay(ExpiryFor(issuedMs), nowMs);
            issuedMs + 840000 - 500 < nowMs + d <= issuedMs + 840000 + 500
  {
  }
}
