/**
 * The middleware that every request to /slack/slack-link/commands passes
 * through before it is dispatched (server.js:23-44): a replay window on the
 * request timestamp, then Slack's version-0 request signature, compared with
 * crypto.timingSafeEqual.
 */
module Verification {

  import opened Types
  import opened JsString

  /** Seconds a request timestamp may lie before or after the current time. */
  const ReplayWindow := 300

  const IgnoreMessage := "Ignore this request."
  const FailedMessage := "Request verification failed"

  /** The two Slack headers, `x-slack-signature` and `x-slack-request-timestamp`; either may be absent. */
  datatype Headers = Headers(signature: Option<string>, timestamp: Option<string>)

  /**
   * What the middleware does: call `next()`, answer with status 200 and a
   * message, or throw (Buffer.from refuses an undefined signature, and
   * timingSafeEqual refuses buffers of two different lengths), which Express
   * turns into an error response.
   */
  datatype Gate = Next | Refuse(message: string) | Thrown

  /** String concatenation of a header value: an absent header reads as `undefined`. */
  function HeaderText(h: Option<string>): string
  {
    match h
    case Some(s) => s
    case None => "undefined"
  }

  function Abs(x: int): nat
  {
    if x < 0 then -x else x
  }

  /**
   * `Math.abs(time - timestamp) > 300`. The subtraction coerces the header
   * with Number(), given here as `toNumber` (None for NaN); an absent header
   * is NaN too, and a comparison with NaN is false, so only a numeric
   * timestamp can be stale.
   */
  predicate Stale(now: int, timestamp: Option<string>, toNumber: string -> Option<int>)
  {
    timestamp.Some? && toNumber(timestamp.value).Some? &&
    Abs(now - toNumber(timestamp.value).value) > ReplayWindow
  }

  /** The signing base string `v0:<timestamp>:<body>`. */
  function BaseString(timestamp: Option<string>, body: string): string
  {
    "v0:" + HeaderText(timestamp) + ":" + body
  }

  /**
   * The base string binds both the timestamp and the body: two requests
   * whose timestamps hold no colon and whose base strings agree have the same
   * timestamp text and the same body.
   */
  lemma BaseStringInjective(t1: Option<string>, b1: string, t2: Option<string>, b2: string)
    requires ':' !in HeaderText(t1) && ':' !in HeaderText(t2)
    requires BaseString(t1, b1) == BaseString(t2, b2)
    ensures HeaderText(t1) == HeaderText(t2) && b1 == b2
  {
    var h1, h2 := HeaderText(t1), HeaderText(t2);
    var s := BaseString(t1, b1);
    assert s[3..] == h1 + [':'] + b1;
    assert s[3..] == h2 + [':'] + b2;
    IndexOfFirst(h1, ':', b1);
    IndexOfFirst(h2, ':', b2);
    assert h1 == s[3..][..|h1|];
    assert h2 == s[3..][..|h2|];
    assert b1 == s[3..][|h1| + 1..];
    assert b2 == s[3..][|h2| + 1..];
  }

  /**
   * The signature Slack would send: `v0=` followed by the hex digest of
   * HMAC-SHA256 keyed with the signing secret over the base string;
   * `hmacHex(key, message)` stands for that digest.
   */
  function ExpectedSignature(secret: string, timestamp: Option<string>, body: string,
                             hmacHex: (string, string) -> string): string
  {
    "v0=" + hmacHex(secret, BaseString(timestamp, body))
  }

  /**
   * `crypto.timingSafeEqual(Buffer.from(mine), Buffer.from(theirs))`: None
   * when it throws, that is when `theirs` is undefined (Buffer.from throws
   * before the comparison runs) or the two UTF-8 encodings differ in length
   * (timingSafeEqual throws); otherwise whether the two strings are equal.
   */
  function TimingSafeEqual(mine: string, theirs: Option<string>): (r: Option<bool>)
    ensures r.None? <==> theirs.None? || Utf8Length(mine) != Utf8Length(theirs.value)
    ensures r == Some(true) <==> theirs == Some(mine)
  {
    match theirs
    case None => None
    case Some(t) =>
      if Utf8Length(mine) != Utf8Length(t) then None else Some(mine == t)
  }

  /**
   * The middleware. `body` is the request body as qs.stringify re-serialises
   * it, `now` the current time in whole seconds.
   */
  function Verify(secret: string, now: int, headers: Headers, body: string,
                  hmacHex: (string, string) -> string, toNumber: string -> Option<int>): (g: Gate)
    ensures Stale(now, headers.timestamp, toNumber) ==> g == Refuse(IgnoreMessage)
    ensures g == Next <==>
      !Stale(now, headers.timestamp, toNumber) &&
      headers.signature == Some(ExpectedSignature(secret, headers.timestamp, body, hmacHex))
    ensures g == Thrown <==>
      !Stale(now, headers.timestamp, toNumber) &&
      (headers.signature.None? ||
       Utf8Length(headers.signature.value) != Utf8Length(ExpectedSignature(secret, headers.timestamp, body, hmacHex)))
    ensures g.Refuse? ==> g.message == (if Stale(now, headers.timestamp, toNumber) then IgnoreMessage else FailedMessage)
  {
    if Abs(now - NumberOr(headers.timestamp, toNumber, now)) > ReplayWindow then
      Refuse(IgnoreMessage)
    else
      var mine := ExpectedSignature(secret, headers.timestamp, body, hmacHex);
      match TimingSafeEqual(mine, headers.signature)
      case None => Thrown
      case Some(equal) => if equal then Next else Refuse(FailedMessage)
  }

  /**
   * The numeric value of the timestamp header, or, when it is NaN, a value
   * that makes the replay comparison false just as NaN does.
   */
  function NumberOr(timestamp: Option<string>, toNumber: string -> Option<int>, now: int): (n: int)
    ensures Abs(now - n) > ReplayWindow <==> Stale(now, timestamp, toNumber)
  {
    if timestamp.Some? && toNumber(timestamp.value).Some? then toNumber(timestamp.value).value else now
  }

  /** A stale request is refused whatever its signature, before any HMAC is computed. */
  lemma StaleIgnoresSignature(secret: string, now: int, headers: Headers, body: string,
                              hmac1: (string, string) -> string, hmac2: (string, string) -> string,
                              toNumber: string -> Option<int>, other: Option<string>)
    requires Stale(now, headers.timestamp, toNumber)
    ensures Verify(secret, now, headers, body, hmac1, toNumber) ==
            Verify(secret, now, Headers(other, headers.timestamp), body, hmac2, toNumber) ==
            Refuse(IgnoreMessage)
  {
  }

  /**
   * A fresh request signed as Slack signs it passes; the same request with a
   * signature of the same UTF-8 length that differs anywhere is refused.
   */
  lemma {:induction false} SignatureDecides(secret: string, now: int, ts: string, body: string,
                          hmacHex: (string, string) -> string, toNumber: string -> Option<int>, forged: string)
    requires toNumber(ts).Some? && Abs(now - toNumber(ts).value) <= ReplayWindow
    requires forged != ExpectedSignature(secret, Some(ts), body, hmacHex)
    requires Utf8Length(forged) == Utf8Length(ExpectedSignature(secret, Some(ts), body, hmacHex))
    ensures Verify(secret, now, Headers(Some(ExpectedSignature(secret, Some(ts), body, hmacHex)), Some(ts)), body, hmacHex, toNumber) == Next
    ensures Verify(secret, now, Headers(Some(forged), Some(ts)), body, hmacHex, toNumber) == Refuse(FailedMessage)
  {
  }

  /**
   * A timestamp header that is absent or not a number never trips the
   * replay window: such a request goes on to the signature comparison.
   */
  lemma NaNTimestampIsNeverStale(secret: string, now: int, headers: Headers, body: string,
                                 hmacHex: (string, string) -> string, toNumber: string -> Option<int>)
    requires headers.timestamp.None? || toNumber(headers.timestamp.value).None?
    ensures Verify(secret, now, headers, body, hmacHex, toNumber) != Refuse(IgnoreMessage)
  {
  }
}
