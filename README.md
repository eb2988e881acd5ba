# slack-link: a Dafny model of the slash-command server

slack-link is a small Express server that receives Slack slash commands for
the RPI Ambulance workspace. Each request first passes a verification
middleware. That middleware enforces a 300-second replay window on
`x-slack-request-timestamp` and checks Slack's `v0` HMAC-SHA256 signature.
The request then goes to one of three commands:

- `/checklink` looks up whether a Slack user is linked to a website member.
- `/linkuser` links a Slack user to a member id. It is for admins only.
- `/memberinfo` fetches a member's information. Admins get extra detail.

Each command makes at most one request to `rpiambulance.com/slack-link.php`.
It relays the website's body verbatim on a 200 answer, and a fixed apology
otherwise.

The model is written as functions, following the code's shape. The code is
straight-line and works by reassigning locals, and its handlers act only
through effects (`res.send`, `next()`, request callbacks). So every step here
is a function that returns a value describing what the code does:

- The middleware returns a `Verification.Gate`: `Next`, `Refuse(message)`, or
  `Thrown`.
- A handler returns a `Commands.Action`. This is either `Reply(message)`, or
  `Call(request, apology)` where the request is `Get(url)` or `Post(url, form)`.
- `Commands.Relay` gives the message the caller finally receives for a given
  `Types.HttpResult`.
- `Server.HandleRequest` chains the middleware and the dispatch.

Foreign code is passed in as function-typed parameters and is never
interpreted:

- the HMAC-SHA256 hex digest
- `qs.stringify`
- JavaScript's `Number()` coercion of the timestamp
- `encodeURI`, `encodeURIComponent`, and `isNaN` on strings
- `isAdmin`, as an oracle

The clock is an integer parameter `now`.

The JavaScript string behaviour the handlers depend on is modelled in module
`JsString`, over strings of Unicode characters. This covers `indexOf`, `substring` with clamped bounds,
`split(" ")` (empty pieces included), and the UTF-8 byte length that
`Buffer.from` gives. Two quirks follow from it, and both are kept:

- A mention token without `|` normalizes to just `>`, because
  `substring(0, -1)` is empty.
- A missing second token of `/linkuser` is `undefined`, and
  `isNaN(undefined)` is true.

In several places the code does something other than what a Slack request
verifier is usually expected to do; the model keeps the code's behaviour:

- The signature covers the body as `qs.stringify` re-serializes it, not the
  raw bytes.
- The text is split on every single space, not on runs of whitespace.
- `admin=1` is appended straight after the encoded mention, with no `&`
  (`Commands.MemberInfo`).
- A missing signature header makes `Buffer.from(undefined, 'utf8')` throw
  before any comparison; a signature whose UTF-8 length differs makes
  `timingSafeEqual` throw. The model does not return "false" there; it returns
  `Gate.Thrown`.
- A timestamp header that is missing or not numeric never counts as stale.
  `Math.abs(NaN) > 300` is false, so such a request goes on to the signature
  check (`Verification.NaNTimestampIsNeverStale`).
- A refusal (a stale request, or a signature of the right length that
  differs) answers with status 200 and a message, as the code does; a throw
  gets Express's error response instead.
- `isAdmin` does not deliver its decision at all (see Findings).

## Model

| member | source | states |
|---|---|---|
| `JsString.IndexOf` | server.js:85 | returns -1 exactly when the character is absent; otherwise it returns the position of its first occurrence |
| `JsString.IndexOfZero` | server.js:85 | `indexOf("<") == 0` holds exactly when the token begins with `<` |
| `JsString.IndexOfFirst` | server.js:90 | in `a + "|" + b` with no `|` in `a`, the first `|` is at position `|a|` |
| `JsString.Substring` | server.js:90 | `substring` on in-range ascending bounds is the slice; on swapped bounds it is the slice between them; with both bounds at or below 0 it is empty |
| `JsString.Split` | server.js:82 | `split(" ")` gives at least one piece; no piece holds a separator; there is exactly one piece when the string has no separator |
| `JsString.JoinSplit` | server.js:82 | joining the pieces of a split with the separator gives back the original text |
| `JsString.SplitJoin` | server.js:82 | splitting a join of separator-free pieces gives back the pieces |
| `JsString.FirstToken` | server.js:83 | `text.split(" ")[0]` is the longest space-free prefix of the text |
| `JsString.SecondToken` | server.js:121 | `text[1]` is undefined exactly when the text has no space; otherwise it is a space-free piece |
| `JsString.SecondTokenFollowsFirst` | server.js:121 | the second token follows the first token and one space, and runs up to the next space or the end of the text |
| `JsString.Utf8Length` | server.js:39 | the UTF-8 byte length is at least the character count and at most four times it; it equals the character count exactly when the string is ASCII |
| `JsString.Utf8LengthAppend` | server.js:39 | the UTF-8 byte length of a concatenation is the sum of the lengths of its parts |
| `Verification.NumberOr` | server.js:30 | the replay comparison is true exactly when the timestamp coerces to a number more than 300 seconds from now |
| `Verification.TimingSafeEqual` | server.js:39 | the comparison throws exactly on a missing signature or a UTF-8 length mismatch; it says "equal" exactly when the signature is the expected one |
| `Verification.Verify` | server.js:23-44 | a stale request gets "Ignore this request."; `next()` is called exactly when the request is fresh and carries `"v0=" + hex(HMAC(secret, "v0:" + ts + ":" + body))`; a throw happens exactly on a missing or length-mismatched signature; any other refusal is "Request verification failed" |
| `Verification.BaseStringInjective` | server.js:33 | for colon-free timestamps, equal base strings mean equal timestamps and equal bodies |
| `Verification.StaleIgnoresSignature` | server.js:28-32 | a stale request is refused with the same message whatever its signature header and whatever the HMAC computes |
| `Verification.SignatureDecides` | server.js:33-43 | a fresh request with Slack's signature passes; a different signature of the same UTF-8 length is refused with "Request verification failed" |
| `Verification.NaNTimestampIsNeverStale` | server.js:30 | a missing or non-numeric timestamp never gets the replay refusal |
| `Commands.NormalizeMention` | server.js:90-91 | the result ends in `>` and holds no `|`; without a `|` in the token it is `>` alone; otherwise it is the token's prefix before its first `|`, then `>` |
| `Commands.ResolveTarget` | server.js:75-93 | empty text targets `<@user_id>`; non-empty text whose first token does not open a mention is rejected; otherwise the target is the normalized first token |
| `Commands.CheckUserLink` | server.js:70-103 | empty text GETs the prefix plus `encodeURIComponent("<@" + user_id + ">")`; a mention GETs the prefix plus `encodeURI` of the normalized first token; anything else replies "The first paramter must be a user!" with no request |
| `Commands.LinkUser` | server.js:105-141 | a non-admin gets the admin-only message before any parsing; an admin's non-mention gets the mention message; a missing or NaN member id gets the whole-number message; a POST of `{slack_id, member_id, token}` happens exactly when admin, mention and number all pass |
| `Commands.MemberInfo` | server.js:143-181 | it rejects exactly the texts whose first token is not a mention; otherwise it GETs the info prefix plus the encoded target, followed directly by `admin=1`, with no `&`, exactly when the caller is an admin |
| `Commands.Dispatch` | server.js:53-68 | each of the three command names goes to its own handler; any other name replies with the fixed "isn't support" message |
| `Commands.Relay` | server.js:95-101 | a direct reply is sent as it is; after a call, the body is sent verbatim on a 200 with no error, and the handler's apology otherwise |
| `CommandProperties.PostOnlyForAdmins` | server.js:107-130 | a POST comes only from `/linkuser`, for a caller the admin oracle accepts, with a mention and a non-NaN member id |
| `CommandProperties.UnsupportedMakesNoCall` | server.js:63-67 | an unknown command makes no outbound call |
| `CommandProperties.NotAUserMakesNoCall` | server.js:82-88 | a first token that is not a mention stops all three handlers before any request to rpiambulance.com (`/linkuser` answers a non-admin with the admin message instead) |
| `CommandProperties.MemberInfoMatchesCheckLink` | server.js:148-170 | `/memberinfo` refuses the same texts as `/checklink`; its URL is its own prefix plus the same encoded mention, plus `admin=1` for admins |
| `CommandProperties.NormalizeTwiceCollapses` | server.js:90-91 | normalizing a normalized mention gives `>` |
| `CommandProperties.NormalizeStripsDisplayName` | server.js:119-120 | `a|b` with no `|` in `a` normalizes to `a>` |
| `CommandProperties.NormalizeDisplayName` | server.js:163-164 | `<@U1|name>` normalizes to `<@U1>` |
| `CommandProperties.NormalizeWithoutDisplayName` | server.js:90-91 | `<@U1>` normalizes to `>` |
| `CommandProperties.LinkUserExample` | server.js:110-130 | an admin's `/linkuser <@U1|name> 42` POSTs slack_id `<@U1>` and member_id `42` |
| `CommandProperties.LinkUserRejectsNonMention` | server.js:114-117 | an admin's `/linkuser notamention 42` gets the mention message and makes no request to rpiambulance.com |
| `Admin.AdminCallback` | server.js:185-193 | a failed lookup returns false; a 200 reply throws exactly when it has no user object; otherwise it returns that user's `is_admin` |
| `Admin.IsAdminAsWritten` | server.js:183-194 | `isAdmin` as written yields a value that is never truthy |
| `Admin.IntendedIsAdmin` | server.js:185-193 | the callback's decision, failing closed: true exactly when users.info answered 200 with `is_admin: true` |
| `Server.HandleRequest` | server.js:23-68 | `Server.Middleware` feeds the `qs.stringify` of the body to `Verification.Verify` (server.js:23-26); a request reaches dispatch exactly when it is fresh and correctly signed, and is then handled by `Dispatch`; a stale request gets the ignore message; the middleware throws (`Errored`) exactly when it is fresh and its signature is missing or of another UTF-8 length than the expected one; any other refusal gets the verification-failed message |
| `Server.StaleRequestMakesNoCall` | server.js:28-32 | a stale request makes no outbound call, whatever its signature, HMAC or body serialization |
| `Server.OutboundOnlyWhenVerified` | server.js:30-40 | every outbound request comes from a fresh, correctly signed request; a POST also needs `/linkuser` and an admin caller |
| `Server.SignedSelfCheckRelaysBody` | server.js:70-102 | a signed, fresh `/checklink` with empty text GETs the caller's component-encoded mention, relays a 200 body unmodified, and apologizes on a transport error |
| `Server.AsWrittenNeverLinks` | server.js:107-108 | with `isAdmin` as written, every dispatched `/linkuser` gets "This command can only be used by an admin!" |
| `Server.AsWrittenNeverPosts` | server.js:105-141 | with `isAdmin` as written, no request ever leads to a POST |
| `Server.AsWrittenNeverElevatesInfo` | server.js:167-170 | with `isAdmin` as written, the `/memberinfo` URL never carries `admin=1` |
| `Server.IntendedAdminCanLink` | server.js:184-188 | with the callback's decision on the users.info URL `Admin.UserInfoUrl` builds (server.js:184) as `isAdmin`, a well-formed `/linkuser` POSTs exactly when users.info answered 200 with `is_admin: true` |

## Findings

| source | as written | input that shows it | evidently intended | confidence | as-written member | corrected member |
|---|---|---|---|---|---|---|
| server.js:183-194 | `isAdmin` starts the users.info request and returns nothing. The callback's `return bod.user.is_admin` returns from the callback, so `isAdmin(...)` is `undefined` | a `/linkuser <@U1|name> 42` from a workspace admin is answered "This command can only be used by an admin!", and `/memberinfo` never adds `admin=1` | `isAdmin` delivers the callback's decision to the handler, which awaits it before going on | high; not executed | `Server.AsWrittenNeverLinks` (with `Admin.IsAdminAsWritten`) | `Admin.IntendedIsAdmin` (with `Server.IntendedAdminCanLink`) |

## Left out

- Loading configuration with dotenv, the Express app, body-parser, `app.listen` and console logging are process plumbing. The configuration is an immutable `Server.Config` value.
- The network calls themselves are not modelled. A handler returns the request to rpiambulance.com it would make, and the outcome of that request is an `HttpResult` input to `Relay`. The order of suspension points, and concurrency between in-flight requests, are not modelled either.
- HMAC-SHA256 and its hex digest are an uninterpreted parameter `hmacHex(key, message)`.
- `qs.stringify(req.body, {format: 'RFC1738'})` is an uninterpreted parameter over the parsed form. Fields of the body other than `command`, `text` and `user_id` affect only the signature, so they are not represented.
- `encodeURI`, `encodeURIComponent`, and `isNaN` on strings are uninterpreted parameters. Their ECMAScript definitions are not modelled.
- `Verification.Verify`: the timestamp coercion is a parameter `toNumber` that yields an integer or NaN. Fractional and infinite values of `Number()` are not represented.
- `Verification.TimingSafeEqual`: the byte-wise comparison of two equal-length UTF-8 buffers is modelled as equality of the two strings. This rests on UTF-8 being an injective encoding, which is not proved here. The constant-time property cannot be stated in this model at all.
- The wall clock is the integer parameter `now`. It stands for `Math.floor(Date.now() / 1000)`.
- What Express does after a throw in the middleware (its default error response) is not modelled. The model stops at `Gate.Thrown` / `Server.Outcome.Errored`.
- `Commands.LinkUser` and `Commands.MemberInfo`: the users.info GET that `isAdmin` issues (server.js:184-185) before linkUser parses anything, and in memberInfo besides its own GET, is not part of the returned `Action`. The handlers see only the oracle's answer. The `Threw` outcome of `Admin.AdminCallback` (a 200 reply that is not JSON or has no `user`) is not connected to the pipeline as written, so `Server.HandleRequest` does not show that such a reply crashes the process, after `/linkuser` has already answered (its `res.send` at server.js:108 runs first), and possibly before `/memberinfo` has (its only `res.send` sits in the callback of its own GET, server.js:172-179, which races the users.info GET).
- Absent body fields are not represented: `Commands.Form` holds `command`, `text` and `user_id` as strings. Were `text` missing, `text.length` (server.js:78, 151) and `text.split` (server.js:111) would throw a TypeError; Slack always sends the field.
- Strings are sequences of Unicode scalar values, while JavaScript strings are sequences of UTF-16 code units. Every use in the handlers (indexOf followed by substring on the same string, split on one character) agrees under either view, and lone surrogates cannot occur in these strings, so the model does not represent code units.
- `Admin.AdminCallback`: a throw inside the callback would be an uncaught exception in the process. The model stops at `CallbackValue.Threw`. JSON parsing of the users.info reply is a parameter `parse`.
