/**
 * `isAdmin` (server.js:183-194): a GET to Slack's users.info method whose
 * callback reads `user.is_admin` from the JSON reply.
 *
 * As written the function's only statement starts that request; the
 * callback's `return` returns from the callback, not from isAdmin, so
 * isAdmin itself returns `undefined`, which the handlers' `if` reads as
 * false. IsAdminAsWritten models that; IntendedIsAdmin models the decision
 * the callback computes, which is what the handlers evidently meant to
 * consult.
 */
module Admin {

  import opened Types

  /** The URL of the users.info lookup; the access token and the user id are interpolated as they are. */
  function UserInfoUrl(accessToken: string, userId: string): string
  {
    "https://slack.com/api/users.info?token=" + accessToken + "&user=" + userId
  }

  /**
   * What JSON.parse and the property reads make of the users.info reply:
   * text that is not JSON (JSON.parse throws), JSON without a `user` object
   * (reading `is_admin` of undefined throws), or a user whose `is_admin` is
   * a boolean or missing (`undefined`).
   */
  datatype UserInfo = Malformed | NoUser | User(isAdmin: Option<bool>)

  /** What the callback does: return a value (`undefined` as None), or throw. */
  datatype CallbackValue = Returned(value: Option<bool>) | Threw

  /** The callback passed to request.get (server.js:185-193). */
  function AdminCallback(result: HttpResult, parse: string -> UserInfo): (v: CallbackValue)
    ensures !Succeeded(result) ==> v == Returned(Some(false))
    ensures Succeeded(result) ==> (v.Threw? <==> !parse(result.body).User?)
    ensures Succeeded(result) && parse(result.body).User? ==> v == Returned(parse(result.body).isAdmin)
  {
    if result.Response? && result.status == 200 then
      match parse(result.body)
      case Malformed => Threw
      case NoUser => Threw
      case User(flag) => Returned(flag)
    else Returned(Some(false))
  }

  /** JavaScript truthiness of the callback's possible values. */
  predicate Truthy(v: Option<bool>)
  {
    v == Some(true)
  }

  /** isAdmin as written: its value is `undefined` whatever Slack answers. */
  function IsAdminAsWritten(userId: string): (v: Option<bool>)
    ensures !Truthy(v)
  {
    None
  }

  /** The oracle the handlers see with isAdmin as written. */
  predicate AsWrittenOracle(userId: string)
  {
    Truthy(IsAdminAsWritten(userId))
  }

  /**
   * The decision the callback computes, taken as isAdmin's result, failing
   * closed: true exactly when users.info answered 200 with a user whose
   * `is_admin` is true; a transport error, another status, a reply that
   * would make the callback throw and a missing flag all deny.
   */
  function IntendedIsAdmin(result: HttpResult, parse: string -> UserInfo): (admin: bool)
    ensures admin <==> Succeeded(result) && parse(result.body) == User(Some(true))
  {
    match AdminCallback(result, parse)
    case Threw => false
    case Returned(v) => Truthy(v)
  }
}
