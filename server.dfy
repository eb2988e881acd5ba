/**
 * One request to /slack/slack-link/commands from start to finish: the
 * verification middleware, then, on `next()`, slackSlashCommands.
 */
module Server {

  import opened Types
  import opened JsString
  import opened Verification
  import opened Commands
  import Admin
  import CommandProperties

  /** The configuration read from the environment at startup. */
  datatype Config = Config(signingSecret: string, websiteToken: string)

  /**
   * The foreign functions a request passes through: the HMAC-SHA256 hex
   * digest, qs.stringify of the parsed body in RFC 1738 format, JavaScript's
   * Number() coercion of a header (None for NaN), and the globals the
   * handlers call.
   */
  datatype Externals = Externals(hmacHex: (string, string) -> string,
                                 stringify: Form -> string,
                                 toNumber: string -> Option<int>,
                                 js: JsGlobals)

  datatype Request = Request(headers: Headers, form: Form)

  /** What happens to a request: the middleware answers, or throws (Express then sends its error response for this request), or the command handler takes it. */
  datatype Outcome = Gated(message: string) | Errored | Handled(action: Action)

  /** The middleware verdict on a request. */
  function Middleware(cfg: Config, ext: Externals, now: int, req: Request): Gate
  {
    Verify(cfg.signingSecret, now, req.headers, ext.stringify(req.form), ext.hmacHex, ext.toNumber)
  }

  /** The signature Slack would have sent for this request. */
  function Expected(cfg: Config, ext: Externals, req: Request): string
  {
    ExpectedSignature(cfg.signingSecret, req.headers.timestamp, ext.stringify(req.form), ext.hmacHex)
  }

  /** The whole pipeline for one request, with `isAdmin` as an oracle. */
  function HandleRequest(cfg: Config, ext: Externals, isAdmin: string -> bool, now: int, req: Request): (o: Outcome)
    ensures o.Handled? <==>
      !Stale(now, req.headers.timestamp, ext.toNumber) && req.headers.signature == Some(Expected(cfg, ext, req))
    ensures o.Handled? ==> o.action == Dispatch(req.form, cfg.websiteToken, ext.js, isAdmin)
    ensures Stale(now, req.headers.timestamp, ext.toNumber) ==> o == Gated(IgnoreMessage)
    ensures o.Gated? && !Stale(now, req.headers.timestamp, ext.toNumber) ==> o == Gated(FailedMessage)
    ensures o == Errored <==>
      !Stale(now, req.headers.timestamp, ext.toNumber) &&
      (req.headers.signature.None? ||
       Utf8Length(req.headers.signature.value) != Utf8Length(Expected(cfg, ext, req)))
  {
    match Middleware(cfg, ext, now, req)
    case Next => Handled(Dispatch(req.form, cfg.websiteToken, ext.js, isAdmin))
    case Refuse(m) => Gated(m)
    case Thrown => Errored
  }

  /** The request the pipeline sends out, if any. */
  function OutboundOf(o: Outcome): Option<Outbound>
  {
    if o.Handled? && o.action.Call? then Some(o.action.request) else None
  }

  /**
   * A request whose timestamp is more than 300 seconds away from now makes
   * no outbound call and is answered "Ignore this request.", whatever its
   * signature and whatever the HMAC and the body serialisation compute.
   */
  lemma StaleRequestMakesNoCall(cfg: Config, ext: Externals, ext': Externals, isAdmin: string -> bool,
                                now: int, req: Request, signature: Option<string>)
    requires Stale(now, req.headers.timestamp, ext.toNumber)
    requires ext'.toNumber == ext.toNumber
    ensures HandleRequest(cfg, ext, isAdmin, now, req) == Gated(IgnoreMessage)
    ensures HandleRequest(cfg, ext', isAdmin, now, Request(Headers(signature, req.headers.timestamp), req.form)) ==
            Gated(IgnoreMessage)
    ensures OutboundOf(HandleRequest(cfg, ext, isAdmin, now, req)).None?
  {
  }

  /**
   * Every outbound request comes from a fresh request carrying exactly the
   * signature Slack would send, and a POST moreover from a /linkuser whose
   * caller the admin oracle accepts.
   */
  lemma OutboundOnlyWhenVerified(cfg: Config, ext: Externals, isAdmin: string -> bool, now: int, req: Request)
    ensures var out := OutboundOf(HandleRequest(cfg, ext, isAdmin, now, req));
      out.Some? ==>
        !Stale(now, req.headers.timestamp, ext.toNumber) &&
        req.headers.signature == Some(Expected(cfg, ext, req)) &&
        (out.value.Post? ==> req.form.command == LinkUserCommand && isAdmin(req.form.userId))
  {
    CommandProperties.PostOnlyForAdmins(req.form, cfg.websiteToken, ext.js, isAdmin);
  }

  /**
   * A correctly signed, fresh `/checklink` with empty text asks about the
   * caller's own mention, component-encoded, and gives back the website's
   * body unmodified when it answers 200.
   */
  lemma SignedSelfCheckRelaysBody(cfg: Config, ext: Externals, isAdmin: string -> bool, now: int,
                                  ts: string, userId: string, extra: string, body: string)
    requires ext.toNumber(ts).Some? && Abs(now - ext.toNumber(ts).value) <= ReplayWindow
    ensures var req := Request(Headers(None, Some(ts)), Form(CheckLinkCommand, "", userId));
      var signed := Request(Headers(Some(Expected(cfg, ext, req)), Some(ts)), req.form);
      var o := HandleRequest(cfg, ext, isAdmin, now, signed);
      o.Handled? &&
      o.action == Call(Get(CheckLinkPrefix(cfg.websiteToken) + ext.js.encodeURIComponent("<@" + userId + ">")),
                       LookupFailedMessage) &&
      Relay(o.action, Response(200, body)) == body &&
      Relay(o.action, TransportError) == LookupFailedMessage
  {
    var req := Request(Headers(None, Some(ts)), Form(CheckLinkCommand, "", userId));
    var signed := Request(Headers(Some(Expected(cfg, ext, req)), Some(ts)), req.form);
    assert Expected(cfg, ext, signed) == Expected(cfg, ext, req);
  }

  /** With isAdmin as written, no request ever leads to a POST: /linkuser always gets the admin-only message. */
  lemma AsWrittenNeverLinks(cfg: Config, ext: Externals, now: int, req: Request)
    requires req.form.command == LinkUserCommand
    requires HandleRequest(cfg, ext, Admin.AsWrittenOracle, now, req).Handled?
    ensures HandleRequest(cfg, ext, Admin.AsWrittenOracle, now, req).action == Reply(AdminOnlyMessage)
  {
    assert !Admin.AsWrittenOracle(req.form.userId);
  }

  /** With isAdmin as written, no request reaches the website with a POST. */
  lemma AsWrittenNeverPosts(cfg: Config, ext: Externals, now: int, req: Request)
    ensures var out := OutboundOf(HandleRequest(cfg, ext, Admin.AsWrittenOracle, now, req));
      out.Some? ==> out.value.Get?
  {
    OutboundOnlyWhenVerified(cfg, ext, Admin.AsWrittenOracle, now, req);
  }

  /** With isAdmin as written, /memberinfo's URL never carries `admin=1`: it is the lookup URL of the target alone. */
  lemma AsWrittenNeverElevatesInfo(form: Form, token: string, js: JsGlobals)
    requires form.text == "" || OpensMention(FirstToken(form.text, ' '))
    ensures MemberInfo(form, token, js, Admin.AsWrittenOracle) ==
      Call(Get(MemberInfoPrefix(token) +
               (if form.text == "" then js.encodeURIComponent(SelfMention(form.userId))
                else js.encodeURI(NormalizeMention(FirstToken(form.text, ' '))))),
           LookupFailedMessage)
  {
    assert !Admin.AsWrittenOracle(form.userId);
  }

  /**
   * With the callback's decision as the oracle, an admin's well-formed
   * /linkuser does reach the website exactly when the users.info lookup for
   * the caller answered 200 with `is_admin: true`.
   */
  lemma IntendedAdminCanLink(form: Form, token: string, js: JsGlobals, accessToken: string,
                             fetch: string -> HttpResult, parse: string -> Admin.UserInfo)
    requires OpensMention(FirstToken(form.text, ' ')) && !SecondIsNaN(form.text, js)
    ensures var isAdmin := (u: string) => Admin.IntendedIsAdmin(fetch(Admin.UserInfoUrl(accessToken, u)), parse);
      var answer := fetch(Admin.UserInfoUrl(accessToken, form.userId));
      LinkUser(form, token, js, isAdmin).Call? <==>
      Succeeded(answer) && parse(answer.body) == Admin.User(Some(true))
  {
  }
}
