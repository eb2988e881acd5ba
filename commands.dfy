/**
 * The slash-command handlers of server.js (lines 53-181): dispatch on the
 * command name, the parsing of the command text into a target user and a
 * member id, and the outbound call each handler makes to rpiambulance.com.
 *
 * A handler is a function from the parsed form to an Action: either a
 * message sent straight back, or one outbound request together with the
 * apology to send when that request fails. Relay then gives the message the
 * caller finally receives for a given outcome of the request.
 */
module Commands {

  import opened Types
  import opened JsString

  const LinkUserCommand := "/linkuser"
  const CheckLinkCommand := "/checklink"
  const MemberInfoCommand := "/memberinfo"

  const UnsupportedMessage := "It appears the command you are trying to send isn't support"
  const NotAUserMessage := "The first paramter must be a user!"
  const AdminOnlyMessage := "This command can only be used by an admin!"
  const WholeNumberMessage := "The second paramater must be a whole number!"
  const LookupFailedMessage := "Oops! Something went wrong with the server request to RPIA!"
  const LinkFailedMessage := "Oops! Something happened with that server request, please try again later."

  const LinkEndpoint := "https://rpiambulance.com/slack-link.php"

  /** The fields of the form-encoded body that the handlers read. */
  datatype Form = Form(command: string, text: string, userId: string)

  /**
   * The JavaScript globals the handlers call, whose ECMAScript definitions
   * are not modelled: encodeURI, encodeURIComponent, and isNaN applied to a
   * string (isNaN of `undefined` is always true and needs no parameter).
   */
  datatype JsGlobals = JsGlobals(encodeURI: string -> string,
                                 encodeURIComponent: string -> string,
                                 isNaN: string -> bool)

  /** The body of the link POST: `{ slack_id, member_id, token }`. */
  datatype LinkForm = LinkForm(slackId: string, memberId: string, token: string)

  datatype Outbound = Get(url: string) | Post(url: string, form: LinkForm)

  datatype Action =
    | Reply(message: string)
    | Call(request: Outbound, apology: string)

  /** The URL prefix of /checklink; the website token is interpolated as it is. */
  function CheckLinkPrefix(token: string): string
  {
    LinkEndpoint + "?token=" + token + "&slack_id="
  }

  /** The URL prefix of /memberinfo. */
  function MemberInfoPrefix(token: string): string
  {
    LinkEndpoint + "?token=" + token + "&type=info&slack_id="
  }

  /** The caller as Slack marks up a mention of them: `<@` + user id + `>`. */
  function SelfMention(userId: string): string
  {
    "<@" + userId + ">"
  }

  /** `user.indexOf("<") != 0` read the other way round: the token opens a mention. */
  predicate OpensMention(token: string)
  {
    |token| > 0 && token[0] == '<'
  }

  /**
   * `user.substring(0, user.indexOf("|")) + ">"`. When the token holds a
   * `|`, this is the part before the first one, closed with `>`; when it
   * holds none, indexOf gives -1, substring(0, -1) is empty, and the result
   * is `>` alone.
   */
  function NormalizeMention(token: string): (m: string)
    ensures |m| >= 1 && m[|m| - 1] == '>'
    ensures '|' !in m
    ensures '|' !in token ==> m == ">"
    ensures '|' in token ==> |m| <= |token| && m[..|m| - 1] <= token && token[|m| - 1] == '|'
  {
    var user := Substring(token, 0, IndexOf(token, '|'));
    assert '|' !in user by {
      if '|' in token { assert user == token[..IndexOf(token, '|')]; }
    }
    var m := user + ">";
    assert m[..|m| - 1] == user;
    m
  }

  /** Who a /checklink or /memberinfo request is about. */
  datatype Target =
    | Caller(mention: string)   // empty text: the caller themselves
    | Named(mention: string)    // the normalized first token of the text
    | NotAUser                  // the first token does not open a mention

  /** server.js:75-93 and 148-166: the target is chosen from the text the same way in both handlers. */
  function ResolveTarget(text: string, userId: string): (t: Target)
    ensures text == "" <==> t.Caller?
    ensures t.Caller? ==> t.mention == SelfMention(userId)
    ensures t.NotAUser? <==> text != "" && !OpensMention(FirstToken(text, ' '))
    ensures t.Named? ==> OpensMention(FirstToken(text, ' ')) && t.mention == NormalizeMention(FirstToken(text, ' '))
  {
    if |text| == 0 then Caller(SelfMention(userId))
    else
      var user := FirstToken(text, ' ');
      IndexOfZero(user, '<');
      if IndexOf(user, '<') != 0 then NotAUser
      else Named(NormalizeMention(user))
  }

  /** The URL suffix for a target: component encoding for the caller, the looser URI encoding for a named user. */
  function TargetQuery(t: Target, js: JsGlobals): string
  {
    match t
    case Caller(m) => js.encodeURIComponent(m)
    case Named(m) => js.encodeURI(m)
    case NotAUser => ""
  }

  /** `checkUserLink` (server.js:70-103). */
  function CheckUserLink(form: Form, token: string, js: JsGlobals): (a: Action)
    ensures form.text == "" ==>
      a == Call(Get(CheckLinkPrefix(token) + js.encodeURIComponent(SelfMention(form.userId))), LookupFailedMessage)
    ensures form.text != "" && OpensMention(FirstToken(form.text, ' ')) ==>
      a == Call(Get(CheckLinkPrefix(token) + js.encodeURI(NormalizeMention(FirstToken(form.text, ' ')))), LookupFailedMessage)
    ensures form.text != "" && !OpensMention(FirstToken(form.text, ' ')) ==> a == Reply(NotAUserMessage)
  {
    var target := ResolveTarget(form.text, form.userId);
    if target.NotAUser? then Reply(NotAUserMessage)
    else Call(Get(CheckLinkPrefix(token) + TargetQuery(target, js)), LookupFailedMessage)
  }

  /** `isNaN(text[1])`: a missing second token is `undefined`, and isNaN(undefined) is true. */
  predicate SecondIsNaN(text: string, js: JsGlobals)
  {
    match SecondToken(text, ' ')
    case None => true
    case Some(web) => js.isNaN(web)
  }

  /**
   * `linkUser` (server.js:105-141): the admin check comes first, then the
   * mention, then the member id; only when all three pass is the POST made.
   */
  function LinkUser(form: Form, token: string, js: JsGlobals, isAdmin: string -> bool): (a: Action)
    ensures !isAdmin(form.userId) ==> a == Reply(AdminOnlyMessage)
    ensures isAdmin(form.userId) && !OpensMention(FirstToken(form.text, ' ')) ==> a == Reply(NotAUserMessage)
    ensures isAdmin(form.userId) && OpensMention(FirstToken(form.text, ' ')) && SecondIsNaN(form.text, js) ==>
      a == Reply(WholeNumberMessage)
    ensures a.Call? <==>
      isAdmin(form.userId) && OpensMention(FirstToken(form.text, ' ')) && !SecondIsNaN(form.text, js)
    ensures a.Call? ==>
      a == Call(Post(LinkEndpoint, LinkForm(NormalizeMention(FirstToken(form.text, ' ')),
                                          SecondToken(form.text, ' ').value, token)),
                LinkFailedMessage)
  {
    if !isAdmin(form.userId) then Reply(AdminOnlyMessage)
    else
      var text := Split(form.text, ' ');
      var user := text[0];
      assert user == FirstToken(form.text, ' ');
      assert |text| >= 2 ==> SecondToken(form.text, ' ') == Some(text[1]);
      IndexOfZero(user, '<');
      if IndexOf(user, '<') != 0 then Reply(NotAUserMessage)
      else
        var slackId := NormalizeMention(user);
        if |text| < 2 || js.isNaN(text[1]) then Reply(WholeNumberMessage)
        else Call(Post(LinkEndpoint, LinkForm(slackId, text[1], token)), LinkFailedMessage)
  }

  /**
   * `memberInfo` (server.js:143-181): the target as in checkUserLink, with
   * the literal `admin=1` appended straight after the encoded mention, with
   * no `&` before it, when the caller is an admin.
   */
  function MemberInfo(form: Form, token: string, js: JsGlobals, isAdmin: string -> bool): (a: Action)
    ensures a.Reply? <==> form.text != "" && !OpensMention(FirstToken(form.text, ' '))
    ensures a.Reply? ==> a.message == NotAUserMessage
    ensures a.Call? ==> a.apology == LookupFailedMessage && a.request.Get?
    ensures form.text == "" ==>
      a.Call? &&
      a.request.url == MemberInfoPrefix(token) + js.encodeURIComponent(SelfMention(form.userId)) +
                       (if isAdmin(form.userId) then "admin=1" else "")
    ensures form.text != "" && a.Call? ==>
      a.request.url == MemberInfoPrefix(token) + js.encodeURI(NormalizeMention(FirstToken(form.text, ' '))) +
                       (if isAdmin(form.userId) then "admin=1" else "")
  {
    var target := ResolveTarget(form.text, form.userId);
    if target.NotAUser? then Reply(NotAUserMessage)
    else
      var url := MemberInfoPrefix(token) + TargetQuery(target, js);
      var url' := if isAdmin(form.userId) then url + "admin=1" else url;
      Call(Get(url'), LookupFailedMessage)
  }

  /** `slackSlashCommands` (server.js:53-68). */
  function Dispatch(form: Form, token: string, js: JsGlobals, isAdmin: string -> bool): (a: Action)
    ensures form.command == LinkUserCommand ==> a == LinkUser(form, token, js, isAdmin)
    ensures form.command == CheckLinkCommand ==> a == CheckUserLink(form, token, js)
    ensures form.command == MemberInfoCommand ==> a == MemberInfo(form, token, js, isAdmin)
    ensures form.command !in {LinkUserCommand, CheckLinkCommand, MemberInfoCommand} ==>
      a == Reply(UnsupportedMessage)
  {
    if form.command == LinkUserCommand then LinkUser(form, token, js, isAdmin)
    else if form.command == CheckLinkCommand then CheckUserLink(form, token, js)
    else if form.command == MemberInfoCommand then MemberInfo(form, token, js, isAdmin)
    else Reply(UnsupportedMessage)
  }

  /**
   * The message the caller receives: a direct reply as it is; for an
   * outbound call, the response body verbatim when the call succeeded with
   * status 200, and the handler's apology otherwise.
   */
  function Relay(a: Action, result: HttpResult): (message: string)
    ensures a.Reply? ==> message == a.message
    ensures a.Call? && Succeeded(result) ==> message == result.body
    ensures a.Call? && !Succeeded(result) ==> message == a.apology
  {
    match a
    case Reply(m) => m
    case Call(_, apology) =>
      if result.Response? && result.status == 200 then result.body else apology
  }
}

/** Properties of the handlers that relate several calls or several handlers. */
module CommandProperties {

  import opened JsString
  import opened Commands

  /** Only /linkuser ever POSTs, and only for a caller the admin oracle accepts, with a mention and a member id. */
  lemma PostOnlyForAdmins(form: Form, token: string, js: JsGlobals, isAdmin: string -> bool)
    ensures var a := Dispatch(form, token, js, isAdmin);
      a.Call? && a.request.Post? ==>
        form.command == LinkUserCommand && isAdmin(form.userId) &&
        OpensMention(FirstToken(form.text, ' ')) && !SecondIsNaN(form.text, js)
  {
  }

  /** A command other than the three makes no outbound call, whatever its text. */
  lemma UnsupportedMakesNoCall(form: Form, token: string, js: JsGlobals, isAdmin: string -> bool)
    requires form.command != LinkUserCommand && form.command != CheckLinkCommand && form.command != MemberInfoCommand
    ensures Dispatch(form, token, js, isAdmin) == Reply(UnsupportedMessage)
  {
  }

  /**
   * When the first token of the text does not open a mention, none of the
   * three handlers makes a request (linkUser answers with its admin message
   * first when the caller is not an admin).
   */
  lemma NotAUserMakesNoCall(form: Form, token: string, js: JsGlobals, isAdmin: string -> bool)
    requires form.text != "" && !OpensMention(FirstToken(form.text, ' '))
    ensures CheckUserLink(form, token, js) == Reply(NotAUserMessage)
    ensures MemberInfo(form, token, js, isAdmin) == Reply(NotAUserMessage)
    ensures LinkUser(form, token, js, isAdmin) ==
            Reply(if isAdmin(form.userId) then NotAUserMessage else AdminOnlyMessage)
  {
  }

  /**
   * /memberinfo asks about the same target as /checklink: it refuses the
   * same texts, and its URL is its own prefix, the same encoded mention,
   * and `admin=1` exactly when the caller is an admin.
   */
  lemma MemberInfoMatchesCheckLink(form: Form, token: string, js: JsGlobals, isAdmin: string -> bool)
    ensures MemberInfo(form, token, js, isAdmin).Reply? <==> CheckUserLink(form, token, js).Reply?
    ensures CheckUserLink(form, token, js).Call? ==>
      var check := CheckUserLink(form, token, js).request.url;
      |CheckLinkPrefix(token)| <= |check| &&
      MemberInfo(form, token, js, isAdmin).request.url ==
        MemberInfoPrefix(token) + check[|CheckLinkPrefix(token)|..] +
        (if isAdmin(form.userId) then "admin=1" else "")
  {
    var check := CheckUserLink(form, token, js);
    if check.Call? {
      var suffix := if form.text == "" then js.encodeURIComponent(SelfMention(form.userId))
                    else js.encodeURI(NormalizeMention(FirstToken(form.text, ' ')));
      assert check.request.url == CheckLinkPrefix(token) + suffix;
      assert check.request.url[|CheckLinkPrefix(token)|..] == suffix;
    }
  }

  /** Normalizing an already-normalized mention collapses it to `>`, since the first normalization removes every `|`. */
  lemma NormalizeTwiceCollapses(token: string)
    ensures NormalizeMention(NormalizeMention(token)) == ">"
  {
  }

  /** A token `a|b` whose `a` holds no `|` normalizes to `a>`: the display name after the first `|` is dropped. */
  lemma NormalizeStripsDisplayName(a: string, b: string)
    requires '|' !in a
    ensures NormalizeMention(a + ['|'] + b) == a + ">"
  {
    var token := a + ['|'] + b;
    IndexOfFirst(a, '|', b);
    assert token[..|a|] == a;
  }

  /** `<@U1|name>` becomes `<@U1>`. */
  lemma NormalizeDisplayName()
    ensures NormalizeMention("<@U1|name>") == "<@U1>"
  {
    assert "<@U1|name>" == "<@U1" + ['|'] + "name>";
    assert '|' !in "<@U1" by {
      assert forall i :: 0 <= i < 4 ==> "<@U1"[i] != '|';
    }
    NormalizeStripsDisplayName("<@U1", "name>");
  }

  /** `<@U1>` without a display name becomes `>`: its indexOf("|") is -1 and substring(0, -1) is empty. */
  lemma NormalizeWithoutDisplayName()
    ensures NormalizeMention("<@U1>") == ">"
  {
    assert "<@U1>"[0] != '|' && "<@U1>"[1] != '|' && "<@U1>"[2] != '|' && "<@U1>"[3] != '|' && "<@U1>"[4] != '|';
  }

  /** `/linkuser <@U1|name> 42` from an admin POSTs slack_id `<@U1>` and member_id `42` when isNaN("42") is false. */
  lemma LinkUserExample(token: string, js: JsGlobals, isAdmin: string -> bool)
    requires isAdmin("U9") && !js.isNaN("42")
    ensures LinkUser(Form(LinkUserCommand, "<@U1|name> 42", "U9"), token, js, isAdmin) ==
            Call(Post(LinkEndpoint, LinkForm("<@U1>", "42", token)), LinkFailedMessage)
  {
    var text := "<@U1|name> 42";
    assert text == "<@U1|name>" + [' '] + "42";
    assert ' ' !in "<@U1|name>" by {
      assert forall i :: 0 <= i < 10 ==> "<@U1|name>"[i] != ' ';
    }
    assert ' ' !in "42";
    SplitJoin(["<@U1|name>", "42"], ' ');
    assert Join(["<@U1|name>", "42"], ' ') == text;
    NormalizeDisplayName();
  }

  /** `/linkuser notamention 42` from an admin is refused before any request. */
  lemma LinkUserRejectsNonMention(token: string, js: JsGlobals, isAdmin: string -> bool)
    requires isAdmin("U9")
    ensures LinkUser(Form(LinkUserCommand, "notamention 42", "U9"), token, js, isAdmin) == Reply(NotAUserMessage)
  {
    var text := "notamention 42";
    assert FirstToken(text, ' ')[0] == 'n';
  }
}
