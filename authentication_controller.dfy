/**
 * The OAuth 1.0a handshake controller (the client side of RFC 5849):
 * `connect` obtains temporary credentials (section 2.1) and redirects to the
 * provider's authorization page (section 2.2); `authorize` is the callback
 * that exchanges the verifier for token credentials (section 2.3) and binds
 * the external account to the session; `authenticated` is the landing page.
 *
 * The collaborators (the CultureFeed client, externalauth's loginRegister and
 * ControllerBase::redirect) are not modelled: their possible answers are
 * inputs, and the controller records which calls it made and with what.
 */
module Authentication {
  import opened Wrappers
  import opened Php
  import opened Query
  import opened Http
  import opened UserContext
  import CurrentUser

  const OAUTH_TOKEN: string := "oauth_token"
  const OAUTH_TOKEN_SECRET: string := "oauth_token_secret"
  const OAUTH_VERIFIER: string := "oauth_verifier"
  const DESTINATION: string := "destination"
  const SKIP_CONFIRMATION: string := "skipConfirmation"
  const EXCEPTION_STATUSCODE: string := "_exception_statuscode"
  const AUTHORIZE_ROUTE: string := "culturefeed_user.authorize"
  /** \CultureFeed::AUTHORIZE_TYPE_REGULAR, a constant of the client library. */
  const AUTHORIZE_TYPE_REGULAR: string := "regular"
  const PROVIDER: string := "culturefeed_uitid"
  const LOGIN_ERROR: string := "An error occurred while logging in. Please try again later."
  const ACCESS_DENIED_MARKUP: string := "You are not authorized to access this page."
  const ACCESS_DENIED_TITLE: string := "Access denied"
  const AUTHENTICATED_PAGE: string := "culturefeed_user_authenticated_page"

  /** The answer of `getRequestToken`: an exception, a falsy value, or a token pair. */
  datatype RequestTokenOutcome =
    | RequestTokenThrows
    | RequestTokenFalsy
    | RequestTokenIssued(token: string, secret: string)

  /** The token credentials `getAccessToken` returns. */
  datatype AccessToken = AccessToken(token: string, secret: string, userId: string)

  datatype Outcome<T> = Threw | Returned(value: T)

  /**
   * How the client answers the four calls of `authorize`, in order;
   * `getUser` may also answer null.
   */
  datatype ClientScript = ClientScript(
    firstUpdateThrows: bool,
    accessToken: Outcome<AccessToken>,
    secondUpdateThrows: bool,
    user: Outcome<Option<CurrentUser.CultureFeedUser>>)

  /** The local Drupal account loginRegister resolves to. */
  datatype Account = Account(uid: nat)

  /** A call into a collaborator, with its arguments. */
  datatype Collaboration =
    | GetRequestToken(callback: Url)
    | UpdateClient(token: Value, secret: Value)
    | GetAccessToken(verifier: Value)
    | GetUser(userId: string)
    | LoginRegister(authname: Value, provider: string, name: Value)

  /** The callback URL: the authorize route, carrying a truthy `destination` along. */
  function CallbackUrl(query: Query): (u: Url)
    ensures u.RouteUrl? && u.route == AUTHORIZE_ROUTE && u.absolute
    ensures Truthy(Get(query, DESTINATION)) ==> u.query == [(DESTINATION, Get(query, DESTINATION))]
    ensures !Truthy(Get(query, DESTINATION)) ==> u.query == []
  {
    if Truthy(Get(query, DESTINATION)) then RouteUrl(AUTHORIZE_ROUTE, [(DESTINATION, Get(query, DESTINATION))], true)
    else RouteUrl(AUTHORIZE_ROUTE, [], true)
  }

  /** The session after `connect`: a new token pair replaces the stored one; otherwise nothing changes. */
  function ConnectSession(session: map<string, Value>, outcome: RequestTokenOutcome): map<string, Value> {
    if outcome.RequestTokenIssued? then session[OAUTH_TOKEN := Str(outcome.token)][OAUTH_TOKEN_SECRET := Str(outcome.secret)]
    else session
  }

  /** Connecting twice keeps only the second token pair (no accumulation). */
  lemma ConnectTwiceKeepsSecond(session: map<string, Value>, first: RequestTokenOutcome, second: RequestTokenOutcome)
    requires second.RequestTokenIssued?
    ensures ConnectSession(ConnectSession(session, first), second) == ConnectSession(session, second)
  {
  }

  /** Where `authorize` stops. */
  datatype AuthorizeStage =
    /** `oauth_token` or `oauth_verifier` missing or falsy: nothing happens. */
    | Inert
    /** The first updateClient or getAccessToken threw. */
    | FailedBeforeExchange
    /** The second updateClient or getUser threw, after the session tokens were removed. */
    | FailedAfterExchange
    /** loginRegister returned no account. */
    | NoAccount
    /** The external account is bound to the session. */
    | Bound

  function Stage(query: Query, client: ClientScript, login: Option<Account>): AuthorizeStage {
    if !(Truthy(Get(query, OAUTH_TOKEN)) && Truthy(Get(query, OAUTH_VERIFIER))) then Inert
    else if client.firstUpdateThrows || client.accessToken.Threw? then FailedBeforeExchange
    else if client.secondUpdateThrows || client.user.Threw? then FailedAfterExchange
    else if login.None? then NoAccount
    else Bound
  }

  /** The token credentials were obtained exactly in the last three stages. */
  predicate ExchangedTokens(stage: AuthorizeStage) {
    stage == FailedAfterExchange || stage == NoAccount || stage == Bound
  }

  /** The `try` block of `authorize` completes: no call in it threw. */
  predicate ExchangeSucceeds(client: ClientScript) {
    !client.firstUpdateThrows && client.accessToken.Returned? && !client.secondUpdateThrows && client.user.Returned?
  }

  /**
   * The `loginRegister` call for the user `getUser` answered: its id and nick,
   * both read as null when the answer was null.
   */
  function LoginRegisterCall(user: Option<CurrentUser.CultureFeedUser>): (c: Collaboration)
    ensures c.LoginRegister? && c.provider == PROVIDER
    ensures user.None? <==> c.authname == Null
    ensures user.None? ==> c.name == Null
    ensures user.Some? ==> c.authname == Str(user.value.id) && c.name == Str(user.value.nick)
  {
    match user
    case None => LoginRegister(Null, PROVIDER, Null)
    case Some(u) => LoginRegister(Str(u.id), PROVIDER, Str(u.nick))
  }

  /** The calls `authorize` makes, each with the arguments the code passes. */
  function AuthorizeCalls(query: Query, storedSecret: Value, client: ClientScript): seq<Collaboration> {
    if !(Truthy(Get(query, OAUTH_TOKEN)) && Truthy(Get(query, OAUTH_VERIFIER))) then []
    else
      ExchangeCalls(query, storedSecret, client)
      + (if ExchangeSucceeds(client) then [LoginRegisterCall(client.user.value)] else [])
  }

  /** The calls of the `try` block, up to and including the one that threw. */
  function ExchangeCalls(query: Query, storedSecret: Value, client: ClientScript): seq<Collaboration> {
    [UpdateClient(Get(query, OAUTH_TOKEN), storedSecret)]
    + if client.firstUpdateThrows then []
      else [GetAccessToken(Get(query, OAUTH_VERIFIER))] + CallsAfterExchange(client)
  }

  function CallsAfterExchange(client: ClientScript): seq<Collaboration> {
    if client.accessToken.Threw? then []
    else
      var t := client.accessToken.value;
      [UpdateClient(Str(t.token), Str(t.secret))] + (if client.secondUpdateThrows then [] else [GetUser(t.userId)])
  }

  /** The response of a successful bind: the destination only when redirect() threw on it. */
  function BoundResponse(query: Query, redirectThrows: bool): (r: Response)
    ensures r == Redirect(Raw(Get(query, DESTINATION)), 302) <==> Truthy(Get(query, DESTINATION)) && redirectThrows
    ensures r != Redirect(Raw(Get(query, DESTINATION)), 302) <==> r == Redirect(FRONT, 302)
  {
    if Truthy(Get(query, DESTINATION)) && redirectThrows then Redirect(Raw(Get(query, DESTINATION)), 302)
    else Redirect(FRONT, 302)
  }

  /** The response for each stage: none when inert or without account, home on failure. */
  function AuthorizeResponse(stage: AuthorizeStage, query: Query, redirectThrows: bool): Option<Response> {
    match stage
    case Inert => None
    case NoAccount => None
    case FailedBeforeExchange => Some(Redirect(FRONT, 302))
    case FailedAfterExchange => Some(Redirect(FRONT, 302))
    case Bound => Some(BoundResponse(query, redirectThrows))
  }

  /** Every exception in the handshake ends in a redirect home with the error message. */
  lemma FailuresRedirectHome(query: Query, client: ClientScript, login: Option<Account>, redirectThrows: bool)
    requires Truthy(Get(query, OAUTH_TOKEN)) && Truthy(Get(query, OAUTH_VERIFIER))
    requires client.firstUpdateThrows || client.accessToken.Threw? || client.secondUpdateThrows || client.user.Threw?
    ensures Stage(query, client, login) == FailedBeforeExchange || Stage(query, client, login) == FailedAfterExchange
    ensures ExchangedTokens(Stage(query, client, login)) <==> !client.firstUpdateThrows && client.accessToken.Returned?
    ensures AuthorizeResponse(Stage(query, client, login), query, redirectThrows) == Some(Redirect(FRONT, 302))
  {
  }

  /** The session always holds both handshake tokens or neither, if it did before. */
  predicate TokensPaired(session: map<string, Value>) {
    OAUTH_TOKEN in session <==> OAUTH_TOKEN_SECRET in session
  }

  class AuthenticationController {
    /** `$_SESSION`: the request token pair lives here during the handshake. */
    var session: map<string, Value>
    /** The messenger's error messages, in order. */
    var messages: seq<string>
    /** The collaborator calls made so far. */
    var calls: seq<Collaboration>
    /** The CultureFeed user context manager (shared with the current-user service). */
    const userContext: UserContextManager

    constructor (userContext: UserContextManager, session: map<string, Value>)
      ensures this.userContext == userContext && this.session == session
      ensures messages == [] && calls == []
    {
      this.userContext := userContext;
      this.session := session;
      messages := [];
      calls := [];
    }

    function StoredSecret(): Value
      reads this
    {
      if OAUTH_TOKEN_SECRET in session then session[OAUTH_TOKEN_SECRET] else Null
    }

    /**
     * `connect($request)`: moves a truthy destination into the callback URL,
     * asks for a request token and, only if one is issued, stores it and
     * redirects to the provider's authorize page.
     */
    method Connect(request: Request, outcome: RequestTokenOutcome, langcode: string) returns (response: Response)
      modifies this, request
      ensures request.query == if Truthy(Get(old(request.query), DESTINATION))
                               then Remove(old(request.query), DESTINATION) else old(request.query)
      ensures calls == old(calls) + [GetRequestToken(CallbackUrl(old(request.query)))]
      ensures session == ConnectSession(old(session), outcome)
      ensures outcome.RequestTokenIssued? ==>
                messages == old(messages)
                && response == TrustedRedirect(
                     ProviderAuthorize(outcome.token, outcome.secret, CallbackUrl(old(request.query)),
                                       AUTHORIZE_TYPE_REGULAR, Has(old(request.query), SKIP_CONFIRMATION), langcode), 302)
      ensures !outcome.RequestTokenIssued? ==>
                messages == old(messages) + [LOGIN_ERROR] && response == Redirect(FRONT, 302)
      ensures old(TokensPaired(session)) ==> TokensPaired(session)
    {
      var callback: Url;
      if Truthy(Get(request.query, DESTINATION)) {
        callback := RouteUrl(AUTHORIZE_ROUTE, [(DESTINATION, Get(request.query, DESTINATION))], true);
        RemoveHas(request.query, DESTINATION, SKIP_CONFIRMATION);
        request.query := Remove(request.query, DESTINATION);
      } else {
        callback := RouteUrl(AUTHORIZE_ROUTE, [], true);
      }

      calls := calls + [GetRequestToken(callback)];
      match outcome
      case RequestTokenThrows =>
        messages := messages + [LOGIN_ERROR];
        return Redirect(FRONT, 302);
      case RequestTokenFalsy =>
        messages := messages + [LOGIN_ERROR];
        return Redirect(FRONT, 302);
      case RequestTokenIssued(token, secret) =>
        session := session[OAUTH_TOKEN := Str(token)];
        session := session[OAUTH_TOKEN_SECRET := Str(secret)];
        var skipConfirmation := Has(request.query, SKIP_CONFIRMATION);
        response := TrustedRedirect(
          ProviderAuthorize(token, secret, callback, AUTHORIZE_TYPE_REGULAR, skipConfirmation, langcode), 302);
    }

    /**
     * The `try` block of `authorize`: reconfigure the client with the request
     * token, exchange the verifier, remove the session tokens, reconfigure with
     * the token credentials and fetch the user. Stops at the first exception.
     */
    method TryExchange(query: Query, client: ClientScript)
      returns (result: Outcome<(AccessToken, Option<CurrentUser.CultureFeedUser>)>)
      modifies this
      ensures calls == old(calls) + ExchangeCalls(query, old(StoredSecret()), client)
      ensures session == if !client.firstUpdateThrows && client.accessToken.Returned?
                         then old(session) - {OAUTH_TOKEN, OAUTH_TOKEN_SECRET} else old(session)
      ensures result.Returned? <==> ExchangeSucceeds(client)
      ensures result.Returned? ==> result.value == (client.accessToken.value, client.user.value)
      ensures messages == old(messages)
    {
      calls := calls + [UpdateClient(Get(query, OAUTH_TOKEN), StoredSecret())];
      if client.firstUpdateThrows {
        return Threw;
      }
      calls := calls + [GetAccessToken(Get(query, OAUTH_VERIFIER))];
      if client.accessToken.Threw? {
        return Threw;
      }
      var token := client.accessToken.value;

      session := session - {OAUTH_TOKEN};
      session := session - {OAUTH_TOKEN_SECRET};
      assert session == old(session) - {OAUTH_TOKEN, OAUTH_TOKEN_SECRET};

      calls := calls + [UpdateClient(Str(token.token), Str(token.secret))];
      if client.secondUpdateThrows {
        return Threw;
      }
      calls := calls + [GetUser(token.userId)];
      if client.user.Threw? {
        return Threw;
      }
      return Returned((token, client.user.value));
    }

    /**
     * `authorize($request)`: the provider's callback. `redirectThrows` says
     * whether ControllerBase::redirect raises on the destination.
     */
    method Authorize(request: Request, client: ClientScript, login: Option<Account>, redirectThrows: bool)
      returns (response: Option<Response>)
      modifies this, userContext
      ensures calls == old(calls) + AuthorizeCalls(request.query, old(StoredSecret()), client)
      ensures session == if ExchangedTokens(Stage(request.query, client, login))
                         then old(session) - {OAUTH_TOKEN, OAUTH_TOKEN_SECRET} else old(session)
      ensures messages == if Stage(request.query, client, login) in {FailedBeforeExchange, FailedAfterExchange}
                          then old(messages) + [LOGIN_ERROR] else old(messages)
      ensures response == AuthorizeResponse(Stage(request.query, client, login), request.query, redirectThrows)
      ensures Stage(request.query, client, login) == Bound ==>
                var t := client.accessToken.value;
                userContext.accessSecret == Some(t.secret) && userContext.accessToken == Some(t.token)
                && userContext.userId == Some(t.userId)
      ensures Stage(request.query, client, login) != Bound ==>
                userContext.accessSecret == old(userContext.accessSecret) && userContext.accessToken == old(userContext.accessToken)
                && userContext.userId == old(userContext.userId)
      ensures old(TokensPaired(session)) ==> TokensPaired(session)
    {
      var query := request.query;
      if Truthy(Get(query, OAUTH_TOKEN)) && Truthy(Get(query, OAUTH_VERIFIER)) {
        var exchanged := TryExchange(query, client);
        if exchanged.Threw? {
          messages := messages + [LOGIN_ERROR];
          return Some(Redirect(FRONT, 302));
        }
        var (token, account) := exchanged.value;

        calls := calls + [LoginRegisterCall(account)];
        if login.Some? {
          userContext.SetUserAccessSecret(token.secret);
          userContext.SetUserAccessToken(token.token);
          userContext.SetUserId(token.userId);

          if Truthy(Get(query, DESTINATION)) {
            if redirectThrows {
              return Some(Redirect(Raw(Get(query, DESTINATION)), 302));
            }
          }
          return Some(Redirect(FRONT, 302));
        }
      }
      return None;
    }

    /** `authenticated($request)`: the landing page after login. */
    function Authenticated(request: Request, isAuthenticated: bool): (r: Response)
      reads request, userContext
      ensures r == Markup(ACCESS_DENIED_MARKUP, ACCESS_DENIED_TITLE)
              <==> isAuthenticated && CurrentUser.IsCultureFeedUser(userContext)
                   && Get(request.query, EXCEPTION_STATUSCODE) == Int(403)
      ensures r == Redirect(FRONT, 302)
              <==> isAuthenticated && CurrentUser.IsCultureFeedUser(userContext)
                   && Get(request.query, EXCEPTION_STATUSCODE) != Int(403)
      ensures r == Themed(AUTHENTICATED_PAGE) <==> !(isAuthenticated && CurrentUser.IsCultureFeedUser(userContext))
    {
      if isAuthenticated && CurrentUser.IsCultureFeedUser(userContext) then
        if Has(request.query, EXCEPTION_STATUSCODE) && Get(request.query, EXCEPTION_STATUSCODE) == Int(403) then
          Markup(ACCESS_DENIED_MARKUP, ACCESS_DENIED_TITLE)
        else
          Redirect(FRONT, 302)
      else
        Themed(AUTHENTICATED_PAGE)
    }
  }

  /**
   * The whole handshake when every collaborator succeeds: the secret stored by
   * `connect` is the one handed back to the client in `authorize`, the session
   * ends without a token pair and the binding holds the token credentials.
   */
  method Handshake(controller: AuthenticationController, start: Request, token: string, secret: string,
                   verifier: string, langcode: string, accessToken: AccessToken,
                   user: CurrentUser.CultureFeedUser, account: Account, callbackPath: string)
    returns (callback: Request, response: Option<Response>)
    requires Truthy(Str(token)) && Truthy(Str(verifier))
    modifies controller, start, controller.userContext
    ensures GetRequestToken(CallbackUrl(old(start.query))) in controller.calls
    ensures UpdateClient(Str(token), Str(secret)) in controller.calls
    ensures LoginRegister(Str(user.id), PROVIDER, Str(user.nick)) in controller.calls
    ensures OAUTH_TOKEN !in controller.session && OAUTH_TOKEN_SECRET !in controller.session
    ensures controller.userContext.userId == Some(accessToken.userId)
    ensures controller.userContext.accessToken == Some(accessToken.token)
    ensures controller.userContext.accessSecret == Some(accessToken.secret)
    ensures CurrentUser.IsCultureFeedUser(controller.userContext) <==> Truthy(Str(accessToken.userId))
    ensures response == Some(Redirect(FRONT, 302))
    ensures controller.messages == old(controller.messages)
  {
    var redirect := controller.Connect(start, RequestTokenIssued(token, secret), langcode);
    assert controller.StoredSecret() == Str(secret);
    callback := new Request(callbackPath, [(OAUTH_TOKEN, Str(token)), (OAUTH_VERIFIER, Str(verifier))]);
    assert Get(callback.query, OAUTH_TOKEN) == Str(token);
    assert Get(callback.query, OAUTH_VERIFIER) == Str(verifier);
    assert Get(callback.query, DESTINATION) == Null;
    response := controller.Authorize(callback, ClientScript(false, Returned(accessToken), false, Returned(Some(user))), Some(account), false);
  }
}
