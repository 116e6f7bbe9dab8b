# culturefeed_user — a Dafny model

This project models the core of the Drupal module `culturefeed_user`, which
links Drupal accounts to CultureFeed ("UiTID") identities over OAuth 1.0a and
gates routes and Views displays on whether the session is linked:

- the **authentication controller** (`connect`, `authorize`, `authenticated`),
  the client side of RFC 5849: temporary credentials (section 2.1), the
  resource-owner authorization redirect and its callback (section 2.2) and the
  token-credentials exchange (section 2.3), as a class over the session
  (`$_SESSION`), the messenger queue, a log of collaborator calls and the
  shared CultureFeed user context;
- the **current-user service** (`isCultureFeedUser`, `getUserId`, `getUser`,
  `getName`, `getAdminPages`, `isAdminOfPage`);
- the **route access check** `_is_uitid_user` and the **Views access plugin**
  `uitid_user`, with the cross-file lemma that they decide alike;
- the **auto-login subscriber**, which sends an anonymous request carrying
  `uid` to the connect route.

Files: `wrappers.dfy` (Option), `php.dfy` (PHP truthiness, loose `==` against
a boolean, `(string)` of integers, `filter_var(…, FILTER_VALIDATE_BOOLEAN)`),
`query.dfy` (PHP arrays with string keys as ordered pairs, `unset`,
assignment, `http_build_query` with `urlencode`), `http.dfy` (URLs, responses,
the request, the request event and the route), `user_context.dfy`,
`current_user.dfy`, `access_check.dfy`, `views_access.dfy`, `auto_login.dfy`,
`authentication_controller.dfy`.

Collaborators are inputs: `getRequestToken` is a `RequestTokenOutcome`
(exception, falsy, or a token pair); the four client calls of `authorize` are a
`ClientScript` (each may throw, and `getUser` may also answer null); `loginRegister` is an `Option<Account>`;
whether `ControllerBase::redirect` throws on the destination is a boolean; the
client's `getUser` used by the current-user service is a function parameter;
the language code and the current Drupal user's anonymous/authenticated state
are parameters.

The model follows the code where it departs from what one might expect of it:

- "linked" is PHP truthiness of the stored user id, so the id `"0"` counts as
  not linked, not only a missing or empty id;
- `authorize` does not check that a request token is stored: it hands the
  client `null` as the secret when the session has none;
- the session tokens are removed only after `getAccessToken` has returned, so
  an exception in the first `updateClient` or in `getAccessToken` leaves them
  in place rather than clearing them whatever the outcome;
- after a successful bind the response goes to the destination only when
  `ControllerBase::redirect` throws on it; otherwise, and without a
  destination, it goes to `<front>`, because the result of the `redirect` call
  is discarded.

## Model

| member | source | states |
|---|---|---|
| Authentication.AuthenticationController.Connect | src/Controller/AuthenticationController.php:103-142 | a truthy `destination` is moved from the request query into the callback URL; one `getRequestToken` call with that callback; on exception or falsy token: session unchanged, login error queued, redirect to `<front>`; on success: the session's `oauth_token`/`oauth_token_secret` are overwritten with the new pair and the response is a trusted redirect to the provider's authorize URL with `skipConfirmation` true iff the key is in the query; the token pair invariant is kept |
| Authentication.CallbackUrl | src/Controller/AuthenticationController.php:107-113 | the callback is the absolute authorize route, carrying `destination` exactly when it is truthy, and no query otherwise |
| Authentication.ConnectTwiceKeepsSecond | src/Controller/AuthenticationController.php:129-130 | connecting twice leaves only the second token pair in the session |
| Authentication.AuthenticationController.TryExchange | src/Controller/AuthenticationController.php:154-164 | the `try` block stops at the first exception; the session tokens are removed iff `getAccessToken` returned; it succeeds iff none of its four calls threw, returning the token credentials and the user |
| Authentication.AuthenticationController.Authorize | src/Controller/AuthenticationController.php:150-195 | with `oauth_token` or `oauth_verifier` missing or falsy: no response and nothing changes; any exception: redirect to `<front>` with the error and no context change, the session tokens kept before the exchange and removed after it; without an account: no response, no context change; with an account: secret, token and user id all set from the token credentials, and the response from BoundResponse; calls made with the query token and the stored secret, then the verifier, then the new credentials, then the user id, then `loginRegister` with the user's id and nick (null and null when `getUser` answered null) |
| Authentication.LoginRegisterCall | src/Controller/AuthenticationController.php:171-176 | `loginRegister` gets the provider `culturefeed_uitid`, the user's id and nick, and null for both (authname null exactly then) when `getUser` answered null |
| Authentication.BoundResponse | src/Controller/AuthenticationController.php:183-192 | after a bind the response redirects to the destination iff the destination is truthy and `redirect()` threw on it, and to `<front>` in every other case |
| Authentication.FailuresRedirectHome | src/Controller/AuthenticationController.php:154-169 | any exception during the exchange ends in a failure stage with a redirect to `<front>`, and it is past the exchange (tokens removed) iff the first update and `getAccessToken` both returned |
| Authentication.AuthenticationController.Authenticated | src/Controller/AuthenticationController.php:203-220 | authenticated and linked: the access-denied markup iff `_exception_statuscode` is the integer 403 (a string "403" does not match), otherwise a redirect to `<front>`; in every other case the themed landing page |
| Authentication.Handshake | src/Controller/AuthenticationController.php:103-195 | connect then authorize with every collaborator succeeding: the secret stored by connect is the one handed to the client, `loginRegister` gets the user's id and nick, the session ends without a token pair, the binding holds the token credentials, the session is then linked iff the external id is truthy, and the response goes to `<front>` |
| UserContext.UserContextManager.SetUserAccessSecret | src/Controller/AuthenticationController.php:179 | sets the access secret only |
| UserContext.UserContextManager.SetUserAccessToken | src/Controller/AuthenticationController.php:180 | sets the access token only |
| UserContext.UserContextManager.SetUserId | src/Controller/AuthenticationController.php:181 | sets the user id only |
| CurrentUser.IsCultureFeedUser | src/CultureFeedCurrentUser.php:57-59 | linked iff the stored user id is present and neither `""` nor `"0"` (PHP truthiness) |
| CurrentUser.GetUserId | src/CultureFeedCurrentUser.php:64-66 | returns the stored id as it is, null included |
| CurrentUser.GetUser | src/CultureFeedCurrentUser.php:71-73 | no user when not linked, whatever the client would answer; otherwise the client's answer for the stored id and the reset flag |
| CurrentUser.GetName | src/CultureFeedCurrentUser.php:78-81 | a name iff there is a user; given name, space, family name when the given name is not PHP-empty (`""`, `"0"`), the nick otherwise |
| CurrentUser.AdminPages | src/CultureFeedCurrentUser.php:92-100 | every listed membership comes from the user's list, has role `ADMIN` and passes the category test; never longer than the list |
| CurrentUser.AdminPagesComplete | src/CultureFeedCurrentUser.php:94-97 | every `ADMIN` membership passing the category test is listed |
| CurrentUser.AdminPagesAppend | src/CultureFeedCurrentUser.php:93-99 | the listing keeps the original order: it distributes over concatenation |
| CurrentUser.ZeroCategoryDoesNotFilter | src/CultureFeedCurrentUser.php:95 | the categories `"0"` and `""` are PHP-empty and list the same as no category |
| CurrentUser.GetAdminPages | src/CultureFeedCurrentUser.php:86-103 | the loop returns exactly AdminPages of the user's memberships (none without a user or memberships), never a `MEMBER` membership |
| CurrentUser.IsAdminOfPage | src/CultureFeedCurrentUser.php:108-122 | true iff some membership has the page's id (strict) and role `ADMIN`; false without a user |
| CurrentUser.AdminOfPageIffListed | src/CultureFeedCurrentUser.php:86-122 | admin of a page iff a membership with that page id is among the admin pages for no category |
| Php.FalsyStrings | src/CultureFeedCurrentUser.php:58 | a string is falsy iff it is `""` or `"0"` |
| Php.FilterValidateBoolean | src/Access/UitidUserStatusCheck.php:45 | true iff the value's string form, trimmed and ASCII-lowercased, is `1`, `true`, `on` or `yes`; a failed validation yields false |
| Php.FilterInt | src/Access/UitidUserStatusCheck.php:45 | an integer validates as true iff it is 1 |
| Php.FilterBool | src/Access/UitidUserStatusCheck.php:45 | a boolean validates as itself |
| Php.FilterNull | src/Access/UitidUserStatusCheck.php:45 | a missing requirement (null) validates as false |
| Php.FilterExamples | src/Access/UitidUserStatusCheck.php:45 | `TRUE`, ` Yes\n`, `on` validate as true; `false`, `2`, `0` as false |
| Php.IntCastAgreesWithFilter | src/Plugin/views/access/UitIdUserStatus.php:73 | an integer's `(bool)` cast equals its boolean validation iff it is 0 or 1 |
| AccessCheck.AllowedIf | src/Access/UitidUserStatusCheck.php:47 | allowed iff the condition holds, with no cache contexts yet |
| AccessCheck.AddCacheContexts | src/Access/UitidUserStatusCheck.php:47 | keeps the decision and reason and adds the contexts |
| AccessCheck.SetReason | src/Access/UitidUserStatusCheck.php:49 | a neutral result takes the reason |
| AccessCheck.Decide | src/Access/UitidUserStatusCheck.php:46-51 | allowed iff required equals actual, neutral otherwise (exactly one holds); always the context `user.roles:authenticated`; on denial the reason is the "uitid users" text when linked users are required and the "non-uitid users" text otherwise |
| AccessCheck.Access | src/Access/UitidUserStatusCheck.php:44-52 | allowed iff the boolean validation of `_is_uitid_user` equals the linked status; always the authenticated-role context; a denial carries a reason |
| AccessCheck.RequirementExamples | src/Access/UitidUserStatusCheck.php:45-47 | a route marked `TRUE` admits exactly linked sessions; a missing or `false` marker exactly the others |
| Http.Route.GetRequirement | src/Access/UitidUserStatusCheck.php:45 | the stored requirement, null when absent |
| Http.Route.SetRequirement | src/Plugin/views/access/UitIdUserStatus.php:80 | replaces one requirement; defaults and options unchanged |
| ViewsAccess.UitIdUserStatus.Access | src/Plugin/views/access/UitIdUserStatus.php:72-74 | true iff the linked status equals the truthiness of `options['status']` |
| ViewsAccess.UitIdUserStatus.AlterRouteDefinition | src/Plugin/views/access/UitIdUserStatus.php:79-81 | the route's `_is_uitid_user` requirement becomes the status; every other requirement, the defaults and the options are unchanged |
| ViewsAccess.UitIdUserStatus.SummaryTitle | src/Plugin/views/access/UitIdUserStatus.php:86-88 | "User is UitID user" iff the status is truthy, "User is not an UitId user" iff not |
| ViewsAccess.DefineOptions | src/Plugin/views/access/UitIdUserStatus.php:93-98 | the parent's options plus `status` with default 1 |
| ViewsAccess.DefaultIsForLinkedUsers | src/Plugin/views/access/UitIdUserStatus.php:95 | with default options the plugin admits exactly linked sessions and the altered route requires linked users |
| ViewsAccess.GatesAgreeIff | src/Plugin/views/access/UitIdUserStatus.php:72-81 | the plugin and the route check on the route it altered agree for both sessions iff the status's `(bool)` cast equals its boolean validation |
| ViewsAccess.GatesAgree | src/Plugin/views/access/UitIdUserStatus.php:72-81 | for the statuses the form can store (0 and 1, as integers or as the strings a submitted form gives) the route check on the altered route allows iff the plugin does |
| ViewsAccess.GatesDisagreeOnTwo | src/Plugin/views/access/UitIdUserStatus.php:73-80 | status 2 is truthy for the plugin but does not validate as true for the route check |
| ViewsAccess.CacheMetadataMatchesRouteCheck | src/Plugin/views/access/UitIdUserStatus.php:121-137 | the plugin's cache contexts are the route check's, its tags are empty and its max-age is permanent |
| Query.Get | src/Controller/AuthenticationController.php:108 | a missing key reads as null |
| Query.RemoveHas | src/EventSubscriber/AutoLoginSubscriber.php:56 | after `unset` the key is gone and every other key is still there |
| Query.RemoveGet | src/EventSubscriber/AutoLoginSubscriber.php:56 | `unset` keeps every other key's value |
| Query.RemoveAppend | src/EventSubscriber/AutoLoginSubscriber.php:56 | `unset` keeps the order of the rest |
| Query.RemoveDistinct | src/EventSubscriber/AutoLoginSubscriber.php:56 | `unset` keeps keys distinct |
| Query.SetGet | src/EventSubscriber/AutoLoginSubscriber.php:65-66 | after an assignment the key holds the new value; other keys keep theirs |
| Query.SetKeys | src/EventSubscriber/AutoLoginSubscriber.php:65-66 | an assignment keeps the key order, appending the key only if new |
| Query.SetInPlace | src/EventSubscriber/AutoLoginSubscriber.php:65-66 | an existing key is overwritten at its position; a new one goes last |
| Query.SetDistinct | src/EventSubscriber/AutoLoginSubscriber.php:65-66 | an assignment keeps keys distinct |
| Query.UrlEncodeUnreserved | src/EventSubscriber/AutoLoginSubscriber.php:62 | urlencode leaves letters, digits, `-`, `_` and `.` as they are |
| AutoLogin.DestinationUrl | src/EventSubscriber/AutoLoginSubscriber.php:59-63 | the path alone when no parameter remains, else path, `?` and http_build_query of the remaining parameters |
| AutoLogin.RedirectQueryValues | src/EventSubscriber/AutoLoginSubscriber.php:53-66 | the redirect query has no `uid`, has the destination built from the parameters left after removing `uid` and `skipConfirmation = TRUE`, and every other key with its original value |
| AutoLogin.RedirectQueryOrder | src/EventSubscriber/AutoLoginSubscriber.php:53-66 | the redirect query is the original without `uid`, keys in the same positions (a pre-existing `destination` or `skipConfirmation` overwritten in place), followed by at most the two new keys; keys stay distinct |
| AutoLogin.EventsExample | src/EventSubscriber/AutoLoginSubscriber.php:52-73 | path `/events`, query `uid=5&foo=bar` gives `foo=bar`, `destination=/events?foo=bar`, `skipConfirmation=TRUE` |
| AutoLogin.OnlyUidGivesBarePath | src/EventSubscriber/AutoLoginSubscriber.php:59-63 | with only `uid` in the query the destination is the bare path |
| AutoLogin.OnRequest | src/EventSubscriber/AutoLoginSubscriber.php:51-75 | for an anonymous user whose query has the key `uid` the event gets a 302 redirect to `culturefeed_user.connect` with RedirectQuery; otherwise the event is untouched |

## Left out

- Signing, HTTP transport and the internals of the CultureFeed client (`getRequestToken`, `getUrlAuthorize`, `getAccessToken`, `getUser`, `updateClient`): they are foreign calls, modelled only by their possible answers; the authorize URL is the value of its arguments.
- `getLastUsedCacheTags` (src/CultureFeedCurrentUser.php:127-129): a pure delegation to the client, with no logic of its own.
- externalauth's `loginRegister`: an oracle returning an account or none.
- The CultureFeed user context manager (from culturefeed_api) is modelled as three fields with plain setters; how it stores them is not modelled.
- Dependency-injection factories and constructors, the language manager, URL generation, `watchdog_exception` logging, the translation of messages, the `TrustedRedirectResponse` cache max-age and the subscriber's event priority (src/EventSubscriber/AutoLoginSubscriber.php:80-86): framework plumbing without logic of the module.
- `buildOptionsForm` (src/Plugin/views/access/UitIdUserStatus.php:103-116): form scaffolding.
- src/CultureFeedCurrentUserInterface.php: an interface without behaviour.
- Symfony's validation inside `Route::setRequirement` (string coercion, stripping `^`/`$`, and rejecting an empty requirement, such as `false` coerced to `""`, with an exception): not part of this module; the requirement is stored as given.
- Arrays as query values and numeric-string keys becoming integer keys: queries hold scalars under string keys.
- `Request::get('destination')` also reads route attributes and the POST body; the model reads the query only.
- `in_array` compares categories loosely, so numeric strings such as `"1"` and `"01"` match; the model compares categories exactly.
- Profile fields that the API leaves out are modelled as `""`, so `getName` gives `""` rather than null for a missing nick.
- A falsy or partial `getAccessToken` result (PHP would read null fields) is not modelled: the exchange either throws or yields three strings.
- Exceptions thrown by the client's `getUser` inside `getUser`, `getName`, `getAdminPages` and `isAdminOfPage` propagate to the caller; the lookup is modelled as total.
- Concurrency and session persistence: `$_SESSION` is one map owned by the controller.
