/**
 * The route access check `_is_uitid_user`: a route declares whether it is for
 * linked (UiTID) users or for everyone else, and the check compares that with
 * the current session.
 */
module AccessCheck {
  import opened Wrappers
  import opened Php
  import opened Http
  import opened UserContext
  import CurrentUser

  const IS_UITID_USER: string := "_is_uitid_user"
  const AUTHENTICATED_ROLE_CONTEXT: string := "user.roles:authenticated"
  const ONLY_UITID_USERS: string := "This route can only be accessed by uitid users."
  const ONLY_NON_UITID_USERS: string := "This route can only be accessed by non-uitid users."

  /**
   * Drupal's access results as far as they occur here: `allowedIf(false)` gives
   * a neutral result, which may carry a reason; both carry cache contexts.
   */
  datatype AccessResult =
    | Allowed(contexts: set<string>)
    | Neutral(contexts: set<string>, reason: Option<string>)
  {
    predicate IsAllowed() {
      Allowed?
    }
  }

  function AllowedIf(condition: bool): (r: AccessResult)
    ensures r.IsAllowed() == condition && r.contexts == {}
  {
    if condition then Allowed({}) else Neutral({}, None)
  }

  /** `addCacheContexts`: the contexts are merged as a set. */
  function AddCacheContexts(r: AccessResult, cs: set<string>): (r': AccessResult)
    ensures r'.IsAllowed() == r.IsAllowed() && r'.contexts == r.contexts + cs
    ensures r'.Neutral? ==> r'.reason == r.reason
  {
    match r
    case Allowed(c) => Allowed(c + cs)
    case Neutral(c, reason) => Neutral(c + cs, reason)
  }

  function SetReason(r: AccessResult, reason: string): (r': AccessResult)
    requires r.Neutral?
    ensures r' == Neutral(r.contexts, Some(reason))
  {
    r.(reason := Some(reason))
  }

  /** The required status: the requirement read with FILTER_VALIDATE_BOOLEAN (missing reads as false). */
  function RequiredStatus(requirements: map<string, Value>): bool {
    FilterValidateBoolean(if IS_UITID_USER in requirements then requirements[IS_UITID_USER] else Null)
  }

  /**
   * The decision for a required and an actual status: allowed exactly when they
   * are equal, always varying by the authenticated role, and on denial a reason
   * naming the kind of user the route is for.
   */
  function Decide(required: bool, actual: bool): (r: AccessResult)
    ensures r.IsAllowed() <==> required == actual
    ensures !r.IsAllowed() <==> r.Neutral?
    ensures r.contexts == {AUTHENTICATED_ROLE_CONTEXT}
    ensures r.Neutral? ==> r.reason == Some(if required then ONLY_UITID_USERS else ONLY_NON_UITID_USERS)
  {
    var result := AddCacheContexts(AllowedIf(required == actual), {AUTHENTICATED_ROLE_CONTEXT});
    if !result.IsAllowed() then
      SetReason(result, if required then ONLY_UITID_USERS else ONLY_NON_UITID_USERS)
    else
      result
  }

  /** `access($account, $route)`; the account argument is not used by the check. */
  function Access(route: Route, ctx: UserContextManager): (r: AccessResult)
    reads route, ctx
    ensures r.IsAllowed() <==> (FilterValidateBoolean(route.GetRequirement(IS_UITID_USER)) == CurrentUser.IsCultureFeedUser(ctx))
    ensures r.contexts == {AUTHENTICATED_ROLE_CONTEXT}
    ensures r.Neutral? ==> r.reason.Some?
  {
    Decide(RequiredStatus(route.requirements), CurrentUser.IsCultureFeedUser(ctx))
  }

  /** A route marked "TRUE" admits exactly the linked sessions; a missing marker, the others. */
  lemma RequirementExamples(linked: bool)
    ensures Decide(RequiredStatus(map[IS_UITID_USER := Str("TRUE")]), linked).IsAllowed() == linked
    ensures Decide(RequiredStatus(map[]), linked).IsAllowed() == !linked
    ensures Decide(RequiredStatus(map[IS_UITID_USER := Str("false")]), linked).IsAllowed() == !linked
  {
    FilterExamples();
    FilterNull();
  }
}
