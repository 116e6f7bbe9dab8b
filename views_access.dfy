/**
 * The Views access plugin "uitid_user": a display is shown to linked users
 * (status 1) or to the others (status 0). The plugin also writes its status
 * into the route requirement that the route access check reads.
 */
module ViewsAccess {
  import opened Php
  import opened Http
  import opened UserContext
  import CurrentUser
  import AccessCheck

  const STATUS: string := "status"
  const IS_UITID_TITLE: string := "User is UitID user"
  const NOT_UITID_TITLE: string := "User is not an UitId user"
  /** Drupal's Cache::PERMANENT. */
  const PERMANENT: int := -1

  /** An option definition: only its default matters here. */
  datatype OptionDefinition = OptionDefinition(default: Value)

  /** `defineOptions()`: the parent's options plus `status`, defaulting to 1. */
  function DefineOptions(parent: map<string, OptionDefinition>): (r: map<string, OptionDefinition>)
    ensures STATUS in r && r[STATUS].default == Int(1)
    ensures r.Keys == parent.Keys + {STATUS}
    ensures forall k :: k in parent && k != STATUS ==> r[k] == parent[k]
  {
    parent[STATUS := OptionDefinition(Int(1))]
  }

  /** The options a new display gets: each option's default. */
  function Defaults(definitions: map<string, OptionDefinition>): (options: map<string, Value>)
    ensures options.Keys == definitions.Keys
    ensures forall k :: k in definitions ==> options[k] == definitions[k].default
  {
    map k | k in definitions :: definitions[k].default
  }

  datatype UitIdUserStatus = UitIdUserStatus(options: map<string, Value>)
  {
    /** `$this->options['status']`, null if unset. */
    function Status(): Value {
      if STATUS in options then options[STATUS] else Null
    }

    /** `access()`: the linked status loosely equals the configured status. */
    function Access(ctx: UserContextManager): (r: bool)
      reads ctx
      ensures r <==> (CurrentUser.IsCultureFeedUser(ctx) <==> Truthy(Status()))
    {
      LooseEqualsBool(CurrentUser.IsCultureFeedUser(ctx), Status())
    }

    /** `alterRouteDefinition()`: writes the status as the route's `_is_uitid_user` requirement. */
    method AlterRouteDefinition(route: Route)
      modifies route
      ensures route.requirements == old(route.requirements)[AccessCheck.IS_UITID_USER := Status()]
      ensures route.defaults == old(route.defaults) && route.options == old(route.options)
    {
      route.SetRequirement(AccessCheck.IS_UITID_USER, Status());
    }

    function SummaryTitle(): (r: string)
      ensures r == IS_UITID_TITLE <==> Truthy(Status())
      ensures r == NOT_UITID_TITLE <==> !Truthy(Status())
    {
      if Truthy(Status()) then IS_UITID_TITLE else NOT_UITID_TITLE
    }

    function GetCacheMaxAge(): int {
      PERMANENT
    }

    function GetCacheContexts(): seq<string> {
      [AccessCheck.AUTHENTICATED_ROLE_CONTEXT]
    }

    function GetCacheTags(): seq<string> {
      []
    }
  }

  /**
   * The plugin and the route check on the route it altered agree exactly when
   * the status is cast to the same boolean by PHP's `(bool)` as by
   * FILTER_VALIDATE_BOOLEAN.
   */
  lemma GatesAgreeIff(plugin: UitIdUserStatus, requirements: map<string, Value>)
    ensures var required := AccessCheck.RequiredStatus(requirements[AccessCheck.IS_UITID_USER := plugin.Status()]);
            (AccessCheck.Decide(required, true).IsAllowed() == Truthy(plugin.Status())
             && AccessCheck.Decide(required, false).IsAllowed() == !Truthy(plugin.Status()))
            <==> Truthy(plugin.Status()) == FilterValidateBoolean(plugin.Status())
  {
    var required := AccessCheck.RequiredStatus(requirements[AccessCheck.IS_UITID_USER := plugin.Status()]);
    assert required == FilterValidateBoolean(plugin.Status());
  }

  /**
   * For the statuses the options form can store (1 and 0, as integers, as the
   * strings a submitted radio gives, or as booleans) the two gates decide alike.
   */
  lemma GatesAgree(plugin: UitIdUserStatus, route: Route, ctx: UserContextManager)
    requires plugin.Status() in {Int(0), Int(1), Str("0"), Str("1"), Bool(false), Bool(true)}
    requires route.GetRequirement(AccessCheck.IS_UITID_USER) == plugin.Status()
    ensures AccessCheck.Access(route, ctx).IsAllowed() == plugin.Access(ctx)
  {
    var status := plugin.Status();
    if status.Int? {
      FilterInt(status.i);
    } else if status.Bool? {
      FilterBool(status.b);
    } else {
      assert AsciiLower(Trim(status.s)) == status.s;
    }
  }

  /** A status of 2 is truthy but does not validate as true: a linked session passes one gate only. */
  lemma GatesDisagreeOnTwo(requirements: map<string, Value>)
    ensures LooseEqualsBool(true, UitIdUserStatus(map[STATUS := Int(2)]).Status())
    ensures !AccessCheck.Decide(AccessCheck.RequiredStatus(requirements[AccessCheck.IS_UITID_USER := Int(2)]), true).IsAllowed()
  {
    FilterInt(2);
  }

  /** A display with the default options is for linked users, through either gate. */
  lemma DefaultIsForLinkedUsers(parent: map<string, OptionDefinition>, ctx: UserContextManager, requirements: map<string, Value>)
    ensures var plugin := UitIdUserStatus(Defaults(DefineOptions(parent)));
            plugin.Access(ctx) == CurrentUser.IsCultureFeedUser(ctx)
            && AccessCheck.RequiredStatus(requirements[AccessCheck.IS_UITID_USER := plugin.Status()])
  {
    FilterInt(1);
  }

  /** The plugin and the route check declare the same cache dependency. */
  lemma CacheMetadataMatchesRouteCheck(plugin: UitIdUserStatus, required: bool, actual: bool)
    ensures (set c | c in plugin.GetCacheContexts()) == AccessCheck.Decide(required, actual).contexts
    ensures plugin.GetCacheTags() == [] && plugin.GetCacheMaxAge() == PERMANENT
  {
  }
}
