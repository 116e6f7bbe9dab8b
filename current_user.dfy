/**
 * The current-user service: whether the session is linked to a CultureFeed
 * ("UiTID") identity, the linked user's profile as the client returns it, the
 * user's display name, and the pages the user administers.
 */
module CurrentUser {
  import opened Wrappers
  import opened Php
  import opened UserContext

  const MEMBER: string := "MEMBER"
  const ADMIN: string := "ADMIN"

  datatype Page = Page(id: string, categories: seq<string>)

  /** The user's role on one page. */
  datatype Membership = Membership(role: string, page: Page)

  /** The profile the CultureFeed client returns; a field the API leaves out is "". */
  datatype CultureFeedUser = CultureFeedUser(
    id: string, nick: string, givenName: string, familyName: string,
    pageMemberships: seq<Membership>)

  /** The client's `getUser($id, TRUE, TRUE, $reset)`, as an oracle. */
  type UserLookup = (string, bool) -> Option<CultureFeedUser>

  /** The session is linked exactly when the stored user id is PHP-truthy. */
  function IsCultureFeedUser(ctx: UserContextManager): (r: bool)
    reads ctx
    ensures r <==> ctx.userId.Some? && ctx.userId.value != "" && ctx.userId.value != "0"
  {
    Truthy(OfNullable(GetUserId(ctx)))
  }

  function GetUserId(ctx: UserContextManager): (r: Option<string>)
    reads ctx
    ensures r == ctx.userId
  {
    ctx.userId
  }

  /** Without a truthy user id there is no user, whatever the client would answer. */
  function GetUser(ctx: UserContextManager, lookup: UserLookup, reset: bool): (r: Option<CultureFeedUser>)
    reads ctx
    ensures !IsCultureFeedUser(ctx) ==> r == None
    ensures IsCultureFeedUser(ctx) ==> r == lookup(ctx.userId.value, reset)
  {
    if Truthy(OfNullable(GetUserId(ctx))) then lookup(GetUserId(ctx).value, reset) else None
  }

  /**
   * The display name: given and family name when there is a given name that
   * PHP does not consider empty, the nick otherwise; none without a user.
   */
  function GetName(ctx: UserContextManager, lookup: UserLookup): (r: Option<string>)
    reads ctx
    ensures r.Some? <==> GetUser(ctx, lookup, false).Some?
    ensures r.Some? && GetUser(ctx, lookup, false).value.givenName !in {"", "0"} ==>
              var u := GetUser(ctx, lookup, false).value; r.value == u.givenName + " " + u.familyName
    ensures r.Some? && GetUser(ctx, lookup, false).value.givenName in {"", "0"} ==>
              r.value == GetUser(ctx, lookup, false).value.nick
  {
    var user := GetUser(ctx, lookup, false);
    if user.None? then None
    else if Truthy(Str(user.value.givenName)) then Some(user.value.givenName + " " + user.value.familyName)
    else Some(user.value.nick)
  }

  /** `!empty($user->pageMemberships)` iterates these; no user means none. */
  function MembershipsOf(user: Option<CultureFeedUser>): seq<Membership> {
    if user.None? then [] else user.value.pageMemberships
  }

  /** An absent or PHP-empty category ("" or "0") does not filter. */
  predicate PassesCategory(m: Membership, category: Option<string>) {
    !Truthy(OfNullable(category)) || category.value in m.page.categories
  }

  predicate IsListedAdmin(m: Membership, category: Option<string>) {
    m.role == ADMIN && PassesCategory(m, category)
  }

  /** The admin memberships passing the category test, in their original order. */
  function AdminPages(ms: seq<Membership>, category: Option<string>): (r: seq<Membership>)
    ensures |r| <= |ms|
    ensures forall j :: 0 <= j < |r| ==> r[j] in ms && IsListedAdmin(r[j], category)
  {
    if ms == [] then []
    else (if IsListedAdmin(ms[0], category) then [ms[0]] else []) + AdminPages(ms[1..], category)
  }

  /** No admin membership that passes the category test is left out. */
  lemma {:induction false} AdminPagesComplete(ms: seq<Membership>, category: Option<string>, i: nat)
    requires i < |ms| && IsListedAdmin(ms[i], category)
    ensures ms[i] in AdminPages(ms, category)
  {
    if i > 0 {
      AdminPagesComplete(ms[1..], category, i - 1);
    }
  }

  /** The filter keeps order: it distributes over concatenation. */
  lemma {:induction false} AdminPagesAppend(a: seq<Membership>, b: seq<Membership>, category: Option<string>)
    ensures AdminPages(a + b, category) == AdminPages(a, category) + AdminPages(b, category)
  {
    if a == [] {
      assert a + b == b;
    } else {
      assert (a + b)[1..] == a[1..] + b;
      AdminPagesAppend(a[1..], b, category);
    }
  }

  /** The category "0" is PHP-empty and filters nothing, exactly as no category. */
  lemma {:induction false} ZeroCategoryDoesNotFilter(ms: seq<Membership>)
    ensures AdminPages(ms, Some("0")) == AdminPages(ms, None)
    ensures AdminPages(ms, Some("")) == AdminPages(ms, None)
  {
    if ms != [] {
      ZeroCategoryDoesNotFilter(ms[1..]);
    }
  }

  /** `getAdminPages($category, $reset)`: the foreach loop that collects admin memberships. */
  method GetAdminPages(ctx: UserContextManager, lookup: UserLookup, category: Option<string>, reset: bool)
    returns (pages: seq<Membership>)
    ensures pages == AdminPages(MembershipsOf(GetUser(ctx, lookup, reset)), category)
    ensures forall j :: 0 <= j < |pages| ==> pages[j].role == ADMIN && pages[j].role != MEMBER
    ensures MembershipsOf(GetUser(ctx, lookup, reset)) == [] ==> pages == []
  {
    var user := GetUser(ctx, lookup, reset);
    pages := [];
    if user.Some? && user.value.pageMemberships != [] {
      var ms := user.value.pageMemberships;
      for i := 0 to |ms|
        invariant pages == AdminPages(ms[..i], category)
      {
        var m := ms[i];
        if m.role == ADMIN {
          if !Truthy(OfNullable(category)) || category.value in m.page.categories {
            pages := pages + [m];
          }
        }
        assert ms[..i + 1] == ms[..i] + [ms[i]];
        AdminPagesAppend(ms[..i], [ms[i]], category);
      }
      assert ms[..|ms|] == ms;
    }
  }

  predicate AdministersPage(m: Membership, pageId: string) {
    pageId == m.page.id && m.role == ADMIN
  }

  /** `isAdminOfPage($page)`: a scan that stops at the first admin membership of that page. */
  method IsAdminOfPage(ctx: UserContextManager, lookup: UserLookup, page: Page) returns (r: bool)
    ensures var ms := MembershipsOf(GetUser(ctx, lookup, false));
            r <==> exists i :: 0 <= i < |ms| && AdministersPage(ms[i], page.id)
  {
    var user := GetUser(ctx, lookup, false);
    if user.Some? && user.value.pageMemberships != [] {
      var ms := user.value.pageMemberships;
      for i := 0 to |ms|
        invariant forall j :: 0 <= j < i ==> !AdministersPage(ms[j], page.id)
      {
        if page.id == ms[i].page.id && ms[i].role == ADMIN {
          assert AdministersPage(ms[i], page.id);
          return true;
        }
      }
    }
    return false;
  }

  /** Being admin of a page is the same as the page appearing among the unfiltered admin pages. */
  lemma AdminOfPageIffListed(ms: seq<Membership>, pageId: string)
    ensures (exists i :: 0 <= i < |ms| && AdministersPage(ms[i], pageId))
        <==> (exists j :: 0 <= j < |AdminPages(ms, None)| && AdminPages(ms, None)[j].page.id == pageId)
  {
    var ps := AdminPages(ms, None);
    if i :| 0 <= i < |ms| && AdministersPage(ms[i], pageId) {
      AdminPagesComplete(ms, None, i);
      var j :| 0 <= j < |ps| && ps[j] == ms[i];
      assert ps[j].page.id == pageId;
    }
    if j :| 0 <= j < |ps| && ps[j].page.id == pageId {
      var i :| 0 <= i < |ms| && ms[i] == ps[j];
      assert AdministersPage(ms[i], pageId);
    }
  }
}
