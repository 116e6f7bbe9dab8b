/**
 * The auto-login request subscriber: an anonymous request carrying `uid` is
 * sent to the connect route, with `uid` dropped, a `destination` back to the
 * requested page and `skipConfirmation` set.
 */
module AutoLogin {
  import opened Wrappers
  import opened Php
  import opened Query
  import opened Http

  const UID: string := "uid"
  const DESTINATION: string := "destination"
  const SKIP_CONFIRMATION: string := "skipConfirmation"
  const CONNECT_ROUTE: string := "culturefeed_user.connect"

  /** The page to return to: the path, plus `?` and the remaining query when there is one. */
  function DestinationUrl(pathInfo: string, remaining: Query): (d: string)
    ensures remaining == [] ==> d == pathInfo
    ensures remaining != [] ==> d == pathInfo + "?" + BuildQuery(remaining)
  {
    if remaining == [] then pathInfo else pathInfo + "?" + BuildQuery(remaining)
  }

  /** The query of the redirect to the connect route. */
  function RedirectQuery(query: Query, pathInfo: string): Query {
    var remaining := Remove(query, UID);
    Set(Set(remaining, DESTINATION, Str(DestinationUrl(pathInfo, remaining))), SKIP_CONFIRMATION, Bool(true))
  }

  /** The redirect never carries `uid`, and carries the destination and the skip flag. */
  lemma RedirectQueryValues(query: Query, pathInfo: string)
    ensures !Has(RedirectQuery(query, pathInfo), UID)
    ensures Get(RedirectQuery(query, pathInfo), DESTINATION) == Str(DestinationUrl(pathInfo, Remove(query, UID)))
    ensures Get(RedirectQuery(query, pathInfo), SKIP_CONFIRMATION) == Bool(true)
    ensures forall k :: k != UID && k != DESTINATION && k != SKIP_CONFIRMATION ==>
              Has(RedirectQuery(query, pathInfo), k) == Has(query, k)
              && Get(RedirectQuery(query, pathInfo), k) == Get(query, k)
  {
    var remaining := Remove(query, UID);
    var withDestination := Set(remaining, DESTINATION, Str(DestinationUrl(pathInfo, remaining)));
    forall k ensures Has(RedirectQuery(query, pathInfo), k) <==> k == SKIP_CONFIRMATION || k == DESTINATION || (k != UID && Has(query, k)) {
      SetHas(withDestination, SKIP_CONFIRMATION, Bool(true), k);
      SetHas(remaining, DESTINATION, Str(DestinationUrl(pathInfo, remaining)), k);
      RemoveHas(query, UID, k);
    }
    SetGet(withDestination, SKIP_CONFIRMATION, Bool(true), DESTINATION);
    SetGet(remaining, DESTINATION, Str(DestinationUrl(pathInfo, remaining)), DESTINATION);
    SetGet(withDestination, SKIP_CONFIRMATION, Bool(true), SKIP_CONFIRMATION);
    forall k | k != UID && k != DESTINATION && k != SKIP_CONFIRMATION
      ensures Get(RedirectQuery(query, pathInfo), k) == Get(query, k)
    {
      SetGet(withDestination, SKIP_CONFIRMATION, Bool(true), k);
      SetGet(remaining, DESTINATION, Str(DestinationUrl(pathInfo, remaining)), k);
      RemoveGet(query, UID, k);
    }
  }

  /**
   * Order: the redirect query is the original without `uid`, with the entries
   * under `destination` and `skipConfirmation` overwritten in place, followed
   * by whichever of those two keys were not there yet.
   */
  lemma RedirectQueryOrder(query: Query, pathInfo: string)
    ensures var remaining := Remove(query, UID);
            var r := RedirectQuery(query, pathInfo);
            |remaining| <= |r| <= |remaining| + 2
            && (forall i :: 0 <= i < |remaining| ==> r[i].0 == remaining[i].0)
            && (forall i :: 0 <= i < |remaining| && remaining[i].0 != DESTINATION && remaining[i].0 != SKIP_CONFIRMATION ==>
                  r[i] == remaining[i])
    ensures DistinctKeys(query) ==> DistinctKeys(RedirectQuery(query, pathInfo))
  {
    var remaining := Remove(query, UID);
    var withDestination := Set(remaining, DESTINATION, Str(DestinationUrl(pathInfo, remaining)));
    SetInPlace(remaining, DESTINATION, Str(DestinationUrl(pathInfo, remaining)));
    SetInPlace(withDestination, SKIP_CONFIRMATION, Bool(true));
    SetKeys(remaining, DESTINATION, Str(DestinationUrl(pathInfo, remaining)));
    SetKeys(withDestination, SKIP_CONFIRMATION, Bool(true));
    assert forall i :: 0 <= i < |remaining| ==> Keys(withDestination)[i] == remaining[i].0;
    if DistinctKeys(query) {
      RemoveDistinct(query, UID);
      SetDistinct(remaining, DESTINATION, Str(DestinationUrl(pathInfo, remaining)));
      SetDistinct(withDestination, SKIP_CONFIRMATION, Bool(true));
    }
  }

  /** The worked case: `/events?uid=5&foo=bar`. */
  lemma EventsExample()
    ensures RedirectQuery([(UID, Str("5")), ("foo", Str("bar"))], "/events")
         == [("foo", Str("bar")), (DESTINATION, Str("/events?foo=bar")), (SKIP_CONFIRMATION, Bool(true))]
  {
    var q: Query := [(UID, Str("5")), ("foo", Str("bar"))];
    assert Remove(q, UID) == [("foo", Str("bar"))];
    UrlEncodeUnreserved("foo");
    UrlEncodeUnreserved("bar");
    assert BuildQuery([("foo", Str("bar"))]) == "foo=bar";
    var d := Str("/events?foo=bar");
    assert DestinationUrl("/events", [("foo", Str("bar"))]) == "/events?foo=bar";
    assert Set([("foo", Str("bar"))], DESTINATION, d) == [("foo", Str("bar")), (DESTINATION, d)] by {
      assert Set([], DESTINATION, d) == [(DESTINATION, d)];
    }
    var w := [("foo", Str("bar")), (DESTINATION, d)];
    assert Set(w, SKIP_CONFIRMATION, Bool(true)) == w + [(SKIP_CONFIRMATION, Bool(true))] by {
      assert w[1..] == [(DESTINATION, d)];
      assert Set(w[1..][1..], SKIP_CONFIRMATION, Bool(true)) == [(SKIP_CONFIRMATION, Bool(true))];
      assert Set(w[1..], SKIP_CONFIRMATION, Bool(true)) == [(DESTINATION, d), (SKIP_CONFIRMATION, Bool(true))];
    }
  }

  /** With nothing but `uid` in the query the destination is the bare path. */
  lemma OnlyUidGivesBarePath(uid: Value, pathInfo: string)
    ensures RedirectQuery([(UID, uid)], pathInfo) == [(DESTINATION, Str(pathInfo)), (SKIP_CONFIRMATION, Bool(true))]
  {
    assert Remove([(UID, uid)], UID) == [];
    var d := Str(pathInfo);
    assert Set([], DESTINATION, d) == [(DESTINATION, d)];
    assert Set([(DESTINATION, d)], SKIP_CONFIRMATION, Bool(true)) == [(DESTINATION, d), (SKIP_CONFIRMATION, Bool(true))] by {
      assert [(DESTINATION, d)][1..] == [];
    }
  }

  /** The subscriber fires for anonymous users whose query has the key `uid`, whatever its value. */
  predicate Fires(isAnonymous: bool, query: Query) {
    isAnonymous && Has(query, UID)
  }

  /** `onRequest($event)`: sets the redirect to the connect route, or leaves the event untouched. */
  method OnRequest(event: RequestEvent, isAnonymous: bool)
    modifies event
    ensures Fires(isAnonymous, event.request.query) ==>
              event.response == Some(Redirect(RouteUrl(CONNECT_ROUTE, RedirectQuery(event.request.query, event.request.pathInfo), false), 302))
    ensures !Fires(isAnonymous, event.request.query) ==> event.response == old(event.response)
  {
    if isAnonymous && Has(event.request.query, UID) {
      var queryParams := event.request.query;
      queryParams := Remove(queryParams, UID);
      var destinationUrl := event.request.pathInfo;
      if queryParams != [] {
        destinationUrl := destinationUrl + "?" + BuildQuery(queryParams);
      }
      queryParams := Set(queryParams, DESTINATION, Str(destinationUrl));
      queryParams := Set(queryParams, SKIP_CONFIRMATION, Bool(true));
      event.response := Some(Redirect(RouteUrl(CONNECT_ROUTE, queryParams, false), 302));
    }
  }
}
