/** api/notifications.js: the notifications list request. */
module NotificationsApi {
  import opened Wrappers
  import opened JsValues
  import opened Client

  /** `unread_only` is `unreadOnly || false`. */
  function ListNotifications(token: Value, unreadOnly: Value, limit: int, offset: int): Request
  {
    Request("/notifications", "GET", token, Undefined,
            Some([("unread_only", Or(unreadOnly, Bool(false))), ("limit", Num(limit)), ("offset", Num(offset))]))
  }

  /** `unreadOnly || false` is never dropped from a URL, and reads "false" when the flag is falsy. */
  lemma FlagSurvives(unreadOnly: Value)
    ensures var flag := Or(unreadOnly, Bool(false));
            !Dropped(flag) && JsString(flag) == if Truthy(unreadOnly) then JsString(unreadOnly) else "false"
  {
  }

  /** The query object: three distinct keys, the flag defaulted to false and the window as given. */
  lemma QueryShape(unreadOnly: Value, limit: int, offset: int)
    ensures var q := ListNotifications(Undefined, unreadOnly, limit, offset).query.value;
            && UniqueKeys(q) && Keys(q) == {"unread_only", "limit", "offset"}
            && Lookup(q, "unread_only") == Some(Or(unreadOnly, Bool(false)))
            && Lookup(q, "limit") == Some(Num(limit)) && Lookup(q, "offset") == Some(Num(offset))
  {
    var q := ListNotifications(Undefined, unreadOnly, limit, offset).query.value;
    var t1 := q[1..];
    var t2 := t1[1..];
    assert t2[1..] == [];
    assert Keys(t2) == {"offset"} && UniqueKeys(t2);
    assert Keys(t1) == {"limit", "offset"} && UniqueKeys(t1);
    assert Lookup(q, "offset") == Lookup(t1, "offset") == Lookup(t2, "offset");
    assert Lookup(q, "limit") == Lookup(t1, "limit");
  }

  /** `unread_only` always reaches the URL: a falsy flag as "false", a truthy one as `String(flag)`. */
  lemma UnreadOnlyAlwaysSent(token: Value, unreadOnly: Value, limit: int, offset: int)
    ensures Lookup(SearchParams(ListNotifications(token, unreadOnly, limit, offset).query), "unread_only") ==
              Some(if Truthy(unreadOnly) then JsString(unreadOnly) else "false")
  {
    var q := ListNotifications(token, unreadOnly, limit, offset).query.value;
    QueryShape(unreadOnly, limit, offset);
    assert Lookup(q, "unread_only") == Some(Or(unreadOnly, Bool(false)));
    FlagSurvives(unreadOnly);
    QueryParamsLookup(q, "unread_only");
  }

  /** `limit` and `offset` are forwarded unchanged into the URL. */
  lemma WindowForwarded(token: Value, unreadOnly: Value, limit: int, offset: int)
    ensures var params := SearchParams(ListNotifications(token, unreadOnly, limit, offset).query);
            && Lookup(params, "limit") == Some(IntToString(limit))
            && Lookup(params, "offset") == Some(IntToString(offset))
  {
    var q := ListNotifications(token, unreadOnly, limit, offset).query.value;
    QueryShape(unreadOnly, limit, offset);
    assert Lookup(q, "limit") == Some(Num(limit));
    assert Lookup(q, "offset") == Some(Num(offset));
    QueryParamsLookup(q, "limit");
    QueryParamsLookup(q, "offset");
  }

  /** The request is GET /notifications with the token forwarded unchanged and no body. */
  lemma ListNotificationsCall(env: Option<string>, token: Value, unreadOnly: Value, limit: int, offset: int)
    ensures var call := Dispatch(env, ListNotifications(token, unreadOnly, limit, offset), v => "");
            && call.verb == "GET" && call.body == None
            && call.url.location == ApiBase(env) + "/notifications"
            && call.headers == Headers(token, Undefined)
            && call.url.params == SearchParams(ListNotifications(token, unreadOnly, limit, offset).query)
  {
  }
}
