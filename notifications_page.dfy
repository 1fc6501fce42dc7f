/** pages/NotificationsPage.js: the paginated notification feed with an unread-only filter. */
module NotificationsPage {
  import opened Wrappers
  import opened JsValues
  import opened Client
  import opened Entities
  import opened Pagination
  import opened NotificationsApi
  import opened ListView

  const DEFAULT_LIMIT: nat := 20

  class Feed {
    const token: Value
    var unreadOnly: bool
    var limit: nat
    var offset: nat
    var page: Option<Page<Notification>>
    var loading: bool
    var err: Option<string>

    /** The first render; the mount effect then runs `Load(0, ...)`. */
    constructor (token: Value)
      ensures this.token == token
      ensures !unreadOnly && limit == DEFAULT_LIMIT && offset == 0 && page == None && !loading && err == None
    {
      this.token := token;
      unreadOnly, limit, offset := false, DEFAULT_LIMIT, 0;
      page, loading, err := None, false, None;
    }

    /** `load(nextOffset)`, given what `listNotifications` resolves to. */
    method Load(nextOffset: nat, res: Outcome<Page<Notification>>) returns (issued: Request)
      modifies this`page, this`offset, this`err, this`loading
      ensures issued == ListNotifications(token, Bool(unreadOnly), limit, nextOffset)
      ensures ListState(page, offset, err) == AfterLoad(old(ListState(page, offset, err)), nextOffset, res, "Failed to load notifications")
      ensures !loading
    {
      issued := ListNotifications(token, Bool(unreadOnly), limit, nextOffset);
      loading := true;
      err := None;
      match res {
        case Ok(p) =>
          page := Some(p);
          offset := nextOffset;
        case Fail(message) =>
          err := Some(ErrorText(message, "Failed to load notifications"));
      }
      loading := false;
    }

    /** Prev: `load(Math.max(0, offset - limit))`. */
    method Prev(res: Outcome<Page<Notification>>) returns (issued: Request)
      modifies this`page, this`offset, this`err, this`loading
      ensures issued == ListNotifications(token, Bool(unreadOnly), limit, PrevOffset(old(offset), limit))
      ensures ListState(page, offset, err) == AfterLoad(old(ListState(page, offset, err)), PrevOffset(old(offset), limit), res, "Failed to load notifications")
      ensures !loading
    {
      var prev := PrevOffset(offset, limit);
      issued := Load(prev, res);
    }

    /** Next: `load(offset + limit)`. */
    method Next(res: Outcome<Page<Notification>>) returns (issued: Request)
      modifies this`page, this`offset, this`err, this`loading
      ensures issued == ListNotifications(token, Bool(unreadOnly), limit, NextOffset(old(offset), limit))
      ensures ListState(page, offset, err) == AfterLoad(old(ListState(page, offset, err)), NextOffset(old(offset), limit), res, "Failed to load notifications")
      ensures !loading
    {
      var next := NextOffset(offset, limit);
      issued := Load(next, res);
    }

    /**
     * The unread-only checkbox: offset 0 and the new flag; the effect keyed on
     * the flag then reloads from offset 0 with it, but only when it changed.
     */
    method SetUnreadOnly(checked: bool, res: Outcome<Page<Notification>>) returns (issued: Option<Request>)
      modifies this`unreadOnly, this`page, this`offset, this`err, this`loading
      ensures unreadOnly == checked
      ensures checked == old(unreadOnly) ==> issued == None && offset == 0 && page == old(page) && err == old(err) && loading == old(loading)
      ensures checked != old(unreadOnly) ==>
                && issued == Some(ListNotifications(token, Bool(checked), limit, 0))
                && ListState(page, offset, err) == AfterLoad(old(ListState(page, offset, err)).(offset := 0), 0, res, "Failed to load notifications")
                && !loading
    {
      var changed := checked != unreadOnly;
      offset := 0;
      unreadOnly := checked;
      if changed {
        var request := Load(0, res);
        issued := Some(request);
      } else {
        issued := None;
      }
    }

    /** The page-size select: same shape as the checkbox, keyed on `limit`. */
    method SetPageSize(n: nat, res: Outcome<Page<Notification>>) returns (issued: Option<Request>)
      modifies this`limit, this`page, this`offset, this`err, this`loading
      ensures limit == n
      ensures n == old(limit) ==> issued == None && offset == 0 && page == old(page) && err == old(err) && loading == old(loading)
      ensures n != old(limit) ==>
                && issued == Some(ListNotifications(token, Bool(unreadOnly), n, 0))
                && ListState(page, offset, err) == AfterLoad(old(ListState(page, offset, err)).(offset := 0), 0, res, "Failed to load notifications")
                && !loading
    {
      var changed := n != limit;
      limit := n;
      offset := 0;
      if changed {
        var request := Load(0, res);
        issued := Some(request);
      } else {
        issued := None;
      }
    }
  }

  /**
   * Whatever the checkbox says, the request states the flag explicitly:
   * `unread_only=true` or `unread_only=false`, never left out.
   */
  lemma FlagAlwaysInUrl(token: Value, unreadOnly: bool, limit: nat, offset: nat)
    ensures Lookup(SearchParams(ListNotifications(token, Bool(unreadOnly), limit, offset).query), "unread_only")
              == Some(if unreadOnly then "true" else "false")
  {
    UnreadOnlyAlwaysSent(token, Bool(unreadOnly), limit, offset);
  }
}
