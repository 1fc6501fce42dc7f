/**
 * The load rule the paginated pages (tasks, teams, notifications) share:
 * a success replaces the page and moves to the requested offset; a failure
 * keeps the page and offset on screen and records the error.
 */
module ListView {
  import opened Wrappers
  import opened Pagination

  /** The part of a list page that `load` changes. */
  datatype ListState<T> = ListState(page: Option<Page<T>>, offset: nat, err: Option<string>)

  /** The list state after `load(nextOffset)` resolved to `res`; `fallback` is the page's own message. */
  function AfterLoad<T>(v: ListState<T>, nextOffset: nat, res: Outcome<Page<T>>, fallback: string): (r: ListState<T>)
    ensures res.Ok? ==> r.page == Some(res.value) && r.offset == nextOffset && r.err == None
    ensures res.Fail? ==> r.page == v.page && r.offset == v.offset
    ensures res.Fail? ==> r.err == Some(if res.message != "" then res.message else fallback)
  {
    match res
    case Ok(p) => ListState(Some(p), nextOffset, None)
    case Fail(message) => v.(err := Some(ErrorText(message, fallback)))
  }

  /** A later success wipes out an earlier failure: the error goes and only the new page remains. */
  lemma SuccessAfterFailureRecovers<T>(v: ListState<T>, o1: nat, o2: nat, m: string, p: Page<T>, fallback: string)
    ensures AfterLoad(AfterLoad(v, o1, Fail(m), fallback), o2, Ok(p), fallback) == AfterLoad(v, o2, Ok(p), fallback)
  {
  }

  /** Failures never blank the list: after any run of failed loads the first page is still shown. */
  lemma {:induction false} FailuresKeepPage<T>(v: ListState<T>, offsets: seq<nat>, messages: seq<string>, fallback: string)
    requires |offsets| == |messages|
    ensures var r := AfterFailures(v, offsets, messages, fallback);
            r.page == v.page && r.offset == v.offset
            && (|messages| > 0 ==> r.err == Some(ErrorText(messages[|messages| - 1], fallback)))
  {
    if |offsets| > 0 {
      FailuresKeepPage(v, offsets[..|offsets| - 1], messages[..|messages| - 1], fallback);
    }
  }

  /** Loads that all fail, applied in order. */
  function AfterFailures<T>(v: ListState<T>, offsets: seq<nat>, messages: seq<string>, fallback: string): ListState<T>
    requires |offsets| == |messages|
  {
    if |offsets| == 0 then v
    else AfterLoad(AfterFailures(v, offsets[..|offsets| - 1], messages[..|messages| - 1], fallback),
                   offsets[|offsets| - 1], Fail(messages[|messages| - 1]), fallback)
  }
}
