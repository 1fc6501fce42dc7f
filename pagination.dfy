/** components/Pagination.js and the Prev/Next offset arithmetic the list pages share. */
module Pagination {
  import opened Wrappers
  import opened JsValues

  /** `meta` of a list response. */
  datatype Meta = Meta(total: int, limit: int, offset: int)

  /** A list response: `{items, meta}`. */
  datatype Page<T> = Page(items: seq<T>, meta: Meta)

  predicate CanPrev(m: Meta)
  {
    m.offset > 0
  }

  predicate CanNext(m: Meta)
  {
    m.offset + m.limit < m.total
  }

  function Min(a: int, b: int): int
  {
    if a <= b then a else b
  }

  /** The range the label shows: "0 results", or `first–last of total`. */
  datatype Summary = NoResults | Range(first: int, last: int, total: int)

  function SummaryOf(m: Meta): (r: Summary)
    ensures r.NoResults? <==> m.total == 0
    ensures r.Range? ==> r.first == m.offset + 1 && r.total == m.total
    ensures r.Range? ==> r.last <= m.total && r.last <= m.offset + m.limit
    ensures r.Range? ==> r.last == m.total || r.last == m.offset + m.limit
  {
    if m.total == 0 then NoResults else Range(m.offset + 1, Min(m.offset + m.limit, m.total), m.total)
  }

  function LabelText(s: Summary): string
  {
    match s
    case NoResults => "0 results"
    case Range(first, last, total) =>
      IntToString(first) + "\U{2013}" + IntToString(last) + " of " + IntToString(total)
  }

  /** What the component renders: the two buttons' enabled state and the label text. */
  datatype Controls = Controls(prevEnabled: bool, nextEnabled: bool, caption: string)

  /** `Pagination({meta})`: nothing without meta. */
  function Render(meta: Option<Meta>): (r: Option<Controls>)
    ensures r.None? <==> meta.None?
    ensures meta.Some? ==> r.value.prevEnabled == CanPrev(meta.value)
                           && r.value.nextEnabled == CanNext(meta.value)
                           && r.value.caption == LabelText(SummaryOf(meta.value))
  {
    match meta
    case None => None
    case Some(m) => Some(Controls(CanPrev(m), CanNext(m), LabelText(SummaryOf(m))))
  }

  /** The offset Prev requests: `Math.max(0, offset - limit)`. */
  function PrevOffset(offset: int, limit: int): (r: int)
    ensures r >= 0
    ensures offset >= limit ==> r == offset - limit
    ensures offset < limit ==> r == 0
  {
    if offset - limit > 0 then offset - limit else 0
  }

  /** The offset Next requests: `offset + limit`. */
  function NextOffset(offset: int, limit: int): int
  {
    offset + limit
  }

  /** Next is enabled exactly when the label's upper end stops short of the total. */
  lemma NextIffLabelShort(m: Meta)
    requires m.total != 0
    ensures CanNext(m) <==> SummaryOf(m).last < m.total
  {
  }

  /** Prev is enabled exactly when the label does not start at the first item. */
  lemma PrevIffLabelNotFirst(m: Meta)
    requires m.total != 0
    ensures CanPrev(m) <==> SummaryOf(m).first > 1
  {
  }

  /** The page Next requests begins right after the last item the label shows. */
  lemma NextContinuesRange(m: Meta)
    requires m.offset >= 0 && m.limit > 0 && CanNext(m)
    ensures var next := SummaryOf(Meta(m.total, m.limit, NextOffset(m.offset, m.limit)));
            next.Range? && next.first == SummaryOf(m).last + 1
  {
  }

  /** Prev undoes Next, and never requests a negative offset. */
  lemma PrevUndoesNext(offset: int, limit: int)
    requires offset >= 0 && limit > 0
    ensures PrevOffset(NextOffset(offset, limit), limit) == offset
    ensures PrevOffset(offset, limit) < offset || offset == 0
  {
  }
}
