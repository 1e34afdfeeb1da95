/** The arithmetic of the web log viewer (handlers/web.go): the template's truncate helper
    and the pagination values IndexHandler hands to the list page. */
module Web {

  import opened Wrappers
  import Decimal

  /** The list page shows this many entries. */
  const PageSize := 25

  /** truncateString: the string itself when it fits, otherwise its first maxLen characters
      followed by an ellipsis. */
  function TruncateString(s: string, maxLen: nat): (r: string)
    ensures |s| <= maxLen ==> r == s
    ensures |s| > maxLen ==> |r| == maxLen + 3 && r[..maxLen] == s[..maxLen] && r[maxLen..] == "..."
    ensures |r| <= maxLen + 3
  {
    if |s| <= maxLen then s else s[..maxLen] + "..."
  }

  /** A truncated string is truncated again to itself: the ellipsis falls past maxLen and is
      replaced by the same ellipsis. */
  lemma TruncateIdempotent(s: string, maxLen: nat)
    ensures TruncateString(TruncateString(s, maxLen), maxLen) == TruncateString(s, maxLen)
  {
    var once := TruncateString(s, maxLen);
    if |s| > maxLen {
      assert once[..maxLen] + "..." == once;
    }
  }

  /** The page asked for: the query value when it parses as a positive integer, 1 otherwise
      (absent, empty, malformed, zero or negative). */
  function Page(pageParam: string): (page: int)
    ensures page >= 1
    ensures Decimal.Atoi(pageParam).Some? && Decimal.Atoi(pageParam).value > 0 ==> page == Decimal.Atoi(pageParam).value
    ensures !(Decimal.Atoi(pageParam).Some? && Decimal.Atoi(pageParam).value > 0) ==> page == 1
  {
    var page := 1;
    if pageParam != "" then
      match Decimal.Atoi(pageParam)
      case Some(p) => if p > 0 then p else page
      case None => page
    else page
  }

  /** The page links the list page renders, written with %d, lead back to that page. */
  lemma PageOfLink(page: int)
    requires 1 <= page <= Decimal.MaxInt64
    ensures Page(Decimal.IntToString(page)) == page
  {
    Decimal.AtoiInvertsIntToString(page);
  }

  /** The number of entries skipped before the page. */
  function Offset(page: int): (offset: int)
    requires page >= 1
    ensures offset >= 0 && offset % PageSize == 0
    ensures offset / PageSize == page - 1
  {
    (page - 1) * PageSize
  }

  /** The number of pages: total / PageSize rounded up; the count is never negative, so
      Go's truncating division and Dafny's agree. */
  function TotalPages(total: nat): (pages: nat)
    ensures pages * PageSize >= total
    ensures pages > 0 ==> (pages - 1) * PageSize < total
  {
    (total + PageSize - 1) / PageSize
  }

  /** The values the list template gets. */
  datatype Pagination = Pagination(
    currentPage: int, totalPages: nat, totalCount: nat,
    hasPrev: bool, hasNext: bool, prevPage: int, nextPage: int)

  function Paginate(pageParam: string, total: nat): (p: Pagination)
    ensures p.currentPage == Page(pageParam) && p.totalPages == TotalPages(total) && p.totalCount == total
    ensures p.hasPrev <==> p.currentPage > 1
    ensures p.hasNext <==> p.currentPage < p.totalPages
    ensures p.prevPage == p.currentPage - 1 && p.nextPage == p.currentPage + 1
  {
    var page := Page(pageParam);
    var pages := TotalPages(total);
    Pagination(page, pages, total, page > 1, page < pages, page - 1, page + 1)
  }

  /** A next link is offered exactly when entries remain past this page. */
  lemma HasNextIffMoreEntries(pageParam: string, total: nat)
    ensures var p := Paginate(pageParam, total);
      p.hasNext <==> Offset(p.currentPage) + PageSize < total
  {
  }

  /** A page shows some entry exactly when it is one of the counted pages. */
  lemma PageInRange(pageParam: string, total: nat)
    ensures var p := Paginate(pageParam, total);
      Offset(p.currentPage) < total <==> p.currentPage <= p.totalPages
  {
  }

  /** The previous page a prev link points to is itself a valid page. */
  lemma PrevIsAPage(pageParam: string, total: nat)
    ensures var p := Paginate(pageParam, total);
      p.hasPrev ==> p.prevPage >= 1 && Offset(p.prevPage) + PageSize == Offset(p.currentPage)
  {
  }
}
