/** The Previous / Next pager of the customer table
    (src/components/CustomerTable.tsx:134-155). */
module CustomerTable {
  import opened Wrappers

  datatype PagerButton = Previous | Next

  /** `disabled={currentPage === 1}` and `disabled={currentPage === totalPages}`. */
  predicate IsDisabled(b: PagerButton, currentPage: int, totalPages: int) {
    match b
    case Previous => currentPage == 1
    case Next => currentPage == totalPages
  }

  /** The page a click asks for, None when the button is disabled and the click is
      not delivered. */
  function Click(b: PagerButton, currentPage: int, totalPages: int): (r: Option<int>)
    ensures r.None? <==> IsDisabled(b, currentPage, totalPages)
    ensures r.Some? ==> r.value == (if b == Previous then currentPage - 1 else currentPage + 1)
  {
    if IsDisabled(b, currentPage, totalPages) then None
    else match b
      case Previous => Some(currentPage - 1)
      case Next => Some(currentPage + 1)
  }

  /** Previous is disabled exactly on page 1; otherwise it asks for the page before. */
  lemma PreviousRule(currentPage: int, totalPages: int)
    ensures Click(Previous, currentPage, totalPages) ==
              if currentPage == 1 then None else Some(currentPage - 1)
  {
  }

  /** Next is disabled exactly on the last page; otherwise it asks for the page after. */
  lemma NextRule(currentPage: int, totalPages: int)
    ensures Click(Next, currentPage, totalPages) ==
              if currentPage == totalPages then None else Some(currentPage + 1)
  {
  }

  /** From a page within [1, totalPages], an enabled button asks for a page within
      [1, totalPages] again. */
  lemma ClickStaysInRange(b: PagerButton, currentPage: int, totalPages: int)
    requires 1 <= currentPage <= totalPages
    ensures Click(b, currentPage, totalPages).Some? ==>
              1 <= Click(b, currentPage, totalPages).value <= totalPages
  {
  }

  /** Next is disabled by equality, not by `>=`: past the last page it stays enabled
      and asks for a page further out of range. This happens when a stream message
      or a start response sets `totalPages` to 0 while page 1 is shown. */
  lemma NextEnabledPastLastPage(currentPage: int, totalPages: int)
    requires currentPage > totalPages
    ensures Click(Next, currentPage, totalPages) == Some(currentPage + 1)
    ensures Click(Next, currentPage, totalPages).value > totalPages + 1
  {
  }
}
