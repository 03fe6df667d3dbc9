/** The dashboard's two page-number rules (src/pages/CustomerDashboard.tsx). */
module Pagination {
  import opened Wrappers

  /** The body of `GET /customers?page=..&limit=10`: the rows of the page and
      `meta.totalPages`, None when absent or null. */
  datatype CustomerPage<C> = CustomerPage(data: seq<C>, totalPages: Option<int>)

  /** `meta.totalPages || 1`: an absent or zero page count becomes 1, any other
      value is kept. */
  function TotalPagesOrOne(totalPages: Option<int>): (r: int)
    ensures r != 0
    ensures totalPages.Some? && totalPages.value != 0 ==> r == totalPages.value
    ensures totalPages.None? || totalPages.value == 0 ==> r == 1
    ensures totalPages.Some? && totalPages.value >= 0 ==> r >= 1
  {
    if totalPages.Some? && totalPages.value != 0 then totalPages.value else 1
  }

  /** The page shown after a successful delete: the previous page when the deleted
      row was the only one listed and this is not the first page, else the same page
      again. `listed` is the length of the page's customer list. */
  function PageAfterDelete(listed: nat, currentPage: int): (r: int)
    ensures r == currentPage - 1 <==> listed == 1 && currentPage > 1
    ensures r != currentPage - 1 ==> r == currentPage
  {
    if listed == 1 && currentPage > 1 then currentPage - 1 else currentPage
  }

  /** From a valid page the page after a delete is again a valid page, and never a
      later one. */
  lemma PageAfterDeleteInRange(listed: nat, currentPage: int, totalPages: int)
    requires 1 <= currentPage <= totalPages
    ensures 1 <= PageAfterDelete(listed, currentPage) <= currentPage <= totalPages
  {
  }
}
