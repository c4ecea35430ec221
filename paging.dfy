/** The query parameters of every paginated list view. */
module Paging {
  import opened Values

  const DefaultPage := 1
  const DefaultPerPage := 10
  const MaxPerPage := 100

  datatype PageParams = PageParams(page: int, perPage: int)

  /** `request.args.get('page', 1, type=int)` and
      `min(request.args.get('per_page', 10, type=int), 100)`; `None` stands
      for a parameter that is absent or not an integer. */
  function Params(page: Option<int>, perPage: Option<int>): (p: PageParams)
    ensures p.perPage <= MaxPerPage
    ensures page.None? ==> p.page == DefaultPage
    ensures page.Some? ==> p.page == page.value
    ensures perPage.None? ==> p.perPage == DefaultPerPage
    ensures perPage.Some? && perPage.value <= MaxPerPage ==> p.perPage == perPage.value
    ensures perPage.Some? && perPage.value > MaxPerPage ==> p.perPage == MaxPerPage
  {
    var requested := perPage.GetOr(DefaultPerPage);
    PageParams(page.GetOr(DefaultPage), if requested < MaxPerPage then requested else MaxPerPage)
  }
}
