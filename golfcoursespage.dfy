/**
 * The golf-courses page: it keeps the search term and the sort field and order, turns each
 * table callback into the parameters of a new list fetch, and picks the view to render from the
 * hook's error, loading flag and list.
 */
module GolfCoursesPage {
  import opened Wrappers
  import opened Json
  import Api
  import Hooks
  import DataTable

  /** The page's own state cells. */
  datatype Query = Query(searchTerm: string, sortField: string, sortOrder: string)

  const InitialQuery: Query := Query("", "name", "ASC")

  /** The parameters of a fetch for a page and limit under a query. */
  function ParamsOf(q: Query, page: int, limit: int): Api.ListParams {
    Api.ListParams(Some(page), Some(limit), Some(q.sortField), Some(q.sortOrder), Some(q.searchTerm))
  }

  /** The fetch issued once on mount. */
  function InitialRequest(): (r: Api.ListParams)
    ensures r == Api.ListParams(Some(1), Some(20), Some("name"), Some("ASC"), Some(""))
  {
    ParamsOf(InitialQuery, 1, 20)
  }

  /** `handleSearchChange` as the page renders it under a query and a pagination: the closure over sort, order and limit. */
  function HandlerOf(q: Query, p: Hooks.Pagination): DataTable.SearchHandler {
    DataTable.SearchHandler(q.sortField, q.sortOrder, p.limit)
  }

  /**
   * A table callback as the page's handlers are written: a search is fetched with the sort,
   * order and limit of the handler the table's timeout closed over, which may be older than the
   * page's current state; every other callback uses the current state.
   */
  function HandleAsWritten(q: Query, p: Hooks.Pagination, cb: DataTable.Callback): (Query, Api.ListParams) {
    match cb
    case SearchChanged(term, h) =>
      (q.(searchTerm := term), Api.ListParams(Some(1), Some(h.limit), Some(h.sortField), Some(h.sortOrder), Some(term)))
    case _ => Handle(q, p, cb)
  }

  /** A table callback: the page's new state and the parameters it fetches with, all taken from the current state. */
  function Handle(q: Query, p: Hooks.Pagination, cb: DataTable.Callback): (Query, Api.ListParams) {
    match cb
    case PaginationChanged(newPage) => (q, ParamsOf(q, newPage, p.limit))
    case SortingChanged(field, order) =>
      var q' := q.(sortField := field, sortOrder := order);
      (q', ParamsOf(q', 1, p.limit))
    case SearchChanged(term, _) =>
      var q' := q.(searchTerm := term);
      (q', ParamsOf(q', 1, p.limit))
    case Refreshed => (q, ParamsOf(q, p.page, p.limit))
  }

  /** The handlers as written and the current-state handler agree except on a search reported through an outdated closure. */
  lemma AsWrittenAgrees(q: Query, p: Hooks.Pagination, cb: DataTable.Callback)
    ensures HandleAsWritten(q, p, cb).0 == Handle(q, p, cb).0
    ensures !cb.SearchChanged? || cb.handler == HandlerOf(q, p) ==> HandleAsWritten(q, p, cb) == Handle(q, p, cb)
    ensures cb.SearchChanged? && cb.handler != HandlerOf(q, p) ==> HandleAsWritten(q, p, cb).1 != Handle(q, p, cb).1
  {
  }

  /**
   * Typing "pine" and then sorting by name descending within the 300 ms window: the sort fetch
   * asks for DESC and the page now shows DESC, but the search fetch that follows still asks for
   * ASC, from the handler the timeout closed over; the current-state handler asks for DESC.
   */
  lemma StaleSearchAfterSort()
    ensures var p := Hooks.InitialPagination;
      var before := DataTable.Props(Some(p), false, HandlerOf(InitialQuery, p));
      var typed := DataTable.Step(before, DataTable.InitialTable, DataTable.Typed("pine")).0;
      var sorted := DataTable.Step(before, typed, DataTable.SortingSet([DataTable.SortEntry("name", true)]));
      var sortFetch := HandleAsWritten(InitialQuery, p, sorted.1[0]);
      var after := DataTable.Props(Some(p), false, HandlerOf(sortFetch.0, p));
      var fired := DataTable.Step(after, sorted.0, DataTable.TimerFired).1;
      && sortFetch.0.sortOrder == "DESC" && sortFetch.1.order == Some("DESC")
      && fired == [DataTable.SearchChanged("pine", HandlerOf(InitialQuery, p))]
      && HandleAsWritten(sortFetch.0, p, fired[0]).0.sortOrder == "DESC"
      && HandleAsWritten(sortFetch.0, p, fired[0]).1 == Api.ListParams(Some(1), Some(20), Some("name"), Some("ASC"), Some("pine"))
      && Handle(sortFetch.0, p, fired[0]).1 == Api.ListParams(Some(1), Some(20), Some("name"), Some("DESC"), Some("pine"))
  {
  }

  /** Every fetch is made with the page's current sort, order and search and the hook's current limit. */
  lemma RequestReflectsState(q: Query, p: Hooks.Pagination, cb: DataTable.Callback)
    ensures var (q', params) := Handle(q, p, cb);
      && params.sort == Some(q'.sortField) && params.order == Some(q'.sortOrder)
      && params.search == Some(q'.searchTerm) && params.limit == Some(p.limit)
  {
  }

  /** A sort or search change stores the new value and goes back to page 1; the other parts of the query are kept. */
  lemma SortAndSearchResetPage(q: Query, p: Hooks.Pagination, cb: DataTable.Callback)
    requires cb.SortingChanged? || cb.SearchChanged?
    ensures Handle(q, p, cb).1.page == Some(1)
    ensures cb.SortingChanged? ==> Handle(q, p, cb).0 == q.(sortField := cb.field, sortOrder := cb.order)
    ensures cb.SearchChanged? ==> Handle(q, p, cb).0 == q.(searchTerm := cb.term)
  {
  }

  /** A page change and a refresh keep the query; they ask for the new page, respectively the current one. */
  lemma PagingKeepsQuery(q: Query, p: Hooks.Pagination, cb: DataTable.Callback)
    requires cb.PaginationChanged? || cb.Refreshed?
    ensures Handle(q, p, cb).0 == q
    ensures Handle(q, p, cb).1.page == Some(if cb.PaginationChanged? then cb.page else p.page)
  {
  }

  /**
   * A search reported by the table after a burst of typing fetches page 1 filtered by the last
   * value typed; when nothing re-rendered the page in between, the handlers as written fetch the same.
   */
  lemma TypedSearchFetches(props: DataTable.Props, s: DataTable.TableState, values: seq<string>, q: Query, p: Hooks.Pagination)
    requires s.mounted && values != []
    ensures var out := DataTable.Run(props, s, DataTable.Keystrokes(values) + [DataTable.TimerFired]).1;
      && |out| == 1 && Handle(q, p, out[0]).1 == ParamsOf(q.(searchTerm := values[|values| - 1]), 1, p.limit)
      && (props.onSearch == HandlerOf(q, p) ==> HandleAsWritten(q, p, out[0]) == Handle(q, p, out[0]))
  {
    DataTable.DebounceReportsLast(props, s, values);
  }

  /** What the page shows. */
  datatype View = ErrorView(message: string) | Loader | TableView(dimmed: bool)

  /** `if (error)` shows the error view; the full-area loader only while loading an empty list; otherwise the (dimmed while loading) table. */
  function ViewOf(error: Option<string>, loading: bool, courseCount: nat): (v: View)
    ensures v.ErrorView? <==> error.Some? && error.value != ""
    ensures v.Loader? <==> !(error.Some? && error.value != "") && loading && courseCount == 0
    ensures v.TableView? ==> v.dimmed == loading
  {
    if error.Some? && error.value != "" then ErrorView(error.value)
    else if loading && courseCount == 0 then Loader
    else TableView(loading)
  }

  /** The summary cards: total courses, current page, page count, page size. */
  datatype Stats = Stats(totalCourses: int, currentPage: int, pageCount: int, perPage: int)

  function StatsOf(p: Hooks.Pagination): Stats {
    Stats(p.totalCount, if p.page != 0 then p.page else 1, if p.totalPages != 0 then p.totalPages else 1, if p.limit != 0 then p.limit else 20)
  }

  /** The summary cards agree with the table's page indicator and range label. */
  lemma StatsAgreeWithTable(p: Hooks.Pagination)
    ensures (StatsOf(p).currentPage, StatsOf(p).pageCount) == DataTable.PageIndicator(Some(p))
    ensures StatsOf(p).totalCourses == DataTable.RangeLabel(Some(p)).total
    ensures StatsOf(p).perPage == DataTable.LimitOr(Some(p))
  {
  }

  /** The page, holding its golf-course hook and the log of the parameters it fetched with. */
  class Page {
    const hook: Hooks.GolfCoursesHook
    var query: Query
    var requests: seq<Api.ListParams>

    ghost predicate Valid()
      reads this, hook
    {
      hook.Valid()
    }

    /** Mounting: a fresh hook, then the initial fetch with that fetch's outcome. */
    constructor(outcome: Result<Value, string>)
      ensures Valid() && fresh(hook)
      ensures query == InitialQuery && requests == [InitialRequest()]
      ensures hook.State() == Hooks.ApplyFetchCourses(Hooks.Initial, Hooks.InitialPagination, outcome).0
      ensures hook.pagination == Hooks.ApplyFetchCourses(Hooks.Initial, Hooks.InitialPagination, outcome).1
    {
      hook := new Hooks.GolfCoursesHook();
      query := InitialQuery;
      requests := [InitialRequest()];
      new;
      var _ := hook.FetchGolfCourses(outcome);
    }

    /** A callback from the table, answered by the fetch it issues. */
    method OnCallback(cb: DataTable.Callback, outcome: Result<Value, string>)
      requires Valid()
      modifies this, hook
      ensures Valid()
      ensures query == Handle(old(query), old(hook.pagination), cb).0
      ensures requests == old(requests) + [Handle(old(query), old(hook.pagination), cb).1]
      ensures hook.State() == Hooks.ApplyFetchCourses(old(hook.State()), old(hook.pagination), outcome).0
      ensures hook.pagination == Hooks.ApplyFetchCourses(old(hook.State()), old(hook.pagination), outcome).1
    {
      var params: Api.ListParams;
      match cb {
        case PaginationChanged(newPage) =>
          params := ParamsOf(query, newPage, hook.pagination.limit);
        case SortingChanged(field, order) =>
          query := query.(sortField := field, sortOrder := order);
          params := ParamsOf(query, 1, hook.pagination.limit);
        case SearchChanged(term, _) =>
          query := query.(searchTerm := term);
          params := ParamsOf(query, 1, hook.pagination.limit);
        case Refreshed =>
          params := ParamsOf(query, hook.pagination.page, hook.pagination.limit);
      }
      requests := requests + [params];
      var _ := hook.FetchGolfCourses(outcome);
    }

    function View(): View
      reads this, hook
    {
      ViewOf(hook.error, hook.loading, |hook.golfCourses|)
    }
  }
}
