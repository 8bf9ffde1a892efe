/**
 * The list page (src/components/PropertyList.js): its eight state fields,
 * the fetch that fills them, deletion with refresh, the filter, page and
 * page-size handlers, and when the pagination control shows.
 *
 * React re-runs the fetch effect whenever `page`, `size` or `filters`
 * changes. `page` and `size` are numbers, so setting them to their current
 * value changes nothing; `filters` is a new object on every filter change,
 * so every filter change refetches. Each fetch is one atomic
 * request/response: `send` stands for the backend.
 */
module ListController {
  import opened Js
  import opened Model
  import opened Service
  import Pagination

  /** The component's state fields. `filters` is the filter map, as ordered entries. */
  datatype ListState = ListState(
    properties: seq<PropertyRecord>,
    loading: bool,
    error: Option<string>,
    page: int,
    totalPages: int,
    totalElements: int,
    size: int,
    filters: seq<(string, Value)>)

  const Initial := ListState([], false, None, 0, 0, 0, 10, [])

  /** A state between events: not loading, and an error shows with no properties. */
  predicate Settled(s: ListState) {
    !s.loading && (s.error.Some? ==> s.properties == [])
  }

  /** The request `fetchProperties` sends for the current page, size and filters. */
  function QueryOf(s: ListState): Request {
    ListRequest(s.page, s.size, s.filters)
  }

  /** `fetchProperties`: the new list and totals on success; on failure the error, with the list emptied. */
  function Fetch(s: ListState, send: Request -> Outcome<Envelope>): (r: ListState)
    ensures !r.loading && r.page == s.page && r.size == s.size && r.filters == s.filters
    ensures send(QueryOf(s)).Delivered? ==>
      var env := send(QueryOf(s)).data;
      && r.properties == env.content.GetOr([])
      && r.totalPages == env.totalPages.GetOr(0)
      && r.totalElements == env.totalElements.GetOr(0)
      && r.error == None
    ensures send(QueryOf(s)).Failed? ==>
      && r.error == Some(HandleError(send(QueryOf(s)).failure).message)
      && r.properties == []
      && r.totalPages == s.totalPages
      && r.totalElements == s.totalElements
    ensures Settled(r)
  {
    var loading := s.(loading := true, error := None);
    match Wrap(send(QueryOf(s)))
    case Ok(response) =>
      loading.(
        properties := response.content.GetOr([]),
        totalPages := response.totalPages.GetOr(0),
        totalElements := response.totalElements.GetOr(0),
        loading := false)
    case Err(err) =>
      loading.(error := Some(err.message), properties := [], loading := false)
  }

  /** `handleFilterChange`: new filters and page 0, then a fetch. */
  function FilterChange(s: ListState, newFilters: seq<(string, Value)>, send: Request -> Outcome<Envelope>): (r: ListState)
    ensures r.page == 0 && r.filters == newFilters && r.size == s.size
    ensures r == Fetch(s.(filters := newFilters, page := 0), send)
  {
    Fetch(s.(filters := newFilters, page := 0), send)
  }

  /** The `onClear` callback: a filter change to the empty map. */
  function ClearFilters(s: ListState, send: Request -> Outcome<Envelope>): (r: ListState)
    ensures r.page == 0 && r.filters == [] && r.size == s.size
    ensures r == Fetch(s.(filters := [], page := 0), send)
    ensures QueryOf(s.(filters := [], page := 0)) == Get("/properties", [("page", "0"), ("size", NumberToString(s.size))])
  {
    assert NumberToString(0) == "0";
    var head := [("page", "0"), ("size", NumberToString(s.size))];
    assert ListQuery(0, s.size, []) == head + [];
    assert head + [] == head;
    FilterChange(s, [], send)
  }

  /** `handlePageChange`: only the page changes; a fetch follows when it differs. */
  function PageChange(s: ListState, newPage: int, send: Request -> Outcome<Envelope>): (r: ListState)
    ensures r.page == newPage && r.size == s.size && r.filters == s.filters
    ensures newPage == s.page ==> r == s
    ensures newPage != s.page ==> r == Fetch(s.(page := newPage), send)
  {
    if newPage == s.page then s else Fetch(s.(page := newPage), send)
  }

  /** `handlePageSizeChange`: the new size and page 0; a fetch follows when either differs. */
  function PageSizeChange(s: ListState, newSize: int, send: Request -> Outcome<Envelope>): (r: ListState)
    ensures r.size == newSize && r.page == 0 && r.filters == s.filters
    ensures newSize == s.size && s.page == 0 ==> r == s
    ensures newSize != s.size || s.page != 0 ==> r == Fetch(s.(size := newSize, page := 0), send)
  {
    var next := s.(size := newSize, page := 0);
    if next == s then s else Fetch(next, send)
  }

  const DeleteAlertPrefix := "Error al eliminar la propiedad: "

  /** The state after a delete request, and the alert shown if there is one. */
  datatype DeleteResult = DeleteResult(state: ListState, alert: Option<string>)

  /** `handleDelete`: nothing without confirmation; a refetch of the same query on success; an alert on failure. */
  function DeleteItem(s: ListState, id: PropertyId, confirmed: bool,
                  deleteSend: Request -> Outcome<()>, send: Request -> Outcome<Envelope>): (r: DeleteResult)
    ensures !confirmed ==> r == DeleteResult(s, None)
    ensures confirmed && deleteSend(Request.Delete(PropertyPath(id))).Delivered? ==>
      r == DeleteResult(Fetch(s, send), None)
    ensures confirmed && deleteSend(Request.Delete(PropertyPath(id))).Failed? ==>
      r == DeleteResult(s, Some(DeleteAlertPrefix + HandleError(deleteSend(Request.Delete(PropertyPath(id))).failure).message))
  {
    if !confirmed then DeleteResult(s, None)
    else
      match DeleteProperty(id, deleteSend)
      case Ok(_) => DeleteResult(Fetch(s, send), None)
      case Err(err) => DeleteResult(s, Some(DeleteAlertPrefix + err.message))
  }

  /** `totalPages > 1 && <Pagination .../>`. */
  predicate ShowPagination(s: ListState) {
    s.totalPages > 1
  }

  /** On a valid page the control is shown exactly when its window would offer more than one page. */
  lemma PaginationShownWhenThereIsAChoice(s: ListState)
    requires 0 <= s.page < s.totalPages
    ensures ShowPagination(s) <==> |Pagination.PageWindow(s.page, s.totalPages)| > 1
  {
    Pagination.WindowSize(s.page, s.totalPages);
  }

  // ---------------------------------------------------------------------------
  // Properties of the transitions
  // ---------------------------------------------------------------------------

  /** Mounting fetches page 0 of size 10 with no filter. */
  lemma InitialQuery()
    ensures QueryOf(Initial) == Get("/properties", [("page", "0"), ("size", "10")])
    ensures Initial.properties == [] && Initial.totalPages == 0 && Initial.totalElements == 0
    ensures !ShowPagination(Initial)
  {
    DefaultListRequest();
  }

  /** Every handler keeps the state settled. */
  lemma TransitionsKeepSettled(s: ListState, newFilters: seq<(string, Value)>, newPage: int, newSize: int,
                               id: PropertyId, confirmed: bool,
                               deleteSend: Request -> Outcome<()>, send: Request -> Outcome<Envelope>)
    requires Settled(s)
    ensures Settled(FilterChange(s, newFilters, send))
    ensures Settled(PageChange(s, newPage, send))
    ensures Settled(PageSizeChange(s, newSize, send))
    ensures Settled(DeleteItem(s, id, confirmed, deleteSend, send).state)
  {
  }

  /** A fetch reads the backend once: its result depends only on the outcome of the query for the current page, size and filters. */
  lemma FetchDependsOnQueryOnly(s: ListState, send1: Request -> Outcome<Envelope>, send2: Request -> Outcome<Envelope>)
    requires send1(QueryOf(s)) == send2(QueryOf(s))
    ensures Fetch(s, send1) == Fetch(s, send2)
  {
  }

  /**
   * A successful delete keeps the page even when the refreshed list no
   * longer reaches it: deleting the only item of the last page leaves the
   * list on an empty page with the pagination control hidden.
   */
  lemma DeleteKeepsPage(s: ListState, id: PropertyId, deleteSend: Request -> Outcome<()>, send: Request -> Outcome<Envelope>)
    requires Settled(s) && s.page == 1 && s.totalPages == 2
    requires deleteSend(Request.Delete(PropertyPath(id))).Delivered?
    requires send(QueryOf(s)) == Delivered(Envelope(Some([]), Some(1), Some(10)))
    ensures var r := DeleteItem(s, id, true, deleteSend, send).state;
      && r.page == 1 && r.totalPages == 1 && r.properties == []
      && r.page >= r.totalPages && !ShowPagination(r)
  {
  }

  /** The component. */
  class PropertyList {
    var properties: seq<PropertyRecord>
    var loading: bool
    var error: Option<string>
    var page: int
    var totalPages: int
    var totalElements: int
    var size: int
    var filters: seq<(string, Value)>

    function State(): ListState
      reads this
    {
      ListState(properties, loading, error, page, totalPages, totalElements, size, filters)
    }

    /** Mounting: the initial state, then the fetch effect. */
    constructor (send: Request -> Outcome<Envelope>)
      ensures State() == Fetch(Initial, send)
    {
      properties := [];
      loading := false;
      error := None;
      page := 0;
      totalPages := 0;
      totalElements := 0;
      size := 10;
      filters := [];
      new;
      FetchProperties(send);
    }

    /** `fetchProperties`. */
    method FetchProperties(send: Request -> Outcome<Envelope>)
      modifies this
      ensures State() == Fetch(old(State()), send)
    {
      loading := true;
      error := None;
      var response := GetAllProperties(ListArgs(Some(page), Some(size), Some(filters)), send);
      match response {
        case Ok(envelope) =>
          properties := envelope.content.GetOr([]);
          totalPages := envelope.totalPages.GetOr(0);
          totalElements := envelope.totalElements.GetOr(0);
        case Err(err) =>
          error := Some(err.message);
          properties := [];
      }
      loading := false;
    }

    /** `handleDelete`; `confirmed` is the answer to the confirmation dialog, `alert` the text shown on failure. */
    method HandleDelete(id: PropertyId, confirmed: bool,
                        deleteSend: Request -> Outcome<()>, send: Request -> Outcome<Envelope>)
      returns (alert: Option<string>)
      modifies this
      ensures DeleteResult(State(), alert) == DeleteItem(old(State()), id, confirmed, deleteSend, send)
    {
      alert := None;
      if confirmed {
        var deleted := DeleteProperty(id, deleteSend);
        match deleted {
          case Ok(_) =>
            FetchProperties(send);
          case Err(err) =>
            alert := Some(DeleteAlertPrefix + err.message);
        }
      }
    }

    /** `handleFilterChange`, with the fetch its new `filters` object triggers. */
    method HandleFilterChange(newFilters: seq<(string, Value)>, send: Request -> Outcome<Envelope>)
      modifies this
      ensures State() == FilterChange(old(State()), newFilters, send)
    {
      filters := newFilters;
      page := 0;
      FetchProperties(send);
    }

    /** `handlePageChange`, with the fetch that follows when the page changes. */
    method HandlePageChange(newPage: int, send: Request -> Outcome<Envelope>)
      modifies this
      ensures State() == PageChange(old(State()), newPage, send)
    {
      if newPage != page {
        page := newPage;
        FetchProperties(send);
      }
    }

    /** `handlePageSizeChange`, with the fetch that follows when the size or the page changes. */
    method HandlePageSizeChange(newSize: int, send: Request -> Outcome<Envelope>)
      modifies this
      ensures State() == PageSizeChange(old(State()), newSize, send)
    {
      if newSize != size || page != 0 {
        size := newSize;
        page := 0;
        FetchProperties(send);
      }
    }
  }
}
