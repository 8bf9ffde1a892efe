/**
 * The resource client (src/services/propertyService.js): the list query it
 * builds, the five CRUD operations and the normalisation of every failure
 * into one `{message, code}` error.
 *
 * The HTTP layer is a parameter `send`: the outcome the backend produces for
 * a request, either the response data or a failure. Each call is one atomic
 * request and response.
 */
module Service {
  import opened Js
  import opened Model

  // ---------------------------------------------------------------------------
  // Requests, outcomes and errors
  // ---------------------------------------------------------------------------

  /** A request to the backend; a GET carries its query as ordered key/value pairs. */
  datatype Request =
    | Get(path: string, query: seq<(string, string)>)
    | Post(path: string, body: Draft)
    | Put(path: string, body: Draft)
    | Delete(path: string)

  /** The body of an error response. */
  datatype ResponseBody =
    | Missing                                              // null or undefined
    | Text(text: string)                                   // a string
    | Fields(message: Option<string>, detail: Option<string>) // an object
    | Scalar                                               // a number or a boolean

  /** What the HTTP layer throws. */
  datatype Failure =
    | HttpResponse(status: int, statusText: string, body: ResponseBody) // the server answered
    | NoResponse                                                        // the request got no answer
    | Other(message: string)                                            // anything else

  /** The normalised error every operation throws; it keeps the original failure. */
  datatype ServiceError = ServiceError(message: string, code: int, original: Failure)

  /** What the backend does with one request. */
  datatype Outcome<T> = Delivered(data: T) | Failed(failure: Failure)

  /** What an operation of the client returns or throws. */
  datatype Result<T> = Ok(value: T) | Err(error: ServiceError)

  /** The paginated envelope of the list endpoint; every field may be missing. */
  datatype Envelope = Envelope(
    content: Option<seq<PropertyRecord>>,
    totalPages: Option<int>,
    totalElements: Option<int>)

  // ---------------------------------------------------------------------------
  // handleError
  // ---------------------------------------------------------------------------

  const UnexpectedErrorMessage := "An unexpected error occurred"
  const NetworkErrorMessage := "Network error: Unable to connect to the server"

  /** The message synthesised from a status line: `HTTP <status>: <statusText>`. */
  function StatusLine(status: int, statusText: string): (line: string)
    ensures |line| > 5 + |statusText| && line[..5] == "HTTP "
  {
    "HTTP " + NumberToString(status) + ": " + statusText
  }

  /** A status line ends with the response's status text, unchanged. */
  lemma StatusLineEndsWithText(status: int, statusText: string)
    ensures var line := StatusLine(status, statusText);
      line[|line| - |statusText|..] == statusText
  {
    var head := "HTTP " + NumberToString(status) + ": ";
    assert StatusLine(status, statusText) == head + statusText;
  }

  /** A string property that is present and non-empty, hence truthy. */
  predicate Present(t: Option<string>) {
    t.Some? && t.value != ""
  }

  /** `handleError`: maps every failure to one message and code. */
  function HandleError(e: Failure): (r: ServiceError)
    ensures r.original == e
    ensures e.HttpResponse? ==> r.code == e.status
    ensures e.NoResponse? ==> r.code == 0 && r.message == NetworkErrorMessage
    ensures e.Other? ==> r.code == 500 && r.message == e.message
    ensures e.HttpResponse? && e.body.Fields? ==>
      && (Present(e.body.message) ==> r.message == e.body.message.value)
      && (!Present(e.body.message) && Present(e.body.detail) ==> r.message == e.body.detail.value)
      && (!Present(e.body.message) && !Present(e.body.detail) ==> r.message == UnexpectedErrorMessage)
    ensures e.HttpResponse? && e.body.Text? ==> r.message == e.body.text
    ensures e.HttpResponse? && (e.body.Missing? || e.body.Scalar?) ==>
      r.message == StatusLine(e.status, e.statusText)
  {
    match e
    case HttpResponse(status, statusText, body) =>
      var message :=
        match body
        case Fields(m, d) =>
          if Present(m) then m.value else if Present(d) then d.value else UnexpectedErrorMessage
        case Text(t) => t
        case _ => StatusLine(status, statusText);
      ServiceError(message, status, e)
    case NoResponse => ServiceError(NetworkErrorMessage, 0, e)
    case Other(m) => ServiceError(m, 500, e)
  }

  /** An object body without a usable message or detail keeps the generic message; no status line is made up. */
  lemma ObjectBodyKeepsGenericMessage(status: int, statusText: string, message: Option<string>, detail: Option<string>)
    requires !Present(message) && !Present(detail)
    ensures HandleError(HttpResponse(status, statusText, Fields(message, detail))).message
      != StatusLine(status, statusText)
  {
    var line := StatusLine(status, statusText);
    assert line[0] == 'H';
    assert UnexpectedErrorMessage[0] == 'A';
  }

  /** Three sample normalisations: a message body, a bodiless server error and no response at all. */
  lemma HandleErrorExamples()
    ensures HandleError(HttpResponse(404, "Not Found", Fields(Some("not found"), None))).message == "not found"
    ensures HandleError(HttpResponse(404, "Not Found", Fields(Some("not found"), None))).code == 404
    ensures HandleError(HttpResponse(500, "Internal Server Error", Missing)).message
      == "HTTP 500: Internal Server Error"
    ensures HandleError(NoResponse).code == 0
    ensures HandleError(NoResponse).message == "Network error: Unable to connect to the server"
  {
    assert NumberToString(500) == "500" by {
      assert NatToString(5) == "5";
      assert NatToString(50) == "50";
    }
  }

  // ---------------------------------------------------------------------------
  // The try/throw wrapping shared by the five operations
  // ---------------------------------------------------------------------------

  /** What an operation yields for outcome `o`: the data, or the normalised failure thrown. */
  function Wrap<T>(o: Outcome<T>): (r: Result<T>)
    ensures o.Delivered? <==> r.Ok?
    ensures o.Delivered? ==> r.value == o.data
    ensures o.Failed? ==> r.error == HandleError(o.failure)
  {
    match o
    case Delivered(data) => Ok(data)
    case Failed(f) => Err(HandleError(f))
  }

  // ---------------------------------------------------------------------------
  // getAllProperties
  // ---------------------------------------------------------------------------

  /** The argument of `getAllProperties`; `None` for an omitted property. */
  datatype ListArgs = ListArgs(
    page: Option<int>,
    size: Option<int>,
    filters: Option<seq<(string, Value)>>)

  /** A filter value that is appended: not null, not undefined and not the empty string. */
  predicate Sendable(v: Value) {
    v != Null && v != Undefined && v != Str("")
  }

  /** `value.toString()`. */
  function ValueText(v: Value): string {
    match v
    case Null => "null"
    case Undefined => "undefined"
    case Str(s) => s
    case Num(n) => NumberToString(n)
    case Bool(b) => if b then "true" else "false"
  }

  /** The parameter one filter entry contributes: none, or its key with its text. */
  function EntryParam(e: (string, Value)): seq<(string, string)> {
    if Sendable(e.1) then [(e.0, ValueText(e.1))] else []
  }

  /** The parameters the filter entries contribute, in entry order. */
  function FilterParams(filters: seq<(string, Value)>): seq<(string, string)>
    decreases |filters|
  {
    if filters == [] then []
    else FilterParams(filters[..|filters| - 1]) + EntryParam(filters[|filters| - 1])
  }

  /** The whole query of a list request: `page`, then `size`, then the filter parameters. */
  function ListQuery(page: int, size: int, filters: seq<(string, Value)>): (q: seq<(string, string)>)
    ensures |q| == 2 + |FilterParams(filters)|
    ensures q[0].0 == "page" && q[1].0 == "size" && q[2..] == FilterParams(filters)
  {
    [("page", NumberToString(page)), ("size", NumberToString(size))] + FilterParams(filters)
  }

  function ListRequest(page: int, size: int, filters: seq<(string, Value)>): Request {
    Get("/properties", ListQuery(page, size, filters))
  }

  /** The loop of `getAllProperties` that fills the query parameters. */
  method BuildListQuery(page: int, size: int, filters: seq<(string, Value)>)
    returns (params: seq<(string, string)>)
    ensures params == ListQuery(page, size, filters)
  {
    params := [("page", NumberToString(page)), ("size", NumberToString(size))];
    var i := 0;
    while i < |filters|
      invariant 0 <= i <= |filters|
      invariant params == ListQuery(page, size, filters[..i])
    {
      var (key, value) := filters[i];
      if value != Null && value != Undefined && value != Str("") {
        params := params + [(key, ValueText(value))];
      }
      assert filters[..i + 1][..i] == filters[..i];
      i := i + 1;
    }
    assert filters[..i] == filters;
  }

  /** `getAllProperties({page = 0, size = 10, filters = {}})`. */
  method GetAllProperties(args: ListArgs, send: Request -> Outcome<Envelope>) returns (r: Result<Envelope>)
    ensures send(ListRequest(args.page.GetOr(0), args.size.GetOr(10), args.filters.GetOr([]))).Delivered? ==> r == Ok(send(ListRequest(args.page.GetOr(0), args.size.GetOr(10), args.filters.GetOr([]))).data)
    ensures send(ListRequest(args.page.GetOr(0), args.size.GetOr(10), args.filters.GetOr([]))).Failed? ==> r == Err(HandleError(send(ListRequest(args.page.GetOr(0), args.size.GetOr(10), args.filters.GetOr([]))).failure))
  {
    var query := BuildListQuery(args.page.GetOr(0), args.size.GetOr(10), args.filters.GetOr([]));
    r := Wrap(send(Get("/properties", query)));
  }

  /** Filtering distributes over concatenation: parameters keep the order of their entries. */
  lemma {:induction false} FilterParamsAppend(a: seq<(string, Value)>, b: seq<(string, Value)>)
    ensures FilterParams(a + b) == FilterParams(a) + FilterParams(b)
    decreases |b|
  {
    if b == [] {
      assert a + b == a;
    } else {
      var b' := b[..|b| - 1];
      assert (a + b)[..|a + b| - 1] == a + b';
      FilterParamsAppend(a, b');
    }
  }

  /** A parameter is sent exactly for an entry whose value is sendable, under its key and as its text. */
  lemma {:induction false} FilterParamsMembership(filters: seq<(string, Value)>, p: (string, string))
    ensures p in FilterParams(filters) <==>
      exists i :: 0 <= i < |filters| && Sendable(filters[i].1) && p == (filters[i].0, ValueText(filters[i].1))
    decreases |filters|
  {
    if filters != [] {
      var init := filters[..|filters| - 1];
      FilterParamsMembership(init, p);
      if p in FilterParams(filters) && p !in FilterParams(init) {
        var i := |filters| - 1;
        assert Sendable(filters[i].1) && p == (filters[i].0, ValueText(filters[i].1));
      }
      if exists i :: 0 <= i < |filters| && Sendable(filters[i].1) && p == (filters[i].0, ValueText(filters[i].1)) {
        var i :| 0 <= i < |filters| && Sendable(filters[i].1) && p == (filters[i].0, ValueText(filters[i].1));
        if i < |filters| - 1 {
          assert init[i] == filters[i];
        }
      }
    }
  }

  /** The `page` and `size` parameters read back as the numbers they render. */
  lemma ListQueryShape(page: int, size: int, filters: seq<(string, Value)>)
    ensures var q := ListQuery(page, size, filters);
      && ParseInteger(q[0].1) == Some(page)
      && ParseInteger(q[1].1) == Some(size)
  {
    NumberToStringRoundTrip(page);
    NumberToStringRoundTrip(size);
  }

  /** With every argument omitted the request asks for page 0 of size 10 with no filter. */
  lemma DefaultListRequest()
    ensures var a := ListArgs(None, None, None);
      ListRequest(a.page.GetOr(0), a.size.GetOr(10), a.filters.GetOr([]))
        == Get("/properties", [("page", "0"), ("size", "10")])
  {
    assert NumberToString(10) == "10" by {
      assert NatToString(1) == "1";
    }
  }

  /** A default `PropertyFilters` record, all null, adds no parameter. */
  lemma DefaultFilterRecordSendsNothing()
    ensures FilterParams(FilterEntries(NewFilterRecord(NoFilterArgs))) == []
  {
    NothingSendableNoParams(FilterEntries(NewFilterRecord(NoFilterArgs)));
  }

  lemma {:induction false} NothingSendableNoParams(filters: seq<(string, Value)>)
    requires forall i :: 0 <= i < |filters| ==> !Sendable(filters[i].1)
    ensures FilterParams(filters) == []
    decreases |filters|
  {
    if filters != [] {
      NothingSendableNoParams(filters[..|filters| - 1]);
    }
  }

  // ---------------------------------------------------------------------------
  // The other four operations
  // ---------------------------------------------------------------------------

  function PropertyPath(id: PropertyId): string {
    "/properties/" + id
  }

  /** `getPropertyById(id)`. */
  function GetPropertyById(id: PropertyId, send: Request -> Outcome<PropertyRecord>): (r: Result<PropertyRecord>)
    ensures send(Get(PropertyPath(id), [])).Delivered? ==> r == Ok(send(Get(PropertyPath(id), [])).data)
    ensures send(Get(PropertyPath(id), [])).Failed? ==> r == Err(HandleError(send(Get(PropertyPath(id), [])).failure))
  {
    Wrap(send(Get(PropertyPath(id), [])))
  }

  /** `createProperty(draft)`: the draft is sent as it is. */
  function CreateProperty(draft: Draft, send: Request -> Outcome<PropertyRecord>): (r: Result<PropertyRecord>)
    ensures send(Post("/properties", draft)).Delivered? ==> r == Ok(send(Post("/properties", draft)).data)
    ensures send(Post("/properties", draft)).Failed? ==> r == Err(HandleError(send(Post("/properties", draft)).failure))
  {
    Wrap(send(Post("/properties", draft)))
  }

  /** `updateProperty(id, draft)`: the whole draft replaces the record. */
  function UpdateProperty(id: PropertyId, draft: Draft, send: Request -> Outcome<PropertyRecord>): (r: Result<PropertyRecord>)
    ensures send(Put(PropertyPath(id), draft)).Delivered? ==> r == Ok(send(Put(PropertyPath(id), draft)).data)
    ensures send(Put(PropertyPath(id), draft)).Failed? ==> r == Err(HandleError(send(Put(PropertyPath(id), draft)).failure))
  {
    Wrap(send(Put(PropertyPath(id), draft)))
  }

  /** `deleteProperty(id)`. */
  function DeleteProperty<T>(id: PropertyId, send: Request -> Outcome<T>): (r: Result<T>)
    ensures send(Delete(PropertyPath(id))).Delivered? ==> r == Ok(send(Delete(PropertyPath(id))).data)
    ensures send(Delete(PropertyPath(id))).Failed? ==> r == Err(HandleError(send(Delete(PropertyPath(id))).failure))
  {
    Wrap(send(Delete(PropertyPath(id))))
  }
}
