/**
  The home page's state: the search text, the catalog and how it was obtained,
  the active filters, and the document list handed to the viewer.
 */
module Home {
  import opened Wrappers
  import opened Matcher
  import opened Viewer

  // ---------------------------------------------------------------------------
  // Rendering a status code

  function DigitChar(d: nat): (c: char)
    requires d < 10
    ensures '0' <= c <= '9' && c as int - '0' as int == d
  {
    ('0' as int + d) as char
  }

  /** A number as `${n}` writes it: decimal digits, no leading zero. */
  function Decimal(n: nat): (r: string)
    ensures |r| >= 1
    ensures forall i :: 0 <= i < |r| ==> '0' <= r[i] <= '9'
    ensures |r| > 1 ==> r[0] != '0'
  {
    if n < 10 then [DigitChar(n)] else Decimal(n / 10) + [DigitChar(n % 10)]
  }

  /** The value a string of decimal digits denotes. */
  function DecimalValue(s: string): nat
    requires forall i :: 0 <= i < |s| ==> '0' <= s[i] <= '9'
  {
    if s == [] then 0 else DecimalValue(s[..|s| - 1]) * 10 + (s[|s| - 1] as int - '0' as int)
  }

  /** Reading the rendered digits back gives the status code. */
  lemma {:induction false} DecimalRoundTrip(n: nat)
    ensures DecimalValue(Decimal(n)) == n
  {
    if n >= 10 {
      DecimalRoundTrip(n / 10);
      var r := Decimal(n);
      assert r[..|r| - 1] == Decimal(n / 10);
    }
  }

  // ---------------------------------------------------------------------------
  // The outcome of the request

  /** The parsed body: an object whose `resources` is an array, or anything else. */
  datatype Payload = ResourcesPayload(items: seq<Resource>) | OtherPayload

  /**
    How the request ended: a response (with its `ok` flag, status, status text and
    parsed body), or a rejection carrying an `Error`'s message or a non-`Error` value.
   */
  datatype FetchOutcome =
    | Response(ok: bool, status: nat, statusText: string, body: Payload)
    | Rejected(errorMessage: Option<string>)

  const InvalidFormatMessage: string := "Invalid API response format"
  const FallbackMessage: string := "Failed to fetch resources"

  function RequestFailedMessage(status: nat, statusText: string): string
  {
    "API request failed: " + Decimal(status) + " " + statusText
  }

  /** The message the `catch` block stores, or none when the catalog arrived. */
  function FetchFailure(o: FetchOutcome): (e: Option<string>)
    ensures e.None? <==> o.Response? && o.ok && o.body.ResourcesPayload?
    ensures o.Response? && !o.ok ==> e == Some(RequestFailedMessage(o.status, o.statusText))
    ensures o.Response? && o.ok && o.body.OtherPayload? ==> e == Some(InvalidFormatMessage)
    ensures o.Rejected? && o.errorMessage.Some? ==> e == o.errorMessage
    ensures o.Rejected? && o.errorMessage.None? ==> e == Some(FallbackMessage)
  {
    match o
    case Response(ok, status, statusText, body) =>
      if !ok then Some(RequestFailedMessage(status, statusText))
      else if body.OtherPayload? then Some(InvalidFormatMessage)
      else None
    case Rejected(errorMessage) =>
      if errorMessage.Some? then errorMessage else Some(FallbackMessage)
  }

  /** The status text follows the decimal status code in the stored message. */
  lemma RequestFailedMessageMentionsStatus(status: nat, statusText: string)
    ensures var m := RequestFailedMessage(status, statusText);
      var p := |"API request failed: "|;
      var d := |Decimal(status)|;
      && |m| == p + d + 1 + |statusText|
      && DecimalValue(m[p..p + d]) == status
      && m[p + d + 1..] == statusText
  {
    var m := RequestFailedMessage(status, statusText);
    var p := |"API request failed: "|;
    var d := Decimal(status);
    assert m == "API request failed: " + d + " " + statusText;
    assert m[p..p + |d|] == d;
    DecimalRoundTrip(status);
  }

  /** `error && !isUsingDummyData ? error : null`: the error the grid receives. */
  function GridErrorOf(error: Option<string>, isUsingDummyData: bool): (e: Option<string>)
    ensures e.Some? <==> error.Some? && error.value != "" && !isUsingDummyData
    ensures e.Some? ==> e == error
  {
    if error.Some? && error.value != "" && !isUsingDummyData then error else None
  }

  // ---------------------------------------------------------------------------
  // Opening a resource in the viewer

  /** `resource.pdfUrl || resource.downloadUrl`. */
  function DocumentUrl(r: Resource): (u: string)
    ensures r.pdfUrl.Some? && r.pdfUrl.value != "" ==> u == r.pdfUrl.value
    ensures r.pdfUrl.None? || r.pdfUrl.value == "" ==> u == r.downloadUrl
  {
    if r.pdfUrl.Some? && r.pdfUrl.value != "" then r.pdfUrl.value else r.downloadUrl
  }

  /** The one document built from a resource; it has no companion questions url. */
  function OpenedDocument(r: Resource): (d: PdfDocument)
    ensures d.id == r.id && d.title == r.title && d.url == DocumentUrl(r)
    ensures !HasQuestions(d)
  {
    PdfDocument(r.id, r.title, DocumentUrl(r), None)
  }

  // ---------------------------------------------------------------------------
  // The filter dictionary

  /** `{ ...activeFilters, [filterType]: filters }`. */
  function WithAxis(f: Filters, filterType: string, filters: seq<string>): (g: Filters)
    ensures g.Keys == f.Keys + {filterType}
    ensures Codes(g, filterType) == filters
    ensures forall k :: k != filterType ==> Codes(g, k) == Codes(f, k)
    ensures forall k :: k in f && k != filterType ==> g[k] == f[k]
  {
    f[filterType := filters]
  }

  /** The three keys the matcher reads stay present under any filter change. */
  predicate HasApiKeys(f: Filters)
  {
    BranchesKey in f && YearsKey in f && ResourceTypesKey in f
  }

  lemma WithAxisKeepsApiKeys(f: Filters, filterType: string, filters: seq<string>)
    requires HasApiKeys(f)
    ensures HasApiKeys(WithAxis(f, filterType, filters))
  {
  }

  // ---------------------------------------------------------------------------
  // The component

  /** A snapshot of every state field of the page. */
  datatype HomeState = HomeState(
    searchQuery: string,
    resources: seq<Resource>,
    isLoading: bool,
    error: Option<string>,
    isUsingDummyData: bool,
    isPdfViewerOpen: bool,
    currentPdfDocuments: seq<PdfDocument>,
    activeFilters: Filters)

  class HomePage {
    var searchQuery: string
    var resources: seq<Resource>
    var isLoading: bool
    var error: Option<string>
    var isUsingDummyData: bool
    var isPdfViewerOpen: bool
    var currentPdfDocuments: seq<PdfDocument>
    var activeFilters: Filters

    function State(): HomeState
      reads this
    {
      HomeState(searchQuery, resources, isLoading, error, isUsingDummyData,
                isPdfViewerOpen, currentPdfDocuments, activeFilters)
    }

    /**
      A stored error always comes with the demo flag; the matcher's three keys are
      present; the viewer is open exactly when it holds the one opened document.
     */
    ghost predicate Valid()
      reads this
    {
      && (error.Some? ==> isUsingDummyData)
      && HasApiKeys(activeFilters)
      && (isPdfViewerOpen ==> |currentPdfDocuments| == 1)
      && (!isPdfViewerOpen ==> currentPdfDocuments == [])
    }

    /** The initial `useState` values. */
    constructor ()
      ensures Valid()
      ensures State() == HomeState("", [], true, None, false, false, [], InitialFilters)
    {
      searchQuery := "";
      resources := [];
      isLoading := true;
      error := None;
      isUsingDummyData := false;
      isPdfViewerOpen := false;
      currentPdfDocuments := [];
      activeFilters := InitialFilters;
    }

    /** The search box's `onChange`, and the Clear button with the empty string. */
    method SetSearchQuery(q: string)
      modifies this
      ensures State() == old(State()).(searchQuery := q)
      ensures old(Valid()) ==> Valid()
    {
      searchQuery := q;
    }

    /** The start of `fetchResources`: loading on, error cleared. */
    method BeginFetch()
      modifies this
      ensures State() == old(State()).(isLoading := true, error := None)
      ensures old(Valid()) ==> Valid()
    {
      isLoading := true;
      error := None;
    }

    /**
      The rest of `fetchResources` once the request has ended: the received catalog
      clears the demo flag; any failure stores its message and falls back to `dummy`
      with the demo flag set; loading ends either way.
     */
    method CompleteFetch(outcome: FetchOutcome, dummy: seq<Resource>)
      modifies this
      ensures FetchFailure(outcome).None? ==>
        State() == old(State()).(resources := outcome.body.items, isUsingDummyData := false, isLoading := false)
      ensures FetchFailure(outcome).Some? ==>
        State() == old(State()).(error := FetchFailure(outcome), resources := dummy,
                                 isUsingDummyData := true, isLoading := false)
      ensures old(Valid()) && old(error).None? ==> Valid()
    {
      var failure := FetchFailure(outcome);
      if failure.None? {
        resources := outcome.body.items;
        isUsingDummyData := false;
      } else {
        error := failure;
        resources := dummy;
        isUsingDummyData := true;
      }
      isLoading := false;
    }

    /** One whole call of `fetchResources`. */
    method FetchResources(outcome: FetchOutcome, dummy: seq<Resource>)
      modifies this
      ensures FetchFailure(outcome).None? ==>
        State() == old(State()).(resources := outcome.body.items, isUsingDummyData := false,
                                 isLoading := false, error := None)
      ensures FetchFailure(outcome).Some? ==>
        State() == old(State()).(error := FetchFailure(outcome), resources := dummy,
                                 isUsingDummyData := true, isLoading := false)
      ensures old(Valid()) ==> Valid()
    {
      BeginFetch();
      CompleteFetch(outcome, dummy);
    }

    /** `handleFilterChange`: the key named `filterType` is replaced. */
    method HandleFilterChange(filterType: string, filters: seq<string>)
      modifies this
      ensures State() == old(State()).(activeFilters := WithAxis(old(activeFilters), filterType, filters))
      ensures old(Valid()) ==> Valid()
    {
      activeFilters := WithAxis(activeFilters, filterType, filters);
    }

    /** `handleOpenPdfViewer`: exactly one document, built from the resource. */
    method HandleOpenPdfViewer(r: Resource)
      modifies this
      ensures State() == old(State()).(currentPdfDocuments := [OpenedDocument(r)], isPdfViewerOpen := true)
      ensures old(Valid()) ==> Valid()
    {
      currentPdfDocuments := [OpenedDocument(r)];
      isPdfViewerOpen := true;
    }

    /** `handleClosePdfViewer`. */
    method HandleClosePdfViewer()
      modifies this
      ensures State() == old(State()).(isPdfViewerOpen := false, currentPdfDocuments := [])
      ensures old(Valid()) ==> Valid()
    {
      isPdfViewerOpen := false;
      currentPdfDocuments := [];
    }

    /** What the filtering effect computes from the current state. */
    function FilteredResources(): seq<Resource>
      reads this
    {
      Matcher.Matcher(resources, searchQuery, activeFilters)
    }

    /** The error prop of the grid. */
    function GridError(): Option<string>
      reads this
    {
      GridErrorOf(error, isUsingDummyData)
    }
  }

  /** The grid never receives an error: a stored error always comes with the demo flag. */
  lemma NoGridErrorUnderValid(error: Option<string>, isUsingDummyData: bool)
    requires error.Some? ==> isUsingDummyData
    ensures GridErrorOf(error, isUsingDummyData) == None
  {
  }

  /** After any fetch, whatever its outcome, the grid gets no error and loading is over. */
  method FetchThenGridError(h: HomePage, outcome: FetchOutcome, dummy: seq<Resource>)
    requires h.Valid()
    modifies h
    ensures h.Valid() && h.GridError() == None && !h.isLoading
    ensures h.isUsingDummyData <==> FetchFailure(outcome).Some?
  {
    h.FetchResources(outcome, dummy);
    NoGridErrorUnderValid(h.error, h.isUsingDummyData);
  }
}
