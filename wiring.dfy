/**
  How the components are connected: the sidebar's selection reaching the home
  page's filters, the home page opening the viewer, and the error prop of the grid.
 */
module Wiring {
  import opened Wrappers
  import opened Matcher
  import opened Viewer
  import opened Sidebar
  import opened Grid
  import opened Home
  import opened Text

  // ---------------------------------------------------------------------------
  // The sidebar's axis names against the matcher's keys, as written

  /**
    The sidebar reports its selection under "branch", "year" and "resourceType";
    the home page stores it under that very key, and the matcher reads only
    "branches", "years" and "resourceTypes". So a sidebar selection never
    changes what the matcher returns.
   */
  lemma SidebarSelectionIgnored(resources: seq<Resource>, q: string, f: Filters, axis: string, ids: seq<string>)
    requires axis == BranchAxis || axis == YearAxis || axis == ResourceTypeAxis
    ensures Matcher.Matcher(resources, q, WithAxis(f, axis, ids)) == Matcher.Matcher(resources, q, f)
  {
    var g := WithAxis(f, axis, ids);
    assert Codes(g, BranchesKey) == Codes(f, BranchesKey);
    assert Codes(g, YearsKey) == Codes(f, YearsKey);
    assert Codes(g, ResourceTypesKey) == Codes(f, ResourceTypesKey);
  }

  /** From the initial state, whatever the sidebar selects, the whole catalog stays on the page. */
  lemma SidebarSelectionShowsAll(resources: seq<Resource>, axis: string, ids: seq<string>)
    requires axis == BranchAxis || axis == YearAxis || axis == ResourceTypeAxis
    ensures Matcher.Matcher(resources, "", WithAxis(InitialFilters, axis, ids)) == resources
  {
    SidebarSelectionIgnored(resources, "", InitialFilters, axis, ids);
    assert IsBlank("");
    assert Codes(InitialFilters, BranchesKey) == [];
    assert Codes(InitialFilters, YearsKey) == [];
    assert Codes(InitialFilters, ResourceTypesKey) == [];
    MatcherIdentity(resources, "", InitialFilters);
  }

  /** Checking "Computer Science" in the sidebar leaves a Mechanical resource on the page. */
  lemma CheckingComputerScienceKeepsMechanical()
    ensures
      var me := Resource("2", "TD", "Mechanical", "1st Year", "Notes", "", "", None);
      Matcher.Matcher([me], "", WithAxis(InitialFilters, BranchAxis, ["cs"])) == [me]
  {
    var me := Resource("2", "TD", "Mechanical", "1st Year", "Notes", "", "", None);
    SidebarSelectionShowsAll([me], BranchAxis, ["cs"]);
  }

  /** The sidebar toggle followed by the home page's handler, as the components are connected. */
  method ToggleAsWritten(s: FilterSidebar, h: HomePage, axis: string, id: string, checked: bool)
    requires axis == BranchAxis || axis == YearAxis || axis == ResourceTypeAxis
    modifies s, h
    ensures h.FilteredResources() == old(h.FilteredResources())
  {
    var emitted := s.HandleFilterChange(axis, id, checked);
    h.HandleFilterChange(axis, emitted);
    SidebarSelectionIgnored(h.resources, h.searchQuery, old(h.activeFilters), axis, emitted);
  }

  // ---------------------------------------------------------------------------
  // The evidently intended connection

  /** The matcher's key for a sidebar axis name; any other name is kept. */
  function ApiFilterKey(axis: string): (k: string)
    ensures axis == BranchAxis ==> k == BranchesKey
    ensures axis == YearAxis ==> k == YearsKey
    ensures axis == ResourceTypeAxis ==> k == ResourceTypesKey
    ensures axis != BranchAxis && axis != YearAxis && axis != ResourceTypeAxis ==> k == axis
  {
    if axis == BranchAxis then BranchesKey
    else if axis == YearAxis then YearsKey
    else if axis == ResourceTypeAxis then ResourceTypesKey
    else axis
  }

  /**
    Through `ApiFilterKey`, a sidebar selection becomes exactly the codes of its
    own axis and leaves the other two axes as they were.
   */
  lemma CorrectedSelectionApplies(f: Filters, axis: string, ids: seq<string>)
    requires axis == BranchAxis || axis == YearAxis || axis == ResourceTypeAxis
    ensures var g := WithAxis(f, ApiFilterKey(axis), ids);
      && Codes(g, BranchesKey) == (if axis == BranchAxis then ids else Codes(f, BranchesKey))
      && Codes(g, YearsKey) == (if axis == YearAxis then ids else Codes(f, YearsKey))
      && Codes(g, ResourceTypesKey) == (if axis == ResourceTypeAxis then ids else Codes(f, ResourceTypesKey))
  {
  }

  /** With the corrected key, checking "Computer Science" does drop the Mechanical resource. */
  lemma CheckingComputerScienceFiltersWhenCorrected()
    ensures
      var cs := Resource("1", "DSA", "Computer Science", "2nd Year", "Notes", "", "", None);
      var me := Resource("2", "TD", "Mechanical", "1st Year", "Notes", "", "", None);
      Matcher.Matcher([cs, me], "", WithAxis(InitialFilters, ApiFilterKey(BranchAxis), ["cs"])) == [cs]
  {
    BranchCodeScenario();
  }

  /** The sidebar toggle followed by the home page's handler under the corrected key. */
  method ToggleCorrected(s: FilterSidebar, h: HomePage, axis: string, id: string, checked: bool)
    requires axis == BranchAxis || axis == YearAxis || axis == ResourceTypeAxis
    modifies s, h
    ensures axis == BranchAxis ==> Codes(h.activeFilters, BranchesKey) == CheckedIds(s.branchFilters)
    ensures axis == YearAxis ==> Codes(h.activeFilters, YearsKey) == CheckedIds(s.yearFilters)
    ensures axis == ResourceTypeAxis ==> Codes(h.activeFilters, ResourceTypesKey) == CheckedIds(s.resourceTypeFilters)
    ensures forall r :: r in h.FilteredResources() <==> r in h.resources && Survives(r, h.searchQuery, h.activeFilters)
  {
    var emitted := s.HandleFilterChange(axis, id, checked);
    h.HandleFilterChange(ApiFilterKey(axis), emitted);
    CorrectedSelectionApplies(old(h.activeFilters), axis, emitted);
    forall r {
      MatcherMembers(h.resources, h.searchQuery, h.activeFilters, r);
    }
  }

  // ---------------------------------------------------------------------------
  // Labels, opening, errors

  /** Every sidebar id is a key of its matcher table, whose label is the checkbox's label. */
  lemma SidebarLabelsAgreeWithTables()
    ensures forall i :: 0 <= i < |InitialBranchOptions| ==>
      InitialBranchOptions[i].id in BranchMap && BranchMap[InitialBranchOptions[i].id] == InitialBranchOptions[i].displayLabel
    ensures forall i :: 0 <= i < |InitialYearOptions| ==>
      InitialYearOptions[i].id in YearMap && YearMap[InitialYearOptions[i].id] == InitialYearOptions[i].displayLabel
    ensures forall i :: 0 <= i < |InitialTypeOptions| ==>
      InitialTypeOptions[i].id in TypeMap && TypeMap[InitialTypeOptions[i].id] == InitialTypeOptions[i].displayLabel
  {
  }

  /**
    A resource opened from the home page is the viewer's active document, and
    since it has no companion url, questions mode shows the document itself.
   */
  lemma OpenedResourceInViewer(r: Resource)
    ensures FindDocument([OpenedDocument(r)], r.id) == Some(OpenedDocument(r))
    ensures IframeSrc(OpenedDocument(r), QuestionsMode) == IframeSrc(OpenedDocument(r), DocumentMode)
  {
    QuestionsFallBackToDocument(OpenedDocument(r));
  }

  /** The home page opening a resource and mounting the viewer on its document list. */
  method OpenFromHome(h: HomePage, r: Resource) returns (v: PdfViewer)
    requires h.Valid()
    modifies h
    ensures h.Valid() && fresh(v) && v.Valid()
    ensures v.documents == h.currentPdfDocuments == [OpenedDocument(r)]
    ensures v.ActiveDocument() == Some(OpenedDocument(r))
    ensures v.ShowsSpinner(r.id) && !v.ShowsErrorPanel(r.id)
  {
    h.HandleOpenPdfViewer(r);
    var docs := h.currentPdfDocuments;
    v := OpenViewer(docs, docs[0].id);
    OpenedResourceInViewer(r);
  }

  /** Because a stored error always comes with the demo flag, the grid never shows its error view. */
  lemma GridNeverShowsError(
    resources: seq<Resource>, isLoading: bool, error: Option<string>, isUsingDummyData: bool, page: int)
    requires error.Some? ==> isUsingDummyData
    ensures !SelectView(resources, isLoading, GridErrorOf(error, isUsingDummyData), page).ErrorView?
  {
    NoGridErrorUnderValid(error, isUsingDummyData);
  }

  /** Without the demo flag a non-empty stored error would reach the grid's error view. */
  lemma ErrorViewNeedsDemoFlagOff(resources: seq<Resource>, message: string, page: int)
    requires message != ""
    ensures SelectView(resources, false, GridErrorOf(Some(message), false), page) == ErrorView(message)
  {
  }
}
