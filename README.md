# Engineering resources hub: a Dafny model of the front end's logic

This project models the logic of a small React front end. The front end lets a
student browse a catalog of study resources: notes, question papers and books,
for four engineering branches and four academic years. It also opens them in a
tabbed PDF viewer. The model covers four components.

- **Home page** (`home.tsx`). It holds the catalog, the search text, the
  active filter dictionary and the viewer's document list. Its filtering
  effect narrows the catalog in stages:
  - a free-text query, matched against title, branch and type;
  - then three filter axes: branches, years and resource types.

  Within an axis any selected code may match, and across axes all must.
  Each code is first translated through a label table. The page also
  handles the outcome of the catalog request, falling back to demo data.
- **Filter sidebar** (`Sidebar.tsx`). Three checklists with fixed ids. A
  toggle rewrites one list and reports that list's checked ids.
- **Resource grid** (`ResourceGrid.tsx`). Twelve cards per page,
  Previous/Next and page links, and a fixed priority between the loading,
  error, empty and card views.
- **PDF viewer** (`PDFViewer.tsx`). The active tab, fullscreen, clamped
  zoom, a document/questions mode shared by all tabs, and per-document
  loading and error flags.

Modules:

- `Wrappers`: `Option`.
- `Text`: ASCII lower-casing, substring containment, and `trim` over the
  ECMAScript white-space set.
- `Seqs`: `Array.prototype.filter` and subsequences.
- `Matcher`: the resource record, the filter dictionary, the label tables,
  the staged filter and its reading as a single filter.
- `Viewer`: the viewer component as a class over its state fields.
- `Sidebar`: the checklists and the toggle, as a class.
- `Grid`: page arithmetic, view selection, and the page state as a class.
- `Home`: the home page as a class, the request outcome, and the document
  built from a resource.
- `Wiring`: how the components are connected. It holds the finding below
  and the viewer/grid consequences of the home page's state.

Each component's state fields are fields of a Dafny class, and its handlers
are methods whose `ensures` give the whole new state. In the home page, the
viewer and the sidebar this is an update of a `State()` snapshot. In the grid,
which has only two fields, the `ensures` name `resources` and `currentPage`
directly. The handlers also keep a `Valid()` invariant:
- the zoom stays in range;
- the sidebar's ids stay fixed;
- the page number is at least 1;
- a stored fetch error always comes with the demo-data flag.

Pure computations are functions. Lemmas prove their properties:
- the matcher as one order-preserving filter, idempotent, with the identity
  case;
- a longer search text only narrows the result;
- the meaning of each axis;
- ceiling page counts, and pages that together rebuild the list;
- zoom saturation;
- the decimal round trip of the status code in the failure message.

The viewer has one zoom level and one view mode shared by all tabs, and two
keyed flag dictionaries. It has no close-tab, retry or stale-callback guard,
and neither does the model.

## Model

| member | source | states |
|---|---|---|
| Text.Lower | src/components/home.tsx:228-230 | definition of `toLowerCase` (ASCII letters only): the length is kept, and each character is mapped on its own; its properties are in `Text.LowerIdempotent` and `Text.LowerHasNoUpper` |
| Text.LowerIdempotent | src/components/home.tsx:228-230 | lower-casing an already lower-cased string changes nothing |
| Text.LowerHasNoUpper | src/components/home.tsx:228-230 | no character A-Z is left after lower-casing |
| Text.LowerPrefix | src/components/home.tsx:228-230 | lower-casing a prefix gives the prefix of the lower-cased string |
| Text.Contains | src/components/home.tsx:228-230 | definition of `includes`: `sub` occurs at some offset of `s`; its properties are in `Text.ContainsSelf`, `Text.ContainsTooLong` and `Text.ContainsPrefix` |
| Text.ContainsSelf | src/components/home.tsx:228-230 | every string includes itself |
| Text.ContainsTooLong | src/components/home.tsx:228-230 | no string includes a longer one |
| Text.ContainsPrefix | src/components/home.tsx:228-230 | a string that includes `b` includes every prefix of `b` |
| Text.Trim | src/components/home.tsx:225 | definition of `trim`: `TrimStart` then `TrimEnd`; its property is in `Text.TrimEmptyIffBlank` |
| Text.TrimEmptyIffBlank | src/components/home.tsx:225 | `searchQuery.trim()` is empty exactly when every character of the query is white space |
| Text.TrimStart | src/components/home.tsx:225 | the result is a suffix; what was dropped is white space; the result is empty or starts with a non-space |
| Text.TrimEnd | src/components/home.tsx:225 | the result is a prefix; what was dropped is white space; the result is empty or ends with a non-space |
| Seqs.Filter | src/components/home.tsx:226-231 | `filter` keeps exactly the elements that pass the test, and never lengthens the list |
| Seqs.FilterIsSubsequence | src/components/home.tsx:226-231 | a filtered list is an order-preserving subsequence of its input |
| Seqs.FilterCompose | src/components/home.tsx:222-280 | filtering by one test and then another is the same as filtering once by their conjunction |
| Matcher.Matcher | src/components/home.tsx:221-283 | definition of the filtering effect: the four guarded stages in the source's order; its properties are in `Matcher.MatcherIsFilter` and the lemmas after it |
| Matcher.ByQuery | src/components/home.tsx:225-232 | definition of the query stage, applied only when the trimmed query is non-empty; its property is in `Matcher.ByQueryIsFilter` |
| Matcher.ByBranch | src/components/home.tsx:235-249 | definition of the branch stage, applied only when codes are selected; its property is in `Matcher.MatcherIsFilter` |
| Matcher.ByYear | src/components/home.tsx:252-264 | definition of the year stage, applied only when codes are selected; its property is in `Matcher.MatcherIsFilter` |
| Matcher.ByType | src/components/home.tsx:267-280 | definition of the type stage, applied only when codes are selected; its property is in `Matcher.MatcherIsFilter` |
| Matcher.MatchesQuery | src/components/home.tsx:228-230 | definition of the query test: the lower-cased, untrimmed query occurs in the lower-cased title, branch or type; its property is in `Matcher.QueryNarrows` |
| Matcher.MatchesBranch | src/components/home.tsx:243-247 | definition of the branch test; its meaning is in `Matcher.BranchAxisMeaning` |
| Matcher.MatchesYear | src/components/home.tsx:260-262 | definition of the year test; its meaning is in `Matcher.YearAxisMeaning` |
| Matcher.MatchesType | src/components/home.tsx:274-278 | definition of the type test; its meaning is in `Matcher.TypeAxisMeaning` |
| Matcher.LoweredNeedle | src/components/home.tsx:246 | definition of `table[code]?.toLowerCase() \|\| code.toLowerCase()`; with `Matcher.LabelsNonEmpty` it is the lower-cased label of a mapped code |
| Matcher.RawNeedle | src/components/home.tsx:261 | definition of `yearMap[year] \|\| year`; with `Matcher.LabelsNonEmpty` it is the label of a mapped code |
| Matcher.ByQueryIsFilter | src/components/home.tsx:225-232 | the trim-guarded query stage is one filter by "blank query, or the lower-cased query occurs in title, branch or type" |
| Matcher.MatcherIsFilter | src/components/home.tsx:221-283 | the four guarded stages together are one filter by `Survives`: query AND branch AND year AND type, an empty axis passing everything |
| Matcher.MatcherMembers | src/components/home.tsx:221-283 | a resource is in the output if and only if it is in the catalog and survives all four stages |
| Matcher.MatcherPreservesOrder | src/components/home.tsx:222-282 | the output is a subsequence of the catalog, in catalog order |
| Matcher.MatcherIdempotent | src/components/home.tsx:222-282 | running the matcher again on its own output, with the same query and filters, returns it unchanged |
| Matcher.MatcherIdentity | src/components/home.tsx:222-282 | a blank query with all three axes empty or absent returns the catalog itself |
| Matcher.QueryNarrows | src/components/home.tsx:225-231 | with a non-blank query, every survivor has the lower-cased untrimmed query in its lower-cased title, branch or type |
| Matcher.LongerQueryPassesShorter | src/components/home.tsx:225-231 | a resource that passes a query also passes every prefix of that query |
| Matcher.MatcherNarrowsWithLongerQuery | src/components/home.tsx:225-231 | extending the query with more characters returns a subsequence of the shorter query's result |
| Matcher.LabelsNonEmpty | src/components/home.tsx:237-242 | every label in the three code tables is non-empty, so a mapped code always uses its label |
| Matcher.BranchAxisMeaning | src/components/home.tsx:235-248 | a resource matches the branch axis if and only if, for some selected code, its lower-cased branch contains the code's lower-cased label (or the lower-cased code when unmapped) |
| Matcher.TypeAxisMeaning | src/components/home.tsx:267-279 | the same as the branch axis, for the type field and the type table |
| Matcher.YearAxisMeaning | src/components/home.tsx:252-263 | a resource matches the year axis if and only if its year contains, case-sensitively, some selected code's label (or the code itself when unmapped) |
| Matcher.YearAxisIsCaseSensitive | src/components/home.tsx:243-261 | one value "Y1" matches the unmapped code "y1" on the branch axis but not on the year axis |
| Matcher.OnlyQueryActive | src/components/home.tsx:222-232 | with the initial empty axes, a one-item catalog survives exactly when it passes the query |
| Matcher.QueryIsNotTrimmed | src/components/home.tsx:225-230 | the query " ab" is not blank, so it filters, and being matched untrimmed it drops a resource that "ab" keeps |
| Matcher.SingleBranchCode | src/components/home.tsx:221-283 | with no query and one branch code selected, a resource survives if and only if its lower-cased branch contains that code's needle |
| Matcher.BranchCodeScenario | src/components/home.tsx:235-248 | selecting the code "cs" keeps a "Computer Science" resource and drops a "Mechanical" one |
| Home.RequestFailedMessage | src/components/home.tsx:183 | definition of the message for a response that is not ok; its shape is in `Home.RequestFailedMessageMentionsStatus` |
| Home.Decimal | src/components/home.tsx:183 | the status code is written as a non-empty run of decimal digits with no leading zero |
| Home.DecimalRoundTrip | src/components/home.tsx:183 | reading the written digits back gives the status code |
| Home.RequestFailedMessageMentionsStatus | src/components/home.tsx:182-184 | the failure message is the fixed prefix, the status digits (which read back as the status), a space, and the status text |
| Home.FetchFailure | src/components/home.tsx:181-199 | there is no error exactly when the response is ok with a `resources` array. Otherwise the error is the status message, "Invalid API response format", the thrown error's message, or "Failed to fetch resources" for a thrown non-error |
| Home.GridErrorOf | src/components/home.tsx:444 | the grid gets an error if and only if one is stored, it is non-empty and the demo flag is off |
| Home.DocumentUrl | src/components/home.tsx:301 | a truthy `pdfUrl` is used, otherwise `downloadUrl` |
| Home.OpenedDocument | src/components/home.tsx:298-302 | the document carries the resource's id and title and the url above, and has no questions url |
| Home.WithAxis | src/components/home.tsx:286-291 | the key `filterType` now holds the given list; every other key keeps its list; no key disappears |
| Home.WithAxisKeepsApiKeys | src/components/home.tsx:286-291 | the three keys the matcher reads stay present after any filter change |
| Home.NoGridErrorUnderValid | src/components/home.tsx:444 | when a stored error implies the demo flag, the grid gets no error |
| Home.HomePage.constructor | src/components/home.tsx:28-40 | the initial state: empty query and catalog, loading, no error, demo flag off, viewer closed, three empty axes |
| Home.HomePage.SetSearchQuery | src/components/home.tsx:408-417 | only the query changes |
| Home.HomePage.BeginFetch | src/components/home.tsx:153-155 | loading is set and the error cleared; nothing else changes |
| Home.HomePage.CompleteFetch | src/components/home.tsx:187-212 | success stores the catalog and clears the demo flag. Failure stores the message, the demo catalog and the demo flag. Loading ends either way |
| Home.HomePage.FetchResources | src/components/home.tsx:152-213 | one whole request: the state after each outcome, and the invariant "error implies demo flag" kept |
| Home.HomePage.HandleFilterChange | src/components/home.tsx:286-291 | only the filter dictionary changes, by `WithAxis` |
| Home.HomePage.HandleOpenPdfViewer | src/components/home.tsx:297-306 | the document list becomes exactly the one opened document and the viewer opens; nothing else changes |
| Home.HomePage.HandleClosePdfViewer | src/components/home.tsx:308-311 | the viewer closes and its document list becomes empty |
| Home.HomePage.FilteredResources | src/components/home.tsx:221-283 | definition of what the filtering effect stores in `filteredResources`: `Matcher` on the current state; its properties are in the `Matcher` lemmas and `Wiring.ToggleCorrected` |
| Home.HomePage.GridError | src/components/home.tsx:444 | definition of the grid's error prop on the current state, by `Home.GridErrorOf`; its property is in `Home.FetchThenGridError` |
| Home.FetchThenGridError | src/components/home.tsx:152-213 | after any request outcome the grid gets no error, loading is over, and the demo flag is on exactly when the request failed |
| Viewer.ZoomedIn | src/components/PDFViewer.tsx:82-84 | the result is `min(z + 25, 200)`: at most both, and equal to one of them |
| Viewer.ZoomedOut | src/components/PDFViewer.tsx:86-88 | the result is `max(z - 25, 50)`: at least both, and equal to one of them |
| Viewer.ZoomStaysValid | src/components/PDFViewer.tsx:63-88 | from a valid zoom (50 to 200, a multiple of 25, such as the initial 100), any sequence of presses stays valid |
| Viewer.ZoomInSaturates | src/components/PDFViewer.tsx:82-84 | from a valid zoom, enough zoom-in presses reach 200 |
| Viewer.ZoomOutSaturates | src/components/PDFViewer.tsx:86-88 | from a valid zoom, enough zoom-out presses reach 50 |
| Viewer.TenPressesFromInitialZoom | src/components/PDFViewer.tsx:63-88 | from 100, ten presses either way reach 200 or 50 |
| Viewer.IframeSrc | src/components/PDFViewer.tsx:308 | the source ends with the toolbar fragment. Before it is the url in document mode; in questions mode the questions url when truthy, otherwise the url |
| Viewer.QuestionsFallBackToDocument | src/components/PDFViewer.tsx:308 | without a truthy questions url, both modes show the same source |
| Viewer.FindDocument | src/components/PDFViewer.tsx:137 | none exactly when no document has the id; otherwise the first document with that id |
| Viewer.BuildLoadingStates | src/components/PDFViewer.tsx:75-78 | the keys are exactly the document ids and every value is true |
| Viewer.PdfViewer.ActiveDocument | src/components/PDFViewer.tsx:137 | definition of `activeDocument`: `Viewer.FindDocument` on the documents and the active tab, whose contract gives its meaning |
| Viewer.PdfViewer.ShowsSpinner | src/components/PDFViewer.tsx:271 | definition: a tab shows the loading overlay when its loading flag is present and true; used by `Viewer.OpenViewer`, `Viewer.LoadAfterError` and `Viewer.ErrorAfterLoad` |
| Viewer.PdfViewer.ShowsErrorPanel | src/components/PDFViewer.tsx:280 | definition: a tab shows the failure panel when its error flag is present and true; used by the same three methods |
| Viewer.PdfViewer.constructor | src/components/PDFViewer.tsx:61-70 | the initial state: the given tab, not fullscreen, zoom 100, document mode, empty flag dictionaries |
| Viewer.PdfViewer.InitLoadingStates | src/components/PDFViewer.tsx:73-80 | the loading flags are replaced by "true for every document id"; errors and everything else are unchanged |
| Viewer.PdfViewer.HandleZoomIn | src/components/PDFViewer.tsx:82-84 | only the zoom changes, to `ZoomedIn`; a valid zoom stays valid |
| Viewer.PdfViewer.HandleZoomOut | src/components/PDFViewer.tsx:86-88 | only the zoom changes, to `ZoomedOut`; a valid zoom stays valid |
| Viewer.PdfViewer.ToggleFullscreen | src/components/PDFViewer.tsx:90-92 | only the fullscreen flag changes, to its negation |
| Viewer.PdfViewer.HandleTabChange | src/components/PDFViewer.tsx:98-100 | only the active tab changes, to any given string, not checked against the documents |
| Viewer.PdfViewer.SetViewMode | src/components/PDFViewer.tsx:170-178 | only the mode changes; it is one value for all tabs |
| Viewer.PdfViewer.HandlePdfLoad | src/components/PDFViewer.tsx:126-129 | this document's loading and error flags become false; other ids and fields are unchanged |
| Viewer.PdfViewer.HandlePdfError | src/components/PDFViewer.tsx:131-135 | this document's loading flag becomes false and its error flag true; other ids and fields are unchanged |
| Viewer.OpenViewer | src/components/PDFViewer.tsx:61-80 | after mounting and the first effect, every tab shows its spinner and none shows an error |
| Viewer.ToggleFullscreenTwice | src/components/PDFViewer.tsx:90-92 | toggling fullscreen twice restores the whole state |
| Viewer.LoadAfterError | src/components/PDFViewer.tsx:126-135 | there is no guard: load after error clears the error; other tabs are untouched |
| Viewer.ErrorAfterLoad | src/components/PDFViewer.tsx:126-135 | and error after load sets it again; other tabs are untouched |
| Viewer.ZoomIsShared | src/components/PDFViewer.tsx:63-100 | switching tabs then zooming in moves the one shared zoom up by a step |
| Sidebar.InitialOptions | src/components/Sidebar.tsx:25-45 | 4, 4 and 3 options with the fixed ids, distinct within each list, none checked |
| Sidebar.SetChecked | src/components/Sidebar.tsx:57-59 | length, ids and labels are kept; `checked` becomes the given value on options with that id and is kept on the others |
| Sidebar.CheckedIds | src/components/Sidebar.tsx:77-79 | an id is reported if and only if some checked option has it |
| Sidebar.CheckedIdsInOrder | src/components/Sidebar.tsx:77-79 | the reported ids follow the declaration order of the options |
| Sidebar.CheckedIdsDistinct | src/components/Sidebar.tsx:77-79 | with distinct option ids, no id is reported twice |
| Sidebar.SetCheckedToCurrentValue | src/components/Sidebar.tsx:57-59 | setting an option to the value it already has leaves the list unchanged |
| Sidebar.SetCheckedLastWins | src/components/Sidebar.tsx:57-59 | of two toggles of the same id, the second decides |
| Sidebar.CheckThenUncheck | src/components/Sidebar.tsx:57-59 | checking an unchecked id and then unchecking it restores the list |
| Sidebar.SameIdsDistinct | src/components/Sidebar.tsx:57-59 | a list with the same ids as a list of distinct ids has distinct ids |
| Sidebar.ReportedIds | src/components/Sidebar.tsx:77-79 | for a list whose ids are the declared ones, the reported ids follow the declaration order and contain no repeats |
| Sidebar.FilterSidebar.constructor | src/components/Sidebar.tsx:25-45 | the three initial lists |
| Sidebar.FilterSidebar.HandleFilterChange | src/components/Sidebar.tsx:48-82 | for each recognised axis only that list is rewritten, and its checked ids are reported. For any other axis no list changes and the empty list is reported. The ids stay fixed, so the reported ids are in declaration order with no repeats |
| Sidebar.CheckThenUncheckRestores | src/components/Sidebar.tsx:48-82 | checking then unchecking the same unchecked id restores the whole sidebar |
| Grid.TotalPages | src/components/ResourceGrid.tsx:38-39 | ceiling of n / 12: zero exactly for an empty list, enough pages for every item, and no more than needed |
| Grid.SliceBound | src/components/ResourceGrid.tsx:43-46 | definition of how `slice` resolves one bound (negative from the end, then clamped); the result is within the list |
| Grid.Slice | src/components/ResourceGrid.tsx:43-46 | definition of `slice(start, end)`; its use for pages is in `Grid.PageWindow` |
| Grid.PageItems | src/components/ResourceGrid.tsx:41-46 | a page never holds more than 12 items |
| Grid.PageWindow | src/components/ResourceGrid.tsx:41-46 | page p (from 1) holds the items from (p - 1) * 12 up to p * 12, cut off at the end of the list |
| Grid.PageBeyondLast | src/components/ResourceGrid.tsx:39-46 | a page past the last one is empty |
| Grid.ConcatPagesIsPrefix | src/components/ResourceGrid.tsx:38-46 | pages 1 to k together are the first min(12k, n) items |
| Grid.PagesCoverResources | src/components/ResourceGrid.tsx:38-46 | pages 1 to `totalPages` together give back the list, in order |
| Grid.SelectView | src/components/ResourceGrid.tsx:53-121 | loading if and only if `isLoading`; else the error view if and only if the error is truthy; else the empty view if and only if there are no items; else the current page's cards, with pagination shown if and only if there is more than one page |
| Grid.ShrunkListStrandsPage | src/components/ResourceGrid.tsx:37-46 | the page is not reset: on page 2, a list cut to at most 12 items shows no cards and no pagination |
| Grid.ResourceGrid.constructor | src/components/ResourceGrid.tsx:37 | the page starts at 1 |
| Grid.ResourceGrid.ReceiveResources | src/components/ResourceGrid.tsx:32-37 | a new list keeps the current page |
| Grid.ResourceGrid.HandlePageChange | src/components/ResourceGrid.tsx:48-51 | the page becomes the given one |
| Grid.ResourceGrid.HandlePrevious | src/components/ResourceGrid.tsx:127-129 | the page moves back by one only when it is past the first; the page stays at least 1 |
| Grid.ResourceGrid.HandleNext | src/components/ResourceGrid.tsx:154-156 | the page moves on by one only when it is before the last; the page stays at least 1 |
| Grid.ResourceGrid.HandlePageLink | src/components/ResourceGrid.tsx:138-142 | link `index` sets the page to `index + 1` |
| Grid.ResourceGrid.CurrentResources | src/components/ResourceGrid.tsx:41-46 | definition of `currentResources`: `Grid.PageItems` on the current page; its window is in `Grid.ResourceGrid.CurrentPageWindow` |
| Grid.ResourceGrid.CurrentPageWindow | src/components/ResourceGrid.tsx:37-46 | since the page stays at least 1, the cards shown are the items from `(currentPage - 1) * 12` up to `currentPage * 12`, cut off at the end |
| Grid.ResourceGrid.View | src/components/ResourceGrid.tsx:53-121 | definition of what the grid renders on its current state, by `Grid.SelectView`, whose contract gives the order of the views |
| Wiring.SidebarSelectionIgnored | src/components/Sidebar.tsx:81 | a selection stored under "branch", "year" or "resourceType" leaves the matcher's output unchanged |
| Wiring.SidebarSelectionShowsAll | src/components/home.tsx:286-291 | from the initial filters and an empty query, any sidebar selection leaves the whole catalog on the page |
| Wiring.CheckingComputerScienceKeepsMechanical | src/components/home.tsx:286-291 | checking "cs" in the sidebar still shows a Mechanical resource |
| Wiring.ToggleAsWritten | src/components/Sidebar.tsx:48-82 | the toggle, as connected, never changes the filtered resources |
| Wiring.ApiFilterKey | src/components/home.tsx:235-267 | each sidebar axis name maps to the matcher's key for that axis; other names are kept |
| Wiring.CorrectedSelectionApplies | src/components/home.tsx:235-267 | through the corrected key, the selection becomes its own axis's codes and the other two axes are unchanged |
| Wiring.CheckingComputerScienceFiltersWhenCorrected | src/components/home.tsx:235-248 | through the corrected key, checking "cs" keeps only the Computer Science resource |
| Wiring.ToggleCorrected | src/components/Sidebar.tsx:77-81 | with the corrected key, the home page's codes for the axis are the sidebar's checked ids, and the filtered resources are exactly the catalog items that survive |
| Wiring.SidebarLabelsAgreeWithTables | src/components/Sidebar.tsx:25-45 | every sidebar id is a key of its matcher table, whose label is the checkbox's label |
| Wiring.OpenedResourceInViewer | src/components/home.tsx:297-306 | an opened resource is the viewer's active document, and questions mode shows the document itself |
| Wiring.OpenFromHome | src/components/home.tsx:452-458 | opening from the home page mounts the viewer on exactly that document; it is active and shows its spinner with no error |
| Wiring.GridNeverShowsError | src/components/home.tsx:444 | while a stored error implies the demo flag, the grid never shows its error view |
| Wiring.ErrorViewNeedsDemoFlagOff | src/components/home.tsx:444 | with the demo flag off, a non-empty stored error would reach the grid's error view |

## Left out

- Network and request plumbing (`fetch`, `URLSearchParams`, `console`, toasts) is not modelled. How the request ends is the parameter `FetchOutcome`.
- The request URL is not modelled. The only call passes no filters, and the refetch on filter change is commented out.
- The demo catalog is a parameter of `FetchResources`, not the hard-coded list.
- The viewer's default document list is likewise not modelled.
- `Home.HomePage.FetchResources` runs the start and the end of the request back to back. A fetch that is still pending shows up only as the state after `BeginFetch`.
- The filtering effect's one-render delay is not modelled. `Home.HomePage.FilteredResources` is the value the effect computes from the current state.
- `Viewer.PdfViewer.InitLoadingStates` is called on mount. The model does not re-run it when the `documents` prop changes.
- `handleDownload` in the viewer and `window.scrollTo` in the grid are DOM side effects, left out.
- `ResourceCard.tsx` is not part of this model. It is markup, and its `window.open` is a DOM side effect.
- JSX markup, styling, dialogs, tabs and checkbox widgets are not modelled.
- The close button's `onClose` is not modelled. It only calls the home page's `HandleClosePdfViewer`, which is modelled.
- The CSS `scale(zoomLevel / 100)` is not modelled. It is floating point; zoom stays an integer.
- Text.Lower: lower-cases ASCII letters only, not the full Unicode mapping of `toLowerCase`.
- JavaScript prototype keys (such as `branchMap["constructor"]`) are not modelled. The tables are plain maps, and the sidebar only takes its fixed ids.
- Matcher.Codes: an absent axis key reads as an empty list. The source would fail on it, but the home page always keeps the three keys (`Home.HomePage.Valid`).
- `Response.json()` failing to parse counts as a rejection. It appears as `Rejected` with the parse error's message.

## Findings

| source | as written | input that shows it | evidently intended | confidence | as-written member | corrected member |
|---|---|---|---|---|---|---|
| src/components/Sidebar.tsx:56-81 with src/components/home.tsx:286-291 and 235-267 | The sidebar reports a selection under "branch", "year" or "resourceType". The home page stores it under that key. The matcher reads only "branches", "years" and "resourceTypes", so no sidebar selection ever filters anything | Check "Computer Science" with a Mechanical resource in the catalog: the resource stays on the page | Each sidebar axis should write the matcher's key for that axis, so the selection narrows the catalog | high (not executed) | Wiring.SidebarSelectionIgnored, Wiring.CheckingComputerScienceKeepsMechanical | Wiring.ApiFilterKey, Wiring.CorrectedSelectionApplies, Wiring.CheckingComputerScienceFiltersWhenCorrected, Wiring.ToggleCorrected |
