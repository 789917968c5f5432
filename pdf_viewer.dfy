/**
  The tabbed document viewer: one zoom level, one view mode and one fullscreen
  flag shared by all tabs, plus two per-document dictionaries of load and error flags.
 */
module Viewer {
  import opened Wrappers

  datatype PdfDocument = PdfDocument(id: string, title: string, url: string, importantQuestionsUrl: Option<string>)

  /** `"document"` shows the document itself, `"questions"` its companion question set. */
  datatype ViewMode = DocumentMode | QuestionsMode

  const InitialZoom: int := 100
  const MinZoom: int := 50
  const MaxZoom: int := 200
  const ZoomStep: int := 25

  /** `Math.min(prev + 25, 200)`. */
  function ZoomedIn(z: int): (r: int)
    ensures r <= MaxZoom && r <= z + ZoomStep
    ensures r == MaxZoom || r == z + ZoomStep
  {
    if z + ZoomStep < MaxZoom then z + ZoomStep else MaxZoom
  }

  /** `Math.max(prev - 25, 50)`. */
  function ZoomedOut(z: int): (r: int)
    ensures r >= MinZoom && r >= z - ZoomStep
    ensures r == MinZoom || r == z - ZoomStep
  {
    if z - ZoomStep > MinZoom then z - ZoomStep else MinZoom
  }

  /** The zoom levels reachable from 100: 50 to 200 in steps of 25. */
  predicate ValidZoom(z: int)
  {
    MinZoom <= z <= MaxZoom && z % ZoomStep == 0
  }

  datatype ZoomPress = ZoomInPress | ZoomOutPress

  /** The zoom level after a sequence of presses of the two zoom buttons. */
  function ApplyZooms(z: int, presses: seq<ZoomPress>): int
    decreases |presses|
  {
    if presses == [] then z
    else ApplyZooms(if presses[0] == ZoomInPress then ZoomedIn(z) else ZoomedOut(z), presses[1..])
  }

  function Repeat(press: ZoomPress, n: nat): (r: seq<ZoomPress>)
    ensures |r| == n && forall i :: 0 <= i < n ==> r[i] == press
  {
    if n == 0 then [] else [press] + Repeat(press, n - 1)
  }

  /** Whatever buttons are pressed, a valid zoom level stays valid. */
  lemma {:induction false} ZoomStaysValid(z: int, presses: seq<ZoomPress>)
    requires ValidZoom(z)
    ensures ValidZoom(ApplyZooms(z, presses))
    decreases |presses|
  {
    if presses != [] {
      var next := if presses[0] == ZoomInPress then ZoomedIn(z) else ZoomedOut(z);
      assert ValidZoom(next);
      ZoomStaysValid(next, presses[1..]);
    }
  }

  /** Enough zoom-ins reach 200 and stay there. */
  lemma {:induction false} ZoomInSaturates(z: int, n: nat)
    requires ValidZoom(z) && n * ZoomStep >= MaxZoom - z
    ensures ApplyZooms(z, Repeat(ZoomInPress, n)) == MaxZoom
    decreases n
  {
    var ps := Repeat(ZoomInPress, n);
    if n == 0 {
      assert ps == [];
    } else {
      assert ps[0] == ZoomInPress && ps[1..] == Repeat(ZoomInPress, n - 1);
      if z == MaxZoom {
        ZoomInSaturates(z, n - 1);
      } else {
        ZoomInSaturates(z + ZoomStep, n - 1);
      }
    }
  }

  /** Enough zoom-outs reach 50 and stay there. */
  lemma {:induction false} ZoomOutSaturates(z: int, n: nat)
    requires ValidZoom(z) && n * ZoomStep >= z - MinZoom
    ensures ApplyZooms(z, Repeat(ZoomOutPress, n)) == MinZoom
    decreases n
  {
    var ps := Repeat(ZoomOutPress, n);
    if n == 0 {
      assert ps == [];
    } else {
      assert ps[0] == ZoomOutPress && ps[1..] == Repeat(ZoomOutPress, n - 1);
      if z == MinZoom {
        ZoomOutSaturates(z, n - 1);
      } else {
        ZoomOutSaturates(z - ZoomStep, n - 1);
      }
    }
  }

  /** Ten zoom-ins from 100 give 200, ten zoom-outs give 50. */
  lemma TenPressesFromInitialZoom()
    ensures ApplyZooms(InitialZoom, Repeat(ZoomInPress, 10)) == MaxZoom
    ensures ApplyZooms(InitialZoom, Repeat(ZoomOutPress, 10)) == MinZoom
  {
    ZoomInSaturates(InitialZoom, 10);
    ZoomOutSaturates(InitialZoom, 10);
  }

  /** The fragment the viewer appends to every iframe source. */
  const ViewerFragment: string := "#toolbar=1&navpanes=1&scrollbar=1"

  /** The companion url, when it is present and non-empty (truthy). */
  predicate HasQuestions(doc: PdfDocument)
  {
    doc.importantQuestionsUrl.Some? && doc.importantQuestionsUrl.value != ""
  }

  /**
    The iframe `src`: the document url in document mode; in questions mode the
    companion url when truthy, else the document url; always followed by the fragment.
   */
  function IframeSrc(doc: PdfDocument, mode: ViewMode): (r: string)
    ensures |r| >= |ViewerFragment| && r[|r| - |ViewerFragment|..] == ViewerFragment
    ensures mode == DocumentMode ==> r[..|r| - |ViewerFragment|] == doc.url
    ensures mode == QuestionsMode && HasQuestions(doc) ==>
      r[..|r| - |ViewerFragment|] == doc.importantQuestionsUrl.value
    ensures mode == QuestionsMode && !HasQuestions(doc) ==> r[..|r| - |ViewerFragment|] == doc.url
  {
    (if mode == DocumentMode || !HasQuestions(doc) then doc.url else doc.importantQuestionsUrl.value)
      + ViewerFragment
  }

  /** Without a companion url, questions mode shows the document itself. */
  lemma QuestionsFallBackToDocument(doc: PdfDocument)
    requires !HasQuestions(doc)
    ensures IframeSrc(doc, QuestionsMode) == IframeSrc(doc, DocumentMode)
  {
  }

  /** `docs.find(d => d.id === id)`: the first document with that id, if any. */
  function FindDocument(docs: seq<PdfDocument>, id: string): (r: Option<PdfDocument>)
    ensures r.None? <==> forall k :: 0 <= k < |docs| ==> docs[k].id != id
    ensures r.Some? ==> r.value.id == id
    ensures r.Some? ==>
      exists k :: 0 <= k < |docs| && docs[k] == r.value && forall j :: 0 <= j < k ==> docs[j].id != id
  {
    if docs == [] then None
    else if docs[0].id == id then Some(docs[0])
    else
      var r := FindDocument(docs[1..], id);
      assert forall k :: 1 <= k < |docs| ==> docs[k] == docs[1..][k - 1];
      if r.Some? then
        var k :| 0 <= k < |docs| - 1 && docs[1..][k] == r.value && forall j :: 0 <= j < k ==> docs[1..][j].id != id;
        assert docs[k + 1] == r.value;
        r
      else r
  }

  function DocumentIds(docs: seq<PdfDocument>): set<string>
  {
    set k | 0 <= k < |docs| :: docs[k].id
  }

  /** The initialisation effect's `forEach`: every document id mapped to `true`. */
  method BuildLoadingStates(docs: seq<PdfDocument>) returns (m: map<string, bool>)
    ensures m.Keys == DocumentIds(docs)
    ensures forall id :: id in m ==> m[id]
  {
    m := map[];
    var i := 0;
    while i < |docs|
      invariant 0 <= i <= |docs|
      invariant m.Keys == set k | 0 <= k < i :: docs[k].id
      invariant forall id :: id in m ==> m[id]
    {
      m := m[docs[i].id := true];
      i := i + 1;
    }
  }

  /** A snapshot of every state field of the viewer. */
  datatype ViewerState = ViewerState(
    documents: seq<PdfDocument>,
    activeTab: string,
    isFullscreen: bool,
    zoomLevel: int,
    viewMode: ViewMode,
    loadingStates: map<string, bool>,
    errorStates: map<string, bool>)

  class PdfViewer {
    var documents: seq<PdfDocument>
    var activeTab: string
    var isFullscreen: bool
    var zoomLevel: int
    var viewMode: ViewMode
    var loadingStates: map<string, bool>
    var errorStates: map<string, bool>

    function State(): ViewerState
      reads this
    {
      ViewerState(documents, activeTab, isFullscreen, zoomLevel, viewMode, loadingStates, errorStates)
    }

    ghost predicate Valid()
      reads this
    {
      ValidZoom(zoomLevel)
    }

    /** Mounting: the initial `useState` values; the active tab is the given initial id. */
    constructor (documents: seq<PdfDocument>, initialDocumentId: string)
      ensures Valid()
      ensures State() == ViewerState(documents, initialDocumentId, false, InitialZoom, DocumentMode, map[], map[])
    {
      this.documents := documents;
      activeTab := initialDocumentId;
      isFullscreen := false;
      zoomLevel := InitialZoom;
      viewMode := DocumentMode;
      loadingStates := map[];
      errorStates := map[];
    }

    /** The effect on `documents`: loading is replaced by "true for every id"; errors are kept. */
    method InitLoadingStates()
      modifies this
      ensures State() == old(State()).(loadingStates := loadingStates)
      ensures loadingStates.Keys == DocumentIds(documents)
      ensures forall id :: id in loadingStates ==> loadingStates[id]
    {
      loadingStates := BuildLoadingStates(documents);
    }

    method HandleZoomIn()
      modifies this
      ensures State() == old(State()).(zoomLevel := ZoomedIn(old(zoomLevel)))
      ensures old(Valid()) ==> Valid()
    {
      zoomLevel := ZoomedIn(zoomLevel);
    }

    method HandleZoomOut()
      modifies this
      ensures State() == old(State()).(zoomLevel := ZoomedOut(old(zoomLevel)))
      ensures old(Valid()) ==> Valid()
    {
      zoomLevel := ZoomedOut(zoomLevel);
    }

    method ToggleFullscreen()
      modifies this
      ensures State() == old(State()).(isFullscreen := !old(isFullscreen))
    {
      isFullscreen := !isFullscreen;
    }

    /** Any string becomes the active tab; it is not checked against the documents. */
    method HandleTabChange(value: string)
      modifies this
      ensures State() == old(State()).(activeTab := value)
    {
      activeTab := value;
    }

    /** The Document / Important Questions buttons; one mode for all tabs. */
    method SetViewMode(mode: ViewMode)
      modifies this
      ensures State() == old(State()).(viewMode := mode)
    {
      viewMode := mode;
    }

    /** The iframe's load callback: not loading, no error, whatever the flags were. */
    method HandlePdfLoad(docId: string)
      modifies this
      ensures State() == old(State()).(loadingStates := old(loadingStates)[docId := false],
                                       errorStates := old(errorStates)[docId := false])
    {
      loadingStates := loadingStates[docId := false];
      errorStates := errorStates[docId := false];
    }

    /** The iframe's error callback: not loading, error, whatever the flags were. */
    method HandlePdfError(docId: string)
      modifies this
      ensures State() == old(State()).(loadingStates := old(loadingStates)[docId := false],
                                       errorStates := old(errorStates)[docId := true])
    {
      loadingStates := loadingStates[docId := false];
      errorStates := errorStates[docId := true];
    }

    /** `activeDocument`: the first document whose id is the active tab. */
    function ActiveDocument(): Option<PdfDocument>
      reads this
    {
      FindDocument(documents, activeTab)
    }

    /** The loading overlay of a tab is shown when its loading flag is truthy. */
    predicate ShowsSpinner(docId: string)
      reads this
    {
      docId in loadingStates && loadingStates[docId]
    }

    /** A tab shows the failure panel instead of the iframe when its error flag is truthy. */
    predicate ShowsErrorPanel(docId: string)
      reads this
    {
      docId in errorStates && errorStates[docId]
    }
  }

  /** Opening the viewer: after the first effect every tab shows its spinner and none an error. */
  method OpenViewer(docs: seq<PdfDocument>, initialDocumentId: string) returns (v: PdfViewer)
    ensures fresh(v) && v.Valid()
    ensures v.documents == docs && v.activeTab == initialDocumentId && v.zoomLevel == InitialZoom
    ensures forall k :: 0 <= k < |docs| ==> v.ShowsSpinner(docs[k].id) && !v.ShowsErrorPanel(docs[k].id)
  {
    v := new PdfViewer(docs, initialDocumentId);
    v.InitLoadingStates();
  }

  /** Toggling fullscreen twice restores the whole state. */
  method ToggleFullscreenTwice(v: PdfViewer)
    modifies v
    ensures v.State() == old(v.State())
  {
    v.ToggleFullscreen();
    v.ToggleFullscreen();
  }

  /** No guard: a load callback after an error callback clears the error, and other tabs are untouched. */
  method LoadAfterError(v: PdfViewer, docId: string)
    modifies v
    ensures !v.ShowsErrorPanel(docId) && !v.ShowsSpinner(docId)
    ensures forall id :: id != docId ==>
      (v.ShowsErrorPanel(id) == old(v.ShowsErrorPanel(id)) && v.ShowsSpinner(id) == old(v.ShowsSpinner(id)))
  {
    v.HandlePdfError(docId);
    v.HandlePdfLoad(docId);
  }

  /** And the reverse: an error callback after a load callback sets the error again. */
  method ErrorAfterLoad(v: PdfViewer, docId: string)
    modifies v
    ensures v.ShowsErrorPanel(docId) && !v.ShowsSpinner(docId)
    ensures forall id :: id != docId ==>
      (v.ShowsErrorPanel(id) == old(v.ShowsErrorPanel(id)) && v.ShowsSpinner(id) == old(v.ShowsSpinner(id)))
  {
    v.HandlePdfLoad(docId);
    v.HandlePdfError(docId);
  }

  /** Zoom is shared: zooming while one tab is active changes what every tab shows. */
  method ZoomIsShared(v: PdfViewer, other: string)
    requires v.Valid() && v.zoomLevel < MaxZoom
    modifies v
    ensures v.zoomLevel == old(v.zoomLevel) + ZoomStep
  {
    v.HandleTabChange(other);
    v.HandleZoomIn();
  }
}
