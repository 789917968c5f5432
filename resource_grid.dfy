/**
  The resource grid: twelve cards per page, the page moves of the pagination
  bar, and the order in which the loading, error, empty and card views win.
 */
module Grid {
  import opened Wrappers
  import opened Matcher

  const ResourcesPerPage: int := 12

  function Min(a: int, b: int): int
  {
    if a <= b then a else b
  }

  /** `Math.ceil(n / 12)`: the fewest pages of twelve that hold `n` items. */
  function TotalPages(n: nat): (r: nat)
    ensures r == 0 <==> n == 0
    ensures n <= r * ResourcesPerPage
    ensures n > 0 ==> (r - 1) * ResourcesPerPage < n
  {
    (n + ResourcesPerPage - 1) / ResourcesPerPage
  }

  /** How `Array.prototype.slice` resolves one bound: negative counts from the end, then clamped. */
  function SliceBound(len: nat, k: int): (r: nat)
    ensures r <= len
  {
    if k < 0 then (if len + k < 0 then 0 else len + k)
    else if k > len then len
    else k
  }

  /** `s.slice(start, end)`. */
  function Slice<T>(s: seq<T>, start: int, end: int): seq<T>
  {
    var a := SliceBound(|s|, start);
    var b := SliceBound(|s|, end);
    if a < b then s[a..b] else []
  }

  /** `currentResources` for a page: the slice from `page * 12 - 12` to `page * 12`. */
  function PageItems(resources: seq<Resource>, page: int): (r: seq<Resource>)
    ensures |r| <= ResourcesPerPage
  {
    var last := page * ResourcesPerPage;
    Slice(resources, last - ResourcesPerPage, last)
  }

  /** For a page from 1 on: the items from `(page - 1) * 12` up to `page * 12`, cut off at the end. */
  lemma PageWindow(resources: seq<Resource>, page: int)
    requires page >= 1
    ensures var n := |resources|;
      PageItems(resources, page)
        == resources[Min((page - 1) * ResourcesPerPage, n)..Min(page * ResourcesPerPage, n)]
  {
  }

  /** A page past the last one is empty. */
  lemma PageBeyondLast(resources: seq<Resource>, page: int)
    requires page > TotalPages(|resources|)
    ensures PageItems(resources, page) == []
  {
  }

  /** Pages 1 to k, one after the other. */
  function ConcatPages(resources: seq<Resource>, k: nat): seq<Resource>
  {
    if k == 0 then [] else ConcatPages(resources, k - 1) + PageItems(resources, k)
  }

  lemma {:induction false} ConcatPagesIsPrefix(resources: seq<Resource>, k: nat)
    ensures ConcatPages(resources, k) == resources[..Min(k * ResourcesPerPage, |resources|)]
  {
    if k > 0 {
      ConcatPagesIsPrefix(resources, k - 1);
      PageWindow(resources, k);
      var n := |resources|;
      var a, b := Min((k - 1) * ResourcesPerPage, n), Min(k * ResourcesPerPage, n);
      assert resources[..a] + resources[a..b] == resources[..b];
    }
  }

  /** Reading pages 1 to `TotalPages` in order gives back the whole list. */
  lemma PagesCoverResources(resources: seq<Resource>)
    ensures ConcatPages(resources, TotalPages(|resources|)) == resources
  {
    ConcatPagesIsPrefix(resources, TotalPages(|resources|));
  }

  /** What the grid renders. */
  datatype GridView =
    | LoadingView
    | ErrorView(message: string)
    | EmptyView
    | CardsView(cards: seq<Resource>, showPagination: bool)

  /** A non-empty error string is truthy. */
  predicate ErrorShown(error: Option<string>)
  {
    error.Some? && error.value != ""
  }

  /** The early returns of the component: loading, then error, then empty, then the cards. */
  function SelectView(resources: seq<Resource>, isLoading: bool, error: Option<string>, page: int): (v: GridView)
    ensures v.LoadingView? <==> isLoading
    ensures v.ErrorView? <==> !isLoading && ErrorShown(error)
    ensures v.ErrorView? ==> v.message == error.value
    ensures v.EmptyView? <==> !isLoading && !ErrorShown(error) && |resources| == 0
    ensures v.CardsView? ==> v.cards == PageItems(resources, page)
    ensures v.CardsView? ==> (v.showPagination <==> TotalPages(|resources|) > 1)
  {
    if isLoading then LoadingView
    else if ErrorShown(error) then ErrorView(error.value)
    else if |resources| == 0 then EmptyView
    else CardsView(PageItems(resources, page), TotalPages(|resources|) > 1)
  }

  /**
    The page is not reset when the list shrinks: on page 2, a list cut to at most
    twelve items shows no cards and no pagination bar to go back with.
   */
  lemma ShrunkListStrandsPage(resources: seq<Resource>)
    requires 0 < |resources| <= ResourcesPerPage
    ensures SelectView(resources, false, None, 2) == CardsView([], false)
  {
    PageBeyondLast(resources, 2);
  }

  class ResourceGrid {
    var resources: seq<Resource>
    var currentPage: int

    /** The page never drops below 1. */
    ghost predicate Valid()
      reads this
    {
      currentPage >= 1
    }

    constructor (resources: seq<Resource>)
      ensures Valid()
      ensures this.resources == resources && currentPage == 1
    {
      this.resources := resources;
      currentPage := 1;
    }

    /** A new `resources` prop; the page is kept. */
    method ReceiveResources(rs: seq<Resource>)
      modifies this
      ensures resources == rs && currentPage == old(currentPage)
    {
      resources := rs;
    }

    /** `handlePageChange` (the scroll to the top is left out). */
    method HandlePageChange(page: int)
      modifies this
      ensures resources == old(resources) && currentPage == page
    {
      currentPage := page;
    }

    /** Previous: moves back only from a page after the first. */
    method HandlePrevious()
      modifies this
      ensures resources == old(resources)
      ensures currentPage == if old(currentPage) > 1 then old(currentPage) - 1 else old(currentPage)
      ensures old(Valid()) ==> Valid()
    {
      if currentPage > 1 {
        HandlePageChange(currentPage - 1);
      }
    }

    /** Next: moves on only from a page before the last. */
    method HandleNext()
      modifies this
      ensures resources == old(resources)
      ensures currentPage == if old(currentPage) < TotalPages(|resources|) then old(currentPage) + 1 else old(currentPage)
      ensures old(Valid()) ==> Valid()
    {
      if currentPage < TotalPages(|resources|) {
        HandlePageChange(currentPage + 1);
      }
    }

    /** The page link at position `index` (from 0) goes to page `index + 1`. */
    method HandlePageLink(index: nat)
      modifies this
      ensures resources == old(resources) && currentPage == index + 1
      ensures Valid()
    {
      HandlePageChange(index + 1);
    }

    /** `currentResources`: the slice for the current page. */
    function CurrentResources(): seq<Resource>
      reads this
    {
      PageItems(resources, currentPage)
    }

    /** What the component renders for the given loading flag and error prop. */
    function View(isLoading: bool, error: Option<string>): GridView
      reads this
    {
      SelectView(resources, isLoading, error, currentPage)
    }

    /** Since the page is at least 1, the cards shown are the current page's window of the list. */
    lemma CurrentPageWindow()
      requires Valid()
      ensures var n := |resources|;
        CurrentResources()
          == resources[Min((currentPage - 1) * ResourcesPerPage, n)..Min(currentPage * ResourcesPerPage, n)]
    {
      PageWindow(resources, currentPage);
    }
  }
}
