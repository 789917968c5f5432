/**
  The filter sidebar: three checklists with fixed ids, and the toggle handler
  that rewrites one list and reports the checked ids of that list to the page.
 */
module Sidebar {
  import opened Seqs

  datatype FilterOption = FilterOption(id: string, displayLabel: string, checked: bool)

  const InitialBranchOptions: seq<FilterOption> := [
    FilterOption("cs", "Computer Science", false),
    FilterOption("mechanical", "Mechanical", false),
    FilterOption("electrical", "Electrical", false),
    FilterOption("civil", "Civil", false)]

  const InitialYearOptions: seq<FilterOption> := [
    FilterOption("1", "1st Year", false),
    FilterOption("2", "2nd Year", false),
    FilterOption("3", "3rd Year", false),
    FilterOption("4", "4th Year", false)]

  const InitialTypeOptions: seq<FilterOption> := [
    FilterOption("notes", "Notes", false),
    FilterOption("papers", "Question Papers", false),
    FilterOption("books", "Books", false)]

  /** The `filterType` strings the three checklists pass to the handler. */
  const BranchAxis: string := "branch"
  const YearAxis: string := "year"
  const ResourceTypeAxis: string := "resourceType"

  function Ids(opts: seq<FilterOption>): seq<string>
  {
    seq(|opts|, i requires 0 <= i < |opts| => opts[i].id)
  }

  predicate DistinctIds(opts: seq<FilterOption>)
  {
    forall i, j :: 0 <= i < j < |opts| ==> opts[i].id != opts[j].id
  }

  predicate NoneChecked(opts: seq<FilterOption>)
  {
    forall i :: 0 <= i < |opts| ==> !opts[i].checked
  }

  predicate NoDuplicates(s: seq<string>)
  {
    forall i, j :: 0 <= i < j < |s| ==> s[i] != s[j]
  }

  /** The three lists start with 4, 4 and 3 distinct fixed ids, none checked. */
  lemma InitialOptions()
    ensures Ids(InitialBranchOptions) == ["cs", "mechanical", "electrical", "civil"]
    ensures Ids(InitialYearOptions) == ["1", "2", "3", "4"]
    ensures Ids(InitialTypeOptions) == ["notes", "papers", "books"]
    ensures DistinctIds(InitialBranchOptions) && DistinctIds(InitialYearOptions) && DistinctIds(InitialTypeOptions)
    ensures NoneChecked(InitialBranchOptions) && NoneChecked(InitialYearOptions) && NoneChecked(InitialTypeOptions)
  {
  }

  /**
    `opts.map(o => o.id === filterId ? { ...o, checked } : o)`: only the `checked`
    field of the options with that id changes.
   */
  function SetChecked(opts: seq<FilterOption>, filterId: string, checked: bool): (r: seq<FilterOption>)
    ensures |r| == |opts|
    ensures forall i :: 0 <= i < |r| ==> r[i].id == opts[i].id && r[i].displayLabel == opts[i].displayLabel
    ensures forall i :: 0 <= i < |r| ==> r[i].checked == (if opts[i].id == filterId then checked else opts[i].checked)
  {
    if opts == [] then []
    else
      var head := if opts[0].id == filterId then opts[0].(checked := checked) else opts[0];
      var tail := SetChecked(opts[1..], filterId, checked);
      assert forall i :: 1 <= i < |opts| ==> opts[i] == opts[1..][i - 1];
      [head] + tail
  }

  /** `opts.filter(o => o.checked).map(o => o.id)`. */
  function CheckedIds(opts: seq<FilterOption>): (r: seq<string>)
    ensures forall x :: x in r <==> exists i :: 0 <= i < |opts| && opts[i].checked && opts[i].id == x
  {
    if opts == [] then []
    else
      var rest := CheckedIds(opts[1..]);
      assert forall i :: 1 <= i < |opts| ==> opts[i] == opts[1..][i - 1];
      (if opts[0].checked then [opts[0].id] else []) + rest
  }

  /** The reported ids come in the order the options are declared. */
  lemma {:induction false} CheckedIdsInOrder(opts: seq<FilterOption>)
    ensures IsSubsequence(CheckedIds(opts), Ids(opts))
  {
    if opts != [] {
      CheckedIdsInOrder(opts[1..]);
      var r := CheckedIds(opts);
      var rest := CheckedIds(opts[1..]);
      assert Ids(opts)[0] == opts[0].id;
      assert Ids(opts)[1..] == Ids(opts[1..]);
      if opts[0].checked {
        assert r[0] == opts[0].id && r[1..] == rest;
      } else {
        assert r == rest;
        if r != [] && r[0] == opts[0].id {
          SubsequenceOfTail(r, Ids(opts));
        }
      }
    }
  }

  /** With distinct ids, no id is reported twice. */
  lemma {:induction false} CheckedIdsDistinct(opts: seq<FilterOption>)
    requires DistinctIds(opts)
    ensures NoDuplicates(CheckedIds(opts))
  {
    if opts != [] {
      var rest := CheckedIds(opts[1..]);
      assert DistinctIds(opts[1..]) by {
        forall i, j | 0 <= i < j < |opts| - 1 ensures opts[1..][i].id != opts[1..][j].id {
          assert opts[1..][i] == opts[i + 1] && opts[1..][j] == opts[j + 1];
        }
      }
      CheckedIdsDistinct(opts[1..]);
      if opts[0].checked {
        assert opts[0].id !in rest by {
          forall i | 0 <= i < |opts| - 1 ensures opts[1..][i].id != opts[0].id {
            assert opts[1..][i] == opts[i + 1];
          }
        }
        var r := CheckedIds(opts);
        assert r == [opts[0].id] + rest;
        forall i, j | 0 <= i < j < |r| ensures r[i] != r[j] {
          if i == 0 {
            assert r[j] == rest[j - 1];
            assert rest[j - 1] in rest;
          } else {
            assert r[i] == rest[i - 1] && r[j] == rest[j - 1];
          }
        }
      }
    }
  }

  /** Setting an option to the value it already has changes nothing. */
  lemma SetCheckedToCurrentValue(opts: seq<FilterOption>, filterId: string, checked: bool)
    requires forall i :: 0 <= i < |opts| && opts[i].id == filterId ==> opts[i].checked == checked
    ensures SetChecked(opts, filterId, checked) == opts
  {
    var r := SetChecked(opts, filterId, checked);
    forall i | 0 <= i < |opts| ensures r[i] == opts[i] {
    }
  }

  /** Of two toggles of the same id, the second decides. */
  lemma SetCheckedLastWins(opts: seq<FilterOption>, filterId: string, first: bool, second: bool)
    ensures SetChecked(SetChecked(opts, filterId, first), filterId, second) == SetChecked(opts, filterId, second)
  {
    var a := SetChecked(SetChecked(opts, filterId, first), filterId, second);
    var b := SetChecked(opts, filterId, second);
    forall i | 0 <= i < |opts| ensures a[i] == b[i] {
    }
  }

  /** Checking an unchecked id and then unchecking it restores the list. */
  lemma CheckThenUncheck(opts: seq<FilterOption>, filterId: string)
    requires forall i :: 0 <= i < |opts| && opts[i].id == filterId ==> !opts[i].checked
    ensures SetChecked(SetChecked(opts, filterId, true), filterId, false) == opts
  {
    SetCheckedLastWins(opts, filterId, true, false);
    SetCheckedToCurrentValue(opts, filterId, false);
  }

  /** Ids are distinct in any list that carries the same ids as a list where they are. */
  lemma SameIdsDistinct(a: seq<FilterOption>, b: seq<FilterOption>)
    requires Ids(a) == Ids(b) && DistinctIds(b)
    ensures DistinctIds(a)
  {
    forall i, j | 0 <= i < j < |a| ensures a[i].id != a[j].id {
      assert Ids(a)[i] == a[i].id && Ids(b)[i] == b[i].id;
      assert Ids(a)[j] == a[j].id && Ids(b)[j] == b[j].id;
    }
  }

  /** The ids a toggle reports for a list with fixed ids: declaration order, no repeats. */
  lemma ReportedIds(opts: seq<FilterOption>, initial: seq<FilterOption>)
    requires Ids(opts) == Ids(initial) && DistinctIds(initial)
    ensures IsSubsequence(CheckedIds(opts), Ids(initial))
    ensures NoDuplicates(CheckedIds(opts))
  {
    CheckedIdsInOrder(opts);
    SameIdsDistinct(opts, initial);
    CheckedIdsDistinct(opts);
  }

  datatype SidebarState = SidebarState(
    branchFilters: seq<FilterOption>,
    yearFilters: seq<FilterOption>,
    resourceTypeFilters: seq<FilterOption>)

  class FilterSidebar {
    var branchFilters: seq<FilterOption>
    var yearFilters: seq<FilterOption>
    var resourceTypeFilters: seq<FilterOption>

    function State(): SidebarState
      reads this
    {
      SidebarState(branchFilters, yearFilters, resourceTypeFilters)
    }

    /** Each list keeps the ids it was declared with. */
    ghost predicate Valid()
      reads this
    {
      && Ids(branchFilters) == Ids(InitialBranchOptions)
      && Ids(yearFilters) == Ids(InitialYearOptions)
      && Ids(resourceTypeFilters) == Ids(InitialTypeOptions)
    }

    constructor ()
      ensures Valid()
      ensures State() == SidebarState(InitialBranchOptions, InitialYearOptions, InitialTypeOptions)
    {
      branchFilters := InitialBranchOptions;
      yearFilters := InitialYearOptions;
      resourceTypeFilters := InitialTypeOptions;
    }

    /**
      The checkbox handler: rewrites the list the `switch` selects and returns what
      it passes to `onFilterChange`, the checked ids of that list (none for an unknown axis).
     */
    method HandleFilterChange(filterType: string, filterId: string, checked: bool) returns (emitted: seq<string>)
      modifies this
      ensures filterType == BranchAxis ==>
        State() == old(State()).(branchFilters := SetChecked(old(branchFilters), filterId, checked))
        && emitted == CheckedIds(branchFilters)
      ensures filterType == YearAxis ==>
        State() == old(State()).(yearFilters := SetChecked(old(yearFilters), filterId, checked))
        && emitted == CheckedIds(yearFilters)
      ensures filterType == ResourceTypeAxis ==>
        State() == old(State()).(resourceTypeFilters := SetChecked(old(resourceTypeFilters), filterId, checked))
        && emitted == CheckedIds(resourceTypeFilters)
      ensures filterType != BranchAxis && filterType != YearAxis && filterType != ResourceTypeAxis ==>
        State() == old(State()) && emitted == []
      ensures old(Valid()) ==> Valid()
      ensures old(Valid()) && filterType == BranchAxis ==> IsSubsequence(emitted, Ids(InitialBranchOptions))
      ensures old(Valid()) && filterType == YearAxis ==> IsSubsequence(emitted, Ids(InitialYearOptions))
      ensures old(Valid()) && filterType == ResourceTypeAxis ==> IsSubsequence(emitted, Ids(InitialTypeOptions))
      ensures old(Valid()) ==> NoDuplicates(emitted)
    {
      var updated: seq<FilterOption> := [];
      if filterType == BranchAxis {
        updated := SetChecked(branchFilters, filterId, checked);
        branchFilters := updated;
      } else if filterType == YearAxis {
        updated := SetChecked(yearFilters, filterId, checked);
        yearFilters := updated;
      } else if filterType == ResourceTypeAxis {
        updated := SetChecked(resourceTypeFilters, filterId, checked);
        resourceTypeFilters := updated;
      }
      emitted := CheckedIds(updated);
      if old(Valid()) {
        InitialOptions();
        if filterType == BranchAxis {
          ReportedIds(updated, InitialBranchOptions);
        } else if filterType == YearAxis {
          ReportedIds(updated, InitialYearOptions);
        } else if filterType == ResourceTypeAxis {
          ReportedIds(updated, InitialTypeOptions);
        }
      }
    }
  }

  /** Checking and then unchecking the same id restores the sidebar. */
  method CheckThenUncheckRestores(s: FilterSidebar, filterType: string, filterId: string)
    requires filterType == BranchAxis ==> forall i :: 0 <= i < |s.branchFilters| && s.branchFilters[i].id == filterId ==> !s.branchFilters[i].checked
    requires filterType == YearAxis ==> forall i :: 0 <= i < |s.yearFilters| && s.yearFilters[i].id == filterId ==> !s.yearFilters[i].checked
    requires filterType == ResourceTypeAxis ==>
      forall i :: 0 <= i < |s.resourceTypeFilters| && s.resourceTypeFilters[i].id == filterId ==> !s.resourceTypeFilters[i].checked
    modifies s
    ensures s.State() == old(s.State())
  {
    var b, y, t := s.branchFilters, s.yearFilters, s.resourceTypeFilters;
    var _ := s.HandleFilterChange(filterType, filterId, true);
    var _ := s.HandleFilterChange(filterType, filterId, false);
    if filterType == BranchAxis {
      CheckThenUncheck(b, filterId);
    } else if filterType == YearAxis {
      CheckThenUncheck(y, filterId);
    } else if filterType == ResourceTypeAxis {
      CheckThenUncheck(t, filterId);
    }
  }
}
