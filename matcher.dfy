/**
  The resource matcher of the home page: the effect that narrows the catalog by
  the search query and then by the branch, year and resource-type selections.
 */
module Matcher {
  import opened Wrappers
  import opened Text
  import opened Seqs

  /** One catalog entry. `resourceType` is the source's `type` field. */
  datatype Resource = Resource(
    id: string,
    title: string,
    branch: string,
    year: string,
    resourceType: string,
    thumbnail: string,
    downloadUrl: string,
    pdfUrl: Option<string>)

  /**
    The home page's `activeFilters`. The source spreads it and writes the
    key it is given, so it is a dictionary, not a record with three fields.
   */
  type Filters = map<string, seq<string>>

  const BranchesKey: string := "branches"
  const YearsKey: string := "years"
  const ResourceTypesKey: string := "resourceTypes"

  /** The state the home page starts with: three empty axes. */
  const InitialFilters: Filters := map[BranchesKey := [], YearsKey := [], ResourceTypesKey := []]

  /** The codes selected on one axis; a key that is absent selects nothing. */
  function Codes(f: Filters, key: string): seq<string>
  {
    if key in f then f[key] else []
  }

  // The three code-to-label tables of the matcher.
  const BranchMap: map<string, string> :=
    map["cs" := "Computer Science", "mechanical" := "Mechanical",
        "electrical" := "Electrical", "civil" := "Civil"]
  const YearMap: map<string, string> :=
    map["1" := "1st Year", "2" := "2nd Year", "3" := "3rd Year", "4" := "4th Year"]
  const TypeMap: map<string, string> :=
    map["notes" := "Notes", "papers" := "Question Papers", "books" := "Books"]

  /** `table[code]?.toLowerCase() || code.toLowerCase()`: an empty or missing label falls back to the code. */
  function LoweredNeedle(table: map<string, string>, code: string): string
  {
    var mapped := if code in table then Lower(table[code]) else "";
    if mapped != "" then mapped else Lower(code)
  }

  /** `table[code] || code`: the year axis does not lower-case. */
  function RawNeedle(table: map<string, string>, code: string): string
  {
    if code in table && table[code] != "" then table[code] else code
  }

  /** The search test, with the query lower-cased but not trimmed. */
  predicate MatchesQuery(r: Resource, q: string)
  {
    var needle := Lower(q);
    Contains(Lower(r.title), needle) || Contains(Lower(r.branch), needle)
      || Contains(Lower(r.resourceType), needle)
  }

  /** Some selected branch code's label (or the code itself) occurs in the branch, ignoring case. */
  predicate MatchesBranch(r: Resource, codes: seq<string>)
  {
    exists i :: 0 <= i < |codes| && Contains(Lower(r.branch), LoweredNeedle(BranchMap, codes[i]))
  }

  /** Some selected year code's label (or the code itself) occurs in the year, case-sensitively. */
  predicate MatchesYear(r: Resource, codes: seq<string>)
  {
    exists i :: 0 <= i < |codes| && Contains(r.year, RawNeedle(YearMap, codes[i]))
  }

  /** Some selected type code's label (or the code itself) occurs in the type, ignoring case. */
  predicate MatchesType(r: Resource, codes: seq<string>)
  {
    exists i :: 0 <= i < |codes| && Contains(Lower(r.resourceType), LoweredNeedle(TypeMap, codes[i]))
  }

  function QueryTest(q: string): Resource -> bool
  {
    r => MatchesQuery(r, q)
  }

  function BranchTest(codes: seq<string>): Resource -> bool
  {
    r => MatchesBranch(r, codes)
  }

  function YearTest(codes: seq<string>): Resource -> bool
  {
    r => MatchesYear(r, codes)
  }

  function TypeTest(codes: seq<string>): Resource -> bool
  {
    r => MatchesType(r, codes)
  }

  // The four reassignments of the local `filtered`, each guarded as in the effect.

  function ByQuery(s: seq<Resource>, q: string): seq<Resource>
  {
    if Trim(q) != "" then Filter(QueryTest(q), s) else s
  }

  function ByBranch(s: seq<Resource>, f: Filters): seq<Resource>
  {
    var codes := Codes(f, BranchesKey);
    if |codes| > 0 then Filter(BranchTest(codes), s) else s
  }

  function ByYear(s: seq<Resource>, f: Filters): seq<Resource>
  {
    var codes := Codes(f, YearsKey);
    if |codes| > 0 then Filter(YearTest(codes), s) else s
  }

  function ByType(s: seq<Resource>, f: Filters): seq<Resource>
  {
    var codes := Codes(f, ResourceTypesKey);
    if |codes| > 0 then Filter(TypeTest(codes), s) else s
  }

  /** The effect's output, `filteredResources`. */
  function Matcher(resources: seq<Resource>, q: string, f: Filters): seq<Resource>
  {
    ByType(ByYear(ByBranch(ByQuery(resources, q), f), f), f)
  }

  // The declarative reading of the matcher: AND across the query and the three
  // axes, OR within an axis; a blank query or an empty axis constrains nothing.

  predicate PassesQuery(r: Resource, q: string)
  {
    IsBlank(q) || MatchesQuery(r, q)
  }

  predicate PassesBranch(r: Resource, f: Filters)
  {
    Codes(f, BranchesKey) == [] || MatchesBranch(r, Codes(f, BranchesKey))
  }

  predicate PassesYear(r: Resource, f: Filters)
  {
    Codes(f, YearsKey) == [] || MatchesYear(r, Codes(f, YearsKey))
  }

  predicate PassesType(r: Resource, f: Filters)
  {
    Codes(f, ResourceTypesKey) == [] || MatchesType(r, Codes(f, ResourceTypesKey))
  }

  predicate Survives(r: Resource, q: string, f: Filters)
  {
    PassesQuery(r, q) && PassesBranch(r, f) && PassesYear(r, f) && PassesType(r, f)
  }

  function SurvivesTest(q: string, f: Filters): Resource -> bool
  {
    r => Survives(r, q, f)
  }

  /** `if (c) s = s.filter(p)` is one filter with the test `!c || p`. */
  lemma GuardedStage(c: bool, p: Resource -> bool, g: Resource -> bool, s: seq<Resource>)
    requires forall x :: g(x) == (!c || p(x))
    ensures (if c then Filter(p, s) else s) == Filter(g, s)
  {
    if c {
      FilterExt(p, g, s);
    } else {
      FilterAll(g, s);
    }
  }

  lemma ByQueryIsFilter(s: seq<Resource>, q: string)
    ensures ByQuery(s, q) == Filter((r: Resource) => PassesQuery(r, q), s)
  {
    TrimEmptyIffBlank(q);
    GuardedStage(Trim(q) != "", QueryTest(q), (r: Resource) => PassesQuery(r, q), s);
  }

  /** The staged pipeline is a single filter by `Survives`. */
  lemma MatcherIsFilter(resources: seq<Resource>, q: string, f: Filters)
    ensures Matcher(resources, q, f) == Filter(SurvivesTest(q, f), resources)
  {
    var g1 := (r: Resource) => PassesQuery(r, q);
    var g2 := (r: Resource) => PassesBranch(r, f);
    var g3 := (r: Resource) => PassesYear(r, f);
    var g4 := (r: Resource) => PassesType(r, f);
    var g12 := (r: Resource) => PassesQuery(r, q) && PassesBranch(r, f);
    var g123 := (r: Resource) => PassesQuery(r, q) && PassesBranch(r, f) && PassesYear(r, f);
    var s1 := ByQuery(resources, q);
    ByQueryIsFilter(resources, q);
    var s2 := ByBranch(s1, f);
    assert s2 == Filter(g12, resources) by {
      var codes := Codes(f, BranchesKey);
      GuardedStage(|codes| > 0, BranchTest(codes), g2, s1);
      FilterCompose(g1, g2, g12, resources);
    }
    var s3 := ByYear(s2, f);
    assert s3 == Filter(g123, resources) by {
      var codes := Codes(f, YearsKey);
      GuardedStage(|codes| > 0, YearTest(codes), g3, s2);
      FilterCompose(g12, g3, g123, resources);
    }
    assert ByType(s3, f) == Filter(SurvivesTest(q, f), resources) by {
      var codes := Codes(f, ResourceTypesKey);
      GuardedStage(|codes| > 0, TypeTest(codes), g4, s3);
      FilterCompose(g123, g4, SurvivesTest(q, f), resources);
    }
  }

  /** A resource is in the output exactly when it is in the catalog and passes every stage. */
  lemma MatcherMembers(resources: seq<Resource>, q: string, f: Filters, r: Resource)
    ensures r in Matcher(resources, q, f) <==> r in resources && Survives(r, q, f)
  {
    MatcherIsFilter(resources, q, f);
  }

  /** The output keeps the catalog's order: it is a subsequence of it. */
  lemma MatcherPreservesOrder(resources: seq<Resource>, q: string, f: Filters)
    ensures IsSubsequence(Matcher(resources, q, f), resources)
  {
    MatcherIsFilter(resources, q, f);
    FilterIsSubsequence(SurvivesTest(q, f), resources);
  }

  /** Running the matcher on its own output with the same inputs changes nothing. */
  lemma MatcherIdempotent(resources: seq<Resource>, q: string, f: Filters)
    ensures Matcher(Matcher(resources, q, f), q, f) == Matcher(resources, q, f)
  {
    MatcherIsFilter(resources, q, f);
    MatcherIsFilter(Matcher(resources, q, f), q, f);
    FilterIdempotent(SurvivesTest(q, f), resources);
  }

  /** A white-space-only query and three empty (or absent) axes return the catalog itself. */
  lemma MatcherIdentity(resources: seq<Resource>, q: string, f: Filters)
    requires IsBlank(q)
    requires Codes(f, BranchesKey) == [] && Codes(f, YearsKey) == [] && Codes(f, ResourceTypesKey) == []
    ensures Matcher(resources, q, f) == resources
  {
    TrimEmptyIffBlank(q);
  }

  /**
    With a query that is not blank, every survivor contains the lower-cased,
    UNtrimmed query in its lower-cased title, branch or type.
   */
  lemma QueryNarrows(resources: seq<Resource>, q: string, f: Filters, r: Resource)
    requires !IsBlank(q) && r in Matcher(resources, q, f)
    ensures Contains(Lower(r.title), Lower(q)) || Contains(Lower(r.branch), Lower(q))
      || Contains(Lower(r.resourceType), Lower(q))
  {
    MatcherMembers(resources, q, f, r);
  }

  /** A query that begins with `q1` accepts only what `q1` accepts. */
  lemma {:induction false} LongerQueryPassesShorter(r: Resource, q1: string, q2: string)
    requires |q1| <= |q2| && q2[..|q1|] == q1
    requires PassesQuery(r, q2)
    ensures PassesQuery(r, q1)
  {
    if !IsBlank(q1) {
      var k :| 0 <= k < |q1| && !IsWhiteSpace(q1[k]);
      assert q2[k] == q1[k];
      assert !IsBlank(q2);
      LowerPrefix(q1, q2);
      var n1, n2 := Lower(q1), Lower(q2);
      if Contains(Lower(r.title), n2) {
        ContainsPrefix(Lower(r.title), n1, n2);
      } else if Contains(Lower(r.branch), n2) {
        ContainsPrefix(Lower(r.branch), n1, n2);
      } else {
        ContainsPrefix(Lower(r.resourceType), n1, n2);
      }
    }
  }

  /**
    Typing more characters only narrows the result: with a query that extends
    `q1`, the output is a subsequence of the output for `q1`.
   */
  lemma MatcherNarrowsWithLongerQuery(resources: seq<Resource>, q1: string, q2: string, f: Filters)
    requires |q1| <= |q2| && q2[..|q1|] == q1
    ensures IsSubsequence(Matcher(resources, q2, f), Matcher(resources, q1, f))
  {
    var p1, p2 := SurvivesTest(q1, f), SurvivesTest(q2, f);
    MatcherIsFilter(resources, q1, f);
    MatcherIsFilter(resources, q2, f);
    forall x ensures p2(x) == (p1(x) && p2(x)) {
      if p2(x) {
        LongerQueryPassesShorter(x, q1, q2);
      }
    }
    FilterCompose(p1, p2, p2, resources);
    FilterIsSubsequence(p2, Filter(p1, resources));
  }

  /** Every label in the three tables is non-empty, so a mapped code is never replaced by itself. */
  lemma LabelsNonEmpty(table: map<string, string>, code: string)
    requires table == BranchMap || table == YearMap || table == TypeMap
    requires code in table
    ensures table[code] != ""
  {
  }

  /**
    The branch axis: a resource passes when its lower-cased branch contains the
    lower-cased label of some selected code, or the lower-cased code when it has no label.
   */
  lemma BranchAxisMeaning(r: Resource, codes: seq<string>)
    ensures MatchesBranch(r, codes) <==>
      exists i ::
        && 0 <= i < |codes|
        && Contains(Lower(r.branch), if codes[i] in BranchMap then Lower(BranchMap[codes[i]]) else Lower(codes[i]))
  {
    forall i | 0 <= i < |codes| && codes[i] in BranchMap
      ensures LoweredNeedle(BranchMap, codes[i]) == Lower(BranchMap[codes[i]])
    {
      LabelsNonEmpty(BranchMap, codes[i]);
    }
  }

  /** The resource-type axis: as the branch axis, with the type table. */
  lemma TypeAxisMeaning(r: Resource, codes: seq<string>)
    ensures MatchesType(r, codes) <==>
      exists i ::
        && 0 <= i < |codes|
        && Contains(Lower(r.resourceType), if codes[i] in TypeMap then Lower(TypeMap[codes[i]]) else Lower(codes[i]))
  {
    forall i | 0 <= i < |codes| && codes[i] in TypeMap
      ensures LoweredNeedle(TypeMap, codes[i]) == Lower(TypeMap[codes[i]])
    {
      LabelsNonEmpty(TypeMap, codes[i]);
    }
  }

  /** The year axis: the year must contain the label (or the code) exactly, with its case. */
  lemma YearAxisMeaning(r: Resource, codes: seq<string>)
    ensures MatchesYear(r, codes) <==>
      exists i ::
        && 0 <= i < |codes|
        && Contains(r.year, if codes[i] in YearMap then YearMap[codes[i]] else codes[i])
  {
    forall i | 0 <= i < |codes| && codes[i] in YearMap
      ensures RawNeedle(YearMap, codes[i]) == YearMap[codes[i]]
    {
      LabelsNonEmpty(YearMap, codes[i]);
    }
  }

  /** "Y1" with the unmapped code "y1": the branch axis lets it through, the year axis does not. */
  lemma YearAxisIsCaseSensitive()
    ensures var r := Resource("id", "title", "Y1", "Y1", "type", "", "", None);
      MatchesBranch(r, ["y1"]) && !MatchesYear(r, ["y1"])
  {
    var r := Resource("id", "title", "Y1", "Y1", "type", "", "", None);
    assert Lower("Y1") == "y1" by {
      assert Lower("Y1")[0] == LowerChar('Y') == 'y';
      assert Lower("Y1")[1] == LowerChar('1') == '1';
    }
    assert Lower("y1") == "y1" by {
      assert Lower("y1")[0] == LowerChar('y') == 'y';
      assert Lower("y1")[1] == LowerChar('1') == '1';
    }
    ContainsSelf("y1");
    assert LoweredNeedle(BranchMap, ["y1"][0]) == "y1";
    assert Contains(Lower(r.branch), LoweredNeedle(BranchMap, ["y1"][0]));
    assert RawNeedle(YearMap, ["y1"][0]) == "y1";
    assert !Contains("Y1", "y1") by {
      forall i | 0 <= i <= 0 ensures !OccursAt("Y1", "y1", i) {
        assert "Y1"[i..i + 2][0] == 'Y';
      }
    }
  }

  /** The catalog with no stage active beyond the query: only the query decides. */
  lemma OnlyQueryActive(r: Resource, q: string)
    ensures Matcher([r], q, InitialFilters) == if PassesQuery(r, q) then [r] else []
  {
    MatcherIsFilter([r], q, InitialFilters);
    assert Codes(InitialFilters, BranchesKey) == [];
    assert Codes(InitialFilters, YearsKey) == [];
    assert Codes(InitialFilters, ResourceTypesKey) == [];
    var p := SurvivesTest(q, InitialFilters);
    assert p(r) == PassesQuery(r, q);
    FilterSingle(p, r);
  }

  /**
    The query is tested trimmed but matched untrimmed: " ab" is not blank, so it
    filters, and its leading space keeps it from matching a resource named "ab".
   */
  lemma QueryIsNotTrimmed()
    ensures var r := Resource("1", "ab", "ab", "2nd Year", "ab", "", "", None);
      Matcher([r], "ab", InitialFilters) == [r] && Matcher([r], " ab", InitialFilters) == []
  {
    var r := Resource("1", "ab", "ab", "2nd Year", "ab", "", "", None);
    assert !IsWhiteSpace(" ab"[1]);
    assert Lower("ab") == "ab" by {
      assert Lower("ab")[0] == LowerChar('a') == 'a';
      assert Lower("ab")[1] == LowerChar('b') == 'b';
    }
    ContainsSelf("ab");
    assert MatchesQuery(r, "ab");
    OnlyQueryActive(r, "ab");
    ContainsTooLong(Lower("ab"), Lower(" ab"));
    assert !MatchesQuery(r, " ab");
    OnlyQueryActive(r, " ab");
  }

  /** With only one branch code selected and no query, a resource survives exactly when its branch contains that code's needle. */
  lemma SingleBranchCode(r: Resource, code: string)
    ensures Survives(r, "", InitialFilters[BranchesKey := [code]]) <==>
      Contains(Lower(r.branch), LoweredNeedle(BranchMap, code))
  {
    var f := InitialFilters[BranchesKey := [code]];
    assert Codes(f, BranchesKey) == [code] && Codes(f, YearsKey) == [] && Codes(f, ResourceTypesKey) == [];
    assert IsBlank("");
    assert [code][0] == code;
  }

  /** Selecting the branch code "cs" keeps the Computer Science resource and drops the Mechanical one. */
  lemma BranchCodeScenario()
    ensures
      var cs := Resource("1", "DSA", "Computer Science", "2nd Year", "Notes", "", "", None);
      var me := Resource("2", "TD", "Mechanical", "1st Year", "Notes", "", "", None);
      Matcher([cs, me], "", InitialFilters[BranchesKey := ["cs"]]) == [cs]
  {
    var cs := Resource("1", "DSA", "Computer Science", "2nd Year", "Notes", "", "", None);
    var me := Resource("2", "TD", "Mechanical", "1st Year", "Notes", "", "", None);
    var f := InitialFilters[BranchesKey := ["cs"]];
    var needle := LoweredNeedle(BranchMap, "cs");
    assert needle == Lower("Computer Science") && |needle| == 16 by {
      LabelsNonEmpty(BranchMap, "cs");
    }
    SingleBranchCode(cs, "cs");
    SingleBranchCode(me, "cs");
    ContainsSelf(needle);
    assert |Lower("Mechanical")| == 10;
    ContainsTooLong(Lower("Mechanical"), needle);
    var p := SurvivesTest("", f);
    assert p(cs) && !p(me);
    MatcherIsFilter([cs, me], "", f);
    FilterFirstOfTwo(p, cs, me);
  }
}
