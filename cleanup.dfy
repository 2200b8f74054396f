/**
 * 05_cleanup.py: which listed spaces count as test spaces, and the
 * drop-table-else-drop-view rule for the objects the examples create. Listing,
 * deleting, the confirmation prompt and the statement service are left out;
 * the service's answers come from a caller-supplied function.
 */
module Cleanup {
  import opened Wrappers
  import opened Lists
  import opened SpaceDoc
  import RunTests
  import Metrics
  import ManageDataSources
  import Context
  import Demo

  /** An entry of the `spaces` list of `GET /api/2.0/genie/spaces`; `title` may be absent. */
  datatype SpaceSummary = SpaceSummary(title: Option<string>, rest: map<string, Json>)

  /** The listing response; its `spaces` key may be absent. */
  datatype SpaceList = SpaceList(spaces: Option<seq<SpaceSummary>>)

  /** The keywords of `find_test_spaces`, in order. */
  const TestKeywords: seq<string> := [
    "Test Metrics Space",
    "Test Data Sources Space",
    "Test Permissions Space",
    "Test Context Space",
    "Finance Metrics Space",
    "Finance Data Space",
    "Finance Analytics Space",
    "Genie API Examples",
    "Genie API Demo"]

  /** `str.lower()` on one character, for ASCII letters. */
  function LowerChar(c: char): char {
    if 'A' <= c <= 'Z' then (c as int + 32) as char else c
  }

  /** `str.lower()`, for ASCII letters. */
  function Lower(s: string): (r: string)
    ensures |r| == |s|
    ensures forall i :: 0 <= i < |s| ==> r[i] == LowerChar(s[i])
  {
    seq(|s|, i requires 0 <= i < |s| => LowerChar(s[i]))
  }

  lemma LowerConcat(a: string, b: string)
    ensures Lower(a + b) == Lower(a) + Lower(b)
  {
    assert forall i :: 0 <= i < |a| ==> (a + b)[i] == a[i];
    assert forall i :: |a| <= i < |a| + |b| ==> (a + b)[i] == b[i - |a|];
  }

  /** `needle in hay` for strings: `needle` occurs in `hay` as a contiguous piece. */
  predicate Contains(hay: string, needle: string) {
    (|needle| <= |hay| && hay[..|needle|] == needle) || (hay != [] && Contains(hay[1..], needle))
  }

  /** `needle` occurs in `hay` starting at position `i`. */
  predicate OccursAt(hay: string, needle: string, i: int) {
    0 <= i && i + |needle| <= |hay| && hay[i..i + |needle|] == needle
  }

  /** `Contains` is occurrence at some position. */
  lemma {:induction false} ContainsAt(hay: string, needle: string)
    ensures Contains(hay, needle) <==> exists i :: OccursAt(hay, needle, i)
  {
    if |needle| <= |hay| && hay[..|needle|] == needle {
      assert OccursAt(hay, needle, 0);
    } else if hay == [] {
    } else {
      ContainsAt(hay[1..], needle);
      if exists i :: OccursAt(hay, needle, i) {
        var i :| OccursAt(hay, needle, i);
        assert i != 0;
        assert hay[1..][i - 1..i - 1 + |needle|] == hay[i..i + |needle|];
        assert OccursAt(hay[1..], needle, i - 1);
      }
      if exists j :: OccursAt(hay[1..], needle, j) {
        var j :| OccursAt(hay[1..], needle, j);
        assert hay[j + 1..j + 1 + |needle|] == hay[1..][j..j + |needle|];
        assert OccursAt(hay, needle, j + 1);
      }
    }
  }

  /** `any(kw.lower() in title for kw in keywords)`, with `title` already lower-cased. */
  predicate AnyKeywordIn(title: string, keywords: seq<string>) {
    keywords != [] && (Contains(title, Lower(keywords[0])) || AnyKeywordIn(title, keywords[1..]))
  }

  lemma {:induction false} AnyKeywordInIff(title: string, keywords: seq<string>)
    ensures AnyKeywordIn(title, keywords) <==> exists k :: 0 <= k < |keywords| && Contains(title, Lower(keywords[k]))
  {
    if keywords != [] {
      AnyKeywordInIff(title, keywords[1..]);
      if exists k :: 0 <= k < |keywords| && Contains(title, Lower(keywords[k])) {
        var k :| 0 <= k < |keywords| && Contains(title, Lower(keywords[k]));
        if k > 0 {
          assert keywords[1..][k - 1] == keywords[k];
        }
      }
      if AnyKeywordIn(title, keywords[1..]) {
        var k :| 0 <= k < |keywords[1..]| && Contains(title, Lower(keywords[1..][k]));
        assert keywords[k + 1] == keywords[1..][k];
      }
    }
  }

  /** The selection rule: some keyword occurs in the title, ignoring case; a missing title reads as "". */
  predicate IsTestSpace(s: SpaceSummary) {
    AnyKeywordIn(Lower(s.title.GetOr("")), TestKeywords)
  }

  /** `spaces.get("spaces", [])` */
  function SpacesOf(response: SpaceList): seq<SpaceSummary> {
    response.spaces.GetOr([])
  }

  /** The loop of `find_test_spaces` over the listing it fetched. */
  method FindTestSpaces(response: SpaceList) returns (matches: seq<SpaceSummary>)
    ensures matches == Filter(SpacesOf(response), IsTestSpace)
  {
    var spaces := SpacesOf(response);
    matches := [];
    var i := 0;
    while i < |spaces|
      invariant 0 <= i <= |spaces|
      invariant matches == Filter(spaces[..i], IsTestSpace)
    {
      FilterSnoc(spaces[..i], spaces[i], IsTestSpace);
      assert Filter([spaces[i]], IsTestSpace) == if IsTestSpace(spaces[i]) then [spaces[i]] else [];
      assert spaces[..i + 1] == spaces[..i] + [spaces[i]];
      if IsTestSpace(spaces[i]) {
        matches := matches + [spaces[i]];
      }
      i := i + 1;
    }
    assert spaces[..|spaces|] == spaces;
  }

  /**
   * The result is exactly the listed spaces whose title contains some
   * keyword, ignoring case: in listing order, each kept as often as it was
   * listed and never more.
   */
  lemma FindTestSpacesSpec(response: SpaceList)
    ensures var r := Filter(SpacesOf(response), IsTestSpace);
      && IsSubsequence(r, SpacesOf(response))
      && (forall s :: s in r <==> s in SpacesOf(response) && IsTestSpace(s))
      && (forall s :: multiset(r)[s] == if IsTestSpace(s) then multiset(SpacesOf(response))[s] else 0)
      && (forall s :: s in r ==> exists k :: 0 <= k < |TestKeywords| && Contains(Lower(s.title.GetOr("")), Lower(TestKeywords[k])))
  {
    var r := Filter(SpacesOf(response), IsTestSpace);
    FilterIsSubsequence(SpacesOf(response), IsTestSpace);
    FilterCounts(SpacesOf(response), IsTestSpace);
    forall s ensures s in r <==> s in SpacesOf(response) && IsTestSpace(s) {
      assert s in r <==> multiset(r)[s] > 0;
      assert s in SpacesOf(response) <==> multiset(SpacesOf(response))[s] > 0;
    }
    forall s | s in r ensures exists k :: 0 <= k < |TestKeywords| && Contains(Lower(s.title.GetOr("")), Lower(TestKeywords[k])) {
      AnyKeywordInIff(Lower(s.title.GetOr("")), TestKeywords);
    }
  }

  /** A listing without `spaces` selects nothing. */
  lemma NoSpacesKey()
    ensures Filter(SpacesOf(SpaceList(None)), IsTestSpace) == []
  {
  }

  /** A missing title reads as "" and no keyword, all non-empty, occurs in it. */
  lemma MissingTitleNeverMatches(rest: map<string, Json>)
    ensures !IsTestSpace(SpaceSummary(None, rest))
  {
    assert forall k :: 0 <= k < |TestKeywords| ==> TestKeywords[k] != [];
    NothingInEmpty(TestKeywords);
  }

  lemma {:induction false} NothingInEmpty(keywords: seq<string>)
    requires forall k :: 0 <= k < |keywords| ==> keywords[k] != []
    ensures !AnyKeywordIn("", keywords)
  {
    if keywords != [] {
      assert |Lower(keywords[0])| > 0;
      NothingInEmpty(keywords[1..]);
    }
  }

  /** A title that starts with a keyword is selected, whatever follows it. */
  lemma KeywordPrefixSelected(k: nat, suffix: string, rest: map<string, Json>)
    requires k < |TestKeywords|
    ensures IsTestSpace(SpaceSummary(Some(TestKeywords[k] + suffix), rest))
  {
    var kw := TestKeywords[k];
    LowerConcat(kw, suffix);
    assert (Lower(kw) + Lower(suffix))[..|Lower(kw)|] == Lower(kw);
    AnyKeywordInIff(Lower(kw + suffix), TestKeywords);
  }

  /** Case is ignored: titles equal up to ASCII case are selected alike. */
  lemma CaseIgnored(a: SpaceSummary, b: SpaceSummary)
    requires Lower(a.title.GetOr("")) == Lower(b.title.GetOr(""))
    ensures IsTestSpace(a) <==> IsTestSpace(b)
  {
  }

  /** Each of the first seven keywords, used as a title, is selected. */
  lemma ScriptTitlesSelected(k: nat, rest: map<string, Json>)
    requires k < 7
    ensures IsTestSpace(SpaceSummary(Some(TestKeywords[k]), rest))
  {
    KeywordPrefixSelected(k, "", rest);
    assert TestKeywords[k] + "" == TestKeywords[k];
  }

  /** The titles under which the test runner creates its spaces are selected. */
  lemma RunnerTitlesSelected(rest: map<string, Json>)
    ensures IsTestSpace(SpaceSummary(Some(RunTests.MetricsTestTitle), rest))
    ensures IsTestSpace(SpaceSummary(Some(RunTests.DataSourcesTestTitle), rest))
    ensures IsTestSpace(SpaceSummary(Some(RunTests.PermissionsTestTitle), rest))
    ensures IsTestSpace(SpaceSummary(Some(RunTests.ContextTestTitle), rest))
  {
    ScriptTitlesSelected(0, rest);
    ScriptTitlesSelected(1, rest);
    ScriptTitlesSelected(2, rest);
    ScriptTitlesSelected(3, rest);
  }

  /** The titles of the create requests of 01_metrics.py, 02_data_sources.py and 04_context.py are selected. */
  lemma ExampleTitlesSelected(rest: map<string, Json>)
    ensures IsTestSpace(SpaceSummary(Some(Metrics.InlineMeasuresTitle), rest))
    ensures IsTestSpace(SpaceSummary(Some(ManageDataSources.FinanceDataTitle), rest))
    ensures IsTestSpace(SpaceSummary(Some(Context.FullContextTitle), rest))
  {
    ScriptTitlesSelected(4, rest);
    ScriptTitlesSelected(5, rest);
    ScriptTitlesSelected(6, rest);
  }

  /** The demo's spaces are selected: "Genie API Demo" starts each title. */
  lemma DemoTitlesSelected(rest: map<string, Json>)
    ensures IsTestSpace(SpaceSummary(Some(Demo.SpaceATitle), rest))
    ensures IsTestSpace(SpaceSummary(Some(Demo.MetricViewsTitle), rest))
    ensures IsTestSpace(SpaceSummary(Some(Demo.DataSourcesTitle), rest))
  {
    assert Demo.DemoTitlePrefix == TestKeywords[8];
    KeywordPrefixSelected(8, " — Inline Measures", rest);
    KeywordPrefixSelected(8, " — Metric Views", rest);
    KeywordPrefixSelected(8, " — Data Sources", rest);
  }

  // ---------------------------------------------------------------------------
  // Dropping tables and views
  // ---------------------------------------------------------------------------

  /** What the statement service answers: `status.state` may be absent at either level. */
  datatype StatementStatus = StatementStatus(state: Option<string>)
  datatype StatementResult = StatementResult(status: Option<StatementStatus>)

  /** `r.get("status", {}).get("state", "")` */
  function StateOf(r: StatementResult): string {
    if r.status.Some? then r.status.value.state.GetOr("") else ""
  }

  /** The objects the examples create, in the order they are dropped. */
  const TestObjects: seq<string> := [Qualified("invoices"), Qualified("payments"), Qualified("accounts"), Qualified("mv_invoice")]

  function DropTable(obj: string): string { "DROP TABLE IF EXISTS " + obj }
  function DropView(obj: string): string { "DROP VIEW IF EXISTS " + obj }

  /** The state reported for one object: the table drop's, or the view drop's when that failed. */
  function DropState(obj: string, exec: string -> StatementResult): string {
    var state := StateOf(exec(DropTable(obj)));
    if state != "SUCCEEDED" then StateOf(exec(DropView(obj))) else state
  }

  /** An object counts as dropped exactly when its table drop or its view drop succeeded. */
  lemma DropStateSucceeded(obj: string, exec: string -> StatementResult)
    ensures DropState(obj, exec) == "SUCCEEDED" <==>
            StateOf(exec(DropTable(obj))) == "SUCCEEDED" || StateOf(exec(DropView(obj))) == "SUCCEEDED"
  {
  }

  /** `drop_test_tables()`, with `exec` answering each statement as the service would. */
  method DropTestTables(exec: string -> StatementResult) returns (results: seq<(string, string)>)
    ensures |results| == 4
    ensures forall i :: 0 <= i < |results| ==> results[i].0 == TestObjects[i]
    ensures forall i :: 0 <= i < |results| ==>
      results[i].1 == (if StateOf(exec(DropTable(TestObjects[i]))) == "SUCCEEDED"
                       then "SUCCEEDED"
                       else StateOf(exec(DropView(TestObjects[i]))))
  {
    results := [];
    for i := 0 to |TestObjects|
      invariant |results| == i
      invariant forall j :: 0 <= j < i ==> results[j] == (TestObjects[j], DropState(TestObjects[j], exec))
    {
      var obj := TestObjects[i];
      var r := exec(DropTable(obj));
      var state := StateOf(r);
      if state != "SUCCEEDED" {
        r := exec(DropView(obj));
        state := StateOf(r);
      }
      results := results + [(obj, state)];
    }
  }
}
