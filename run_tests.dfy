/**
 * run_tests.py: the normaliser `sort_serialized_space`, which every update
 * goes through, and the `create_test_space` document assembly.
 */
module RunTests {
  import opened Wrappers
  import opened Lists
  import opened SpaceDoc

  /** `WAREHOUSE_ID` of run_tests.py (and of demo.py). */
  const WarehouseId := "cd3b290bff658fa3"

  // The titles under which test_01 to test_04 create their spaces.
  const MetricsTestTitle := "Test Metrics Space"
  const DataSourcesTestTitle := "Test Data Sources Space"
  const PermissionsTestTitle := "Test Permissions Space"
  const ContextTestTitle := "Test Context Space"

  /** `if key in d: d[key] = sorted(d[key], key=...)` */
  function SortedIfPresent<T>(o: Option<seq<T>>, key: T -> string): Option<seq<T>> {
    match o
    case None => None
    case Some(l) => Some(SortBy(l, key))
  }

  /** `l = d.get(key, []); if l: d[key] = sorted(l, key=...)`: only a non-empty list is re-sorted. */
  function SortedIfNonEmpty<T>(o: Option<seq<T>>, key: T -> string): Option<seq<T>> {
    if o.Some? && |o.value| > 0 then Some(SortBy(o.value, key)) else o
  }

  function NormalizedSnippets(sn: SqlSnippets): SqlSnippets {
    sn.(measures := SortedIfPresent(sn.measures, IdKey),
        filters := SortedIfPresent(sn.filters, IdKey),
        expressions := SortedIfPresent(sn.expressions, IdKey))
  }

  function NormalizedInstructions(ins: Instructions): Instructions {
    ins.(textInstructions := SortedIfNonEmpty(ins.textInstructions, IdKey),
         exampleQuestionSqls := SortedIfNonEmpty(ins.exampleQuestionSqls, IdKey),
         sqlSnippets := match ins.sqlSnippets
                        case None => None
                        case Some(sn) => Some(NormalizedSnippets(sn)))
  }

  function NormalizedConfig(c: SpaceConfig): SpaceConfig {
    c.(sampleQuestions := SortedIfNonEmpty(c.sampleQuestions, IdKey))
  }

  /** The document `sort_serialized_space(config)` leaves behind. */
  function Normalized(d: Document): Document {
    d.(dataSources := match d.dataSources
                      case None => None
                      case Some(ds) => Some(ds.(tables := SortedIfPresent(ds.tables, TableKey))),
       instructions := match d.instructions
                       case None => None
                       case Some(ins) => Some(NormalizedInstructions(ins)),
       config := match d.config
                 case None => None
                 case Some(c) => Some(NormalizedConfig(c)))
  }

  /** `sort_serialized_space(config)`: sorts the lists in place and returns the same dictionary. */
  method SortSerializedSpace(config: Space)
    modifies config
    ensures config.Value() == Normalized(old(config.Value()))
  {
    SortTablesStep(config);
    SortSnippetsStep(config);
    SortInstructionListsStep(config);
    SortSampleQuestionsStep(config);
  }

  /** run_tests.py:93-96 */
  method SortTablesStep(config: Space)
    modifies config
    ensures config.Value() == old(config.Value()).(dataSources := Normalized(old(config.Value())).dataSources)
  {
    if config.dataSources.Some? && config.dataSources.value.tables.Some? {
      var ds := config.dataSources.value;
      config.dataSources := Some(ds.(tables := Some(SortBy(ds.tables.value, TableKey))));
    }
  }

  /** run_tests.py:97-100, the loop over the three snippet lists. */
  method SortSnippetsStep(config: Space)
    modifies config
    ensures config.Value() == old(config.Value()).(instructions :=
      match old(config.instructions)
      case None => None
      case Some(ins) => Some(ins.(sqlSnippets := Normalized(old(config.Value())).instructions.value.sqlSnippets)))
  {
    // snippets = config.get("instructions", {}).get("sql_snippets", {}): the live branch when
    // both keys exist, otherwise a throw-away empty dictionary.
    var live := config.instructions.Some? && config.instructions.value.sqlSnippets.Some?;
    var snippets := if live then config.instructions.value.sqlSnippets.value else EmptySnippets;
    ghost var snippets0 := snippets;
    var kinds := [Measures, Filters, Expressions];
    var i := 0;
    while i < |kinds|
      invariant 0 <= i <= |kinds|
      invariant snippets.rest == snippets0.rest
      invariant snippets.measures == if i > 0 then SortedIfPresent(snippets0.measures, IdKey) else snippets0.measures
      invariant snippets.filters == if i > 1 then SortedIfPresent(snippets0.filters, IdKey) else snippets0.filters
      invariant snippets.expressions == if i > 2 then SortedIfPresent(snippets0.expressions, IdKey) else snippets0.expressions
    {
      var l := SnippetList(snippets, kinds[i]);
      if l.Some? {
        snippets := WithSnippetList(snippets, kinds[i], Some(SortBy(l.value, IdKey)));
      }
      i := i + 1;
    }
    if live {
      config.instructions := Some(config.instructions.value.(sqlSnippets := Some(snippets)));
    }
  }

  /** run_tests.py:101-106 */
  method SortInstructionListsStep(config: Space)
    modifies config
    ensures config.Value() == old(config.Value()).(instructions :=
      match old(config.instructions)
      case None => None
      case Some(ins) => Some(ins.(
        exampleQuestionSqls := SortedIfNonEmpty(ins.exampleQuestionSqls, IdKey),
        textInstructions := SortedIfNonEmpty(ins.textInstructions, IdKey))))
  {
    if config.instructions.Some? {
      var eq := config.instructions.value.exampleQuestionSqls.GetOr([]);
      if |eq| > 0 {
        config.instructions := Some(config.instructions.value.(exampleQuestionSqls := Some(SortBy(eq, IdKey))));
      }
      var ti := config.instructions.value.textInstructions.GetOr([]);
      if |ti| > 0 {
        config.instructions := Some(config.instructions.value.(textInstructions := Some(SortBy(ti, IdKey))));
      }
    }
  }

  /** run_tests.py:107-109 */
  method SortSampleQuestionsStep(config: Space)
    modifies config
    ensures config.Value() == old(config.Value()).(config := Normalized(old(config.Value())).config)
  {
    if config.config.Some? {
      var sq := config.config.value.sampleQuestions.GetOr([]);
      if |sq| > 0 {
        config.config := Some(config.config.value.(sampleQuestions := Some(SortBy(sq, IdKey))));
      }
    }
  }

  /** An optional list after normalising: absent stays absent, present becomes its stable sort. */
  ghost predicate IsStableSortOfOpt<T>(after: Option<seq<T>>, before: Option<seq<T>>, key: T -> string) {
    if before.None? then after.None? else after.Some? && IsStableSortOf(after.value, before.value, key)
  }

  lemma SortedIfPresentIsStableSort<T>(o: Option<seq<T>>, key: T -> string)
    ensures IsStableSortOfOpt(SortedIfPresent(o, key), o, key)
  {
    if o.Some? {
      SortByIsStableSort(o.value, key);
    }
  }

  /** Leaving an empty list alone is the same as sorting it. */
  lemma SortedIfNonEmptyIsStableSort<T>(o: Option<seq<T>>, key: T -> string)
    ensures IsStableSortOfOpt(SortedIfNonEmpty(o, key), o, key)
  {
    if o.Some? {
      SortByIsStableSort(o.value, key);
    }
  }

  /**
   * Each list of the sort-key table becomes the stable sort of what it was:
   * sorted by its key, a permutation, equal keys in their input order.
   * No branch appears or disappears.
   */
  lemma NormalizedSortsEveryList(d: Document)
    ensures var r := Normalized(d);
      && (r.dataSources.Some? <==> d.dataSources.Some?)
      && (d.dataSources.Some? ==>
            IsStableSortOfOpt(r.dataSources.value.tables, d.dataSources.value.tables, TableKey))
      && (r.instructions.Some? <==> d.instructions.Some?)
      && (d.instructions.Some? ==>
            && IsStableSortOfOpt(r.instructions.value.textInstructions, d.instructions.value.textInstructions, IdKey)
            && IsStableSortOfOpt(r.instructions.value.exampleQuestionSqls, d.instructions.value.exampleQuestionSqls, IdKey)
            && (r.instructions.value.sqlSnippets.Some? <==> d.instructions.value.sqlSnippets.Some?)
            && (d.instructions.value.sqlSnippets.Some? ==>
                  && IsStableSortOfOpt(r.instructions.value.sqlSnippets.value.measures,
                                      d.instructions.value.sqlSnippets.value.measures, IdKey)
                  && IsStableSortOfOpt(r.instructions.value.sqlSnippets.value.filters,
                                      d.instructions.value.sqlSnippets.value.filters, IdKey)
                  && IsStableSortOfOpt(r.instructions.value.sqlSnippets.value.expressions,
                                      d.instructions.value.sqlSnippets.value.expressions, IdKey)))
      && (r.config.Some? <==> d.config.Some?)
      && (d.config.Some? ==>
            IsStableSortOfOpt(r.config.value.sampleQuestions, d.config.value.sampleQuestions, IdKey))
  {
    if d.dataSources.Some? {
      SortedIfPresentIsStableSort(d.dataSources.value.tables, TableKey);
    }
    if d.instructions.Some? {
      var ins := d.instructions.value;
      SortedIfNonEmptyIsStableSort(ins.textInstructions, IdKey);
      SortedIfNonEmptyIsStableSort(ins.exampleQuestionSqls, IdKey);
      if ins.sqlSnippets.Some? {
        SortedIfPresentIsStableSort(ins.sqlSnippets.value.measures, IdKey);
        SortedIfPresentIsStableSort(ins.sqlSnippets.value.filters, IdKey);
        SortedIfPresentIsStableSort(ins.sqlSnippets.value.expressions, IdKey);
      }
    }
    if d.config.Some? {
      SortedIfNonEmptyIsStableSort(d.config.value.sampleQuestions, IdKey);
    }
  }

  /**
   * Nothing outside the listed paths changes: `version`, `metric_views`, and the
   * unknown keys of every branch come back as they were.
   */
  lemma NormalizedKeepsOtherKeys(d: Document)
    ensures var r := Normalized(d);
      && r.version == d.version
      && r.rest == d.rest
      && (d.dataSources.Some? ==>
            && r.dataSources.value.metricViews == d.dataSources.value.metricViews
            && r.dataSources.value.rest == d.dataSources.value.rest)
      && (d.instructions.Some? ==>
            && r.instructions.value.rest == d.instructions.value.rest
            && (d.instructions.value.sqlSnippets.Some? ==>
                  r.instructions.value.sqlSnippets.value.rest == d.instructions.value.sqlSnippets.value.rest))
      && (d.config.Some? ==> r.config.value.rest == d.config.value.rest)
  {
  }

  /** The normaliser establishes the API's ordering requirement. */
  lemma NormalizedIsNormalized(d: Document)
    ensures IsNormalized(Normalized(d))
  {
    NormalizedSortsEveryList(d);
  }

  lemma SortedIfPresentOfSorted<T>(o: Option<seq<T>>, key: T -> string)
    requires SortedOrAbsent(o, key)
    ensures SortedIfPresent(o, key) == o
  {
    if o.Some? {
      SortByOfSorted(o.value, key);
    }
  }

  lemma SortedIfNonEmptyOfSorted<T>(o: Option<seq<T>>, key: T -> string)
    requires SortedOrAbsent(o, key)
    ensures SortedIfNonEmpty(o, key) == o
  {
    if o.Some? {
      SortByOfSorted(o.value, key);
    }
  }

  /** A document that already meets the ordering requirement is returned unchanged. */
  lemma NormalizedOfNormalized(d: Document)
    requires IsNormalized(d)
    ensures Normalized(d) == d
  {
    if d.dataSources.Some? {
      SortedIfPresentOfSorted(d.dataSources.value.tables, TableKey);
    }
    if d.instructions.Some? {
      var ins := d.instructions.value;
      SortedIfNonEmptyOfSorted(ins.textInstructions, IdKey);
      SortedIfNonEmptyOfSorted(ins.exampleQuestionSqls, IdKey);
      if ins.sqlSnippets.Some? {
        SortedIfPresentOfSorted(ins.sqlSnippets.value.measures, IdKey);
        SortedIfPresentOfSorted(ins.sqlSnippets.value.filters, IdKey);
        SortedIfPresentOfSorted(ins.sqlSnippets.value.expressions, IdKey);
      }
    }
    if d.config.Some? {
      SortedIfNonEmptyOfSorted(d.config.value.sampleQuestions, IdKey);
    }
  }

  /** Normalising twice is normalising once. */
  lemma NormalizedIdempotent(d: Document)
    ensures Normalized(Normalized(d)) == Normalized(d)
  {
    NormalizedIsNormalized(d);
    NormalizedOfNormalized(Normalized(d));
  }

  // ---------------------------------------------------------------------------
  // create_test_space
  // ---------------------------------------------------------------------------

  /** `not extra` for an instructions dictionary: no key at all. */
  predicate IsEmptyInstructions(ins: Instructions) {
    ins == EmptyInstructions
  }

  /** `not extra_config` for a config dictionary: no key at all. */
  predicate IsEmptyConfig(c: SpaceConfig) {
    c.sampleQuestions.None? && c.rest == map[]
  }

  /**
   * `base.update(extra)`: every key present in `extra` replaces the one of `base`.
   * Merging the fields and the `rest` maps separately is `dict.update` only
   * when neither `rest` holds a named key (`InstructionsWellFormed`).
   */
  function UpdatedInstructions(base: Instructions, extra: Instructions): Instructions {
    Instructions(
      if extra.textInstructions.Some? then extra.textInstructions else base.textInstructions,
      if extra.exampleQuestionSqls.Some? then extra.exampleQuestionSqls else base.exampleQuestionSqls,
      if extra.sqlSnippets.Some? then extra.sqlSnippets else base.sqlSnippets,
      base.rest + extra.rest)
  }

  /**
   * `dict.update` on instructions: each named key `extra` has wins, unknown
   * keys of `extra` override those of `base`, the other keys of `base` stay,
   * and a well-formed pair gives a well-formed result.
   */
  lemma UpdatedInstructionsSpec(base: Instructions, extra: Instructions)
    ensures var r := UpdatedInstructions(base, extra);
      && (extra.textInstructions.Some? ==> r.textInstructions == extra.textInstructions)
      && (extra.textInstructions.None? ==> r.textInstructions == base.textInstructions)
      && (extra.exampleQuestionSqls.Some? ==> r.exampleQuestionSqls == extra.exampleQuestionSqls)
      && (extra.exampleQuestionSqls.None? ==> r.exampleQuestionSqls == base.exampleQuestionSqls)
      && (extra.sqlSnippets.Some? ==> r.sqlSnippets == extra.sqlSnippets)
      && (extra.sqlSnippets.None? ==> r.sqlSnippets == base.sqlSnippets)
      && r.rest.Keys == base.rest.Keys + extra.rest.Keys
      && (forall k :: k in extra.rest ==> r.rest[k] == extra.rest[k])
      && (forall k :: k in base.rest && k !in extra.rest ==> r.rest[k] == base.rest[k])
      && (InstructionsWellFormed(base) && InstructionsWellFormed(extra) ==> InstructionsWellFormed(r))
  {
  }

  /** The v2 document `create_test_space` starts from, before the extras. */
  function TestSpaceBase(instructionId: string): Document {
    Document(
      Some(2),
      Some(DataSources(Some([BareTable(Qualified("invoices"))]), None, map[])),
      Some(Instructions(Some([Entry(Some(instructionId), TextInstruction(["Test space."]), map[])]), None, None, map[])),
      None,
      map[])
  }

  /** `create_test_space(token, title, extra_instructions, extra_config)` up to the POST; the id is the `gen_id()` it calls. */
  function CreateTestSpace(title: string, instructionId: string,
                           extraInstructions: Option<Instructions>,
                           extraConfig: Option<SpaceConfig>): CreateSpaceRequest
  {
    var ss := TestSpaceBase(instructionId);
    var ss := if extraInstructions.Some? && !IsEmptyInstructions(extraInstructions.value)
              then ss.(instructions := Some(UpdatedInstructions(ss.instructions.value, extraInstructions.value)))
              else ss;
    var ss := if extraConfig.Some? && !IsEmptyConfig(extraConfig.value)
              then ss.(config := extraConfig)
              else ss;
    CreateSpaceRequest(title, "Automated test", WarehouseId, Normalized(ss))
  }

  /** Without extras the test space is exactly the literal: one `invoices` table, one text instruction. */
  lemma CreateTestSpaceWithoutExtras(title: string, instructionId: string)
    ensures CreateTestSpace(title, instructionId, None, None)
         == CreateSpaceRequest(title, "Automated test", WarehouseId, TestSpaceBase(instructionId))
  {
    var b := TestSpaceBase(instructionId);
    assert IsNormalized(b);
    NormalizedOfNormalized(b);
  }

  /**
   * The extras merge as `dict.update` and plain assignment, then the whole
   * document is normalised: a key given in `extra_instructions` wins (its list
   * stably sorted), a key not given keeps the default, and `config` is present
   * exactly when a non-empty `extra_config` was given.
   */
  lemma CreateTestSpaceMerge(title: string, instructionId: string,
                             extra: Instructions, extraConfig: Option<SpaceConfig>)
    ensures var r := CreateTestSpace(title, instructionId, Some(extra), extraConfig);
      var ss := r.serializedSpace;
      var defaultTi := Entry(Some(instructionId), TextInstruction(["Test space."]), map[]);
      && r.title == title && r.description == "Automated test" && r.warehouseId == WarehouseId
      && IsNormalized(ss)
      && ss.version == Some(2) && ss.rest == map[]
      && ss.dataSources == Some(DataSources(Some([BareTable(Qualified("invoices"))]), None, map[]))
      && ss.instructions.Some?
      && (extra.textInstructions.Some? ==>
            IsStableSortOfOpt(ss.instructions.value.textInstructions, extra.textInstructions, IdKey))
      && (extra.textInstructions.None? ==> ss.instructions.value.textInstructions == Some([defaultTi]))
      && IsStableSortOfOpt(ss.instructions.value.exampleQuestionSqls, extra.exampleQuestionSqls, IdKey)
      && (ss.instructions.value.sqlSnippets.Some? <==> extra.sqlSnippets.Some?)
      && (extra.sqlSnippets.Some? ==>
            && IsStableSortOfOpt(ss.instructions.value.sqlSnippets.value.measures, extra.sqlSnippets.value.measures, IdKey)
            && IsStableSortOfOpt(ss.instructions.value.sqlSnippets.value.filters, extra.sqlSnippets.value.filters, IdKey)
            && IsStableSortOfOpt(ss.instructions.value.sqlSnippets.value.expressions, extra.sqlSnippets.value.expressions, IdKey)
            && ss.instructions.value.sqlSnippets.value.rest == extra.sqlSnippets.value.rest)
      && ss.instructions.value.rest == extra.rest
      && (ss.config.Some? <==> extraConfig.Some? && !IsEmptyConfig(extraConfig.value))
      && (ss.config.Some? ==>
            && IsStableSortOfOpt(ss.config.value.sampleQuestions, extraConfig.value.sampleQuestions, IdKey)
            && ss.config.value.rest == extraConfig.value.rest)
  {
    var r := CreateTestSpace(title, instructionId, Some(extra), extraConfig);
    var base := TestSpaceBase(instructionId);
    var ss1 := if !IsEmptyInstructions(extra)
               then base.(instructions := Some(UpdatedInstructions(base.instructions.value, extra)))
               else base;
    var ss := if extraConfig.Some? && !IsEmptyConfig(extraConfig.value) then ss1.(config := extraConfig) else ss1;
    assert r.serializedSpace == Normalized(ss);
    assert IsEmptyInstructions(extra) ==> map[] + extra.rest == map[];
    NormalizedSortsEveryList(ss);
    NormalizedIsNormalized(ss);
    var defaultTi := Entry(Some(instructionId), TextInstruction(["Test space."]), map[]);
    assert SortBy([defaultTi], IdKey) == [defaultTi];
  }
}
