/**
 * The in-place edits that run_tests.py, 04_context.py and demo.py apply to a
 * fetched document by indexing it directly (`config["a"]["b"]`), so each one
 * raises `KeyError` when a key on its path is missing. Each edit is a function
 * on documents, which the lemmas reason about, and a method that performs it
 * on the dictionary.
 */
module Edits {
  import opened Wrappers
  import opened Lists
  import opened SpaceDoc
  import opened RunTests

  // ---------------------------------------------------------------------------
  // Measures
  // ---------------------------------------------------------------------------

  /** `config["instructions"]["sql_snippets"]["measures"].append(m)` */
  function MeasureAppended(d: Document, m: Entry): Result<Document, Error> {
    match MeasuresAt(d)
    case Failure(e) => Failure(e)
    case Success(ms) => Success(WithMeasures(d, ms + [m]))
  }

  method AppendMeasure(config: Space, m: Entry) returns (res: Outcome<Error>)
    modifies config
    ensures res == OutcomeOf(MeasureAppended(old(config.Value()), m))
    ensures config.Value() == After(MeasureAppended(old(config.Value()), m), old(config.Value()))
  {
    if config.instructions.None? {
      return Fail(KeyError);
    }
    var ins := config.instructions.value;
    if ins.sqlSnippets.None? {
      return Fail(KeyError);
    }
    var sn := ins.sqlSnippets.value;
    if sn.measures.None? {
      return Fail(KeyError);
    }
    config.instructions := Some(ins.(sqlSnippets := Some(sn.(measures := Some(sn.measures.value + [m])))));
    return Pass;
  }

  /** `x["measures"] = sorted_by_id(x["measures"])` on `config["instructions"]["sql_snippets"]` */
  function MeasuresResorted(d: Document): Result<Document, Error> {
    match MeasuresAt(d)
    case Failure(e) => Failure(e)
    case Success(ms) => Success(WithMeasures(d, SortedById(ms)))
  }

  method SortMeasures(config: Space) returns (res: Outcome<Error>)
    modifies config
    ensures res == OutcomeOf(MeasuresResorted(old(config.Value())))
    ensures config.Value() == After(MeasuresResorted(old(config.Value())), old(config.Value()))
  {
    if config.instructions.None? {
      return Fail(KeyError);
    }
    var ins := config.instructions.value;
    if ins.sqlSnippets.None? {
      return Fail(KeyError);
    }
    var sn := ins.sqlSnippets.value;
    if sn.measures.None? {
      return Fail(KeyError);
    }
    config.instructions := Some(ins.(sqlSnippets := Some(sn.(measures := Some(SortedById(sn.measures.value))))));
    return Pass;
  }

  /**
   * The append raises exactly when a key on the path is missing; otherwise the
   * measure lands at the end and nothing else in the document changes.
   */
  lemma MeasureAppendedSpec(d: Document, m: Entry)
    ensures MeasureAppended(d, m).Success? <==> MeasuresAt(d).Success?
    ensures MeasureAppended(d, m).Failure? ==> MeasureAppended(d, m).error == KeyError
    ensures MeasureAppended(d, m).Success? ==>
      var r := MeasureAppended(d, m).value;
      var ins, ins' := d.instructions.value, r.instructions.value;
      && MeasuresAt(r) == Success(MeasuresAt(d).value + [m])
      && r.(instructions := d.instructions) == d
      && ins'.(sqlSnippets := ins.sqlSnippets) == ins
      && ins'.sqlSnippets.value.(measures := ins.sqlSnippets.value.measures) == ins.sqlSnippets.value
  {
  }

  /**
   * run_tests.py appends a measure and then sends the document through
   * `sort_serialized_space`: the list grows by exactly one (two measures
   * become three), holds the old measures plus the new one, and is sorted.
   */
  lemma AppendMeasureThenNormalize(d: Document, m: Entry)
    requires MeasuresAt(d).Success?
    ensures MeasureAppended(d, m).Success?
    ensures var ms := MeasuresAt(d).value;
      var r := MeasuresAt(Normalized(MeasureAppended(d, m).value));
      && r.Success?
      && |r.value| == |ms| + 1
      && multiset(r.value) == multiset(ms) + multiset{m}
      && SortedBy(r.value, IdKey)
      && (|ms| == 2 ==> |r.value| == 3)
  {
    var d' := MeasureAppended(d, m).value;
    NormalizedSortsEveryList(d');
  }

  /** The demo's append-then-`sorted_by_id`: one more measure, sorted, the old ones kept. */
  lemma AppendThenSortMeasures(d: Document, m: Entry)
    requires MeasuresAt(d).Success?
    ensures MeasureAppended(d, m).Success?
    ensures MeasuresResorted(MeasureAppended(d, m).value).Success?
    ensures var ms := MeasuresAt(d).value;
      var d' := MeasuresResorted(MeasureAppended(d, m).value).value;
      var r := MeasuresAt(d').value;
      && |r| == |ms| + 1
      && multiset(r) == multiset(ms) + multiset{m}
      && SortedBy(r, IdKey)
      && d'.(instructions := d.instructions) == d
  {
    SortByIsStableSort(MeasuresAt(d).value + [m], IdKey);
  }

  // ---------------------------------------------------------------------------
  // Tables
  // ---------------------------------------------------------------------------

  /**
   * Remove-by-identifier keeps exactly the tables whose identifier differs,
   * in their original order; the removed identifier is gone; when no table
   * has it the list is unchanged.
   */
  lemma TablesWithoutSpec(tables: seq<Table>, identifier: string)
    ensures var r := TablesWithout(tables, identifier);
      && (forall i :: 0 <= i < |r| ==> r[i].identifier != identifier)
      && IsSubsequence(r, tables)
      && (forall t :: multiset(r)[t] == if t.identifier == identifier then 0 else multiset(tables)[t])
      && ((forall i :: 0 <= i < |tables| ==> tables[i].identifier != identifier) ==> r == tables)
  {
    var keep := (t: Table) => t.identifier != identifier;
    FilterIsSubsequence(tables, keep);
    FilterCounts(tables, keep);
    if forall i :: 0 <= i < |tables| ==> tables[i].identifier != identifier {
      FilterKeepsAll(tables, keep);
    }
  }

  /** `config["data_sources"]["tables"] = [t for t in config["data_sources"]["tables"] if t["identifier"] != identifier]` */
  function TableRemoved(d: Document, identifier: string): Result<Document, Error> {
    match TablesAt(d)
    case Failure(e) => Failure(e)
    case Success(ts) => Success(WithTables(d, TablesWithout(ts, identifier)))
  }

  method RemoveTable(config: Space, identifier: string) returns (res: Outcome<Error>)
    modifies config
    ensures res == OutcomeOf(TableRemoved(old(config.Value()), identifier))
    ensures config.Value() == After(TableRemoved(old(config.Value()), identifier), old(config.Value()))
  {
    if config.dataSources.None? || config.dataSources.value.tables.None? {
      return Fail(KeyError);
    }
    var ds := config.dataSources.value;
    config.dataSources := Some(ds.(tables := Some(TablesWithout(ds.tables.value, identifier))));
    return Pass;
  }

  /** Removing raises exactly when `data_sources` or its `tables` is missing, and touches nothing but the list. */
  lemma TableRemovedSpec(d: Document, identifier: string)
    ensures TableRemoved(d, identifier).Success? <==> d.dataSources.Some? && d.dataSources.value.tables.Some?
    ensures TableRemoved(d, identifier).Failure? ==> TableRemoved(d, identifier).error == KeyError
    ensures TableRemoved(d, identifier).Success? ==>
      var r := TableRemoved(d, identifier).value;
      && TablesAt(r) == Success(TablesWithout(TablesAt(d).value, identifier))
      && r.(dataSources := d.dataSources) == d
      && r.dataSources.value.(tables := d.dataSources.value.tables) == d.dataSources.value
  {
  }

  /** "Remove is a no-op on absence": when no table has the identifier the document comes back equal. */
  lemma TableRemovedAbsent(d: Document, identifier: string)
    requires TablesAt(d).Success?
    requires forall i :: 0 <= i < |TablesAt(d).value| ==> TablesAt(d).value[i].identifier != identifier
    ensures TableRemoved(d, identifier) == Success(d)
  {
    TablesWithoutSpec(TablesAt(d).value, identifier);
  }

  /** `config["data_sources"]["tables"] = tables` */
  function TablesAssigned(d: Document, tables: seq<Table>): Result<Document, Error> {
    if d.dataSources.None? then Failure(KeyError) else Success(WithTables(d, tables))
  }

  method AssignTables(config: Space, tables: seq<Table>) returns (res: Outcome<Error>)
    modifies config
    ensures res == OutcomeOf(TablesAssigned(old(config.Value()), tables))
    ensures config.Value() == After(TablesAssigned(old(config.Value()), tables), old(config.Value()))
  {
    if config.dataSources.None? {
      return Fail(KeyError);
    }
    config.dataSources := Some(config.dataSources.value.(tables := Some(tables)));
    return Pass;
  }

  /**
   * Assigning the list and then normalising, as run_tests.py does before the
   * PATCH: the tables are the given ones in sorted order (same count);
   * `metric_views`, the unknown keys of `data_sources`, `version` and the
   * top-level unknown keys are kept; `instructions` and `config` come out
   * normalised exactly as without the assignment.
   */
  lemma AssignTablesThenNormalize(d: Document, tables: seq<Table>)
    ensures TablesAssigned(d, tables).Success? <==> d.dataSources.Some?
    ensures TablesAssigned(d, tables).Failure? ==> TablesAssigned(d, tables).error == KeyError
    ensures TablesAssigned(d, tables).Success? ==>
      var r := Normalized(TablesAssigned(d, tables).value);
      && TablesAt(r) == Success(SortedByIdentifier(tables))
      && |TablesAt(r).value| == |tables|
      && multiset(TablesAt(r).value) == multiset(tables)
      && r.dataSources.value.metricViews == d.dataSources.value.metricViews
      && r.dataSources.value.rest == d.dataSources.value.rest
      && r.instructions == Normalized(d).instructions
      && r.config == Normalized(d).config
      && r.version == d.version && r.rest == d.rest
  {
  }

  /** `config["data_sources"]["tables"].append({"identifier": identifier})` */
  function TableAppended(d: Document, identifier: string): Result<Document, Error> {
    match TablesAt(d)
    case Failure(e) => Failure(e)
    case Success(ts) => Success(WithTables(d, ts + [BareTable(identifier)]))
  }

  method AppendTable(config: Space, identifier: string) returns (res: Outcome<Error>)
    modifies config
    ensures res == OutcomeOf(TableAppended(old(config.Value()), identifier))
    ensures config.Value() == After(TableAppended(old(config.Value()), identifier), old(config.Value()))
  {
    if config.dataSources.None? || config.dataSources.value.tables.None? {
      return Fail(KeyError);
    }
    var ds := config.dataSources.value;
    config.dataSources := Some(ds.(tables := Some(ds.tables.value + [BareTable(identifier)])));
    return Pass;
  }

  /** `config["data_sources"]["tables"] = sorted(config["data_sources"]["tables"], key=lambda t: t["identifier"])` */
  function TablesResorted(d: Document): Result<Document, Error> {
    match TablesAt(d)
    case Failure(e) => Failure(e)
    case Success(ts) => Success(WithTables(d, SortedByIdentifier(ts)))
  }

  method SortTables(config: Space) returns (res: Outcome<Error>)
    modifies config
    ensures res == OutcomeOf(TablesResorted(old(config.Value())))
    ensures config.Value() == After(TablesResorted(old(config.Value())), old(config.Value()))
  {
    if config.dataSources.None? || config.dataSources.value.tables.None? {
      return Fail(KeyError);
    }
    var ds := config.dataSources.value;
    config.dataSources := Some(ds.(tables := Some(SortedByIdentifier(ds.tables.value))));
    return Pass;
  }

  /** Adding an identifier that no table has, then sorting, leaves it in the list exactly once. */
  lemma AddAbsentTableOnce(tables: seq<Table>, identifier: string)
    requires forall i :: 0 <= i < |tables| ==> tables[i].identifier != identifier
    ensures WithKey(SortedByIdentifier(tables + [BareTable(identifier)]), TableKey, identifier) == [BareTable(identifier)]
  {
    var s := tables + [BareTable(identifier)];
    SortByStable(s, TableKey, identifier);
    NoKeyNoGroup(tables, identifier);
    WithKeyConcat(tables, [BareTable(identifier)], TableKey, identifier);
  }

  lemma {:induction false} NoKeyNoGroup(tables: seq<Table>, identifier: string)
    requires forall i :: 0 <= i < |tables| ==> tables[i].identifier != identifier
    ensures WithKey(tables, TableKey, identifier) == []
  {
    if tables != [] {
      NoKeyNoGroup(tables[1..], identifier);
    }
  }

  /**
   * Removing an identifier, appending it again and sorting: the list is
   * sorted, holds the identifier exactly once, and every other table is kept.
   */
  lemma RemoveThenReAddTables(tables: seq<Table>, identifier: string)
    ensures var r := SortedByIdentifier(TablesWithout(tables, identifier) + [BareTable(identifier)]);
      && SortedBy(r, TableKey)
      && WithKey(r, TableKey, identifier) == [BareTable(identifier)]
      && (forall t: Table :: t.identifier != identifier ==> multiset(r)[t] == multiset(tables)[t])
  {
    var kept := TablesWithout(tables, identifier);
    TablesWithoutSpec(tables, identifier);
    AddAbsentTableOnce(kept, identifier);
    SortBySorted(kept + [BareTable(identifier)], TableKey);
  }

  /**
   * demo.py step 4 on the document: `remove_table`, then append and sort; only
   * `data_sources` changes, and its tables are as `RemoveThenReAddTables` says.
   */
  lemma RemoveThenReAdd(d: Document, identifier: string)
    requires TablesAt(d).Success?
    ensures TableRemoved(d, identifier).Success?
    ensures TableAppended(TableRemoved(d, identifier).value, identifier).Success?
    ensures TablesResorted(TableAppended(TableRemoved(d, identifier).value, identifier).value).Success?
    ensures var d3 := TablesResorted(TableAppended(TableRemoved(d, identifier).value, identifier).value).value;
      && TablesAt(d3) == Success(SortedByIdentifier(TablesWithout(TablesAt(d).value, identifier) + [BareTable(identifier)]))
      && d3.(dataSources := d.dataSources) == d
      && d3.dataSources.value.(tables := d.dataSources.value.tables) == d.dataSources.value
  {
  }

  // ---------------------------------------------------------------------------
  // Text instruction content
  // ---------------------------------------------------------------------------

  /** `config["instructions"]["text_instructions"][0]["content"].append(line)` */
  function InstructionContentAppended(d: Document, line: string): Result<Document, Error> {
    if d.instructions.None? || d.instructions.value.textInstructions.None? then Failure(KeyError)
    else
      var ti := d.instructions.value.textInstructions.value;
      if |ti| == 0 then Failure(IndexError)
      else match ti[0].body
        case TextInstruction(content) =>
          var first := ti[0].(body := TextInstruction(content + [line]));
          Success(d.(instructions := Some(d.instructions.value.(textInstructions := Some([first] + ti[1..])))))
        case _ => Failure(KeyError)
  }

  method AppendInstructionContent(config: Space, line: string) returns (res: Outcome<Error>)
    modifies config
    ensures res == OutcomeOf(InstructionContentAppended(old(config.Value()), line))
    ensures config.Value() == After(InstructionContentAppended(old(config.Value()), line), old(config.Value()))
  {
    if config.instructions.None? || config.instructions.value.textInstructions.None? {
      return Fail(KeyError);
    }
    var ti := config.instructions.value.textInstructions.value;
    if |ti| == 0 {
      return Fail(IndexError);
    }
    if !ti[0].body.TextInstruction? {
      return Fail(KeyError);
    }
    var first := ti[0].(body := TextInstruction(ti[0].body.content + [line]));
    config.instructions := Some(config.instructions.value.(textInstructions := Some([first] + ti[1..])));
    return Pass;
  }

  /**
   * A missing `instructions` or `text_instructions` raises `KeyError`, an empty
   * list `IndexError`, and a first entry without `content` `KeyError`. Otherwise
   * the line goes to the end of the first entry's `content`; the number of
   * entries, the ids, the other entries and every other branch stay as they were.
   */
  lemma InstructionContentAppendedSpec(d: Document, line: string)
    ensures (d.instructions.None? || d.instructions.value.textInstructions.None?) ==>
      InstructionContentAppended(d, line) == Failure(KeyError)
    ensures d.instructions.Some? && d.instructions.value.textInstructions.Some?
            && |d.instructions.value.textInstructions.value| == 0 ==>
      InstructionContentAppended(d, line) == Failure(IndexError)
    ensures d.instructions.Some? && d.instructions.value.textInstructions.Some?
            && |d.instructions.value.textInstructions.value| > 0
            && !d.instructions.value.textInstructions.value[0].body.TextInstruction? ==>
      InstructionContentAppended(d, line) == Failure(KeyError)
    ensures InstructionContentAppended(d, line).Success? <==>
      && d.instructions.Some? && d.instructions.value.textInstructions.Some?
      && |d.instructions.value.textInstructions.value| > 0
      && d.instructions.value.textInstructions.value[0].body.TextInstruction?
    ensures InstructionContentAppended(d, line).Success? ==>
      var ti := d.instructions.value.textInstructions.value;
      var r := InstructionContentAppended(d, line).value;
      var ti' := r.instructions.value.textInstructions.value;
      && |ti'| == |ti|
      && ti'[0].id == ti[0].id
      && ti'[0].rest == ti[0].rest
      && ti'[0].body.content == ti[0].body.content + [line]
      && ti'[1..] == ti[1..]
      && r.instructions.value.(textInstructions := Some(ti)) == d.instructions.value
      && r.(instructions := d.instructions) == d
  {
    if InstructionContentAppended(d, line).Success? {
      var ti := d.instructions.value.textInstructions.value;
      var ins := d.instructions.value;
      assert ins.(textInstructions := Some(ti)) == ins;
    }
  }
}
