/**
 * The `serialized_space` configuration document of a Genie space, as the
 * scripts read and write it after `json.loads`. Every dictionary key the
 * scripts name is a field; a key that may be missing is an `Option`; every
 * other key of a branch or of a list entry is kept, untouched, in its `rest`.
 * A `rest` map is meant never to hold a key that is a field of the same
 * dictionary; `InstructionsWellFormed` states this for the branch that
 * `dict.update` merges, whose merge relies on it.
 */
module SpaceDoc {
  import opened Wrappers
  import opened StringOrder
  import opened Lists

  /** Any JSON value: the content of keys the scripts never look into. */
  datatype Json =
    | Null
    | Bool(b: bool)
    | Num(n: int)
    | Str(s: string)
    | Arr(items: seq<Json>)
    | Obj(fields: map<string, Json>)

  /** An entry of `data_sources.tables`; `column_configs` is carried as opaque JSON. */
  datatype Table = Table(identifier: string, columnConfigs: Option<seq<Json>>, rest: map<string, Json>)

  /** An entry of `data_sources.metric_views`. */
  datatype MetricView = MetricView(identifier: string, rest: map<string, Json>)

  /** What an id-bearing entry holds besides its `id`, one alternative per list. */
  datatype Body =
    | TextInstruction(content: seq<string>)
    | ExampleQuestionSql(question: seq<string>, sql: seq<string>)
    | SqlSnippet(sql: seq<string>, displayName: string)
    | SampleQuestion(question: seq<string>)

  /**
   * An entry of an id-keyed list; the `id` key may be absent. The keys the
   * scripts never name (for example the `parameters` of an example query) are in `rest`.
   */
  datatype Entry = Entry(id: Option<string>, body: Body, rest: map<string, Json>)

  datatype DataSources = DataSources(
    tables: Option<seq<Table>>,
    metricViews: Option<seq<MetricView>>,
    rest: map<string, Json>)

  datatype SqlSnippets = SqlSnippets(
    measures: Option<seq<Entry>>,
    filters: Option<seq<Entry>>,
    expressions: Option<seq<Entry>>,
    rest: map<string, Json>)

  datatype Instructions = Instructions(
    textInstructions: Option<seq<Entry>>,
    exampleQuestionSqls: Option<seq<Entry>>,
    sqlSnippets: Option<SqlSnippets>,
    rest: map<string, Json>)

  /** No named key of `instructions` is also one of its unknown keys. */
  predicate InstructionsWellFormed(ins: Instructions) {
    && "text_instructions" !in ins.rest
    && "example_question_sqls" !in ins.rest
    && "sql_snippets" !in ins.rest
  }

  datatype SpaceConfig = SpaceConfig(sampleQuestions: Option<seq<Entry>>, rest: map<string, Json>)

  datatype Document = Document(
    version: Option<int>,
    dataSources: Option<DataSources>,
    instructions: Option<Instructions>,
    config: Option<SpaceConfig>,
    rest: map<string, Json>)

  /** The body of `POST /api/2.0/genie/spaces`; the document is sent `json.dumps`-encoded. */
  datatype CreateSpaceRequest = CreateSpaceRequest(
    title: string, description: string, warehouseId: string, serializedSpace: Document)

  /** The exceptions the edits can raise: a missing dictionary key, an empty list indexed at 0. */
  datatype Error = KeyError | IndexError

  /** `CATALOG` and `SCHEMA` of config.py (repeated in run_tests.py). */
  const Catalog := "waggoner"
  const Schema := "finance"

  /** `f"{CATALOG}.{SCHEMA}.{name}"` */
  function Qualified(name: string): string {
    Catalog + "." + Schema + "." + name
  }

  /** How the qualified names of the three tables compare: only the part after the schema decides. */
  lemma QualifiedOrder()
    ensures LessEq(Qualified("accounts"), Qualified("invoices")) && !LessEq(Qualified("invoices"), Qualified("accounts"))
    ensures LessEq(Qualified("invoices"), Qualified("payments")) && !LessEq(Qualified("payments"), Qualified("invoices"))
    ensures LessEq(Qualified("accounts"), Qualified("payments")) && !LessEq(Qualified("payments"), Qualified("accounts"))
  {
    var p := Catalog + "." + Schema + ".";
    assert Qualified("payments") == p + "payments";
    assert Qualified("accounts") == p + "accounts";
    assert Qualified("invoices") == p + "invoices";
    LessEqCommonPrefix(p, "accounts", "invoices");
    LessEqCommonPrefix(p, "invoices", "accounts");
    LessEqCommonPrefix(p, "invoices", "payments");
    LessEqCommonPrefix(p, "payments", "invoices");
    LessEqCommonPrefix(p, "accounts", "payments");
    LessEqCommonPrefix(p, "payments", "accounts");
  }

  /** `lambda t: t["identifier"]` */
  function TableKey(t: Table): string {
    t.identifier
  }

  /** `lambda x: x.get("id", "")`; where every id is present, also `lambda x: x["id"]`. */
  function IdKey(e: Entry): string {
    e.id.GetOr("")
  }

  /** `_sorted_by_id` of 04_context.py and `sorted_by_id` of demo.py, which are the same function. */
  function SortedById(items: seq<Entry>): seq<Entry> {
    SortBy(items, IdKey)
  }

  /** `sorted(tables, key=lambda t: t["identifier"])` */
  function SortedByIdentifier(tables: seq<Table>): seq<Table> {
    SortBy(tables, TableKey)
  }

  /** `[t for t in tables if t["identifier"] != identifier]` */
  function TablesWithout(tables: seq<Table>, identifier: string): seq<Table> {
    Filter(tables, (t: Table) => t.identifier != identifier)
  }

  /** A snippet entry `{"id": id, "sql": [sql], "display_name": name}`: a measure, filter or expression. */
  function Snippet(id: string, sql: string, name: string): Entry {
    Entry(Some(id), SqlSnippet([sql], name), map[])
  }

  /** A bare `{"identifier": identifier}` table. */
  function BareTable(identifier: string): Table {
    Table(identifier, None, map[])
  }

  /** The three lists of `sql_snippets`, in the order the normaliser visits them. */
  datatype SnippetKind = Measures | Filters | Expressions

  function SnippetList(sn: SqlSnippets, kind: SnippetKind): Option<seq<Entry>> {
    match kind
    case Measures => sn.measures
    case Filters => sn.filters
    case Expressions => sn.expressions
  }

  function WithSnippetList(sn: SqlSnippets, kind: SnippetKind, l: Option<seq<Entry>>): SqlSnippets {
    match kind
    case Measures => sn.(measures := l)
    case Filters => sn.(filters := l)
    case Expressions => sn.(expressions := l)
  }

  // The empty dictionaries that `setdefault(key, {})` creates.
  const EmptyDataSources := DataSources(None, None, map[])
  const EmptySnippets := SqlSnippets(None, None, None, map[])
  const EmptyInstructions := Instructions(None, None, None, map[])

  /** A list that is absent, or sorted by `key`: what the API demands of each id-keyed list. */
  ghost predicate SortedOrAbsent<T>(o: Option<seq<T>>, key: T -> string) {
    o.Some? ==> SortedBy(o.value, key)
  }

  /**
   * Every list of the sort-key table is in order: tables by `identifier`,
   * the other six by `id` (a missing `id` read as "").
   */
  ghost predicate IsNormalized(d: Document) {
    && (d.dataSources.Some? ==> SortedOrAbsent(d.dataSources.value.tables, TableKey))
    && (d.instructions.Some? ==>
          && SortedOrAbsent(d.instructions.value.textInstructions, IdKey)
          && SortedOrAbsent(d.instructions.value.exampleQuestionSqls, IdKey)
          && (d.instructions.value.sqlSnippets.Some? ==>
                && SortedOrAbsent(d.instructions.value.sqlSnippets.value.measures, IdKey)
                && SortedOrAbsent(d.instructions.value.sqlSnippets.value.filters, IdKey)
                && SortedOrAbsent(d.instructions.value.sqlSnippets.value.expressions, IdKey)))
    && (d.config.Some? ==> SortedOrAbsent(d.config.value.sampleQuestions, IdKey))
  }

  /** `config["data_sources"]["tables"]`, raising `KeyError` when either key is missing. */
  function TablesAt(d: Document): Result<seq<Table>, Error> {
    if d.dataSources.None? || d.dataSources.value.tables.None? then Failure(KeyError)
    else Success(d.dataSources.value.tables.value)
  }

  /** `config["instructions"]["sql_snippets"]["measures"]`, raising `KeyError` when a key is missing. */
  function MeasuresAt(d: Document): Result<seq<Entry>, Error> {
    if d.instructions.None? || d.instructions.value.sqlSnippets.None?
       || d.instructions.value.sqlSnippets.value.measures.None?
    then Failure(KeyError)
    else Success(d.instructions.value.sqlSnippets.value.measures.value)
  }

  /** `config["data_sources"]["tables"] = tables` once `data_sources` exists. */
  function WithTables(d: Document, tables: seq<Table>): Document
    requires d.dataSources.Some?
  {
    d.(dataSources := Some(d.dataSources.value.(tables := Some(tables))))
  }

  /** `config["instructions"]["sql_snippets"]["measures"] = measures` once both branches exist. */
  function WithMeasures(d: Document, measures: seq<Entry>): Document
    requires d.instructions.Some? && d.instructions.value.sqlSnippets.Some?
  {
    var ins := d.instructions.value;
    d.(instructions := Some(ins.(sqlSnippets := Some(ins.sqlSnippets.value.(measures := Some(measures))))))
  }

  /** The document an edit leaves behind: the new one, or the old one when the edit raised first. */
  function After(r: Result<Document, Error>, old_: Document): Document {
    match r
    case Success(d) => d
    case Failure(_) => old_
  }

  function OutcomeOf(r: Result<Document, Error>): Outcome<Error> {
    match r
    case Success(_) => Pass
    case Failure(e) => Fail(e)
  }

  /**
   * The top-level dictionary that `json.loads` returns and the scripts then
   * edit in place. Nested branches are values that the edits reassign, which
   * behaves as in-place mutation because every other reference the scripts
   * keep to a branch either edits that same branch or is only read.
   */
  class Space {
    var version: Option<int>
    var dataSources: Option<DataSources>
    var instructions: Option<Instructions>
    var config: Option<SpaceConfig>
    var rest: map<string, Json>

    /** The document this dictionary currently holds. */
    function Value(): Document
      reads this
    {
      Document(version, dataSources, instructions, config, rest)
    }

    /** `json.loads(...)`: a fresh dictionary holding `d`. */
    constructor (d: Document)
      ensures Value() == d
    {
      version := d.version;
      dataSources := d.dataSources;
      instructions := d.instructions;
      config := d.config;
      rest := d.rest;
    }

    /** `config.setdefault("data_sources", {})`: the branch, created empty when missing. */
    method SetDefaultDataSources() returns (ds: DataSources)
      modifies this
      ensures ds == old(dataSources).GetOr(EmptyDataSources)
      ensures Value() == old(Value()).(dataSources := Some(ds))
    {
      if dataSources.None? {
        dataSources := Some(EmptyDataSources);
      }
      ds := dataSources.value;
    }

    /** `config.setdefault("instructions", {})`: the branch, created empty when missing. */
    method SetDefaultInstructions() returns (ins: Instructions)
      modifies this
      ensures ins == old(instructions).GetOr(EmptyInstructions)
      ensures Value() == old(Value()).(instructions := Some(ins))
    {
      if instructions.None? {
        instructions := Some(EmptyInstructions);
      }
      ins := instructions.value;
    }
  }
}
