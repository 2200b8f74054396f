/**
 * 02_data_sources.py: a space created with three tables, and the three edits
 * of its `data_sources` branch (add, remove, replace all). The GET and PATCH
 * around each edit are left out; the edits act on the fetched dictionary.
 */
module ManageDataSources {
  import opened Wrappers
  import opened StringOrder
  import opened Lists
  import opened SpaceDoc
  import Edits

  const Invoices := BareTable(Qualified("invoices"))
  const Payments := BareTable(Qualified("payments"))
  const Accounts := BareTable(Qualified("accounts"))

  const FinanceDataTitle := "Finance Data Space"
  const DataSourcesInstruction := "This space answers questions about invoices, payments, and accounts."

  /** The body of the create request of `create_space_with_data_sources`. */
  function DataSourcesRequest(warehouseId: string, instructionId: string): CreateSpaceRequest {
    var tables := SortedByIdentifier([Invoices, Payments, Accounts]);
    var text := [Entry(Some(instructionId), TextInstruction([DataSourcesInstruction]), map[])];
    CreateSpaceRequest(
      FinanceDataTitle,
      "Genie space for financial data exploration",
      warehouseId,
      Document(Some(2), Some(DataSources(Some(tables), None, map[])),
               Some(Instructions(Some(text), None, None, map[])), None, map[]))
  }

  /** The created tables come out as accounts, invoices, payments, and the document is in order. */
  lemma DataSourcesRequestSpec(warehouseId: string, instructionId: string)
    ensures var r := DataSourcesRequest(warehouseId, instructionId);
      && r.warehouseId == warehouseId
      && r.serializedSpace.version == Some(2)
      && TablesAt(r.serializedSpace) == Success([Accounts, Invoices, Payments])
      && IsNormalized(r.serializedSpace)
  {
    var r := DataSourcesRequest(warehouseId, instructionId);
    DataSourcesRequestTables(warehouseId, instructionId);
    SortBySorted([Invoices, Payments, Accounts], TableKey);
    assert SortedBy(r.serializedSpace.instructions.value.textInstructions.value, IdKey);
  }

  /** The sorted tables of the create request. */
  lemma DataSourcesRequestTables(warehouseId: string, instructionId: string)
    ensures TablesAt(DataSourcesRequest(warehouseId, instructionId).serializedSpace) == Success([Accounts, Invoices, Payments])
  {
    QualifiedOrder();
    SortByLastFirst(Invoices, Payments, Accounts, TableKey);
  }

  /**
   * The document after `add_data_source`'s edit: `data_sources` and `tables`
   * created empty when missing, the bare table appended, the list re-sorted.
   */
  function DataSourceAdded(d: Document, identifier: string): Document {
    var ds := d.dataSources.GetOr(EmptyDataSources);
    var tables := ds.tables.GetOr([]);
    d.(dataSources := Some(ds.(tables := Some(SortedByIdentifier(tables + [BareTable(identifier)])))))
  }

  /** The edit of `add_data_source`: `setdefault` twice, then the shared append and sort. */
  method AddDataSource(config: Space, identifier: string)
    modifies config
    ensures config.Value() == DataSourceAdded(old(config.Value()), identifier)
  {
    var ds := config.SetDefaultDataSources();
    if ds.tables.None? {
      config.dataSources := Some(ds.(tables := Some([])));
    }
    var appended := Edits.AppendTable(config, identifier);
    var sorted := Edits.SortTables(config);
  }

  /**
   * Appending a bare table and sorting: the list is sorted, holds the old
   * tables plus the new one, has one more entry under that identifier whether
   * or not it was there already, and keeps the input order among equal
   * identifiers.
   */
  lemma AddedTablesSpec(before: seq<Table>, identifier: string)
    ensures var after := SortedByIdentifier(before + [BareTable(identifier)]);
      && SortedBy(after, TableKey)
      && |after| == |before| + 1
      && multiset(after) == multiset(before) + multiset{BareTable(identifier)}
      && WithKey(after, TableKey, identifier) == WithKey(before, TableKey, identifier) + [BareTable(identifier)]
      && (forall k :: k != identifier ==> WithKey(after, TableKey, k) == WithKey(before, TableKey, k))
  {
    var s := before + [BareTable(identifier)];
    SortByIsStableSort(s, TableKey);
    forall k ensures WithKey(s, TableKey, k) == WithKey(before, TableKey, k) + (if k == identifier then [BareTable(identifier)] else []) {
      WithKeyConcat(before, [BareTable(identifier)], TableKey, k);
    }
  }

  /** `add_data_source` changes nothing outside `tables`, whose new value `AddedTablesSpec` describes. */
  lemma DataSourceAddedSpec(d: Document, identifier: string)
    ensures var before := if d.dataSources.Some? then d.dataSources.value.tables.GetOr([]) else [];
      var r := DataSourceAdded(d, identifier);
      && TablesAt(r) == Success(SortedByIdentifier(before + [BareTable(identifier)]))
      && r.(dataSources := d.dataSources) == d
      && (d.dataSources.Some? ==> r.dataSources.value.(tables := d.dataSources.value.tables) == d.dataSources.value)
      && (d.dataSources.None? ==> r.dataSources.value == EmptyDataSources.(tables := Some([BareTable(identifier)])))
  {
  }

  /**
   * The edit of `remove_data_source`. The filtered list reads `data_sources`
   * and `tables` with defaults, but the assignment indexes `data_sources`
   * directly, so only a missing `data_sources` raises.
   */
  function DataSourceRemoved(d: Document, identifier: string): Result<Document, Error> {
    if d.dataSources.None? then Failure(KeyError)
    else Success(WithTables(d, TablesWithout(d.dataSources.value.tables.GetOr([]), identifier)))
  }

  method RemoveDataSource(config: Space, identifier: string) returns (res: Outcome<Error>)
    modifies config
    ensures res == OutcomeOf(DataSourceRemoved(old(config.Value()), identifier))
    ensures config.Value() == After(DataSourceRemoved(old(config.Value()), identifier), old(config.Value()))
  {
    var tables := if config.dataSources.Some? then config.dataSources.value.tables.GetOr([]) else [];
    var kept := TablesWithout(tables, identifier);
    if config.dataSources.None? {
      return Fail(KeyError);
    }
    config.dataSources := Some(config.dataSources.value.(tables := Some(kept)));
    return Pass;
  }

  /**
   * Removal raises exactly when `data_sources` is missing. Otherwise no table
   * with the identifier remains, the others keep their order and number, a
   * missing `tables` becomes `[]`, an absent identifier changes nothing, and
   * nothing outside `tables` changes.
   */
  lemma DataSourceRemovedSpec(d: Document, identifier: string)
    ensures DataSourceRemoved(d, identifier).Failure? <==> d.dataSources.None?
    ensures DataSourceRemoved(d, identifier).Failure? ==> DataSourceRemoved(d, identifier).error == KeyError
    ensures DataSourceRemoved(d, identifier).Success? ==>
      var before := d.dataSources.value.tables.GetOr([]);
      var r := DataSourceRemoved(d, identifier).value;
      var after := TablesAt(r).value;
      && TablesAt(r).Success?
      && (forall i :: 0 <= i < |after| ==> after[i].identifier != identifier)
      && IsSubsequence(after, before)
      && (forall t: Table :: multiset(after)[t] == if t.identifier == identifier then 0 else multiset(before)[t])
      && (d.dataSources.value.tables.None? ==> after == [])
      && r.(dataSources := d.dataSources) == d
      && r.dataSources.value.(tables := d.dataSources.value.tables) == d.dataSources.value
    ensures d.dataSources.Some? && d.dataSources.value.tables.Some?
            && (forall i :: 0 <= i < |d.dataSources.value.tables.value| ==> d.dataSources.value.tables.value[i].identifier != identifier)
            ==> DataSourceRemoved(d, identifier) == Success(d)
  {
    if d.dataSources.Some? {
      Edits.TablesWithoutSpec(d.dataSources.value.tables.GetOr([]), identifier);
    }
  }

  /** `[{"identifier": tid} for tid in table_identifiers]` */
  function BareTables(identifiers: seq<string>): (r: seq<Table>)
    ensures |r| == |identifiers|
    ensures forall i :: 0 <= i < |r| ==> r[i] == BareTable(identifiers[i])
  {
    if identifiers == [] then [] else [BareTable(identifiers[0])] + BareTables(identifiers[1..])
  }

  /** Each identifier gives one table: duplicates are kept, with their multiplicity. */
  lemma {:induction false} BareTablesCount(identifiers: seq<string>, x: string)
    ensures multiset(BareTables(identifiers))[BareTable(x)] == multiset(identifiers)[x]
  {
    if identifiers != [] {
      var rest := BareTables(identifiers[1..]);
      BareTablesCount(identifiers[1..], x);
      assert identifiers == [identifiers[0]] + identifiers[1..];
      assert BareTables(identifiers) == [BareTable(identifiers[0])] + rest;
      assert multiset(BareTables(identifiers)) == multiset{BareTable(identifiers[0])} + multiset(rest);
      assert multiset(identifiers) == multiset{identifiers[0]} + multiset(identifiers[1..]);
    }
  }

  /** The document after `replace_all_data_sources`: a new `data_sources` holding only the sorted bare tables. */
  function AllDataSourcesReplaced(d: Document, identifiers: seq<string>): Document {
    d.(dataSources := Some(DataSources(Some(SortedByIdentifier(BareTables(identifiers))), None, map[])))
  }

  method ReplaceAllDataSources(config: Space, identifiers: seq<string>)
    modifies config
    ensures config.Value() == AllDataSourcesReplaced(old(config.Value()), identifiers)
  {
    config.dataSources := Some(DataSources(Some(SortedByIdentifier(BareTables(identifiers))), None, map[]));
  }

  /**
   * After the replacement the tables are sorted, one per given identifier
   * (duplicates kept), with no `column_configs`; `metric_views` and every
   * other key of `data_sources` are gone; the other branches are unchanged.
   */
  lemma AllDataSourcesReplacedSpec(d: Document, identifiers: seq<string>)
    ensures var r := AllDataSourcesReplaced(d, identifiers);
      var tables := TablesAt(r).value;
      && TablesAt(r).Success?
      && SortedBy(tables, TableKey)
      && |tables| == |identifiers|
      && (forall x :: multiset(tables)[BareTable(x)] == multiset(identifiers)[x])
      && (forall t :: t in tables ==> t.columnConfigs.None? && t.rest == map[] && t.identifier in identifiers)
      && r.dataSources.value.metricViews.None?
      && r.dataSources.value.rest == map[]
      && r.(dataSources := d.dataSources) == d
  {
    var b := BareTables(identifiers);
    SortByIsStableSort(b, TableKey);
    var tables := SortedByIdentifier(b);
    forall x ensures multiset(tables)[BareTable(x)] == multiset(identifiers)[x] {
      BareTablesCount(identifiers, x);
    }
    forall t | t in tables ensures t.columnConfigs.None? && t.rest == map[] && t.identifier in identifiers {
      assert t in multiset(b);
      var i :| 0 <= i < |b| && b[i] == t;
    }
  }

  lemma NotLessEqDiffers(a: string, b: string)
    requires !LessEq(a, b)
    ensures a != b
  {
    LessEqReflexive(a);
  }

  /** Filtering out the identifier of the first of three tables. */
  lemma RemoveFirstOfThree(a: Table, b: Table, c: Table, identifier: string)
    requires a.identifier == identifier && b.identifier != identifier && c.identifier != identifier
    ensures TablesWithout([a, b, c], identifier) == [b, c]
  {
    var keep := (t: Table) => t.identifier != identifier;
    assert [a, b, c][1..] == [b, c] && [b, c][1..] == [c] && [c][1..] == [];
    assert Filter([c], keep) == [c];
    assert Filter([b, c], keep) == [b] + Filter([c], keep);
  }

  /**
   * The script's run: create the space, then `remove_data_source` on the
   * re-fetched document. When the fetched tables are the ones sent, removing
   * `accounts` leaves invoices and payments, in order.
   */
  lemma CreateThenRemoveAccounts(warehouseId: string, instructionId: string, fetched: Document)
    requires TablesAt(fetched) == TablesAt(DataSourcesRequest(warehouseId, instructionId).serializedSpace)
    ensures DataSourceRemoved(fetched, Qualified("accounts")).Success?
    ensures TablesAt(DataSourceRemoved(fetched, Qualified("accounts")).value) == Success([Invoices, Payments])
  {
    DataSourcesRequestSpec(warehouseId, instructionId);
    AccountsDiffer();
    RemoveFirstOfThree(Accounts, Invoices, Payments, Qualified("accounts"));
    RemovedTables(fetched, Qualified("accounts"));
  }

  lemma AccountsDiffer()
    ensures Invoices.identifier != Qualified("accounts") && Payments.identifier != Qualified("accounts")
  {
    QualifiedOrder();
    NotLessEqDiffers(Qualified("invoices"), Qualified("accounts"));
    NotLessEqDiffers(Qualified("payments"), Qualified("accounts"));
  }

  lemma RemovedTables(d: Document, identifier: string)
    requires TablesAt(d).Success?
    ensures DataSourceRemoved(d, identifier).Success?
    ensures TablesAt(DataSourceRemoved(d, identifier).value) == Success(TablesWithout(TablesAt(d).value, identifier))
  {
  }
}
