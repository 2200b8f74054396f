/**
 * demo.py: Space A (inline measures and full context), the edits that
 * `main` makes to it in steps 3, 4 and 6, and Space B (tables, and a metric
 * view when its DDL succeeded). Each step edits the document that the step
 * fetched; the fetches and PATCHes themselves are left out. The fourteen
 * fresh ids of Space A are supplied in the order `gen_id` is called.
 */
module Demo {
  import opened Wrappers
  import opened StringOrder
  import opened Lists
  import opened SpaceDoc
  import Edits
  import Metrics
  import Context

  /** `WAREHOUSE_ID` of demo.py. */
  const DemoWarehouseId := "cd3b290bff658fa3"

  const AverageAmountSql := "AVG(amount)"
  const AverageAmountName := "avg_invoice_amount"
  const DemoInstructionLines: seq<string> := [
    "This space answers questions about financial invoices and payments. ",
    "All monetary values are in USD unless stated otherwise. ",
    "Fiscal quarters: Q1=Jan-Mar, Q2=Apr-Jun, Q3=Jul-Sep, Q4=Oct-Dec.\n",
    "\n",
    "Key joins:\n",
    "- invoices.company_id = accounts.account_id\n",
    "- invoices.invoice_id = payments.invoice_id\n"]
  /** The prefix every demo title starts with. */
  const DemoTitlePrefix := "Genie API Demo"
  const SpaceATitle := DemoTitlePrefix + " — Inline Measures"
  const SpaceADescription := "Demo space showing inline measures, context, sample questions, and permissions via the Genie API."

  /** The four sample questions of Space A before sorting (ids 0-3). */
  function SpaceAQuestions(ids: seq<string>): seq<Entry>
    requires |ids| == 14
  {
    [ Context.Question(ids[0], Context.RevenueQuestion),
      Context.Question(ids[1], Context.OverdueCompaniesQuestion),
      Context.Question(ids[2], Context.PaymentTrendsQuestion),
      Context.Question(ids[3], Context.AverageInvoiceQuestion) ]
  }

  /** The four measures of Space A before sorting (ids 4-7). */
  function SpaceAMeasures(ids: seq<string>): seq<Entry>
    requires |ids| == 14
  {
    [ Snippet(ids[4], Context.TotalRevenueSql, Context.TotalRevenueName),
      Snippet(ids[5], Context.InvoiceCountSql, Context.InvoiceCountName),
      Snippet(ids[6], AverageAmountSql, AverageAmountName),
      Snippet(ids[7], Context.OverdueAmountSql, Context.OverdueAmountName) ]
  }

  /** The two filters of Space A before sorting (ids 8-9). */
  function SpaceAFilters(ids: seq<string>): seq<Entry>
    requires |ids| == 14
  {
    [ Snippet(ids[8], Context.PaidFilterSql, Context.PaidFilterName),
      Snippet(ids[9], Context.RecentFilterSql, Context.RecentFilterName) ]
  }

  /** The expression of Space A (id 10). */
  function SpaceAExpressions(ids: seq<string>): seq<Entry>
    requires |ids| == 14
  {
    [ Snippet(ids[10], Context.InvoiceSizeSql, Context.InvoiceSizeName) ]
  }

  /** The two example queries of Space A before sorting (ids 11-12). */
  function SpaceAExampleSqls(ids: seq<string>): seq<Entry>
    requires |ids| == 14
  {
    [ Entry(Some(ids[11]), ExampleQuestionSql([Context.RevenueByQuarter], Context.RevenueByQuarterSql), map[]),
      Entry(Some(ids[12]), ExampleQuestionSql([Context.OverdueByCompany], Context.OverdueByCompanySql), map[]) ]
  }

  /** The text instruction of Space A (id 13, drawn after the lists). */
  function SpaceAText(id: string): Entry {
    Entry(Some(id), TextInstruction(DemoInstructionLines), map[])
  }

  /** The tables of Space A as written: accounts, invoices with column configurations, payments. */
  const SpaceATables := [BareTable(Qualified("accounts")), Context.InvoicesWithColumns, BareTable(Qualified("payments"))]

  /** `create_space_a()`: the create request. */
  function CreateSpaceA(ids: seq<string>): CreateSpaceRequest
    requires |ids| == 14
  {
    CreateSpaceRequest(SpaceATitle, SpaceADescription, DemoWarehouseId,
      Context.ContextDocument(
        SortedById(SpaceAQuestions(ids)),
        [SpaceAText(ids[13])],
        SortedById(SpaceAExampleSqls(ids)),
        SortedById(SpaceAFilters(ids)),
        SortedById(SpaceAExpressions(ids)),
        SortedById(SpaceAMeasures(ids)),
        SortedByIdentifier(SpaceATables)))
  }

  /** The tables of Space A are written in order already, so sorting keeps them as written. */
  lemma SpaceATablesSorted()
    ensures SortedBy(SpaceATables, TableKey)
    ensures SortedByIdentifier(SpaceATables) == SpaceATables
  {
    QualifiedOrder();
    SortedThree(BareTable(Qualified("accounts")), Context.InvoicesWithColumns, BareTable(Qualified("payments")), TableKey);
    SortByOfSorted(SpaceATables, TableKey);
  }

  /** Where Space A's lists sit in its document. */
  lemma SpaceATablesAt(ids: seq<string>)
    requires |ids| == 14
    ensures TablesAt(CreateSpaceA(ids).serializedSpace) == Success(SortedByIdentifier(SpaceATables))
  {
  }

  lemma SpaceAMeasuresAt(ids: seq<string>)
    requires |ids| == 14
    ensures MeasuresAt(CreateSpaceA(ids).serializedSpace) == Success(SortedById(SpaceAMeasures(ids)))
  {
  }

  lemma SpaceATextAt(ids: seq<string>)
    requires |ids| == 14
    ensures CreateSpaceA(ids).serializedSpace.instructions.value.textInstructions == Some([SpaceAText(ids[13])])
  {
  }

  /**
   * Space A goes to the demo's warehouse with its tables as written
   * (accounts, invoices, payments).
   */
  lemma CreateSpaceASpec(ids: seq<string>)
    requires |ids| == 14
    ensures var r := CreateSpaceA(ids);
      && r.warehouseId == DemoWarehouseId
      && r.title == SpaceATitle
      && TablesAt(r.serializedSpace) == Success(SpaceATables)
  {
    SpaceATablesSorted();
    SpaceATablesAt(ids);
  }

  /** Space A holds the four measures as written, sorted by `id`. */
  lemma SpaceAMeasuresSpec(ids: seq<string>)
    requires |ids| == 14
    ensures var ms := MeasuresAt(CreateSpaceA(ids).serializedSpace);
      && ms.Success?
      && |ms.value| == 4
      && multiset(ms.value) == multiset(SpaceAMeasures(ids))
      && SortedBy(ms.value, IdKey)
  {
    SpaceAMeasuresAt(ids);
    SortBySorted(SpaceAMeasures(ids), IdKey);
  }

  /** Every id-keyed list of Space A is sorted by `id`, and its tables by `identifier`. */
  lemma CreateSpaceANormalized(ids: seq<string>)
    requires |ids| == 14
    ensures IsNormalized(CreateSpaceA(ids).serializedSpace)
  {
    SpaceATablesSorted();
    SortBySorted(SpaceAQuestions(ids), IdKey);
    SortBySorted(SpaceAExampleSqls(ids), IdKey);
    SortBySorted(SpaceAFilters(ids), IdKey);
    SortBySorted(SpaceAExpressions(ids), IdKey);
    SortBySorted(SpaceAMeasures(ids), IdKey);
    Context.ContextDocumentNormalized(
        SortedById(SpaceAQuestions(ids)),
        [SpaceAText(ids[13])],
        SortedById(SpaceAExampleSqls(ids)),
        SortedById(SpaceAFilters(ids)),
        SortedById(SpaceAExpressions(ids)),
        SortedById(SpaceAMeasures(ids)),
        SortedByIdentifier(SpaceATables));
  }

  // ---------------------------------------------------------------------------
  // Steps of `main`
  // ---------------------------------------------------------------------------

  /** Step 3 on a document: append `revenue_per_invoice`, then re-sort the measures. */
  function MeasureAddedAndSorted(d: Document, id: string): Result<Document, Error> {
    match Edits.MeasureAppended(d, Metrics.RevenuePerInvoice(id))
    case Failure(e) => Failure(e)
    case Success(d1) => Edits.MeasuresResorted(d1)
  }

  method Step3AddMeasure(config: Space, id: string) returns (res: Outcome<Error>)
    modifies config
    ensures res == OutcomeOf(MeasureAddedAndSorted(old(config.Value()), id))
    ensures config.Value() == After(MeasureAddedAndSorted(old(config.Value()), id), old(config.Value()))
  {
    res := Edits.AppendMeasure(config, Metrics.RevenuePerInvoice(id));
    if res.Pass? {
      res := Edits.SortMeasures(config);
    }
  }

  /**
   * Step 3 on a document with measures: one more measure, sorted, the old
   * ones kept, and nothing outside `instructions` changed.
   */
  lemma Step3Spec(d: Document, id: string)
    requires MeasuresAt(d).Success?
    ensures var r := MeasureAddedAndSorted(d, id);
      && r.Success?
      && |MeasuresAt(r.value).value| == |MeasuresAt(d).value| + 1
      && SortedBy(MeasuresAt(r.value).value, IdKey)
      && multiset(MeasuresAt(r.value).value) == multiset(MeasuresAt(d).value) + multiset{Metrics.RevenuePerInvoice(id)}
  {
    Edits.AppendThenSortMeasures(d, Metrics.RevenuePerInvoice(id));
  }

  /** Step 3 changes nothing outside `instructions`. */
  lemma Step3Frame(d: Document, id: string)
    requires MeasuresAt(d).Success?
    ensures MeasureAddedAndSorted(d, id).Success?
    ensures MeasureAddedAndSorted(d, id).value.(instructions := d.instructions) == d
  {
    Edits.AppendThenSortMeasures(d, Metrics.RevenuePerInvoice(id));
  }

  /**
   * Step 3 on the document fetched back from Space A, whose measures are
   * the four created ones (`SpaceAMeasuresAt`), whatever else the store
   * returned: five measures, the four and `revenue_per_invoice`.
   */
  lemma Step3OnSpaceA(ids: seq<string>, id: string, fetched: Document)
    requires |ids| == 14
    requires MeasuresAt(fetched) == Success(SortedById(SpaceAMeasures(ids)))
    ensures var r := MeasureAddedAndSorted(fetched, id);
      && r.Success?
      && |MeasuresAt(r.value).value| == 5
      && multiset(MeasuresAt(r.value).value) == multiset(SpaceAMeasures(ids)) + multiset{Metrics.RevenuePerInvoice(id)}
  {
    Step3Spec(fetched, id);
  }

  /** Step 4, first half: remove `payments`. */
  method Step4RemovePayments(config: Space) returns (res: Outcome<Error>)
    modifies config
    ensures res == OutcomeOf(Edits.TableRemoved(old(config.Value()), Qualified("payments")))
    ensures config.Value() == After(Edits.TableRemoved(old(config.Value()), Qualified("payments")), old(config.Value()))
  {
    res := Edits.RemoveTable(config, Qualified("payments"));
  }

  /** Step 4, second half: append `payments` again and re-sort the tables. */
  function PaymentsReAdded(d: Document): Result<Document, Error> {
    match Edits.TableAppended(d, Qualified("payments"))
    case Failure(e) => Failure(e)
    case Success(d1) => Edits.TablesResorted(d1)
  }

  method Step4ReAddPayments(config: Space) returns (res: Outcome<Error>)
    modifies config
    ensures res == OutcomeOf(PaymentsReAdded(old(config.Value())))
    ensures config.Value() == After(PaymentsReAdded(old(config.Value())), old(config.Value()))
  {
    res := Edits.AppendTable(config, Qualified("payments"));
    if res.Pass? {
      res := Edits.SortTables(config);
    }
  }

  /**
   * Step 4 on any document with tables, when the store hands back what was
   * sent: the re-added list is sorted, holds `payments` exactly once, and
   * keeps every other table.
   */
  lemma Step4RoundTrip(d: Document)
    requires TablesAt(d).Success?
    ensures Edits.TableRemoved(d, Qualified("payments")).Success?
    ensures PaymentsReAdded(Edits.TableRemoved(d, Qualified("payments")).value).Success?
    ensures var r := TablesAt(PaymentsReAdded(Edits.TableRemoved(d, Qualified("payments")).value).value).value;
      && SortedBy(r, TableKey)
      && WithKey(r, TableKey, Qualified("payments")) == [BareTable(Qualified("payments"))]
      && (forall t: Table :: t.identifier != Qualified("payments") ==> multiset(r)[t] == multiset(TablesAt(d).value)[t])
  {
    Edits.RemoveThenReAdd(d, Qualified("payments"));
    Edits.RemoveThenReAddTables(TablesAt(d).value, Qualified("payments"));
  }

  /** Filtering out the identifier of the last of three tables. */
  lemma RemoveLastOfThree(a: Table, b: Table, c: Table, identifier: string)
    requires a.identifier != identifier && b.identifier != identifier && c.identifier == identifier
    ensures TablesWithout([a, b, c], identifier) == [a, b]
  {
    var keep := (t: Table) => t.identifier != identifier;
    assert [a, b, c][1..] == [b, c] && [b, c][1..] == [c] && [c][1..] == [];
    assert Filter([c], keep) == [];
    assert Filter([b, c], keep) == [b];
  }

  lemma SpaceAIdentifiersDiffer()
    ensures Qualified("accounts") != Qualified("payments") && Qualified("invoices") != Qualified("payments")
  {
    assert Qualified("accounts")[17] != Qualified("payments")[17];
    assert Qualified("invoices")[17] != Qualified("payments")[17];
  }

  /**
   * Step 4 on Space A's tables as fetched: the removal leaves accounts and
   * invoices. The re-add works on the document fetched again after that
   * PATCH; when its tables are the ones the removal sent, the re-add restores
   * the three tables as created.
   */
  lemma Step4OnSpaceA(fetched: Document, refetched: Document)
    requires TablesAt(fetched) == Success(SpaceATables)
    requires TablesAt(refetched) == Success([BareTable(Qualified("accounts")), Context.InvoicesWithColumns])
    ensures Edits.TableRemoved(fetched, Qualified("payments")).Success?
    ensures TablesAt(Edits.TableRemoved(fetched, Qualified("payments")).value) == TablesAt(refetched)
    ensures PaymentsReAdded(refetched).Success?
    ensures TablesAt(PaymentsReAdded(refetched).value) == Success(SpaceATables)
  {
    Step4RemovalOnSpaceA(fetched);
    Step4ReAddOnSpaceA(refetched);
  }

  lemma Step4RemovalOnSpaceA(fetched: Document)
    requires TablesAt(fetched) == Success(SpaceATables)
    ensures Edits.TableRemoved(fetched, Qualified("payments")).Success?
    ensures TablesAt(Edits.TableRemoved(fetched, Qualified("payments")).value)
         == Success([BareTable(Qualified("accounts")), Context.InvoicesWithColumns])
  {
    SpaceAIdentifiersDiffer();
    RemoveLastOfThree(BareTable(Qualified("accounts")), Context.InvoicesWithColumns, BareTable(Qualified("payments")), Qualified("payments"));
  }

  lemma Step4ReAddOnSpaceA(removed: Document)
    requires TablesAt(removed) == Success([BareTable(Qualified("accounts")), Context.InvoicesWithColumns])
    ensures PaymentsReAdded(removed).Success?
    ensures TablesAt(PaymentsReAdded(removed).value) == Success(SpaceATables)
  {
    var kept := [BareTable(Qualified("accounts")), Context.InvoicesWithColumns];
    assert kept + [BareTable(Qualified("payments"))] == SpaceATables;
    SpaceATablesSorted();
    ReAddRestoresSorted(removed, SpaceATables);
  }

  /** Re-adding `payments` to the tables a sorted list had before it lost its last entry `payments` gives that list back. */
  lemma ReAddRestoresSorted(d: Document, whole: seq<Table>)
    requires TablesAt(d).Success?
    requires whole == TablesAt(d).value + [BareTable(Qualified("payments"))]
    requires SortedBy(whole, TableKey)
    ensures PaymentsReAdded(d).Success?
    ensures TablesAt(PaymentsReAdded(d).value) == Success(whole)
  {
    PaymentsReAddedTables(d);
    SortByOfSorted(whole, TableKey);
  }

  /** The re-add succeeds on any document with tables, and sorts them with `payments` appended. */
  lemma PaymentsReAddedTables(d: Document)
    requires TablesAt(d).Success?
    ensures PaymentsReAdded(d).Success?
    ensures TablesAt(PaymentsReAdded(d).value) == Success(SortedByIdentifier(TablesAt(d).value + [BareTable(Qualified("payments"))]))
  {
  }

  /** Step 6's line. */
  const OverdueRule := "\nOverdue invoices are those with status = 'OVERDUE'."

  /** Step 6: append the overdue rule to the first text instruction. */
  method Step6AppendRule(config: Space) returns (res: Outcome<Error>)
    modifies config
    ensures res == OutcomeOf(Edits.InstructionContentAppended(old(config.Value()), OverdueRule))
    ensures config.Value() == After(Edits.InstructionContentAppended(old(config.Value()), OverdueRule), old(config.Value()))
  {
    res := Edits.AppendInstructionContent(config, OverdueRule);
  }

  /**
   * On Space A as re-fetched, whose `instructions` are those it was created
   * with, step 6 leaves one text instruction whose eighth and last line is the
   * rule, and nothing outside `instructions` changes.
   */
  lemma Step6OnSpaceA(ids: seq<string>, fetched: Document)
    requires |ids| == 14
    requires fetched.instructions == CreateSpaceA(ids).serializedSpace.instructions
    ensures var r := Edits.InstructionContentAppended(fetched, OverdueRule);
      && r.Success?
      && r.value.instructions.value.textInstructions.value == [SpaceAText(ids[13]).(body := TextInstruction(DemoInstructionLines + [OverdueRule]))]
      && |r.value.instructions.value.textInstructions.value[0].body.content| == 8
      && r.value.(instructions := fetched.instructions) == fetched
  {
    SpaceATextAt(ids);
    Edits.InstructionContentAppendedSpec(fetched, OverdueRule);
  }

  // ---------------------------------------------------------------------------
  // Space B
  // ---------------------------------------------------------------------------

  const SpaceBInstruction: seq<string> := ["This space uses metric views for governed, reusable financial metrics."]
  const MetricViewsTitle := DemoTitlePrefix + " — Metric Views"
  const DataSourcesTitle := DemoTitlePrefix + " — Data Sources"
  const MetricViewsDescription := "Demo space showing metric views attached via the Genie API."
  const DataSourcesDescription := "Demo space showing data source management via the Genie API (metric view DDL not available on this workspace)."
  const SpaceBTables := [BareTable(Qualified("accounts")), BareTable(Qualified("invoices")), BareTable(Qualified("payments"))]

  /** `create_space_b(with_metric_view)`: the create request; `id` is the text instruction's fresh id. */
  function CreateSpaceB(withMetricView: bool, id: string): CreateSpaceRequest {
    var tables := SortedByIdentifier(SpaceBTables);
    var dataSources := if withMetricView
      then DataSources(Some(tables), Some([Metrics.InvoiceMetricView]), map[])
      else DataSources(Some(tables), None, map[]);
    CreateSpaceRequest(
      if withMetricView then MetricViewsTitle else DataSourcesTitle,
      if withMetricView then MetricViewsDescription else DataSourcesDescription,
      DemoWarehouseId,
      Document(Some(2), Some(dataSources),
               Some(Instructions(Some([Entry(Some(id), TextInstruction(SpaceBInstruction), map[])]), None, None, map[])),
               None, map[]))
  }

  lemma SpaceBTablesSorted()
    ensures SortedBy(SpaceBTables, TableKey)
    ensures SortedByIdentifier(SpaceBTables) == SpaceBTables
  {
    QualifiedOrder();
    SortedThree(BareTable(Qualified("accounts")), BareTable(Qualified("invoices")), BareTable(Qualified("payments")), TableKey);
    SortByOfSorted(SpaceBTables, TableKey);
  }

  /** Where Space B's tables and views sit in its document. */
  lemma SpaceBDataSources(withMetricView: bool, id: string)
    ensures var ds := CreateSpaceB(withMetricView, id).serializedSpace.dataSources;
      && ds.Some?
      && ds.value.tables == Some(SortedByIdentifier(SpaceBTables))
      && ds.value.metricViews == if withMetricView then Some([Metrics.InvoiceMetricView]) else None
  {
  }

  /**
   * Space B: the tables are accounts, invoices, payments in order, and
   * `metric_views` is present exactly when the metric view was created, and
   * then holds just `mv_invoice`.
   */
  lemma CreateSpaceBSpec(withMetricView: bool, id: string)
    ensures var r := CreateSpaceB(withMetricView, id);
      && TablesAt(r.serializedSpace) == Success(SpaceBTables)
      && (r.serializedSpace.dataSources.value.metricViews.Some? <==> withMetricView)
      && (withMetricView ==> r.serializedSpace.dataSources.value.metricViews == Some([Metrics.InvoiceMetricView]))
  {
    SpaceBTablesSorted();
    SpaceBDataSources(withMetricView, id);
  }

  /** The title and description follow the same flag. */
  lemma CreateSpaceBTitle(withMetricView: bool, id: string)
    ensures var r := CreateSpaceB(withMetricView, id);
      && (r.title == MetricViewsTitle <==> withMetricView)
      && (r.title == DataSourcesTitle <==> !withMetricView)
      && (r.description == MetricViewsDescription <==> withMetricView)
  {
    assert MetricViewsTitle[17] != DataSourcesTitle[17];
    assert |MetricViewsDescription| != |DataSourcesDescription|;
  }

  /** Every list of Space B is in order. */
  lemma CreateSpaceBNormalized(withMetricView: bool, id: string)
    ensures IsNormalized(CreateSpaceB(withMetricView, id).serializedSpace)
  {
    SpaceBTablesSorted();
    SpaceBDataSources(withMetricView, id);
    var d := CreateSpaceB(withMetricView, id).serializedSpace;
    assert SortedBy(d.instructions.value.textInstructions.value, IdKey);
  }
}
