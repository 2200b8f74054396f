/**
 * 04_context.py: the create payload that fills every kind of context a space
 * holds, and the update that appends a rule to the text instruction of the
 * fetched document. The thirteen fresh ids are supplied in the order
 * `gen_id` is called.
 */
module Context {
  import opened Wrappers
  import opened StringOrder
  import opened Lists
  import opened SpaceDoc
  import Edits

  // The literal texts of the payload. Keeping each behind a name keeps the
  // proofs about the payload from unfolding every string.
  const RevenueQuestion := "What is our total revenue this quarter?"
  const OverdueCompaniesQuestion := "Which companies have the most overdue invoices?"
  const PaymentTrendsQuestion := "Show me payment trends over the last 6 months."
  const AverageInvoiceQuestion := "What is the average invoice amount by company?"
  const InstructionLines: seq<string> := [
    "This space answers questions about financial invoices and payments. ",
    "All monetary values are in USD unless stated otherwise. ",
    "Fiscal quarters follow the standard calendar: Q1=Jan-Mar, Q2=Apr-Jun, Q3=Jul-Sep, Q4=Oct-Dec.\n",
    "\n",
    "Key joins:\n",
    "- invoices.company_id = accounts.account_id\n",
    "- invoices.invoice_id = payments.invoice_id\n"]
  const RevenueByQuarter := "Total revenue by quarter"
  const RevenueByQuarterSql: seq<string> := [
    "SELECT fiscal_quarter, SUM(amount) AS total_revenue ",
    "FROM " + Qualified("invoices") + " ",
    "GROUP BY fiscal_quarter ORDER BY fiscal_quarter"]
  const OverdueByCompany := "Overdue invoices by company"
  const OverdueByCompanySql: seq<string> := [
    "SELECT a.company_name, COUNT(*) AS overdue_count, SUM(i.amount) AS overdue_total ",
    "FROM " + Qualified("invoices") + " i ",
    "JOIN " + Qualified("accounts") + " a ON i.company_id = a.account_id ",
    "WHERE i.status = 'OVERDUE' ",
    "GROUP BY a.company_name ORDER BY overdue_total DESC"]
  const PaidFilterSql := "invoices.status = 'PAID'"
  const PaidFilterName := "Paid invoices only"
  const RecentFilterSql := "invoices.invoice_date >= DATE_ADD(CURRENT_DATE(), -90)"
  const RecentFilterName := "Last 90 days"
  const InvoiceSizeSql := "CASE WHEN amount > 10000 THEN 'Large' WHEN amount > 1000 THEN 'Medium' ELSE 'Small' END"
  const InvoiceSizeName := "invoice_size"
  const TotalRevenueSql := "SUM(amount)"
  const TotalRevenueName := "total_revenue"
  const InvoiceCountSql := "COUNT(DISTINCT invoice_id)"
  const InvoiceCountName := "invoice_count"
  const OverdueAmountSql := "SUM(CASE WHEN status = 'OVERDUE' THEN amount ELSE 0 END)"
  const OverdueAmountName := "overdue_amount"

  function Question(id: string, text: string): Entry {
    Entry(Some(id), SampleQuestion([text]), map[])
  }

  /** The four sample questions before sorting (ids 0-3). */
  function ListedSampleQuestions(ids: seq<string>): seq<Entry>
    requires |ids| == 13
  {
    [ Question(ids[0], RevenueQuestion),
      Question(ids[1], OverdueCompaniesQuestion),
      Question(ids[2], PaymentTrendsQuestion),
      Question(ids[3], AverageInvoiceQuestion) ]
  }

  /** The single text instruction (id 4). */
  function FullTextInstruction(id: string): Entry {
    Entry(Some(id), TextInstruction(InstructionLines), map[])
  }

  /** The two example queries before sorting (ids 5-6). */
  function ListedExampleSqls(ids: seq<string>): seq<Entry>
    requires |ids| == 13
  {
    [ Entry(Some(ids[5]), ExampleQuestionSql([RevenueByQuarter], RevenueByQuarterSql), map[]),
      Entry(Some(ids[6]), ExampleQuestionSql([OverdueByCompany], OverdueByCompanySql), map[]) ]
  }

  /** The two filters before sorting (ids 7-8). */
  function ListedFilters(ids: seq<string>): seq<Entry>
    requires |ids| == 13
  {
    [ Snippet(ids[7], PaidFilterSql, PaidFilterName),
      Snippet(ids[8], RecentFilterSql, RecentFilterName) ]
  }

  /** The single expression (id 9). */
  function ListedExpressions(ids: seq<string>): seq<Entry>
    requires |ids| == 13
  {
    [ Snippet(ids[9], InvoiceSizeSql, InvoiceSizeName) ]
  }

  /** The three measures before sorting (ids 10-12). */
  function ListedMeasures(ids: seq<string>): seq<Entry>
    requires |ids| == 13
  {
    [ Snippet(ids[10], TotalRevenueSql, TotalRevenueName),
      Snippet(ids[11], InvoiceCountSql, InvoiceCountName),
      Snippet(ids[12], OverdueAmountSql, OverdueAmountName) ]
  }

  function ColumnConfig(column: string, entityMatching: bool): Json {
    if entityMatching then
      Obj(map["column_name" := Str(column), "enable_entity_matching" := Bool(true), "enable_format_assistance" := Bool(true)])
    else
      Obj(map["column_name" := Str(column), "enable_format_assistance" := Bool(true)])
  }

  /** The `invoices` table with its three column configurations. */
  const InvoicesWithColumns := Table(Qualified("invoices"),
    Some([ColumnConfig("amount", false), ColumnConfig("company_id", true), ColumnConfig("status", true)]), map[])

  /** The three tables in the order they are written: invoices, accounts, payments. */
  const ListedTables := [InvoicesWithColumns, BareTable(Qualified("accounts")), BareTable(Qualified("payments"))]

  /** The document of the payload, assembled from its (already sorted) lists. */
  function ContextDocument(sampleQuestions: seq<Entry>, text: seq<Entry>, exampleSqls: seq<Entry>,
                           filters: seq<Entry>, expressions: seq<Entry>, measures: seq<Entry>,
                           tables: seq<Table>): Document
  {
    Document(
      Some(2),
      Some(DataSources(Some(tables), None, map[])),
      Some(Instructions(Some(text), Some(exampleSqls),
                        Some(SqlSnippets(Some(measures), Some(filters), Some(expressions), map[])), map[])),
      Some(SpaceConfig(Some(sampleQuestions), map[])),
      map[])
  }

  /** `build_full_context_payload(warehouse_id)` */
  const FullContextTitle := "Finance Analytics Space"

  function BuildFullContextPayload(warehouseId: string, ids: seq<string>): CreateSpaceRequest
    requires |ids| == 13
  {
    CreateSpaceRequest(
      FullContextTitle,
      "Comprehensive financial analytics with full context",
      warehouseId,
      ContextDocument(
        SortedById(ListedSampleQuestions(ids)),
        [FullTextInstruction(ids[4])],
        SortedById(ListedExampleSqls(ids)),
        SortedById(ListedFilters(ids)),
        SortedById(ListedExpressions(ids)),
        SortedById(ListedMeasures(ids)),
        SortedByIdentifier(ListedTables)))
  }

  /** `invoices`, written first, sorts between `accounts` and `payments`. */
  lemma FullContextTablesOrder()
    ensures SortedByIdentifier(ListedTables)
            == [BareTable(Qualified("accounts")), InvoicesWithColumns, BareTable(Qualified("payments"))]
  {
    QualifiedOrder();
    SortByMiddleFirst(InvoicesWithColumns, BareTable(Qualified("accounts")), BareTable(Qualified("payments")), TableKey);
  }

  /** Sorted by `id`, and a rearrangement of `listed`. */
  ghost predicate SortedPermutation(sorted: seq<Entry>, listed: seq<Entry>) {
    SortedBy(sorted, IdKey) && multiset(sorted) == multiset(listed)
  }

  lemma SortedByIdPermutes(listed: seq<Entry>)
    ensures SortedPermutation(SortedById(listed), listed)
  {
    SortBySorted(listed, IdKey);
  }

  /** Where the payload's lists sit in its document. */
  lemma FullContextLists(warehouseId: string, ids: seq<string>)
    requires |ids| == 13
    ensures var d := BuildFullContextPayload(warehouseId, ids).serializedSpace;
      && d.config.value.sampleQuestions.value == SortedById(ListedSampleQuestions(ids))
      && d.instructions.value.textInstructions.value == [FullTextInstruction(ids[4])]
      && d.instructions.value.exampleQuestionSqls.value == SortedById(ListedExampleSqls(ids))
      && d.instructions.value.sqlSnippets.value.filters.value == SortedById(ListedFilters(ids))
      && d.instructions.value.sqlSnippets.value.expressions.value == SortedById(ListedExpressions(ids))
      && d.instructions.value.sqlSnippets.value.measures.value == SortedById(ListedMeasures(ids))
  {
  }

  /**
   * Every id-keyed list of the payload is sorted by `id` and holds exactly
   * the entries as written: 4 sample questions, 1 text instruction,
   * 2 example queries, 2 filters, 1 expression and 3 measures.
   */
  lemma FullContextListsSpec(warehouseId: string, ids: seq<string>)
    requires |ids| == 13
    ensures var d := BuildFullContextPayload(warehouseId, ids).serializedSpace;
      var ins := d.instructions.value;
      var sn := ins.sqlSnippets.value;
      && SortedPermutation(d.config.value.sampleQuestions.value, ListedSampleQuestions(ids))
      && SortedPermutation(ins.exampleQuestionSqls.value, ListedExampleSqls(ids))
      && SortedPermutation(sn.filters.value, ListedFilters(ids))
      && SortedPermutation(sn.expressions.value, ListedExpressions(ids))
      && SortedPermutation(sn.measures.value, ListedMeasures(ids))
      && ins.textInstructions.value == [FullTextInstruction(ids[4])]
      && |d.config.value.sampleQuestions.value| == 4
      && |ins.exampleQuestionSqls.value| == 2
      && |sn.filters.value| == 2
      && |sn.expressions.value| == 1
      && |sn.measures.value| == 3
  {
    FullContextLists(warehouseId, ids);
    SortedByIdPermutes(ListedSampleQuestions(ids));
    SortedByIdPermutes(ListedExampleSqls(ids));
    SortedByIdPermutes(ListedFilters(ids));
    SortedByIdPermutes(ListedExpressions(ids));
    SortedByIdPermutes(ListedMeasures(ids));
  }

  /** The assembled document is in order when each of its lists is. */
  lemma ContextDocumentNormalized(sampleQuestions: seq<Entry>, text: seq<Entry>, exampleSqls: seq<Entry>,
                                  filters: seq<Entry>, expressions: seq<Entry>, measures: seq<Entry>,
                                  tables: seq<Table>)
    requires SortedBy(sampleQuestions, IdKey) && |text| <= 1 && SortedBy(exampleSqls, IdKey)
    requires SortedBy(filters, IdKey) && SortedBy(expressions, IdKey) && SortedBy(measures, IdKey)
    requires SortedBy(tables, TableKey)
    ensures IsNormalized(ContextDocument(sampleQuestions, text, exampleSqls, filters, expressions, measures, tables))
  {
    assert SortedBy(text, IdKey);
  }

  /**
   * The payload goes to the given warehouse, has `version` 2 and the tables
   * accounts, invoices (with its column configurations), payments.
   */
  lemma FullContextPayloadSpec(warehouseId: string, ids: seq<string>)
    requires |ids| == 13
    ensures var r := BuildFullContextPayload(warehouseId, ids);
      && r.warehouseId == warehouseId
      && r.title == FullContextTitle
      && r.serializedSpace.version == Some(2)
      && TablesAt(r.serializedSpace)
         == Success([BareTable(Qualified("accounts")), InvoicesWithColumns, BareTable(Qualified("payments"))])
      && r.serializedSpace.dataSources.value.metricViews.None?
  {
    FullContextTables(warehouseId, ids);
    FullContextTablesOrder();
  }

  lemma FullContextTables(warehouseId: string, ids: seq<string>)
    requires |ids| == 13
    ensures TablesAt(BuildFullContextPayload(warehouseId, ids).serializedSpace) == Success(SortedByIdentifier(ListedTables))
  {
  }

  /** Every list of the payload is in order, as the API demands. */
  lemma FullContextPayloadNormalized(warehouseId: string, ids: seq<string>)
    requires |ids| == 13
    ensures IsNormalized(BuildFullContextPayload(warehouseId, ids).serializedSpace)
  {
    SortBySorted(ListedSampleQuestions(ids), IdKey);
    SortBySorted(ListedExampleSqls(ids), IdKey);
    SortBySorted(ListedFilters(ids), IdKey);
    SortBySorted(ListedExpressions(ids), IdKey);
    SortBySorted(ListedMeasures(ids), IdKey);
    SortBySorted(ListedTables, TableKey);
    ContextDocumentNormalized(
        SortedById(ListedSampleQuestions(ids)),
        [FullTextInstruction(ids[4])],
        SortedById(ListedExampleSqls(ids)),
        SortedById(ListedFilters(ids)),
        SortedById(ListedExpressions(ids)),
        SortedById(ListedMeasures(ids)),
        SortedByIdentifier(ListedTables));
  }

  /** The rule that `__main__` appends to the fetched document. */
  const FiscalYearRule := "\nAdditional rule: Fiscal year starts in January."

  /** The update step of `__main__` on the fetched dictionary. */
  method AppendFiscalYearRule(config: Space) returns (res: Outcome<Error>)
    modifies config
    ensures res == OutcomeOf(Edits.InstructionContentAppended(old(config.Value()), FiscalYearRule))
    ensures config.Value() == After(Edits.InstructionContentAppended(old(config.Value()), FiscalYearRule), old(config.Value()))
  {
    res := Edits.AppendInstructionContent(config, FiscalYearRule);
  }

  /**
   * Applied to a fetched document whose `instructions` are those the payload
   * created, the update succeeds: there is still one text instruction, with
   * the rule as its eighth and last line, and nothing else changes.
   */
  lemma FiscalYearRuleOnCreated(warehouseId: string, ids: seq<string>, fetched: Document)
    requires |ids| == 13
    requires fetched.instructions == BuildFullContextPayload(warehouseId, ids).serializedSpace.instructions
    ensures var r := Edits.InstructionContentAppended(fetched, FiscalYearRule);
      && r.Success?
      && |r.value.instructions.value.textInstructions.value| == 1
      && r.value.instructions.value.textInstructions.value[0].id == Some(ids[4])
      && r.value.instructions.value.textInstructions.value[0].body.content
         == InstructionLines + [FiscalYearRule]
      && r.value.(instructions := fetched.instructions) == fetched
  {
    Edits.InstructionContentAppendedSpec(fetched, FiscalYearRule);
  }
}
