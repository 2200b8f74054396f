/**
 * 01_metrics.py: a space created with inline measures, the wholesale
 * replacement of its measures, and the attachment of a metric view. The GET
 * that fetches the document and the PATCH that sends it back are left out;
 * the edits act on the fetched dictionary.
 */
module Metrics {
  import opened Wrappers
  import opened Lists
  import opened SpaceDoc

  /** The three measures of `create_space_with_inline_measures`, in the order they are written. */
  function CreatedMeasures(revenueId: string, countId: string, avgId: string): seq<Entry> {
    [ Snippet(revenueId, "SUM(amount)", "total_revenue"),
      Snippet(countId, "COUNT(DISTINCT invoice_id)", "invoice_count"),
      Snippet(avgId, "AVG(amount)", "avg_invoice_amount") ]
  }

  /**
   * The body of the create request: one `invoices` table, one text
   * instruction, and the three measures sorted by `id`. The four fresh ids
   * are taken in the order `gen_id` is called.
   */
  const InlineMeasuresTitle := "Finance Metrics Space"

  function InlineMeasuresRequest(warehouseId: string, instructionId: string,
                                 revenueId: string, countId: string, avgId: string): CreateSpaceRequest
  {
    var tables := [BareTable(Qualified("invoices"))];
    var text := [Entry(Some(instructionId), TextInstruction(["This space answers questions about financial invoices."]), map[])];
    var snippets := SqlSnippets(Some(SortedById(CreatedMeasures(revenueId, countId, avgId))), None, None, map[]);
    CreateSpaceRequest(
      InlineMeasuresTitle,
      "Genie space with inline financial measures",
      warehouseId,
      Document(Some(2), Some(DataSources(Some(tables), None, map[])),
               Some(Instructions(Some(text), None, Some(snippets), map[])), None, map[]))
  }

  /**
   * The created document holds exactly the three measures, sorted by `id`,
   * every list of it is in order, and it goes to the given warehouse.
   */
  lemma InlineMeasuresRequestSpec(warehouseId: string, instructionId: string,
                                  revenueId: string, countId: string, avgId: string)
    ensures var r := InlineMeasuresRequest(warehouseId, instructionId, revenueId, countId, avgId);
      var ms := MeasuresAt(r.serializedSpace);
      && r.warehouseId == warehouseId
      && r.serializedSpace.version == Some(2)
      && ms.Success?
      && |ms.value| == 3
      && multiset(ms.value) == multiset(CreatedMeasures(revenueId, countId, avgId))
      && SortedBy(ms.value, IdKey)
      && TablesAt(r.serializedSpace) == Success([BareTable(Qualified("invoices"))])
      && IsNormalized(r.serializedSpace)
  {
    SortByIsStableSort(CreatedMeasures(revenueId, countId, avgId), IdKey);
    var r := InlineMeasuresRequest(warehouseId, instructionId, revenueId, countId, avgId);
    assert SortedBy(r.serializedSpace.instructions.value.textInstructions.value, IdKey);
    assert SortedBy(r.serializedSpace.dataSources.value.tables.value, TableKey);
  }

  /** The `revenue_per_invoice` measure, which demo.py also adds. */
  function RevenuePerInvoice(id: string): Entry {
    Snippet(id, "SUM(amount) / NULLIF(COUNT(DISTINCT invoice_id), 0)", "revenue_per_invoice")
  }

  /** The two measures that `update_space_measures` writes, in the order they are written. */
  function ReplacementMeasures(revenueId: string, perInvoiceId: string): seq<Entry> {
    [ Snippet(revenueId, "SUM(amount)", "total_revenue"), RevenuePerInvoice(perInvoiceId) ]
  }

  /**
   * The document after `update_space_measures`'s edit: `instructions` and
   * `sql_snippets` created empty when missing, then `measures` set to the
   * two new entries sorted by `id`.
   */
  function MeasuresReplaced(d: Document, revenueId: string, perInvoiceId: string): Document {
    var ins := d.instructions.GetOr(EmptyInstructions);
    var sn := ins.sqlSnippets.GetOr(EmptySnippets);
    d.(instructions := Some(ins.(sqlSnippets := Some(sn.(measures := Some(SortedById(ReplacementMeasures(revenueId, perInvoiceId))))))))
  }

  /** The edit of `update_space_measures` on the fetched dictionary. */
  method UpdateSpaceMeasures(config: Space, revenueId: string, perInvoiceId: string)
    modifies config
    ensures config.Value() == MeasuresReplaced(old(config.Value()), revenueId, perInvoiceId)
  {
    var ins := config.SetDefaultInstructions();
    var sn := ins.sqlSnippets.GetOr(EmptySnippets);
    config.instructions := Some(ins.(sqlSnippets := Some(sn)));
    var measures := SortedById(ReplacementMeasures(revenueId, perInvoiceId));
    config.instructions := Some(config.instructions.value.(sqlSnippets := Some(sn.(measures := Some(measures)))));
  }

  /**
   * `measures` becomes the two new entries, sorted, whatever it held before;
   * the siblings of `measures` and of `sql_snippets` are kept, and
   * `data_sources`, `config`, `version` and the unknown keys are untouched.
   */
  lemma MeasuresReplacedSpec(d: Document, revenueId: string, perInvoiceId: string)
    ensures var r := MeasuresReplaced(d, revenueId, perInvoiceId);
      var ms := MeasuresAt(r);
      && ms.Success?
      && |ms.value| == 2
      && multiset(ms.value) == multiset(ReplacementMeasures(revenueId, perInvoiceId))
      && SortedBy(ms.value, IdKey)
      && r.(instructions := d.instructions) == d
      && (d.instructions.Some? ==>
            r.instructions.value.(sqlSnippets := d.instructions.value.sqlSnippets) == d.instructions.value)
      && (d.instructions.Some? && d.instructions.value.sqlSnippets.Some? ==>
            r.instructions.value.sqlSnippets.value.(measures := d.instructions.value.sqlSnippets.value.measures)
              == d.instructions.value.sqlSnippets.value)
  {
    SortByIsStableSort(ReplacementMeasures(revenueId, perInvoiceId), IdKey);
  }

  /** The prior measures are discarded: the result does not depend on them, and repeating the edit changes nothing. */
  lemma MeasuresReplacedDiscardsPrior(d: Document, revenueId: string, perInvoiceId: string, prior: seq<Entry>)
    requires MeasuresAt(d).Success?
    ensures MeasuresReplaced(WithMeasures(d, prior), revenueId, perInvoiceId) == MeasuresReplaced(d, revenueId, perInvoiceId)
    ensures MeasuresReplaced(MeasuresReplaced(d, revenueId, perInvoiceId), revenueId, perInvoiceId)
            == MeasuresReplaced(d, revenueId, perInvoiceId)
  {
  }

  /**
   * The other lists are not re-sorted, so the result is in order exactly
   * when the fetched document was, apart from the measures it replaces.
   */
  lemma MeasuresReplacedKeepsNormalized(d: Document, revenueId: string, perInvoiceId: string)
    requires IsNormalized(d)
    ensures IsNormalized(MeasuresReplaced(d, revenueId, perInvoiceId))
  {
    SortBySorted(ReplacementMeasures(revenueId, perInvoiceId), IdKey);
  }

  /** `{"identifier": f"{CATALOG}.{SCHEMA}.mv_invoice"}` */
  const InvoiceMetricView := MetricView(Qualified("mv_invoice"), map[])

  /**
   * The document after `attach_metric_view_to_space`'s edit: `data_sources`
   * and `metric_views` created empty when missing, then the view appended.
   */
  function MetricViewAttached(d: Document): Document {
    var ds := d.dataSources.GetOr(EmptyDataSources);
    var views := ds.metricViews.GetOr([]);
    d.(dataSources := Some(ds.(metricViews := Some(views + [InvoiceMetricView]))))
  }

  /** The edit of `attach_metric_view_to_space` on the fetched dictionary. */
  method AttachMetricViewToSpace(config: Space)
    modifies config
    ensures config.Value() == MetricViewAttached(old(config.Value()))
  {
    var ds := config.SetDefaultDataSources();
    if ds.metricViews.None? {
      ds := ds.(metricViews := Some([]));
      config.dataSources := Some(ds);
    }
    config.dataSources := Some(ds.(metricViews := Some(ds.metricViews.value + [InvoiceMetricView])));
  }

  /**
   * Exactly one view is added, at the end; the earlier views keep their
   * order, `tables` and the other branches are untouched.
   */
  lemma MetricViewAttachedSpec(d: Document)
    ensures var r := MetricViewAttached(d);
      var before := if d.dataSources.Some? then d.dataSources.value.metricViews.GetOr([]) else [];
      var after := r.dataSources.value.metricViews.value;
      && |after| == |before| + 1
      && after[..|before|] == before
      && after[|before|] == InvoiceMetricView
      && r.(dataSources := d.dataSources) == d
      && (d.dataSources.Some? ==> r.dataSources.value.(metricViews := d.dataSources.value.metricViews) == d.dataSources.value)
      && (d.dataSources.None? ==> r.dataSources.value.tables.None? && r.dataSources.value.rest == map[])
  {
    var r := MetricViewAttached(d);
    var before := if d.dataSources.Some? then d.dataSources.value.metricViews.GetOr([]) else [];
    assert r.dataSources.value.metricViews.value == before + [InvoiceMetricView];
  }

  /** There is no duplicate check: attaching twice leaves two equal entries at the end. */
  lemma AttachTwice(d: Document)
    ensures var views := MetricViewAttached(MetricViewAttached(d)).dataSources.value.metricViews.value;
      && |views| >= 2
      && views[|views| - 2] == views[|views| - 1] == InvoiceMetricView
      && multiset(views)[InvoiceMetricView] >= 2
  {
    MetricViewAttachedSpec(d);
    MetricViewAttachedSpec(MetricViewAttached(d));
    var views := MetricViewAttached(MetricViewAttached(d)).dataSources.value.metricViews.value;
    var n := |views|;
    assert views == views[..n - 2] + [views[n - 2], views[n - 1]];
  }

  /** `metric_views` is not a sorted list, so attaching keeps a normalised document normalised. */
  lemma MetricViewAttachedKeepsNormalized(d: Document)
    requires IsNormalized(d)
    ensures IsNormalized(MetricViewAttached(d))
  {
  }
}
