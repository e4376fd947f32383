/**
 * The per-request planning context (`ExecutionContext` in the builder,
 * `EntityExecutionContext` in the visitor): which sources still owe which kind
 * of data, whether sorting and pagination is already planned, and which
 * attributes and order-bys each source serves.
 */
module PlanContext {
  import opened Filters
  import opened Nodes

  /** The order-by expressions served by one source. */
  datatype OrderByEntry = OrderByEntry(source: Source, orderBys: seq<OrderBy>)

  /**
   * `sourceToOrderBy` keeps the map's iteration order, because the explicit
   * sort node lists the order-bys in that order.
   */
  datatype Context = Context(
    pendingSelection: set<Source>,
    pendingSelectionForOrderBy: set<Source>,
    pendingMetricAgg: set<Source>,
    pendingMetricAggForOrderBy: set<Source>,
    pendingTimeAgg: set<Source>,
    sortAndPaginationNodeAdded: bool,
    sourceToSelectionAttrs: map<Source, set<string>>,
    sourceToSelectionOrderByAttrs: map<Source, set<string>>,
    sourceToOrderBy: seq<OrderByEntry>)

  /** `map.getOrDefault(source, emptySet())` */
  function AttributesOf(m: map<Source, set<string>>, source: Source): (attrs: set<string>)
    ensures source in m ==> attrs == m[source]
    ensures source !in m ==> attrs == {}
  {
    if source in m then m[source] else {}
  }

  /** All order-by expressions, source by source in iteration order. */
  function FlattenOrderBys(entries: seq<OrderByEntry>): (r: seq<OrderBy>)
    ensures forall o :: o in r <==> exists i :: 0 <= i < |entries| && o in entries[i].orderBys
    ensures |r| == 0 <==> forall i :: 0 <= i < |entries| ==> |entries[i].orderBys| == 0
  {
    if |entries| == 0 then []
    else
      var rest := FlattenOrderBys(entries[1..]);
      assert forall i :: 1 <= i < |entries| ==> entries[i] == entries[1..][i - 1];
      entries[0].orderBys + rest
  }

  /** Flattening keeps each source's order-bys together and in order. */
  lemma {:induction false} FlattenOrderBysAppend(a: seq<OrderByEntry>, b: seq<OrderByEntry>)
    ensures FlattenOrderBys(a + b) == FlattenOrderBys(a) + FlattenOrderBys(b)
  {
    if |a| == 0 {
      assert a + b == b;
    } else {
      assert (a + b)[1..] == a[1..] + b;
      FlattenOrderBysAppend(a[1..], b);
      assert (a + b)[0] == a[0];
    }
  }

  /** `a` and `b` agree on everything but the two pending selection sets. */
  predicate SameExceptPendingSelection(a: Context, b: Context) {
    && a.pendingMetricAgg == b.pendingMetricAgg
    && a.pendingMetricAggForOrderBy == b.pendingMetricAggForOrderBy
    && a.pendingTimeAgg == b.pendingTimeAgg
    && a.sortAndPaginationNodeAdded == b.sortAndPaginationNodeAdded
    && a.sourceToSelectionAttrs == b.sourceToSelectionAttrs
    && a.sourceToSelectionOrderByAttrs == b.sourceToSelectionOrderByAttrs
    && a.sourceToOrderBy == b.sourceToOrderBy
  }
}
