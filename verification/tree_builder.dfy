/**
 * The execution-tree builder: turns an entities request into an operator tree.
 * Three strategies are tried in order (anchoring on EDS for non-live entities,
 * single-source pushdown, generic filter-tree lowering); all three end with the
 * same finishing pass, which adds selections for pending sources and at most
 * one sort-and-paginate node.
 */
module TreeBuilder {
  import opened Wrappers
  import opened JavaInts
  import opened Filters
  import opened Nodes
  import opened PlanContext
  import opened ContextBuilder
  import opened Pagination

  datatype EntitiesRequest = EntitiesRequest(
    entityType: string,
    filter: Filter,
    orderBys: seq<OrderBy>,
    limit: Int32,
    offset: Int32,
    startTimeMillis: Int64,
    endTimeMillis: Int64,
    includeNonLiveEntities: bool)

  /** Ways planning aborts; none is retried. */
  datatype PlanError =
      /** The filter's column has no attribute metadata (a null lookup in the source). */
    | MissingAttributeMetadata(column: string)
      /** The filter's column lists no source (`sources.get(0)` on an empty list). */
    | NoSourceForColumn(column: string)
      /** Every attribute comes from one source, but no fetcher exists for it. */
    | UnsupportedSource(source: Source)

  /**
   * What the builder takes from collaborators that are not part of this model:
   * the column-to-sources map of the attribute metadata, the two source sets
   * computed by `ExecutionTreeUtils`, the timestamp attribute, the time-range
   * filter rewrite, and the optimizing visitor that merges same-source fetches.
   */
  datatype Env = Env(
    attributeSources: map<string, seq<Source>>,
    sameSourceSets: set<Source>,
    singleSourceForAllAttributes: Option<Source>,
    timestampAttributeId: string,
    addTimeRangeFilter: (string, Filter, int, int) -> Filter,
    optimize: Node -> Node)

  // ---------------------------------------------------------------------------
  // Pushed-down fetches
  // ---------------------------------------------------------------------------

  /** Limit, offset and order-bys of the request, pushed down unchanged. */
  function RequestPaging(req: EntitiesRequest): Paging {
    Paging(req.limit, req.offset, req.orderBys)
  }

  /**
   * A QS fetch carrying the request's pagination. With a positive offset QS is
   * asked for the first `offset + limit` rows and the fetch is wrapped in one
   * `PaginateOnly(limit, offset)`; otherwise the fetch is the root.
   */
  function QsFetchWithPagination(req: EntitiesRequest): (r: Node)
    ensures req.offset > 0 <==> r.PaginateOnly?
    ensures req.offset > 0 ==> r.limit == req.limit && r.offset == req.offset
    ensures var fetch := if req.offset > 0 then r.child else r;
            && fetch.DataFetcher? && fetch.source == QS && fetch.filter == req.filter
            && fetch.paging == Some(Paging(QsLimit(req.limit, req.offset), QsOffset(req.offset), req.orderBys))
    ensures PaginateOnlyCount(r) == (if req.offset > 0 then 1 else 0)
    ensures SortCount(r) == 0 && FetchedSources(r) == {QS}
  {
    var fetch := DataFetcher(QS, req.filter, Some(Paging(QsLimit(req.limit, req.offset), QsOffset(req.offset), req.orderBys)));
    if req.offset > 0 then PaginateOnly(fetch, req.limit, req.offset) else fetch
  }

  /** The same fetch with the pushed-down limit computed by wrapping `int` addition. */
  function QsFetchWithPaginationAsWritten(req: EntitiesRequest): (r: Node)
    ensures req.offset > 0 <==> r.PaginateOnly?
    ensures req.offset > 0 ==> r.limit == req.limit && r.offset == req.offset
    ensures var fetch := if req.offset > 0 then r.child else r;
            && fetch.DataFetcher? && fetch.source == QS && fetch.filter == req.filter
            && fetch.paging == Some(Paging(QsLimitAsWritten(req.limit, req.offset), QsOffset(req.offset), req.orderBys))
    ensures PaginateOnlyCount(r) == (if req.offset > 0 then 1 else 0)
    ensures SortCount(r) == 0 && FetchedSources(r) == {QS}
  {
    var fetch := DataFetcher(QS, req.filter, Some(Paging(QsLimitAsWritten(req.limit, req.offset), QsOffset(req.offset), req.orderBys)));
    if req.offset > 0 then PaginateOnly(fetch, req.limit, req.offset) else fetch
  }

  /**
   * The root for a request whose every attribute comes from `source`: QS gets
   * the paginated QS fetch, EDS a fetch with the request's pagination pushed
   * down as is, and both mark sorting and pagination as done.
   */
  function SameSourceRoot(req: EntitiesRequest, ctx: Context, source: Source): (r: Result<(Node, Context), PlanError>)
    ensures r.Ok? <==> source == QS || source == EDS
    ensures r.Err? ==> r.error == UnsupportedSource(source)
    ensures r.Ok? ==> r.value.1 == ctx.(sortAndPaginationNodeAdded := true)
    ensures r.Ok? ==> FetchedSources(r.value.0) == {source} && SortCount(r.value.0) == 0
    ensures source == QS ==> r.value.0 == QsFetchWithPagination(req)
    ensures source == EDS ==> r.value.0 == DataFetcher(EDS, req.filter, Some(RequestPaging(req)))
  {
    if source == QS then Ok((QsFetchWithPagination(req), ctx.(sortAndPaginationNodeAdded := true)))
    else if source == EDS then Ok((DataFetcher(EDS, req.filter, Some(RequestPaging(req))), ctx.(sortAndPaginationNodeAdded := true)))
    else Err(UnsupportedSource(source))
  }

  // ---------------------------------------------------------------------------
  // Filter-tree lowering
  // ---------------------------------------------------------------------------

  /**
   * A comparison filter: the column's sources are looked up first; when filter
   * and order-by can both be served by QS the whole request becomes the
   * paginated QS fetch, otherwise an unpaged fetch from QS if QS serves the
   * column, else from the column's first source.
   */
  function LowerLeaf(env: Env, req: EntitiesRequest, f: Filter): (r: Result<Node, PlanError>)
    ensures ColumnNameOf(f) !in env.attributeSources ==> r == Err(MissingAttributeMetadata(ColumnNameOf(f)))
    ensures ColumnNameOf(f) in env.attributeSources && QS in env.sameSourceSets ==> r == Ok(QsFetchWithPagination(req))
    ensures ColumnNameOf(f) in env.attributeSources && QS !in env.sameSourceSets ==>
      var sources := env.attributeSources[ColumnNameOf(f)];
      && (r.Err? <==> |sources| == 0)
      && (r.Err? ==> r.error == NoSourceForColumn(ColumnNameOf(f)))
      && (r.Ok? ==> r.value.DataFetcher? && r.value.filter == f && r.value.paging.None?
                    && r.value.source in sources
                    && (r.value.source == QS <==> QS in sources)
                    && (r.value.source != QS ==> r.value.source == sources[0]))
  {
    var column := ColumnNameOf(f);
    if column !in env.attributeSources then Err(MissingAttributeMetadata(column))
    else
      var sources := env.attributeSources[column];
      if QS in env.sameSourceSets then Ok(QsFetchWithPagination(req))
      else if QS in sources then Ok(DataFetcher(QS, f, None))
      else if |sources| == 0 then Err(NoSourceForColumn(column))
      else Ok(DataFetcher(sources[0], f, None))
  }

  /**
   * Lowers a filter: the default filter to `NoOp`, AND/OR to `And`/`Or` over the
   * lowered children in order, anything else as a leaf.
   */
  function LowerFilter(env: Env, req: EntitiesRequest, f: Filter): (r: Result<Node, PlanError>)
    ensures f == DefaultFilter ==> r == Ok(NoOp)
    ensures f != DefaultFilter && (f.op == And || f.op == Or) ==>
      && (r.Ok? <==> forall i :: 0 <= i < |f.children| ==> LowerFilter(env, req, f.children[i]).Ok?)
      && (r.Ok? ==> (if f.op == And then r.value.AndNode? else r.value.OrNode?)
                    && |r.value.children| == |f.children|
                    && forall i :: 0 <= i < |f.children| ==> LowerFilter(env, req, f.children[i]) == Ok(r.value.children[i]))
    ensures f != DefaultFilter && f.op != And && f.op != Or ==> r == LowerLeaf(env, req, f)
    ensures r.Ok? ==> SortCount(r.value) == 0
    decreases f
  {
    if f == DefaultFilter then Ok(NoOp)
    else if f.op == And then
      match LowerAll(env, req, f.children)
      case Ok(ns) => Ok(AndNode(ns))
      case Err(e) => Err(e)
    else if f.op == Or then
      match LowerAll(env, req, f.children)
      case Ok(ns) => Ok(OrNode(ns))
      case Err(e) => Err(e)
    else LowerLeaf(env, req, f)
  }

  /** Lowers filters one by one, stopping at the first error. */
  function LowerAll(env: Env, req: EntitiesRequest, fs: seq<Filter>): (r: Result<seq<Node>, PlanError>)
    ensures r.Ok? <==> forall i :: 0 <= i < |fs| ==> LowerFilter(env, req, fs[i]).Ok?
    ensures r.Ok? ==> |r.value| == |fs| && forall i :: 0 <= i < |fs| ==> LowerFilter(env, req, fs[i]) == Ok(r.value[i])
    ensures r.Ok? ==> SortCountAll(r.value) == 0
    ensures r.Err? ==> exists i :: 0 <= i < |fs| && LowerFilter(env, req, fs[i]) == Err(r.error)
                                  && forall j :: 0 <= j < i ==> LowerFilter(env, req, fs[j]).Ok?
    decreases fs
  {
    if |fs| == 0 then Ok([])
    else match LowerFilter(env, req, fs[0])
      case Err(e) => Err(e)
      case Ok(n) =>
        match LowerAll(env, req, fs[1..])
        case Err(e) =>
          assert forall i :: 1 <= i < |fs| ==> fs[i] == fs[1..][i - 1];
          Err(e)
        case Ok(ns) =>
          assert forall i :: 1 <= i < |fs| ==> fs[i] == fs[1..][i - 1];
          Ok([n] + ns)
  }

  /** Lowering `f` reaches at least one leaf (a filter lowered by `LowerLeaf`). */
  predicate ReachesLeaf(f: Filter)
    decreases f
  {
    f != DefaultFilter && (if f.op == And || f.op == Or then ReachesLeafAny(f.children) else true)
  }

  predicate ReachesLeafAny(fs: seq<Filter>)
    decreases fs
  {
    |fs| > 0 && (ReachesLeaf(fs[0]) || ReachesLeafAny(fs[1..]))
  }

  /**
   * `buildFilterTree(request, filter)`: the lowered tree, and the context with
   * the sort-and-pagination flag set when a leaf took the QS shortcut (the only
   * context change lowering makes).
   */
  function BuildFilterTree(env: Env, req: EntitiesRequest, ctx: Context, f: Filter): (r: Result<(Node, Context), PlanError>)
    ensures r.Ok? <==> LowerFilter(env, req, f).Ok?
    ensures r.Ok? ==> r.value.0 == LowerFilter(env, req, f).value
    ensures r.Err? ==> r.error == LowerFilter(env, req, f).error
    ensures r.Ok? ==> r.value.1 == ctx.(sortAndPaginationNodeAdded :=
                                          ctx.sortAndPaginationNodeAdded || (QS in env.sameSourceSets && ReachesLeaf(f)))
  {
    var n :- LowerFilter(env, req, f);
    Ok((n, ctx.(sortAndPaginationNodeAdded := ctx.sortAndPaginationNodeAdded || (QS in env.sameSourceSets && ReachesLeaf(f)))))
  }

  /** The request filter with the request's time range added. */
  function TimeRangeFilter(env: Env, req: EntitiesRequest): Filter {
    env.addTimeRangeFilter(env.timestampAttributeId, req.filter, req.startTimeMillis, req.endTimeMillis)
  }

  // ---------------------------------------------------------------------------
  // Finishing pass
  // ---------------------------------------------------------------------------

  /** The explicit sort node would be wanted: nothing sorted yet, and an order or a limit requested. */
  predicate SortRequested(req: EntitiesRequest, ctx: Context) {
    !ctx.sortAndPaginationNodeAdded && (|FlattenOrderBys(ctx.sourceToOrderBy)| > 0 || req.limit != 0)
  }

  /**
   * Wraps `child` in the one `SortAndPaginate` of the tree, unless sorting is
   * already planned, the child is `NoOp`, or there is neither an order-by nor a
   * limit. Adds a node exactly when it sets the flag.
   */
  function CheckAndAddSortAndPagination(req: EntitiesRequest, ctx: Context, child: Node): (r: (Node, Context))
    ensures var added := SortRequested(req, ctx) && !child.NoOp?;
            && (added ==> r.0 == SortAndPaginate(child, req.limit, req.offset, FlattenOrderBys(ctx.sourceToOrderBy))
                          && r.1 == ctx.(sortAndPaginationNodeAdded := true))
            && (!added ==> r == (child, ctx))
    ensures SortCount(r.0) == SortCount(child) + (if r.1.sortAndPaginationNodeAdded && !ctx.sortAndPaginationNodeAdded then 1 else 0)
    ensures NoSortOverNoOp(child) ==> NoSortOverNoOp(r.0)
  {
    if ctx.sortAndPaginationNodeAdded || child.NoOp? then (child, ctx)
    else
      var orderBys := FlattenOrderBys(ctx.sourceToOrderBy);
      if |orderBys| == 0 && req.limit == 0 then (child, ctx)
      else (SortAndPaginate(child, req.limit, req.offset, orderBys), ctx.(sortAndPaginationNodeAdded := true))
  }

  /** The three kinds of data a `Selection` node fetches. */
  datatype SelectionKind = Attributes | Aggregations | TimeSeries

  /** A `Selection` with exactly the set of `kind` filled. */
  function Select(kind: SelectionKind, child: Node, sources: set<Source>): (r: Node)
    ensures r.Selection? && r.child == child
  {
    match kind
    case Attributes => Selection(child, sources, {}, {})
    case Aggregations => Selection(child, {}, sources, {})
    case TimeSeries => Selection(child, {}, {}, sources)
  }

  /** The context's pending sources of one kind. */
  function PendingOf(ctx: Context, kind: SelectionKind): set<Source> {
    match kind
    case Attributes => ctx.pendingSelection
    case Aggregations => ctx.pendingMetricAgg
    case TimeSeries => ctx.pendingTimeAgg
  }

  /**
   * One step of the finishing pass turns (`n`, `ctx`) into (`n'`, `ctx'`) by
   * wrapping only, adding a sort node exactly when it sets the flag.
   */
  predicate FinishingStep(n: Node, ctx: Context, n': Node, ctx': Context) {
    && IsWrappingOf(n', n)
    && SortCount(n') == SortCount(n) + (if ctx'.sortAndPaginationNodeAdded && !ctx.sortAndPaginationNodeAdded then 1 else 0)
    && (NoSortOverNoOp(n) ==> NoSortOverNoOp(n'))
    && (ctx.sortAndPaginationNodeAdded ==> ctx'.sortAndPaginationNodeAdded)
  }

  lemma FinishingStepsCompose(n1: Node, c1: Context, n2: Node, c2: Context, n3: Node, c3: Context)
    requires FinishingStep(n1, c1, n2, c2) && FinishingStep(n2, c2, n3, c3)
    ensures FinishingStep(n1, c1, n3, c3)
  {
    WrappingTransitive(n3, n2, n1);
  }

  /**
   * Selections for sources needed only by the order-by: attributes (retired from
   * pending selection) and then metric aggregations (retired from pending
   * metric aggregation).
   */
  function SelectForOrderBy(ctx: Context, root: Node): (r: (Node, Context))
    ensures FinishingStep(root, ctx, r.0, r.1)
    ensures SortCount(r.0) == SortCount(root)
    ensures r.1 == ctx.(pendingSelection := ctx.pendingSelection - ctx.pendingSelectionForOrderBy,
                       pendingMetricAgg := ctx.pendingMetricAgg - ctx.pendingMetricAggForOrderBy)
    ensures r.0.NoOp? <==> root.NoOp? && ctx.pendingSelectionForOrderBy == {} && ctx.pendingMetricAggForOrderBy == {}
  {
    var (n1, c1) :=
      if ctx.pendingSelectionForOrderBy != {} then
        (Select(Attributes, root, ctx.pendingSelectionForOrderBy),
         ctx.(pendingSelection := ctx.pendingSelection - ctx.pendingSelectionForOrderBy))
      else (root, ctx);
    assert IsWrappingOf(n1, root);
    if c1.pendingMetricAggForOrderBy != {} then
      assert IsWrappingOf(Select(Aggregations, n1, c1.pendingMetricAggForOrderBy), n1);
      WrappingTransitive(Select(Aggregations, n1, c1.pendingMetricAggForOrderBy), n1, root);
      (Select(Aggregations, n1, c1.pendingMetricAggForOrderBy),
       c1.(pendingMetricAgg := c1.pendingMetricAgg - c1.pendingMetricAggForOrderBy))
    else (n1, c1)
  }

  /** A selection of the pending sources of `kind`, if any, followed by a sort attempt. */
  function SelectPendingThenSort(req: EntitiesRequest, ctx: Context, n: Node, kind: SelectionKind): (r: (Node, Context))
    ensures FinishingStep(n, ctx, r.0, r.1)
    ensures r.1 == ctx.(sortAndPaginationNodeAdded := r.1.sortAndPaginationNodeAdded)
  {
    if PendingOf(ctx, kind) != {} then
      var r := CheckAndAddSortAndPagination(req, ctx, Select(kind, n, PendingOf(ctx, kind)));
      assert IsWrappingOf(Select(kind, n, PendingOf(ctx, kind)), n);
      WrappingTransitive(r.0, Select(kind, n, PendingOf(ctx, kind)), n);
      r
    else (n, ctx)
  }

  /**
   * `buildExecutionTree`: the order-by selections, a sort attempt, then
   * attribute, metric and time-series selections, each followed by a sort
   * attempt.
   */
  function BuildExecutionTree(req: EntitiesRequest, ctx: Context, root: Node): (r: (Node, Context))
    ensures FinishingStep(root, ctx, r.0, r.1)
    ensures r.1 == ctx.(pendingSelection := ctx.pendingSelection - ctx.pendingSelectionForOrderBy,
                       pendingMetricAgg := ctx.pendingMetricAgg - ctx.pendingMetricAggForOrderBy,
                       sortAndPaginationNodeAdded := r.1.sortAndPaginationNodeAdded)
  {
    var (n2, c2) := SelectForOrderBy(ctx, root);
    var (n3, c3) := CheckAndAddSortAndPagination(req, c2, n2);
    var (n4, c4) := SelectPendingThenSort(req, c3, n3, Attributes);
    var (n5, c5) := SelectPendingThenSort(req, c4, n4, Aggregations);
    var (n6, c6) := SelectPendingThenSort(req, c5, n5, TimeSeries);
    FinishingStepsCompose(root, ctx, n2, c2, n3, c3);
    FinishingStepsCompose(root, ctx, n3, c3, n4, c4);
    FinishingStepsCompose(root, ctx, n4, c4, n5, c5);
    FinishingStepsCompose(root, ctx, n5, c5, n6, c6);
    (n6, c6)
  }

  // ---------------------------------------------------------------------------
  // Entry point
  // ---------------------------------------------------------------------------

  /** The non-live anchor: an EDS fetch, paged iff EDS serves filter and order-by. */
  function EdsAnchor(env: Env, req: EntitiesRequest): (r: Node)
    ensures r.DataFetcher? && r.source == EDS && r.filter == req.filter
    ensures r.paging.Some? <==> EDS in env.sameSourceSets
    ensures r.paging.Some? ==> r.paging.value == RequestPaging(req)
    ensures FetchedSources(r) == {EDS} && SortCount(r) == 0
  {
    DataFetcher(EDS, req.filter, if EDS in env.sameSourceSets then Some(RequestPaging(req)) else None)
  }

  /**
   * `build()`: the tree for a request and the context it leaves. The context
   * given is the request's fresh planning context.
   */
  function Build(env: Env, req: EntitiesRequest, ctx: Context): (r: Result<(Node, Context), PlanError>)
    ensures req.includeNonLiveEntities ==> r.Ok?
    ensures !req.includeNonLiveEntities && env.singleSourceForAllAttributes.Some? ==>
      (r.Ok? <==> env.singleSourceForAllAttributes.value in {QS, EDS})
  {
    if req.includeNonLiveEntities then
      var root := EdsAnchor(env, req);
      var ctx1 := if EDS in env.sameSourceSets then ctx.(sortAndPaginationNodeAdded := true) else ctx;
      Ok(BuildExecutionTree(req, Visit(root, ctx1), root))
    else if env.singleSourceForAllAttributes.Some? then
      var (root, ctx1) :- SameSourceRoot(req, ctx, env.singleSourceForAllAttributes.value);
      Ok(BuildExecutionTree(req, Visit(root, ctx1), root))
    else
      var (filterTree, ctx1) :- BuildFilterTree(env, req, ctx, TimeRangeFilter(env, req));
      var ctx2 := Visit(filterTree, ctx1);
      Ok(BuildExecutionTree(req, ctx2, env.optimize(filterTree)))
  }
}
