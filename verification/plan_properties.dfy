/**
 * Properties of the whole planner: the exact layering the finishing pass puts
 * over a root, what each of the three strategies yields, the QS shortcut during
 * filter lowering, and the at-most-one sort node guarantee.
 */
module PlanProperties {
  import opened Wrappers
  import opened Filters
  import opened Nodes
  import opened PlanContext
  import opened ContextBuilder
  import opened TreeBuilder
  import QueryRequestUtil

  // ---------------------------------------------------------------------------
  // Layers of the finishing pass
  // ---------------------------------------------------------------------------

  /** One wrapper the finishing pass may put on the tree. */
  datatype Layer =
    | SelectLayer(kind: SelectionKind, sources: set<Source>)
    | SortLayer(limit: int, offset: int, orderBys: seq<OrderBy>)

  function ApplyLayer(n: Node, l: Layer): Node {
    match l
    case SelectLayer(k, s) => Select(k, n, s)
    case SortLayer(lim, off, obs) => SortAndPaginate(n, lim, off, obs)
  }

  /** `root` wrapped in `layers`, innermost first. */
  function Wrap(root: Node, layers: seq<Layer>): Node
    decreases |layers|
  {
    if |layers| == 0 then root else ApplyLayer(Wrap(root, layers[..|layers| - 1]), layers[|layers| - 1])
  }

  lemma {:induction false} WrapAppend(root: Node, a: seq<Layer>, b: seq<Layer>)
    ensures Wrap(root, a + b) == Wrap(Wrap(root, a), b)
    decreases |b|
  {
    if |b| == 0 {
      assert a + b == a;
    } else {
      assert (a + b)[..|a + b| - 1] == a + b[..|b| - 1];
      WrapAppend(root, a, b[..|b| - 1]);
    }
  }

  function SelectLayerIf(kind: SelectionKind, sources: set<Source>): seq<Layer> {
    if sources != {} then [SelectLayer(kind, sources)] else []
  }

  function SortLayerOf(req: EntitiesRequest, ctx: Context): Layer {
    SortLayer(req.limit, req.offset, FlattenOrderBys(ctx.sourceToOrderBy))
  }

  /** Selections of sources needed only for the order-by, attributes first. */
  function OrderByLayers(ctx: Context): seq<Layer> {
    SelectLayerIf(Attributes, ctx.pendingSelectionForOrderBy)
    + SelectLayerIf(Aggregations, ctx.pendingMetricAggForOrderBy)
  }

  /** Selections of the remaining attributes, metric aggregations and time series. */
  function RemainingLayers(ctx: Context): seq<Layer> {
    SelectLayerIf(Attributes, ctx.pendingSelection - ctx.pendingSelectionForOrderBy)
    + SelectLayerIf(Aggregations, ctx.pendingMetricAgg - ctx.pendingMetricAggForOrderBy)
    + SelectLayerIf(TimeSeries, ctx.pendingTimeAgg)
  }

  /**
   * The wrappers the finishing pass should add, innermost first: the order-by
   * selections, then the remaining selections. The single sort layer, when one
   * is requested, goes right after the order-by selections, unless that point
   * is still a bare `NoOp`, in which case it goes after the first remaining
   * selection (and nowhere if there is none).
   */
  function ExpectedLayers(req: EntitiesRequest, ctx: Context, rootIsNoOp: bool): seq<Layer> {
    var ob := OrderByLayers(ctx);
    var rest := RemainingLayers(ctx);
    var sort := [SortLayerOf(req, ctx)];
    if !SortRequested(req, ctx) then ob + rest
    else if !rootIsNoOp || |ob| > 0 then ob + sort + rest
    else if |rest| == 0 then []
    else rest[..1] + sort + rest[1..]
  }

  lemma OrderByStepLayers(ctx: Context, root: Node)
    ensures SelectForOrderBy(ctx, root).0 == Wrap(root, OrderByLayers(ctx))
  {
    var a := SelectLayerIf(Attributes, ctx.pendingSelectionForOrderBy);
    var b := SelectLayerIf(Aggregations, ctx.pendingMetricAggForOrderBy);
    WrapAppend(root, a, b);
  }

  lemma SortStepLayers(req: EntitiesRequest, c: Context, n: Node)
    ensures CheckAndAddSortAndPagination(req, c, n).0
            == Wrap(n, if SortRequested(req, c) && !n.NoOp? then [SortLayerOf(req, c)] else [])
  {
  }

  lemma PendingStepLayers(req: EntitiesRequest, c: Context, n: Node, kind: SelectionKind)
    ensures var r := SelectPendingThenSort(req, c, n, kind);
            var sorted := PendingOf(c, kind) != {} && SortRequested(req, c);
            && r.0 == Wrap(n, SelectLayerIf(kind, PendingOf(c, kind)) + (if sorted then [SortLayerOf(req, c)] else []))
            && r.1.sortAndPaginationNodeAdded == (c.sortAndPaginationNodeAdded || sorted)
  {
    var sel := SelectLayerIf(kind, PendingOf(c, kind));
    if PendingOf(c, kind) != {} {
      var s := Select(kind, n, PendingOf(c, kind));
      assert Wrap(n, sel) == s;
      var tail := if SortRequested(req, c) then [SortLayerOf(req, c)] else [];
      WrapAppend(n, sel, tail);
    }
  }

  function SortIf(b: bool, req: EntitiesRequest, ctx: Context): seq<Layer> {
    if b then [SortLayerOf(req, ctx)] else []
  }

  /** Where the sort attempts of the finishing pass succeed: after the order-by selections. */
  predicate SortsAfterOrderBy(req: EntitiesRequest, ctx: Context, rootIsNoOp: bool) {
    SortRequested(req, ctx) && (!rootIsNoOp || |OrderByLayers(ctx)| > 0)
  }

  /** ... or after the remaining attribute selection. */
  predicate SortsAfterAttributes(req: EntitiesRequest, ctx: Context, rootIsNoOp: bool) {
    SortRequested(req, ctx) && !SortsAfterOrderBy(req, ctx, rootIsNoOp)
    && ctx.pendingSelection - ctx.pendingSelectionForOrderBy != {}
  }

  /** ... or after the remaining metric selection. */
  predicate SortsAfterAggregations(req: EntitiesRequest, ctx: Context, rootIsNoOp: bool) {
    SortRequested(req, ctx) && !SortsAfterOrderBy(req, ctx, rootIsNoOp)
    && !SortsAfterAttributes(req, ctx, rootIsNoOp)
    && ctx.pendingMetricAgg - ctx.pendingMetricAggForOrderBy != {}
  }

  /** ... or after the time-series selection. */
  predicate SortsAfterTimeSeries(req: EntitiesRequest, ctx: Context, rootIsNoOp: bool) {
    SortRequested(req, ctx) && !SortsAfterOrderBy(req, ctx, rootIsNoOp)
    && !SortsAfterAttributes(req, ctx, rootIsNoOp) && !SortsAfterAggregations(req, ctx, rootIsNoOp)
    && ctx.pendingTimeAgg != {}
  }

  /** The layers step by step, each selection followed by the sort attempt's outcome. */
  function StepwiseLayers(req: EntitiesRequest, ctx: Context, rootIsNoOp: bool): seq<Layer> {
    OrderByLayers(ctx)
    + SortIf(SortsAfterOrderBy(req, ctx, rootIsNoOp), req, ctx)
    + (SelectLayerIf(Attributes, ctx.pendingSelection - ctx.pendingSelectionForOrderBy)
       + SortIf(SortsAfterAttributes(req, ctx, rootIsNoOp), req, ctx))
    + (SelectLayerIf(Aggregations, ctx.pendingMetricAgg - ctx.pendingMetricAggForOrderBy)
       + SortIf(SortsAfterAggregations(req, ctx, rootIsNoOp), req, ctx))
    + (SelectLayerIf(TimeSeries, ctx.pendingTimeAgg)
       + SortIf(SortsAfterTimeSeries(req, ctx, rootIsNoOp), req, ctx))
  }

  lemma StepwiseIsExpected(req: EntitiesRequest, ctx: Context, rootIsNoOp: bool)
    ensures StepwiseLayers(req, ctx, rootIsNoOp) == ExpectedLayers(req, ctx, rootIsNoOp)
  {
    var ob := OrderByLayers(ctx);
    var sortL := SortLayerOf(req, ctx);
    var la := SelectLayerIf(Attributes, ctx.pendingSelection - ctx.pendingSelectionForOrderBy);
    var lm := SelectLayerIf(Aggregations, ctx.pendingMetricAgg - ctx.pendingMetricAggForOrderBy);
    var lt := SelectLayerIf(TimeSeries, ctx.pendingTimeAgg);
    var s3 := SortIf(SortsAfterOrderBy(req, ctx, rootIsNoOp), req, ctx);
    var s4 := SortIf(SortsAfterAttributes(req, ctx, rootIsNoOp), req, ctx);
    var s5 := SortIf(SortsAfterAggregations(req, ctx, rootIsNoOp), req, ctx);
    var s6 := SortIf(SortsAfterTimeSeries(req, ctx, rootIsNoOp), req, ctx);
    var all := ob + s3 + (la + s4) + (lm + s5) + (lt + s6);
    assert all == StepwiseLayers(req, ctx, rootIsNoOp);
    var rest := RemainingLayers(ctx);
    assert rest == la + lm + lt;
    if !SortRequested(req, ctx) {
      assert s3 == [] && s4 == [] && s5 == [] && s6 == [];
      assert all == ob + rest;
    } else if !rootIsNoOp || |ob| > 0 {
      assert s3 == [sortL] && s4 == [] && s5 == [] && s6 == [];
      assert all == ob + [sortL] + rest;
    } else {
      assert s3 == [] && ob == [];
      SortPositionAfterNoOp(req, ctx, rootIsNoOp);
    }
  }

  /** When the finishing pass starts from a bare `NoOp`, the sort lands after the first remaining selection. */
  lemma SortPositionAfterNoOp(req: EntitiesRequest, ctx: Context, rootIsNoOp: bool)
    requires SortRequested(req, ctx) && rootIsNoOp && |OrderByLayers(ctx)| == 0
    ensures StepwiseLayers(req, ctx, rootIsNoOp) == ExpectedLayers(req, ctx, rootIsNoOp)
  {
    var sortL := SortLayerOf(req, ctx);
    var la := SelectLayerIf(Attributes, ctx.pendingSelection - ctx.pendingSelectionForOrderBy);
    var lm := SelectLayerIf(Aggregations, ctx.pendingMetricAgg - ctx.pendingMetricAggForOrderBy);
    var lt := SelectLayerIf(TimeSeries, ctx.pendingTimeAgg);
    var rest := RemainingLayers(ctx);
    assert rest == la + lm + lt;
    var s4 := SortIf(SortsAfterAttributes(req, ctx, rootIsNoOp), req, ctx);
    var s5 := SortIf(SortsAfterAggregations(req, ctx, rootIsNoOp), req, ctx);
    var s6 := SortIf(SortsAfterTimeSeries(req, ctx, rootIsNoOp), req, ctx);
    var all := StepwiseLayers(req, ctx, rootIsNoOp);
    assert !SortsAfterOrderBy(req, ctx, rootIsNoOp);
    assert all == (la + s4) + (lm + s5) + (lt + s6);
    if |la| > 0 {
      assert s4 == [sortL] && s5 == [] && s6 == [];
      assert rest[..1] == la && rest[1..] == lm + lt;
    } else if |lm| > 0 {
      assert s4 == [] && s5 == [sortL] && s6 == [];
      assert rest[..1] == lm && rest[1..] == lt;
    } else if |lt| > 0 {
      assert s4 == [] && s5 == [] && s6 == [sortL];
      assert rest[..1] == lt && rest[1..] == [];
    } else {
      assert s4 == [] && s5 == [] && s6 == [];
    }
  }

  /** After the order-by selections and the first sort attempt. */
  lemma FirstSortAttempt(req: EntitiesRequest, ctx: Context, root: Node)
    ensures var (n2, c2) := SelectForOrderBy(ctx, root);
            var (n3, c3) := CheckAndAddSortAndPagination(req, c2, n2);
            var b := SortsAfterOrderBy(req, ctx, root.NoOp?);
            && n3 == Wrap(root, OrderByLayers(ctx) + SortIf(b, req, ctx))
            && c3 == c2.(sortAndPaginationNodeAdded := ctx.sortAndPaginationNodeAdded || b)
  {
    var (n2, c2) := SelectForOrderBy(ctx, root);
    OrderByStepLayers(ctx, root);
    SortStepLayers(req, c2, n2);
    WrapAppend(root, OrderByLayers(ctx), SortIf(SortsAfterOrderBy(req, ctx, root.NoOp?), req, ctx));
  }

  /** The finishing pass adds exactly the expected layers, in the expected order. */
  lemma {:induction false} FinishingPassLayers(req: EntitiesRequest, ctx: Context, root: Node)
    ensures BuildExecutionTree(req, ctx, root).0 == Wrap(root, ExpectedLayers(req, ctx, root.NoOp?))
  {
    var noop := root.NoOp?;
    var (n2, c2) := SelectForOrderBy(ctx, root);
    var (n3, c3) := CheckAndAddSortAndPagination(req, c2, n2);
    var (n4, c4) := SelectPendingThenSort(req, c3, n3, Attributes);
    var (n5, c5) := SelectPendingThenSort(req, c4, n4, Aggregations);
    var (n6, c6) := SelectPendingThenSort(req, c5, n5, TimeSeries);
    assert BuildExecutionTree(req, ctx, root).0 == n6;

    var ob := OrderByLayers(ctx);
    var p3 := ob + SortIf(SortsAfterOrderBy(req, ctx, noop), req, ctx);
    var p4 := SelectLayerIf(Attributes, ctx.pendingSelection - ctx.pendingSelectionForOrderBy)
              + SortIf(SortsAfterAttributes(req, ctx, noop), req, ctx);
    var p5 := SelectLayerIf(Aggregations, ctx.pendingMetricAgg - ctx.pendingMetricAggForOrderBy)
              + SortIf(SortsAfterAggregations(req, ctx, noop), req, ctx);
    var p6 := SelectLayerIf(TimeSeries, ctx.pendingTimeAgg)
              + SortIf(SortsAfterTimeSeries(req, ctx, noop), req, ctx);

    var sorted := SortRequested(req, ctx);
    assert n4 == Wrap(root, p3 + p4)
        && SortRequested(req, c4) == (sorted && !SortsAfterOrderBy(req, ctx, noop) && !SortsAfterAttributes(req, ctx, noop)) by {
      FirstSortAttempt(req, ctx, root);
      assert n3 == Wrap(root, p3);
      assert SortRequested(req, c3) == (sorted && !SortsAfterOrderBy(req, ctx, noop));
      PendingStepLayers(req, c3, n3, Attributes);
      assert n4 == Wrap(n3, p4);
      WrapAppend(root, p3, p4);
    }

    assert n5 == Wrap(root, p3 + p4 + p5)
        && SortRequested(req, c5) == (SortRequested(req, c4) && !SortsAfterAggregations(req, ctx, noop)) by {
      PendingStepLayers(req, c4, n4, Aggregations);
      assert n5 == Wrap(n4, p5);
      WrapAppend(root, p3 + p4, p5);
    }

    assert n6 == Wrap(root, p3 + p4 + p5 + p6) by {
      PendingStepLayers(req, c5, n5, TimeSeries);
      assert n6 == Wrap(n5, p6);
      WrapAppend(root, p3 + p4 + p5, p6);
    }

    assert StepwiseLayers(req, ctx, noop) == p3 + p4 + p5 + p6;
    StepwiseIsExpected(req, ctx, noop);
  }

  /** A `NoOp` root with nothing pending is returned as is, whatever limit was asked. */
  lemma NoOpRootStaysNoOp(req: EntitiesRequest, ctx: Context)
    requires ctx.pendingSelection == {} && ctx.pendingSelectionForOrderBy == {}
    requires ctx.pendingMetricAgg == {} && ctx.pendingMetricAggForOrderBy == {} && ctx.pendingTimeAgg == {}
    ensures BuildExecutionTree(req, ctx, NoOp) == (NoOp, ctx)
  {
    FinishingPassLayers(req, ctx, NoOp);
  }

  // ---------------------------------------------------------------------------
  // Sort-node bounds
  // ---------------------------------------------------------------------------

  lemma {:induction false} SortFreeHasNoSortOverNoOp(n: Node)
    requires SortCount(n) == 0
    ensures NoSortOverNoOp(n)
    decreases n
  {
    match n
    case NoOp =>
    case DataFetcher(_, _, _) =>
    case AndNode(cs) => SortFreeAllHasNoSortOverNoOp(cs);
    case OrNode(cs) => SortFreeAllHasNoSortOverNoOp(cs);
    case Selection(c, _, _, _) => SortFreeHasNoSortOverNoOp(c);
    case SortAndPaginate(c, _, _, _) =>
    case PaginateOnly(c, _, _) => SortFreeHasNoSortOverNoOp(c);
  }

  lemma {:induction false} SortFreeAllHasNoSortOverNoOp(cs: seq<Node>)
    requires SortCountAll(cs) == 0
    ensures NoSortOverNoOpAll(cs)
    decreases cs
  {
    if |cs| > 0 {
      SortFreeHasNoSortOverNoOp(cs[0]);
      SortFreeAllHasNoSortOverNoOp(cs[1..]);
    }
  }

  /**
   * Over a sort-free root the finishing pass adds at most one sort node, none
   * when sorting was already planned, and never one directly on a `NoOp`.
   */
  lemma FinishingPassSortBound(req: EntitiesRequest, ctx: Context, root: Node)
    requires SortCount(root) == 0
    ensures var r := BuildExecutionTree(req, ctx, root);
            && SortCount(r.0) <= 1
            && (ctx.sortAndPaginationNodeAdded ==> SortCount(r.0) == 0)
            && (SortCount(r.0) == 1 ==> r.1.sortAndPaginationNodeAdded)
            && NoSortOverNoOp(r.0)
  {
    SortFreeHasNoSortOverNoOp(root);
  }

  // ---------------------------------------------------------------------------
  // The three strategies
  // ---------------------------------------------------------------------------

  /**
   * Non-live entities: the tree is anchored on an EDS fetch of the request
   * filter, paged exactly when EDS serves both filter and order-by; EDS is no
   * longer a pending selection source, and when paging was pushed down no sort
   * node is added.
   */
  lemma BuildAnchorsNonLiveOnEds(env: Env, req: EntitiesRequest, ctx: Context)
    requires req.includeNonLiveEntities
    ensures var r := Build(env, req, ctx);
            && r.Ok?
            && IsWrappingOf(r.value.0, EdsAnchor(env, req))
            && (EdsAnchor(env, req).paging.Some? <==> EDS in env.sameSourceSets)
            && EDS !in r.value.1.pendingSelection
            && SortCount(r.value.0) <= 1
            && (EDS in env.sameSourceSets ==> SortCount(r.value.0) == 0 && r.value.1.sortAndPaginationNodeAdded)
            && (EDS !in env.sameSourceSets && !ctx.sortAndPaginationNodeAdded ==>
                  (SortCount(r.value.0) == 1 <==> r.value.1.sortAndPaginationNodeAdded))
  {
    var root := EdsAnchor(env, req);
    var ctx1 := if EDS in env.sameSourceSets then ctx.(sortAndPaginationNodeAdded := true) else ctx;
    FinishingPassSortBound(req, Visit(root, ctx1), root);
  }

  /**
   * Single source: QS gets the paginated QS fetch, EDS a fetch with the
   * request's pagination pushed down; both leave no sort node to add. Any other
   * source is an error.
   */
  lemma BuildPushesDownSingleSource(env: Env, req: EntitiesRequest, ctx: Context)
    requires !req.includeNonLiveEntities && env.singleSourceForAllAttributes.Some?
    ensures var source := env.singleSourceForAllAttributes.value;
            var r := Build(env, req, ctx);
            && (source == QS ==> r.Ok? && IsWrappingOf(r.value.0, QsFetchWithPagination(req)))
            && (source == EDS ==> r.Ok? && IsWrappingOf(r.value.0, DataFetcher(EDS, req.filter, Some(RequestPaging(req)))))
            && (source != QS && source != EDS ==> r == Err(UnsupportedSource(source)))
            && (r.Ok? ==> SortCount(r.value.0) == 0 && r.value.1.sortAndPaginationNodeAdded
                          && source !in r.value.1.pendingSelection)
  {
    var source := env.singleSourceForAllAttributes.value;
    if source == QS || source == EDS {
      var (root, ctx1) := SameSourceRoot(req, ctx, source).value;
      FinishingPassSortBound(req, Visit(root, ctx1), root);
    }
  }

  /**
   * Generic path with the QS shortcut: once a leaf took the shortcut, pagination
   * lives in the QS fetch and the finishing pass adds no sort node.
   */
  lemma BuildShortcutAddsNoSort(env: Env, req: EntitiesRequest, ctx: Context)
    requires OptimizerAddsNoSort(env)
    requires !req.includeNonLiveEntities && env.singleSourceForAllAttributes.None?
    requires QS in env.sameSourceSets && ReachesLeaf(TimeRangeFilter(env, req))
    ensures var r := Build(env, req, ctx);
            r.Ok? ==> SortCount(r.value.0) == 0 && r.value.1.sortAndPaginationNodeAdded
  {
    if LowerFilter(env, req, TimeRangeFilter(env, req)).Ok? {
      var (tree, ctx1) := BuildFilterTree(env, req, ctx, TimeRangeFilter(env, req)).value;
      FinishingPassSortBound(req, Visit(tree, ctx1), env.optimize(tree));
    }
  }

  /**
   * Generic path: planning succeeds exactly when the time-ranged filter lowers;
   * the result wraps the optimizer's output, and the sources fetched by the
   * lowered tree are no longer pending selection sources.
   */
  lemma BuildLowersFilter(env: Env, req: EntitiesRequest, ctx: Context)
    requires !req.includeNonLiveEntities && env.singleSourceForAllAttributes.None?
    ensures var lowered := LowerFilter(env, req, TimeRangeFilter(env, req));
            var r := Build(env, req, ctx);
            && (r.Ok? <==> lowered.Ok?)
            && (r.Err? ==> r.error == lowered.error)
            && (r.Ok? ==> IsWrappingOf(r.value.0, env.optimize(lowered.value))
                          && FetchedSources(lowered.value) !! r.value.1.pendingSelection)
  {
  }

  /** The optimizer never introduces a sort node into a sort-free tree. */
  ghost predicate OptimizerAddsNoSort(env: Env) {
    forall n :: SortCount(n) == 0 ==> SortCount(env.optimize(n)) == 0
  }

  /** Every planned tree holds at most one `SortAndPaginate` node. */
  lemma BuildAddsAtMostOneSort(env: Env, req: EntitiesRequest, ctx: Context)
    requires OptimizerAddsNoSort(env)
    ensures var r := Build(env, req, ctx);
            r.Ok? ==> SortCount(r.value.0) <= 1 && NoSortOverNoOp(r.value.0)
  {
    if req.includeNonLiveEntities {
      BuildAnchorsNonLiveOnEds(env, req, ctx);
      var root := EdsAnchor(env, req);
      var ctx1 := if EDS in env.sameSourceSets then ctx.(sortAndPaginationNodeAdded := true) else ctx;
      FinishingPassSortBound(req, Visit(root, ctx1), root);
    } else if env.singleSourceForAllAttributes.Some? {
      var source := env.singleSourceForAllAttributes.value;
      if source == QS || source == EDS {
        var (root, ctx1) := SameSourceRoot(req, ctx, source).value;
        FinishingPassSortBound(req, Visit(root, ctx1), root);
      }
    } else {
      var lowered := LowerFilter(env, req, TimeRangeFilter(env, req));
      if lowered.Ok? {
        var (tree, ctx1) := BuildFilterTree(env, req, ctx, TimeRangeFilter(env, req)).value;
        FinishingPassSortBound(req, Visit(tree, ctx1), env.optimize(tree));
      }
    }
  }

  // ---------------------------------------------------------------------------
  // The QS shortcut during filter lowering
  // ---------------------------------------------------------------------------

  /**
   * When filter and order-by can both be served by QS, a lowered tree fetches
   * from QS only, and it fetches at all exactly when a leaf was reached, which
   * is also exactly when lowering marks sorting and pagination as done.
   */
  lemma {:induction false} QsShortcutFetchesOnlyQs(env: Env, req: EntitiesRequest, f: Filter)
    requires QS in env.sameSourceSets
    requires LowerFilter(env, req, f).Ok?
    ensures FetchedSources(LowerFilter(env, req, f).value) <= {QS}
    ensures ReachesLeaf(f) <==> QS in FetchedSources(LowerFilter(env, req, f).value)
    ensures FetchesWithFilter(LowerFilter(env, req, f).value, req.filter)
    decreases f
  {
    if f != DefaultFilter && (f.op == And || f.op == Or) {
      QsShortcutFetchesOnlyQsAll(env, req, f.children, LowerFilter(env, req, f).value.children);
    }
  }

  lemma {:induction false} QsShortcutFetchesOnlyQsAll(env: Env, req: EntitiesRequest, fs: seq<Filter>, ns: seq<Node>)
    requires QS in env.sameSourceSets
    requires |ns| == |fs|
    requires forall i :: 0 <= i < |fs| ==> LowerFilter(env, req, fs[i]) == Ok(ns[i])
    ensures FetchedSourcesAll(ns) <= {QS}
    ensures ReachesLeafAny(fs) <==> QS in FetchedSourcesAll(ns)
    ensures FetchesWithFilterAll(ns, req.filter)
    decreases fs
  {
    if |fs| > 0 {
      QsShortcutFetchesOnlyQs(env, req, fs[0]);
      QsShortcutFetchesOnlyQsAll(env, req, fs[1..], ns[1..]);
    }
  }

  /**
   * The time-range overload of `buildFilterTree`: the time-ranged filter decides
   * which leaves are reached, and so whether the flag is set; but under the QS
   * shortcut every fetch carries the request's own filter, so the time range
   * added here does not reach the query service through the fetch.
   */
  lemma QsShortcutIgnoresTimeRange(env: Env, req: EntitiesRequest, ctx: Context)
    requires QS in env.sameSourceSets
    ensures var r := BuildFilterTree(env, req, ctx, TimeRangeFilter(env, req));
            r.Ok? ==> && FetchesWithFilter(r.value.0, req.filter)
                      && FetchedSources(r.value.0) <= {QS}
                      && (r.value.1.sortAndPaginationNodeAdded
                          <==> ctx.sortAndPaginationNodeAdded || ReachesLeaf(TimeRangeFilter(env, req)))
  {
    if LowerFilter(env, req, TimeRangeFilter(env, req)).Ok? {
      QsShortcutFetchesOnlyQs(env, req, TimeRangeFilter(env, req));
    }
  }

  // ---------------------------------------------------------------------------
  // Lowering, stated on filters of the shapes the query helpers build
  // ---------------------------------------------------------------------------
  // The gateway's filter and the query service's filter share one datatype
  // here, so these lemmas describe how the planner lowers filters of that
  // shape; the program itself never lowers a filter the helpers built.

  /**
   * A comparison filter on a named column is lowered as a leaf on that column:
   * an error if the column has no metadata, otherwise (without the QS shortcut)
   * an unpaged fetch of that very filter from one of the column's sources.
   */
  lemma LowerColumnFilterLooksUpColumn(env: Env, req: EntitiesRequest, column: string, op: Operator, value: Expression)
    requires op != And && op != Or
    ensures var f := QueryRequestUtil.CreateColumnFilter(column, op, value);
            var r := LowerFilter(env, req, f);
            && (column !in env.attributeSources ==> r == Err(MissingAttributeMetadata(column)))
            && (column in env.attributeSources && QS !in env.sameSourceSets && r.Ok? ==>
                  r.value.DataFetcher? && r.value.filter == f && r.value.paging.None?
                  && r.value.source in env.attributeSources[column])
  {
  }
}
