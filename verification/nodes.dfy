/**
 * The operator tree the planner produces: a closed set of node kinds, built
 * bottom-up and only ever wrapped, never mutated.
 */
module Nodes {
  import opened Wrappers
  import opened Filters

  /** A backend data source, named as the attribute metadata names it. */
  type Source = string

  /** The query service (metrics and time series; Pinot underneath). */
  const QS: Source := "QS"

  /** The entity data service, the only source that knows non-live entities. */
  const EDS: Source := "EDS"

  /** Limit, offset and ordering pushed down into a fetch. */
  datatype Paging = Paging(limit: int, offset: int, orderBys: seq<OrderBy>)

  datatype Node =
    | NoOp
      /** Fetch from one source; `paging` is `None` for an unordered, unbounded fetch. */
    | DataFetcher(source: Source, filter: Filter, paging: Option<Paging>)
    | AndNode(children: seq<Node>)
    | OrNode(children: seq<Node>)
      /** Fetch more data for the child's entities; the planner fills exactly one of the three sets. */
    | Selection(child: Node, attrSources: set<Source>, aggSources: set<Source>, timeSeriesSources: set<Source>)
    | SortAndPaginate(child: Node, limit: int, offset: int, orderBys: seq<OrderBy>)
      /** Slice an already ordered, over-fetched result. */
    | PaginateOnly(child: Node, limit: int, offset: int)

  /** The sources of every `DataFetcher` in the tree. */
  function FetchedSources(n: Node): set<Source>
    decreases n
  {
    match n
    case NoOp => {}
    case DataFetcher(s, _, _) => {s}
    case AndNode(cs) => FetchedSourcesAll(cs)
    case OrNode(cs) => FetchedSourcesAll(cs)
    case Selection(c, _, _, _) => FetchedSources(c)
    case SortAndPaginate(c, _, _, _) => FetchedSources(c)
    case PaginateOnly(c, _, _) => FetchedSources(c)
  }

  function FetchedSourcesAll(cs: seq<Node>): set<Source>
    decreases cs
  {
    if |cs| == 0 then {} else FetchedSources(cs[0]) + FetchedSourcesAll(cs[1..])
  }

  /** The number of `SortAndPaginate` nodes in the tree. */
  function SortCount(n: Node): nat
    decreases n
  {
    match n
    case NoOp => 0
    case DataFetcher(_, _, _) => 0
    case AndNode(cs) => SortCountAll(cs)
    case OrNode(cs) => SortCountAll(cs)
    case Selection(c, _, _, _) => SortCount(c)
    case SortAndPaginate(c, _, _, _) => 1 + SortCount(c)
    case PaginateOnly(c, _, _) => SortCount(c)
  }

  function SortCountAll(cs: seq<Node>): nat
    decreases cs
  {
    if |cs| == 0 then 0 else SortCount(cs[0]) + SortCountAll(cs[1..])
  }

  /** The number of `PaginateOnly` nodes in the tree. */
  function PaginateOnlyCount(n: Node): nat
    decreases n
  {
    match n
    case NoOp => 0
    case DataFetcher(_, _, _) => 0
    case AndNode(cs) => PaginateOnlyCountAll(cs)
    case OrNode(cs) => PaginateOnlyCountAll(cs)
    case Selection(c, _, _, _) => PaginateOnlyCount(c)
    case SortAndPaginate(c, _, _, _) => PaginateOnlyCount(c)
    case PaginateOnly(c, _, _) => 1 + PaginateOnlyCount(c)
  }

  function PaginateOnlyCountAll(cs: seq<Node>): nat
    decreases cs
  {
    if |cs| == 0 then 0 else PaginateOnlyCount(cs[0]) + PaginateOnlyCountAll(cs[1..])
  }

  /** No `SortAndPaginate` node sits directly on a `NoOp`. */
  predicate NoSortOverNoOp(n: Node)
    decreases n
  {
    match n
    case NoOp => true
    case DataFetcher(_, _, _) => true
    case AndNode(cs) => NoSortOverNoOpAll(cs)
    case OrNode(cs) => NoSortOverNoOpAll(cs)
    case Selection(c, _, _, _) => NoSortOverNoOp(c)
    case SortAndPaginate(c, _, _, _) => !c.NoOp? && NoSortOverNoOp(c)
    case PaginateOnly(c, _, _) => NoSortOverNoOp(c)
  }

  predicate NoSortOverNoOpAll(cs: seq<Node>)
    decreases cs
  {
    |cs| == 0 || (NoSortOverNoOp(cs[0]) && NoSortOverNoOpAll(cs[1..]))
  }

  /** Every `DataFetcher` in the tree fetches with filter `f`. */
  predicate FetchesWithFilter(n: Node, f: Filter)
    decreases n
  {
    match n
    case NoOp => true
    case DataFetcher(_, g, _) => g == f
    case AndNode(cs) => FetchesWithFilterAll(cs, f)
    case OrNode(cs) => FetchesWithFilterAll(cs, f)
    case Selection(c, _, _, _) => FetchesWithFilter(c, f)
    case SortAndPaginate(c, _, _, _) => FetchesWithFilter(c, f)
    case PaginateOnly(c, _, _) => FetchesWithFilter(c, f)
  }

  predicate FetchesWithFilterAll(cs: seq<Node>, f: Filter)
    decreases cs
  {
    |cs| == 0 || (FetchesWithFilter(cs[0], f) && FetchesWithFilterAll(cs[1..], f))
  }

  /**
   * `outer` is `inner` under zero or more single-child wrappers
   * (`Selection`, `SortAndPaginate`, `PaginateOnly`).
   */
  predicate IsWrappingOf(outer: Node, inner: Node)
    decreases outer
  {
    outer == inner
    || (outer.Selection? && IsWrappingOf(outer.child, inner))
    || (outer.SortAndPaginate? && IsWrappingOf(outer.child, inner))
    || (outer.PaginateOnly? && IsWrappingOf(outer.child, inner))
  }

  lemma {:induction false} WrappingTransitive(a: Node, b: Node, c: Node)
    requires IsWrappingOf(a, b) && IsWrappingOf(b, c)
    ensures IsWrappingOf(a, c)
    decreases a
  {
    if a != b {
      WrappingTransitive(a.child, b, c);
    }
  }
}
