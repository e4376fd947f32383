/**
 * The context-builder visitor: walks a tree and retires pending selection
 * sources that the tree's fetches already cover, so the same attributes are not
 * fetched twice from two sources.
 */
module ContextBuilder {
  import opened Nodes
  import opened PlanContext

  /**
   * The pending sources whose attributes (looked up in `attrs`, absent meaning
   * none) are all among `fetched`.
   */
  function RedundantPendingSources(fetched: set<string>, pending: set<Source>, attrs: map<Source, set<string>>): (r: set<Source>)
    ensures r <= pending
    ensures forall p :: p in r <==> p in pending && AttributesOf(attrs, p) <= fetched
  {
    if pending == {} then {}
    else set p | p in pending && AttributesOf(attrs, p) <= fetched
  }

  /**
   * Visiting `DataFetcher(source, ...)`: `source` leaves both pending selection
   * sets, then every pending source made redundant by what `source` fetches
   * leaves too. The fetched set is always read from the selection map; the
   * pending order-by sources' own attributes from the order-by map.
   */
  function VisitDataFetcher(source: Source, ctx: Context): (r: Context)
    ensures SameExceptPendingSelection(ctx, r)
    ensures forall p :: p in r.pendingSelection <==>
      p in ctx.pendingSelection && SurvivesFetch(p, source, ctx.sourceToSelectionAttrs, ctx.sourceToSelectionAttrs)
    ensures forall p :: p in r.pendingSelectionForOrderBy <==>
      p in ctx.pendingSelectionForOrderBy && SurvivesFetch(p, source, ctx.sourceToSelectionOrderByAttrs, ctx.sourceToSelectionAttrs)
  {
    var selection := ctx.pendingSelection - {source};
    var forOrderBy := ctx.pendingSelectionForOrderBy - {source};
    var fetched := AttributesOf(ctx.sourceToSelectionAttrs, source);
    var selection' :=
      if selection == {} then selection
      else selection - RedundantPendingSources(fetched, selection, ctx.sourceToSelectionAttrs);
    var forOrderBy' :=
      if forOrderBy == {} then forOrderBy
      else forOrderBy - RedundantPendingSources(fetched, forOrderBy, ctx.sourceToSelectionOrderByAttrs);
    ctx.(pendingSelection := selection', pendingSelectionForOrderBy := forOrderBy')
  }

  /**
   * Pending source `p` (its attributes read from `pendingAttrs`) is still needed
   * after a fetch from `s` (its attributes read from `fetchedAttrs`).
   */
  predicate SurvivesFetch(p: Source, s: Source, pendingAttrs: map<Source, set<string>>, fetchedAttrs: map<Source, set<string>>) {
    p != s && !(AttributesOf(pendingAttrs, p) <= AttributesOf(fetchedAttrs, s))
  }

  /** The visitor: `And`/`Or` visit every child in order, wrappers their one child. */
  function Visit(n: Node, ctx: Context): (r: Context)
    ensures SameExceptPendingSelection(ctx, r)
    ensures r.pendingSelection <= ctx.pendingSelection
    ensures r.pendingSelectionForOrderBy <= ctx.pendingSelectionForOrderBy
    ensures FetchedSources(n) !! r.pendingSelection
    ensures FetchedSources(n) !! r.pendingSelectionForOrderBy
    decreases n
  {
    match n
    case NoOp => ctx
    case DataFetcher(s, _, _) => VisitDataFetcher(s, ctx)
    case AndNode(cs) => VisitEach(cs, ctx)
    case OrNode(cs) => VisitEach(cs, ctx)
    case Selection(c, _, _, _) => Visit(c, ctx)
    case SortAndPaginate(c, _, _, _) => Visit(c, ctx)
    case PaginateOnly(c, _, _) => Visit(c, ctx)
  }

  function VisitEach(cs: seq<Node>, ctx: Context): (r: Context)
    ensures SameExceptPendingSelection(ctx, r)
    ensures r.pendingSelection <= ctx.pendingSelection
    ensures r.pendingSelectionForOrderBy <= ctx.pendingSelectionForOrderBy
    ensures FetchedSourcesAll(cs) !! r.pendingSelection
    ensures FetchedSourcesAll(cs) !! r.pendingSelectionForOrderBy
    decreases cs
  {
    if |cs| == 0 then ctx else VisitEach(cs[1..], Visit(cs[0], ctx))
  }

  /**
   * Independent description of what the visitor leaves pending: the sources of
   * `pending` that survive a fetch from every source in `fetchers`.
   */
  function Survivors(pending: set<Source>, fetchers: set<Source>,
                     pendingAttrs: map<Source, set<string>>, fetchedAttrs: map<Source, set<string>>): set<Source>
  {
    set p | p in pending && forall s :: s in fetchers ==> SurvivesFetch(p, s, pendingAttrs, fetchedAttrs)
  }

  lemma SurvivorsCompose(pending: set<Source>, f1: set<Source>, f2: set<Source>,
                         pendingAttrs: map<Source, set<string>>, fetchedAttrs: map<Source, set<string>>)
    ensures Survivors(Survivors(pending, f1, pendingAttrs, fetchedAttrs), f2, pendingAttrs, fetchedAttrs)
            == Survivors(pending, f1 + f2, pendingAttrs, fetchedAttrs)
  {
  }

  /**
   * What the visitor leaves pending does not depend on the shape of the tree or
   * the order of children: exactly the pending sources that survive every fetch.
   */
  lemma {:induction false} VisitLeavesSurvivors(n: Node, ctx: Context)
    ensures Visit(n, ctx).pendingSelection ==
      Survivors(ctx.pendingSelection, FetchedSources(n), ctx.sourceToSelectionAttrs, ctx.sourceToSelectionAttrs)
    ensures Visit(n, ctx).pendingSelectionForOrderBy ==
      Survivors(ctx.pendingSelectionForOrderBy, FetchedSources(n), ctx.sourceToSelectionOrderByAttrs, ctx.sourceToSelectionAttrs)
    decreases n
  {
    match n
    case NoOp =>
    case DataFetcher(s, _, _) =>
    case AndNode(cs) => VisitEachLeavesSurvivors(cs, ctx);
    case OrNode(cs) => VisitEachLeavesSurvivors(cs, ctx);
    case Selection(c, _, _, _) => VisitLeavesSurvivors(c, ctx);
    case SortAndPaginate(c, _, _, _) => VisitLeavesSurvivors(c, ctx);
    case PaginateOnly(c, _, _) => VisitLeavesSurvivors(c, ctx);
  }

  lemma {:induction false} VisitEachLeavesSurvivors(cs: seq<Node>, ctx: Context)
    ensures VisitEach(cs, ctx).pendingSelection ==
      Survivors(ctx.pendingSelection, FetchedSourcesAll(cs), ctx.sourceToSelectionAttrs, ctx.sourceToSelectionAttrs)
    ensures VisitEach(cs, ctx).pendingSelectionForOrderBy ==
      Survivors(ctx.pendingSelectionForOrderBy, FetchedSourcesAll(cs), ctx.sourceToSelectionOrderByAttrs, ctx.sourceToSelectionAttrs)
    decreases cs
  {
    if |cs| > 0 {
      var mid := Visit(cs[0], ctx);
      VisitLeavesSurvivors(cs[0], ctx);
      VisitEachLeavesSurvivors(cs[1..], mid);
      SurvivorsCompose(ctx.pendingSelection, FetchedSources(cs[0]), FetchedSourcesAll(cs[1..]),
                       ctx.sourceToSelectionAttrs, ctx.sourceToSelectionAttrs);
      SurvivorsCompose(ctx.pendingSelectionForOrderBy, FetchedSources(cs[0]), FetchedSourcesAll(cs[1..]),
                       ctx.sourceToSelectionOrderByAttrs, ctx.sourceToSelectionAttrs);
    }
  }

  /** Two trees that fetch from the same sources retire the same pending sources. */
  lemma VisitDependsOnlyOnFetchedSources(a: Node, b: Node, ctx: Context)
    requires FetchedSources(a) == FetchedSources(b)
    ensures Visit(a, ctx) == Visit(b, ctx)
  {
    VisitLeavesSurvivors(a, ctx);
    VisitLeavesSurvivors(b, ctx);
  }

  /** A tree without fetches leaves the context as it was. */
  lemma VisitWithoutFetchesIsIdentity(n: Node, ctx: Context)
    requires FetchedSources(n) == {}
    ensures Visit(n, ctx) == ctx
  {
    VisitLeavesSurvivors(n, ctx);
  }
}
