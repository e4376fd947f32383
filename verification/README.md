# Entity query planner of the Hypertrace gateway service, in Dafny

This project models the query-planning core of the gateway service: the code
that turns an entities request (filter, selections, aggregations, order-by,
limit and offset) into an operator tree whose leaves fetch from the backend
sources — the query service (QS, backed by Pinot) and the entity data service
(EDS) — and whose inner nodes combine, select, sort and paginate.

Modules, leaves first:

- `Wrappers` (wrappers.dfy): `Option` and `Result`; planning errors become `Err` values.
- `JavaInts` (java_ints.dfy): Java `int`/`long` ranges, wrapping `int` addition,
  saturating addition and truncating division.
- `Filters` (filters.dfy): filters, expressions and order-by clauses. The gateway and
  the query service each have a `Filter` message with the same fields; one datatype
  serves both.
- `Decimal` (decimal.dfy): `Long.toString` and its inverse parser.
- `QueryRequestUtil` (query_request_util.dfy): the filter and expression builders,
  with an evaluator that gives the between-times filter its meaning. It also has the
  `dateTimeConvert` group-by expression, whose period string is proved to read
  back as the chosen size and unit.
- `Nodes` (nodes.dfy): the closed set of operator nodes. Also counting and wrapping
  predicates over trees.
- `PlanContext` (plan_context.dfy): the per-request planning context. The builder
  calls it `ExecutionContext` and the visitor calls it `EntityExecutionContext`.
  It is one immutable record, passed through pure functions.
- `ContextBuilder` (context_builder.dfy): the visitor that retires pending selection
  sources already covered by the tree's fetches. It comes with an
  order-independent characterisation of what it leaves pending.
- `Pagination` (pagination.dfy): the window a limit/offset pair selects, and the QS
  over-fetch rewrite (ask for `offset + limit` rows at offset 0, then slice).
- `TreeBuilder` (tree_builder.dfy): the three planning strategies, filter lowering,
  the sort-and-paginate rule and the finishing pass.
- `PlanProperties` (plan_properties.dfy): whole-planner properties. These are the
  exact layering of the finishing pass, the outcome of each strategy, the QS
  shortcut during lowering, and the at-most-one sort node guarantee.

Collaborators whose code is not part of this model are inputs. They are bundled in
`TreeBuilder.Env`:

- the column-to-sources map of the attribute metadata;
- the two source sets computed by `ExecutionTreeUtils` (the single source for all
  attributes, and the sources serving both filter and order-by);
- the timestamp attribute;
- `TimeRangeFilterUtil.addTimeRangeFilter` and the `OptimizingVisitor`, as
  uninterpreted functions. `TreeBuilder.TimeRangeFilter` hands the rewrite the timestamp
  attribute, the request's own filter, and the request's start and end times, in that order.

Nothing in the core does I/O.

## Model

| member | source | states |
|---|---|---|
| JavaInts.AddInt32 | gateway-service-impl/src/main/java/org/hypertrace/gateway/service/entity/query/ExecutionTreeBuilder.java:306 | Java `int` addition: the exact sum when it fits, otherwise the `int` congruent to it modulo 2^32 |
| JavaInts.SaturatingAddInt32 | gateway-service-impl/src/main/java/org/hypertrace/gateway/service/entity/query/ExecutionTreeBuilder.java:305-308 | corrected over-fetch sum: exact when it fits, clamped to the `int` bounds otherwise |
| JavaInts.TruncDiv | gateway-service-impl/src/main/java/org/hypertrace/gateway/service/common/converters/QueryRequestUtil.java:126 | Java division by a positive divisor: the quotient rounds toward zero, bracketed by the dividend |
| Filters.ColumnNameOf | gateway-service-impl/src/main/java/org/hypertrace/gateway/service/entity/query/ExecutionTreeBuilder.java:256-259 | the column name a leaf filter is looked up by; "" when the lhs is missing or not a column |
| Decimal.IntToStringRoundTrip | gateway-service-impl/src/main/java/org/hypertrace/gateway/service/common/converters/QueryRequestUtil.java:124-126 | the decimal text of a period size parses back to the same integer |
| Decimal.IntToString | gateway-service-impl/src/main/java/org/hypertrace/gateway/service/common/converters/QueryRequestUtil.java:124-126 | `Long.toString`: canonical decimal text, that is an optional '-' (present iff negative) then digits with no leading zero, "0" for zero, and never the ':' separator (its inverse is stated by IntToStringRoundTrip) |
| QueryRequestUtil.CreateFilter | gateway-service-impl/src/main/java/org/hypertrace/gateway/service/common/converters/QueryRequestUtil.java:58-60 | the filter has the given lhs expression, operator and rhs, and no children |
| QueryRequestUtil.CreateColumnFilter | gateway-service-impl/src/main/java/org/hypertrace/gateway/service/common/converters/QueryRequestUtil.java:54-56 | the built filter's column name (lhs column identifier) reads back as the given column; the filter is not the default filter |
| QueryRequestUtil.CreateColumnExpression | gateway-service-impl/src/main/java/org/hypertrace/gateway/service/common/converters/QueryRequestUtil.java:33-37 | an unaliased column identifier whose name reads back as the filter's column when used as lhs |
| QueryRequestUtil.CreateStringLiteralExpression | gateway-service-impl/src/main/java/org/hypertrace/gateway/service/common/converters/QueryRequestUtil.java:66-72 | a STRING literal holding the value; never read as a column |
| QueryRequestUtil.CreateLongLiteralExpression | gateway-service-impl/src/main/java/org/hypertrace/gateway/service/common/converters/QueryRequestUtil.java:74-80 | a LONG literal holding the value; a column comparison against it compares the row's column with exactly that value |
| QueryRequestUtil.CreateLongFilter | gateway-service-impl/src/main/java/org/hypertrace/gateway/service/common/converters/QueryRequestUtil.java:50-52 | a comparison with no children, an unaliased column of the given name as lhs, the given operator and the given long literal as rhs |
| QueryRequestUtil.CreateStringFilter | gateway-service-impl/src/main/java/org/hypertrace/gateway/service/common/converters/QueryRequestUtil.java:46-48 | a comparison with no children, an unaliased column of the given name as lhs, the given operator and the given string literal as rhs |
| QueryRequestUtil.CreateCompositeFilter | gateway-service-impl/src/main/java/org/hypertrace/gateway/service/common/converters/QueryRequestUtil.java:62-64 | the composite keeps the operator and the child filters in the given order, with no lhs or rhs |
| QueryRequestUtil.CompositeFilterCombinesChildren | gateway-service-impl/src/main/java/org/hypertrace/gateway/service/common/converters/QueryRequestUtil.java:62-64 | a composite AND selects a row iff every child does; a composite OR iff every child has a meaning and some child selects it |
| QueryRequestUtil.CreateBetweenTimesFilter | gateway-service-impl/src/main/java/org/hypertrace/gateway/service/common/converters/QueryRequestUtil.java:25-31 | an AND of exactly two children: `column GE lower`, then `column LT higher` |
| QueryRequestUtil.BetweenTimesFilterSelectsInterval | gateway-service-impl/src/main/java/org/hypertrace/gateway/service/common/converters/QueryRequestUtil.java:25-31 | the between-times filter holds of a row exactly when lower <= time < higher |
| QueryRequestUtil.PeriodFor | gateway-service-impl/src/main/java/org/hypertrace/gateway/service/common/converters/QueryRequestUtil.java:122-127 | seconds exactly when periodSecs <= 2147483647, and then the size is periodSecs; otherwise hours, the whole number of hours in periodSecs |
| QueryRequestUtil.PeriodRoundTrip | gateway-service-impl/src/main/java/org/hypertrace/gateway/service/common/converters/QueryRequestUtil.java:124-126 | any size rendered with `Long.toString`, a colon and a unit name parses back to that size and unit |
| QueryRequestUtil.FormatPeriod | gateway-service-impl/src/main/java/org/hypertrace/gateway/service/common/converters/QueryRequestUtil.java:124-126 | the `size:SECONDS` / `size:HOURS` period string, which parses back to the period it renders |
| QueryRequestUtil.CreateTimeColumnGroupByExpression | gateway-service-impl/src/main/java/org/hypertrace/gateway/service/common/converters/QueryRequestUtil.java:119-137 | `dateTimeConvert` with four arguments: the time column, the epoch-millis format twice, then a period string that parses to the chosen period |
| PlanContext.AttributesOf | gateway-service-impl/src/main/java/org/hypertrace/gateway/service/entity/query/visitor/ExecutionContextBuilderVisitor.java:65-66 | a source with no map entry has the empty attribute set |
| PlanContext.FlattenOrderBys | gateway-service-impl/src/main/java/org/hypertrace/gateway/service/entity/query/ExecutionTreeBuilder.java:278-281 | an order-by is in the flattened list iff some source lists it; the list is empty iff every source's list is |
| PlanContext.FlattenOrderBysAppend | gateway-service-impl/src/main/java/org/hypertrace/gateway/service/entity/query/ExecutionTreeBuilder.java:278-281 | flattening keeps each source's order-bys together and in source order |
| ContextBuilder.RedundantPendingSources | gateway-service-impl/src/main/java/org/hypertrace/gateway/service/entity/query/visitor/ExecutionContextBuilderVisitor.java:122-139 | a pending source is redundant iff its attributes, absent meaning none, are all among the fetched attributes; empty pending gives none |
| ContextBuilder.VisitDataFetcher | gateway-service-impl/src/main/java/org/hypertrace/gateway/service/entity/query/visitor/ExecutionContextBuilderVisitor.java:53-88 | a pending (order-by) source stays iff it is not the fetched source and its attributes (from the selection or order-by map) are not all among the fetched source's selection attributes; nothing else changes |
| ContextBuilder.Visit | gateway-service-impl/src/main/java/org/hypertrace/gateway/service/entity/query/visitor/ExecutionContextBuilderVisitor.java:90-120 | the visitor only shrinks the two pending selection sets, leaves every other field alone, and retires every source the tree fetches from |
| ContextBuilder.VisitEach | gateway-service-impl/src/main/java/org/hypertrace/gateway/service/entity/query/visitor/ExecutionContextBuilderVisitor.java:90-100 | visiting And/Or children in order only shrinks the two pending selection sets and retires every child's fetched sources |
| ContextBuilder.VisitLeavesSurvivors | gateway-service-impl/src/main/java/org/hypertrace/gateway/service/entity/query/visitor/ExecutionContextBuilderVisitor.java:53-139 | after a visit, exactly the pending sources that survive a fetch from every source in the tree remain |
| ContextBuilder.VisitDependsOnlyOnFetchedSources | gateway-service-impl/src/main/java/org/hypertrace/gateway/service/entity/query/visitor/ExecutionContextBuilderVisitor.java:90-100 | child order and tree shape do not matter: trees fetching from the same sources retire the same sources |
| ContextBuilder.VisitWithoutFetchesIsIdentity | gateway-service-impl/src/main/java/org/hypertrace/gateway/service/entity/query/visitor/ExecutionContextBuilderVisitor.java:112-115 | a tree with no fetch (e.g. a NoOp) changes nothing |
| Pagination.QsLimitAsWritten | gateway-service-impl/src/main/java/org/hypertrace/gateway/service/entity/query/ExecutionTreeBuilder.java:305-308 | as written: for a positive offset the pushed-down limit is the `int` congruent to offset + limit modulo 2^32, equal to the sum when it fits; else the request limit |
| Pagination.QsLimit | gateway-service-impl/src/main/java/org/hypertrace/gateway/service/entity/query/ExecutionTreeBuilder.java:305-308 | the pushed-down limit is offset + limit when the offset is positive and the sum fits, exactly 2147483647 when it would overflow, never below the request limit; else the request limit |
| Pagination.QsOffset | gateway-service-impl/src/main/java/org/hypertrace/gateway/service/entity/query/ExecutionTreeBuilder.java:305-308 | the pushed-down offset is 0 when the request offset is positive, else the request offset |
| Pagination.QsLimitAgreesWithoutOverflow | gateway-service-impl/src/main/java/org/hypertrace/gateway/service/entity/query/ExecutionTreeBuilder.java:305-308 | the as-written and the corrected limit agree whenever offset + limit fits in an `int` |
| Pagination.QsRewriteKeepsWindow | gateway-service-impl/src/main/java/org/hypertrace/gateway/service/entity/query/ExecutionTreeBuilder.java:300-319 | fetching the first QsLimit rows at QsOffset and then slicing (limit, offset) yields exactly the requested window |
| Pagination.QsLimitAsWrittenOverflows | gateway-service-impl/src/main/java/org/hypertrace/gateway/service/entity/query/ExecutionTreeBuilder.java:305-308 | offset 2147483647 with limit 1 pushes down limit -2147483648 as written |
| TreeBuilder.QsFetchWithPagination | gateway-service-impl/src/main/java/org/hypertrace/gateway/service/entity/query/ExecutionTreeBuilder.java:294-322 | a QS fetch of the request filter and order-bys with QsLimit/QsOffset; wrapped in exactly one PaginateOnly(limit, offset) iff offset > 0 |
| TreeBuilder.QsFetchWithPaginationAsWritten | gateway-service-impl/src/main/java/org/hypertrace/gateway/service/entity/query/ExecutionTreeBuilder.java:294-322 | a QS fetch of the request filter and order-bys with the wrapping QsLimitAsWritten and QsOffset; wrapped in exactly one PaginateOnly(limit, offset) iff offset > 0; no sort node |
| TreeBuilder.SameSourceRoot | gateway-service-impl/src/main/java/org/hypertrace/gateway/service/entity/query/ExecutionTreeBuilder.java:143-169 | QS gives the paginated QS fetch, EDS a fetch with limit, offset and order-by pushed down unchanged, both setting the flag; any other source is an UnsupportedSource error |
| TreeBuilder.LowerLeaf | gateway-service-impl/src/main/java/org/hypertrace/gateway/service/entity/query/ExecutionTreeBuilder.java:255-268 | missing metadata is an error; with QS in the filter/order-by source set the leaf is the paginated QS fetch; else an unpaged fetch of the leaf filter from QS iff QS serves the column, otherwise from its first source (error if none) |
| TreeBuilder.LowerFilter | gateway-service-impl/src/main/java/org/hypertrace/gateway/service/entity/query/ExecutionTreeBuilder.java:240-254 | the default filter becomes NoOp; AND/OR become And/Or with one child per child filter, in order, and fail iff a child fails; every other filter is lowered as a leaf by LowerLeaf; the result has no sort node |
| TreeBuilder.LowerAll | gateway-service-impl/src/main/java/org/hypertrace/gateway/service/entity/query/ExecutionTreeBuilder.java:246-249 | lowers every filter in order, or returns the first child error |
| TreeBuilder.BuildFilterTree | gateway-service-impl/src/main/java/org/hypertrace/gateway/service/entity/query/ExecutionTreeBuilder.java:240-269 | the lowered tree; the flag is set iff it was set or a leaf was reached while QS serves filter and order-by |
| TreeBuilder.CheckAndAddSortAndPagination | gateway-service-impl/src/main/java/org/hypertrace/gateway/service/entity/query/ExecutionTreeBuilder.java:271-292 | returns the child unchanged when the flag is set, the child is NoOp, or there is neither order-by nor limit; otherwise wraps it in SortAndPaginate(limit, offset, flattened order-bys) and sets the flag; adds a sort node iff it sets the flag |
| TreeBuilder.SelectForOrderBy | gateway-service-impl/src/main/java/org/hypertrace/gateway/service/entity/query/ExecutionTreeBuilder.java:174-192 | the order-by attribute and metric selections retire those sources from pending selection and pending metric aggregation; the result is NoOp iff the root was and nothing was selected |
| TreeBuilder.SelectPendingThenSort | gateway-service-impl/src/main/java/org/hypertrace/gateway/service/entity/query/ExecutionTreeBuilder.java:197-221 | a remaining selection only wraps the tree, adds a sort node exactly when it sets the flag, and changes only the flag |
| TreeBuilder.BuildExecutionTree | gateway-service-impl/src/main/java/org/hypertrace/gateway/service/entity/query/ExecutionTreeBuilder.java:172-223 | the finishing pass only wraps the root, adds a sort node exactly when it sets the flag, and removes only the order-by sources from pending selection and metric aggregation |
| TreeBuilder.Build | gateway-service-impl/src/main/java/org/hypertrace/gateway/service/entity/query/ExecutionTreeBuilder.java:58-141 | non-live requests always plan; the single-source path succeeds iff the source is QS or EDS |
| TreeBuilder.EdsAnchor | gateway-service-impl/src/main/java/org/hypertrace/gateway/service/entity/query/ExecutionTreeBuilder.java:73-82 | an EDS fetch of the request filter, carrying the request's limit, offset and order-bys iff EDS serves filter and order-by |
| PlanProperties.FinishingPassLayers | gateway-service-impl/src/main/java/org/hypertrace/gateway/service/entity/query/ExecutionTreeBuilder.java:172-223 | the finishing pass adds the order-by selections, one sort layer when requested, then the attribute, metric and time-series selections, each only when its set is non-empty |
| PlanProperties.SortPositionAfterNoOp | gateway-service-impl/src/main/java/org/hypertrace/gateway/service/entity/query/ExecutionTreeBuilder.java:194-221 | over a bare NoOp the sort layer lands right after the first remaining selection, or nowhere |
| PlanProperties.NoOpRootStaysNoOp | gateway-service-impl/src/main/java/org/hypertrace/gateway/service/entity/query/ExecutionTreeBuilder.java:271-276 | a NoOp root with nothing pending gets no sort node whatever limit was requested |
| PlanProperties.FinishingPassSortBound | gateway-service-impl/src/main/java/org/hypertrace/gateway/service/entity/query/ExecutionTreeBuilder.java:271-292 | over a sort-free root: at most one sort node, none when sorting was already planned, never directly on a NoOp |
| PlanProperties.BuildAnchorsNonLiveOnEds | gateway-service-impl/src/main/java/org/hypertrace/gateway/service/entity/query/ExecutionTreeBuilder.java:72-95 | non-live requests wrap an EDS fetch of the request filter, paged iff EDS serves filter and order-by; EDS is retired, and no sort node is added when paging was pushed down |
| PlanProperties.BuildPushesDownSingleSource | gateway-service-impl/src/main/java/org/hypertrace/gateway/service/entity/query/ExecutionTreeBuilder.java:101-113 | the single-source tree wraps the paginated QS fetch or the paged EDS fetch with no sort node, or is an UnsupportedSource error |
| PlanProperties.BuildLowersFilter | gateway-service-impl/src/main/java/org/hypertrace/gateway/service/entity/query/ExecutionTreeBuilder.java:115-140 | the generic path succeeds iff the time-ranged filter lowers; the result wraps the optimizer output and the lowered tree's sources are retired |
| PlanProperties.BuildShortcutAddsNoSort | gateway-service-impl/src/main/java/org/hypertrace/gateway/service/entity/query/ExecutionTreeBuilder.java:115-140 | on the generic path, once a leaf took the QS shortcut (lines 257-259) the plan holds no SortAndPaginate node and the flag is set |
| PlanProperties.BuildAddsAtMostOneSort | gateway-service-impl/src/main/java/org/hypertrace/gateway/service/entity/query/ExecutionTreeBuilder.java:58-141 | every planned tree has at most one SortAndPaginate, never directly on a NoOp, given an optimizer that adds none |
| PlanProperties.LowerColumnFilterLooksUpColumn | gateway-service-impl/src/main/java/org/hypertrace/gateway/service/entity/query/ExecutionTreeBuilder.java:256-267 | on the shared filter shape: a comparison on a named column lowers as a leaf on that column: an error without metadata, else (no QS shortcut) an unpaged fetch of the filter from one of the column's sources |
| PlanProperties.QsShortcutFetchesOnlyQs | gateway-service-impl/src/main/java/org/hypertrace/gateway/service/entity/query/ExecutionTreeBuilder.java:261-265 | with the QS shortcut the lowered tree fetches only from QS and only with the request's own filter, and fetches at all iff a leaf is reached, which is when the flag is set |
| PlanProperties.QsShortcutIgnoresTimeRange | gateway-service-impl/src/main/java/org/hypertrace/gateway/service/entity/query/ExecutionTreeBuilder.java:226-237 | the time-range overload of buildFilterTree under the QS shortcut: every fetch carries the request's own filter, not the time-ranged one, and the flag is set iff it was set or the time-ranged filter reaches a leaf |

## Left out

- `OptimizingVisitor`, `TimeRangeFilterUtil.addTimeRangeFilter`, `ExecutionTreeUtils` and the
  attribute metadata provider are not part of this model. They are the inputs and
  uninterpreted functions of `TreeBuilder.Env`.
- `ExecutionContext` is not part of this model beyond the fields the planner reads. The model
  assumes `removePendingSelectionSource` removes from the pending selection set only. It
  assumes `removePendingSelectionSourceForOrderBy` removes from the pending order-by selection
  set only. It assumes `removePendingMetricAggregationSources` removes from pending metric
  aggregation only.
- The builder's debug logging and `PrintVisitor` rendering are diagnostic only.
- `EntityRequestHandler` is network fetch plumbing and row conversion, so it is out of scope.
- The Gradle build files hold build configuration only.
- QueryRequestUtil's aliased column expression, null and string-array literals, and COUNT and
  DISTINCTCOUNT selections are left out. The planner does not use them. Protobuf value-type tags
  are represented by the literal constructors alone.
- The filter operators are modelled as AND, OR, GE, LT and one catch-all constructor. The
  planner only distinguishes AND and OR from leaves.
- Map iteration order: `sourceToOrderBy` is an ordered sequence of entries. The order in which
  Java iterates the map is taken as given.
- PaginateOnly and QS semantics: `Pagination.Window` is the assumed meaning of a limit/offset
  pair. The executor that applies it is not part of this model.
- TreeBuilder.BuildFilterTree: on an error the model drops the context. Java may already have set
  the flag on earlier leaves before throwing, but planning aborts either way.
- TreeBuilder.Build: its own contract states only when planning succeeds. The shape of each
  strategy's result is stated by the PlanProperties lemmas.
- TreeBuilder.QsFetchWithPagination: pushes down the clamped limit `Pagination.QsLimit`, not
  Java's wrapping `int` sum. The two differ only when offset + limit exceeds 2147483647 (see
  Findings).
- TreeBuilder.SameSourceRoot: its QS root is the clamped-limit fetch, so it departs from the code
  when offset + limit exceeds 2147483647.
- TreeBuilder.LowerLeaf: its QS shortcut returns the clamped-limit fetch, so it departs from the
  code when offset + limit exceeds 2147483647.
- TreeBuilder.Build: every strategy that reaches the QS fetch uses the clamped limit, so the plan
  departs from the code when offset + limit exceeds 2147483647. The code's wrapping node is
  `TreeBuilder.QsFetchWithPaginationAsWritten`.
- The gateway's `Filter` (which the planner lowers) and the query service's `Filter` (which
  QueryRequestUtil builds) are distinct messages in the code. Both are the one `Filters.Filter`
  here. So `PlanProperties.LowerColumnFilterLooksUpColumn` describes how the planner lowers
  filters of that shared shape. They have no counterpart call in the program, which never lowers a filter built
  by QueryRequestUtil.

Behaviour of the code that the model keeps, although it is easy to misread:

- The finishing pass does not retire the pending sources of the remaining attribute, metric and
  time-series selections. Only the two order-by selections retire theirs.
- The finishing pass makes one sort attempt after both order-by selections, not one after each.
- The QS shortcut in a filter leaf fetches the request's original filter, not the time-ranged one.
- The context builder also runs on the single-source root before the finishing pass.
- The context left after planning may still list pending sources. Those are the ones the
  finishing pass wrapped but did not retire.

## Findings

| source | as written | input that shows it | evidently intended | confidence | as-written member | corrected member |
|---|---|---|---|---|---|---|
| gateway-service-impl/src/main/java/org/hypertrace/gateway/service/entity/query/ExecutionTreeBuilder.java:305-308 | `selectionLimit = selectionOffset + selectionLimit` in 32-bit `int` arithmetic, which wraps around | offset 2147483647, limit 1: QS is asked for limit -2147483648 (Pagination.QsLimitAsWrittenOverflows) | ask QS for `offset + limit` rows, clamped to the largest `int`, so the slice window is always covered (Pagination.QsRewriteKeepsWindow) | medium, not executed | Pagination.QsLimitAsWritten | Pagination.QsLimit |

The planner model (`TreeBuilder.QsFetchWithPagination`) uses the corrected limit. `TreeBuilder.QsFetchWithPaginationAsWritten` keeps the node as written for comparison.
