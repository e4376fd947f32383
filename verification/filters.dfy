/**
 * The request-message shapes the planner works on: filters, expressions and
 * order-by clauses. The gateway's `Filter` and the query service's `Filter` are
 * distinct messages with the same fields (operator, child filters, lhs, rhs), so
 * both are represented by the one datatype below.
 */
module Filters {
  import opened Wrappers

  /** Filter operators. `Unset` is the message default (enum value 0). */
  datatype Operator = Unset | And | Or | Ge | Lt | OtherOp(name: string)

  /** Literal values; the value-type tags of the wire encoding are not modelled. */
  datatype Literal = StringValue(s: string) | LongValue(v: int)

  datatype Expression =
    | ColumnRef(columnName: string, alias: Option<string>)
    | LiteralExpr(literal: Literal)
    | FunctionExpr(functionName: string, arguments: seq<Expression>)

  /** `lhs` and `rhs` are `None` when the message field is not set. */
  datatype Filter = Filter(op: Operator, children: seq<Filter>, lhs: Option<Expression>, rhs: Option<Expression>)

  datatype SortOrder = Asc | Desc

  datatype OrderBy = OrderBy(expression: Expression, order: SortOrder)

  /** `Filter.getDefaultInstance()`: every field unset. */
  const DefaultFilter: Filter := Filter(Unset, [], None, None)

  /**
   * `filter.getLhs().getColumnIdentifier().getColumnName()`: message getters
   * return default instances, so a missing or non-column lhs yields "".
   */
  function ColumnNameOf(f: Filter): (name: string)
    ensures f.lhs.Some? && f.lhs.value.ColumnRef? ==> name == f.lhs.value.columnName
    ensures !(f.lhs.Some? && f.lhs.value.ColumnRef?) ==> name == ""
  {
    match f.lhs
    case Some(ColumnRef(n, _)) => n
    case _ => ""
  }
}
