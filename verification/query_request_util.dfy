/**
 * Construction helpers for query-service requests: column and literal
 * expressions, comparison and composite filters, the between-times filter and
 * the `dateTimeConvert` group-by expression.
 */
module QueryRequestUtil {
  import opened Wrappers
  import opened Filters
  import opened Decimal
  import opened JavaInts

  const DateTimeConverter: string := "dateTimeConvert"

  /** Both the input and the output format of the `dateTimeConvert` call. */
  const EpochMillisFormat: string := "1:MILLISECONDS:EPOCH"

  /** An unaliased column reference; a filter with it as lhs reads the name back. */
  function CreateColumnExpression(columnName: string): (e: Expression)
    ensures e.ColumnRef? && e.alias.None?
    ensures forall op :: ColumnNameOf(Filter(op, [], Some(e), None)) == columnName
  {
    ColumnRef(columnName, None)
  }

  /** A STRING literal holding `value`; it is never a column reference. */
  function CreateStringLiteralExpression(value: string): (e: Expression)
    ensures e.LiteralExpr? && e.literal.StringValue? && e.literal.s == value
    ensures forall op :: ColumnNameOf(Filter(op, [], Some(e), None)) == ""
  {
    LiteralExpr(StringValue(value))
  }

  /** A LONG literal holding `value`; a column comparison against it reads `value` back. */
  function CreateLongLiteralExpression(value: Int64): (e: Expression)
    ensures e.LiteralExpr? && e.literal.LongValue? && e.literal.v == value
    ensures forall c, op, row: map<string, int> | c in row ::
              LeafOperands(Filter(op, [], Some(ColumnRef(c, None)), Some(e)), row) == Some((row[c], value))
  {
    LiteralExpr(LongValue(value))
  }

  /** A comparison filter `columnExpression op value`. */
  function CreateFilter(columnExpression: Expression, op: Operator, value: Expression): (f: Filter)
    ensures f.lhs == Some(columnExpression) && f.op == op && f.rhs == Some(value)
    ensures f.children == []
  {
    Filter(op, [], Some(columnExpression), Some(value))
  }

  /** A comparison filter on a named column, whose column name reads back. */
  function CreateColumnFilter(columnName: string, op: Operator, value: Expression): (f: Filter)
    ensures ColumnNameOf(f) == columnName
    ensures f.op == op && f.rhs == Some(value) && f.children == []
    ensures f != DefaultFilter
  {
    CreateFilter(CreateColumnExpression(columnName), op, value)
  }

  function CreateLongFilter(columnName: string, op: Operator, value: Int64): (f: Filter)
    ensures ColumnNameOf(f) == columnName && f.op == op
    ensures f.rhs == Some(LiteralExpr(LongValue(value)))
    ensures f.children == [] && f.lhs == Some(CreateColumnExpression(columnName))
  {
    CreateColumnFilter(columnName, op, CreateLongLiteralExpression(value))
  }

  function CreateStringFilter(columnName: string, op: Operator, value: string): (f: Filter)
    ensures ColumnNameOf(f) == columnName && f.op == op
    ensures f.rhs == Some(LiteralExpr(StringValue(value)))
    ensures f.children == [] && f.lhs == Some(CreateColumnExpression(columnName))
  {
    CreateColumnFilter(columnName, op, CreateStringLiteralExpression(value))
  }

  /** A composite filter: the operator and the child filters in their given order. */
  function CreateCompositeFilter(op: Operator, childFilters: seq<Filter>): (f: Filter)
    ensures f.op == op && f.children == childFilters
    ensures f.lhs.None? && f.rhs.None?
  {
    Filter(op, childFilters, None, None)
  }

  /** `columnName >= lower AND columnName < higher` */
  function CreateBetweenTimesFilter(columnName: string, lower: Int64, higher: Int64): (f: Filter)
    ensures f.op == And && |f.children| == 2
    ensures f.children[0] == CreateLongFilter(columnName, Ge, lower)
    ensures f.children[1] == CreateLongFilter(columnName, Lt, higher)
  {
    CreateCompositeFilter(And, [CreateLongFilter(columnName, Ge, lower), CreateLongFilter(columnName, Lt, higher)])
  }

  // ---------------------------------------------------------------------------
  // Meaning of the filters built here, over a row of long-valued columns.
  // ---------------------------------------------------------------------------

  /**
   * The truth value of a filter on a row: AND/OR of children, and the `>=`/`<`
   * comparison of a column with a long literal. Other shapes have no meaning here.
   */
  function EvalFilter(f: Filter, row: map<string, int>): Option<bool>
    decreases f, 1
  {
    match f.op
    case And => EvalAll(f, 0, row)
    case Or => EvalAny(f, 0, row)
    case Ge =>
      (match LeafOperands(f, row)
       case Some(p) => Some(p.0 >= p.1)
       case None => None)
    case Lt =>
      (match LeafOperands(f, row)
       case Some(p) => Some(p.0 < p.1)
       case None => None)
    case _ => None
  }

  /** The row value of the filter's column and the filter's long literal. */
  function LeafOperands(f: Filter, row: map<string, int>): Option<(int, int)> {
    match (f.lhs, f.rhs)
    case (Some(ColumnRef(c, _)), Some(LiteralExpr(LongValue(v)))) =>
      if c in row then Some((row[c], v)) else None
    case _ => None
  }

  /** Conjunction of the children of `f` from index `i` on. */
  function EvalAll(f: Filter, i: nat, row: map<string, int>): Option<bool>
    requires i <= |f.children|
    decreases f, 0, |f.children| - i
  {
    if i == |f.children| then Some(true)
    else match (EvalFilter(f.children[i], row), EvalAll(f, i + 1, row))
      case (Some(a), Some(b)) => Some(a && b)
      case _ => None
  }

  /** Disjunction of the children of `f` from index `i` on. */
  function EvalAny(f: Filter, i: nat, row: map<string, int>): Option<bool>
    requires i <= |f.children|
    decreases f, 0, |f.children| - i
  {
    if i == |f.children| then Some(false)
    else match (EvalFilter(f.children[i], row), EvalAny(f, i + 1, row))
      case (Some(a), Some(b)) => Some(a || b)
      case _ => None
  }

  /** The between-times filter selects exactly the half-open interval [lower, higher). */
  lemma BetweenTimesFilterSelectsInterval(columnName: string, lower: Int64, higher: Int64, row: map<string, int>)
    requires columnName in row
    ensures EvalFilter(CreateBetweenTimesFilter(columnName, lower, higher), row)
            == Some(lower <= row[columnName] < higher)
  {
    var f := CreateBetweenTimesFilter(columnName, lower, higher);
    assert EvalFilter(f.children[0], row) == Some(row[columnName] >= lower);
    assert EvalFilter(f.children[1], row) == Some(row[columnName] < higher);
    assert EvalAll(f, 2, row) == Some(true);
    assert EvalAll(f, 1, row) == Some(row[columnName] < higher);
    assert EvalAll(f, 0, row) == Some(lower <= row[columnName] && row[columnName] < higher);
  }

  /** A conjunction holds exactly when every child filter holds. */
  lemma {:induction false} EvalAllHolds(f: Filter, i: nat, row: map<string, int>)
    requires i <= |f.children|
    ensures EvalAll(f, i, row) == Some(true) <==>
            forall j :: i <= j < |f.children| ==> EvalFilter(f.children[j], row) == Some(true)
    decreases |f.children| - i
  {
    if i < |f.children| {
      EvalAllHolds(f, i + 1, row);
    }
  }

  /** A disjunction holds exactly when every child has a meaning and one of them holds. */
  lemma {:induction false} EvalAnyHolds(f: Filter, i: nat, row: map<string, int>)
    requires i <= |f.children|
    ensures EvalAny(f, i, row).Some? <==>
            forall j :: i <= j < |f.children| ==> EvalFilter(f.children[j], row).Some?
    ensures EvalAny(f, i, row) == Some(true) <==>
            (forall j :: i <= j < |f.children| ==> EvalFilter(f.children[j], row).Some?)
            && (exists j :: i <= j < |f.children| && EvalFilter(f.children[j], row) == Some(true))
    decreases |f.children| - i
  {
    if i < |f.children| {
      EvalAnyHolds(f, i + 1, row);
    }
  }

  /**
   * A composite AND filter selects a row exactly when all its children do, and
   * a composite OR filter exactly when all children have a meaning and one does.
   */
  lemma CompositeFilterCombinesChildren(op: Operator, childFilters: seq<Filter>, row: map<string, int>)
    requires op == And || op == Or
    ensures op == And ==>
            (EvalFilter(CreateCompositeFilter(op, childFilters), row) == Some(true) <==>
             forall j :: 0 <= j < |childFilters| ==> EvalFilter(childFilters[j], row) == Some(true))
    ensures op == Or ==>
            (EvalFilter(CreateCompositeFilter(op, childFilters), row) == Some(true) <==>
             (forall j :: 0 <= j < |childFilters| ==> EvalFilter(childFilters[j], row).Some?)
             && (exists j :: 0 <= j < |childFilters| && EvalFilter(childFilters[j], row) == Some(true)))
  {
    var f := CreateCompositeFilter(op, childFilters);
    if op == And {
      EvalAllHolds(f, 0, row);
    } else {
      EvalAnyHolds(f, 0, row);
    }
  }

  // ---------------------------------------------------------------------------
  // The dateTimeConvert group-by expression.
  // ---------------------------------------------------------------------------

  datatype PeriodUnit = Seconds | Hours

  datatype Period = Period(size: int, unit: PeriodUnit)

  function UnitName(u: PeriodUnit): string {
    match u
    case Seconds => "SECONDS"
    case Hours => "HOURS"
  }

  /**
   * The bucket size handed to the query service, whose time size must be an
   * `int`: whole seconds while they fit, otherwise whole hours (truncated).
   */
  function PeriodFor(periodSecs: Int64): (p: Period)
    ensures p.unit == Seconds <==> periodSecs <= Int32Max
    ensures p.unit == Seconds ==> p.size == periodSecs
    ensures p.unit == Hours ==> 0 < p.size * 3600 <= periodSecs < p.size * 3600 + 3600
  {
    if periodSecs <= Int32Max then Period(periodSecs, Seconds)
    else Period(TruncDiv(periodSecs, 3600), Hours)
  }

  /** `size + ":SECONDS"` or `size + ":HOURS"`; it reads back as the same period. */
  function FormatPeriod(p: Period): (s: string)
    ensures ParsePeriod(s) == Some(p)
  {
    PeriodRoundTrip(p.size, p.unit);
    IntToString(p.size) + ":" + UnitName(p.unit)
  }

  /** Index of the first occurrence of `c` in `s`. */
  function IndexOf(s: string, c: char): (r: Option<nat>)
    ensures r.Some? ==> r.value < |s| && s[r.value] == c
  {
    if |s| == 0 then None
    else if s[0] == c then Some(0)
    else match IndexOf(s[1..], c)
      case None => None
      case Some(k) => Some(k + 1)
  }

  /** The inverse of `FormatPeriod`: size, colon, unit. */
  function ParsePeriod(s: string): Option<Period> {
    match IndexOf(s, ':')
    case None => None
    case Some(k) =>
      var unit := s[k + 1..];
      match ParseInt(s[..k])
      case None => None
      case Some(n) =>
        if unit == "SECONDS" then Some(Period(n, Seconds))
        else if unit == "HOURS" then Some(Period(n, Hours))
        else None
  }

  lemma {:induction false} IndexOfAfterPrefix(p: string, c: char, rest: string)
    requires forall i :: 0 <= i < |p| ==> p[i] != c
    ensures IndexOf(p + [c] + rest, c) == Some(|p|)
  {
    if |p| > 0 {
      assert (p + [c] + rest)[1..] == p[1..] + [c] + rest;
      IndexOfAfterPrefix(p[1..], c, rest);
    }
  }

  /** A size, a colon and a unit name read back as that period. */
  lemma PeriodRoundTrip(size: int, unit: PeriodUnit)
    ensures ParsePeriod(IntToString(size) + ":" + UnitName(unit)) == Some(Period(size, unit))
  {
    var digits := IntToString(size);
    var s := digits + ":" + UnitName(unit);
    IndexOfAfterPrefix(digits, ':', UnitName(unit));
    assert s[..|digits|] == digits;
    assert s[|digits| + 1..] == UnitName(unit);
    IntToStringRoundTrip(size);
  }

  /**
   * `dateTimeConvert(timeColumn, "1:MILLISECONDS:EPOCH", "1:MILLISECONDS:EPOCH", period)`.
   */
  function CreateTimeColumnGroupByExpression(timeColumn: string, periodSecs: Int64): (e: Expression)
    ensures e.FunctionExpr? && e.functionName == DateTimeConverter
    ensures |e.arguments| == 4
    ensures e.arguments[0] == ColumnRef(timeColumn, None)
    ensures e.arguments[1] == e.arguments[2] == LiteralExpr(StringValue(EpochMillisFormat))
    ensures e.arguments[3].LiteralExpr? && e.arguments[3].literal.StringValue?
    ensures ParsePeriod(e.arguments[3].literal.s) == Some(PeriodFor(periodSecs))
  {
    var period := FormatPeriod(PeriodFor(periodSecs));
    FunctionExpr(DateTimeConverter, [
      CreateColumnExpression(timeColumn),
      CreateStringLiteralExpression(EpochMillisFormat),
      CreateStringLiteralExpression(EpochMillisFormat),
      CreateStringLiteralExpression(period)])
  }
}
