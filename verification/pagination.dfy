/**
 * Pagination arithmetic: the window a limit/offset pair selects, and the
 * rewrite used for the query service, which cannot apply an offset together
 * with group-by and is therefore asked for the first `offset + limit` rows.
 */
module Pagination {
  import opened JavaInts

  function Min(a: int, b: int): int {
    if a <= b then a else b
  }

  /** The rows a `limit`/`offset` pair selects from an ordered result. */
  function Window<T>(rows: seq<T>, limit: nat, offset: nat): (w: seq<T>)
    ensures |w| == if offset >= |rows| then 0 else Min(limit, |rows| - offset)
    ensures forall i :: 0 <= i < |w| ==> w[i] == rows[offset + i]
  {
    if offset >= |rows| then [] else rows[offset..Min(offset + limit, |rows|)]
  }

  /**
   * The limit pushed down to the query service, as the source computes it: for
   * a positive offset, the Java `int` sum `offset + limit`, which wraps around.
   */
  function QsLimitAsWritten(limit: Int32, offset: Int32): (r: Int32)
    ensures offset <= 0 ==> r == limit
    ensures offset > 0 && IsInt32(offset + limit) ==> r == offset + limit
    ensures offset > 0 ==> (r - (offset + limit)) % Int32Modulus == 0
  {
    if offset > 0 then AddInt32(offset, limit) else limit
  }

  /**
   * The limit pushed down to the query service: `offset + limit` for a positive
   * offset, clamped to the largest `int` instead of wrapping.
   */
  function QsLimit(limit: Int32, offset: Int32): (r: Int32)
    ensures offset <= 0 ==> r == limit
    ensures offset > 0 && IsInt32(offset + limit) ==> r == offset + limit
    ensures offset > 0 && offset + limit > Int32Max ==> r == Int32Max
    ensures offset > 0 && limit >= 0 ==> r >= limit && r >= 0
  {
    assert IsInt32(limit) && IsInt32(offset);
    if offset > 0 then SaturatingAddInt32(offset, limit) else limit
  }

  /** The offset pushed down to the query service: 0 once the rewrite applies. */
  function QsOffset(offset: Int32): (r: Int32)
    ensures offset > 0 ==> r == 0
    ensures offset <= 0 ==> r == offset
  {
    if offset > 0 then 0 else offset
  }

  /** The two limits agree whenever the sum does not overflow. */
  lemma QsLimitAgreesWithoutOverflow(limit: Int32, offset: Int32)
    requires IsInt32(offset + limit)
    ensures QsLimitAsWritten(limit, offset) == QsLimit(limit, offset)
  {
  }

  /**
   * Over-fetching from the head and then slicing gives the requested window:
   * the query service returns the first `QsLimit` rows of its ordered result,
   * and `PaginateOnly(limit, offset)` slices those. Result lists hold at most
   * `Int32Max` rows.
   */
  lemma {:induction false} QsRewriteKeepsWindow<T>(rows: seq<T>, limit: Int32, offset: Int32)
    requires limit >= 0 && offset > 0
    requires |rows| <= Int32Max
    ensures Window(Window(rows, QsLimit(limit, offset), QsOffset(offset)), limit, offset) == Window(rows, limit, offset)
  {
    var head := Window(rows, QsLimit(limit, offset), 0);
    var lhs := Window(head, limit, offset);
    var rhs := Window(rows, limit, offset);
    if offset + limit > Int32Max {
      assert QsLimit(limit, offset) == Int32Max;
      assert head == rows;
    } else {
      assert |head| == Min(offset + limit, |rows|);
    }
    assert |lhs| == |rhs|;
    forall i | 0 <= i < |lhs|
      ensures lhs[i] == rhs[i]
    {
      assert lhs[i] == head[offset + i];
    }
  }

  /**
   * The rewrite as written breaks for offsets near 2^31: offset `Int32Max` with
   * limit 1 asks the query service for a negative number of rows.
   */
  lemma QsLimitAsWrittenOverflows()
    ensures QsLimitAsWritten(1, Int32Max) == Int32Min
    ensures QsLimitAsWritten(1, Int32Max) < 0
    ensures QsLimit(1, Int32Max) == Int32Max
  {
  }
}
