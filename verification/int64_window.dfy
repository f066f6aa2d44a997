/** The window bounds of the pagination bar as the handler computes them: in Go's 64-bit
    `int`, where `cur + w` and `page++` wrap around past the largest value. The rest of
    the model computes with unbounded integers; this module shows that the two agree
    away from the top of the range and where they part near it. */
module Int64Window {
  import opened Pagination
  import PaginationProperties

  const MinInt64: int := -0x8000_0000_0000_0000
  const MaxInt64: int := 0x7FFF_FFFF_FFFF_FFFF

  /** The number of values of a 64-bit integer. */
  const Modulus64: int := 0x1_0000_0000_0000_0000

  predicate IsInt64(x: int) {
    MinInt64 <= x <= MaxInt64
  }

  /** Two's-complement wrap-around: the 64-bit value congruent to `x`. */
  function Wrap64(x: int): (r: int)
    ensures IsInt64(r)
    ensures IsInt64(x) ==> r == x
    ensures (x - r) % Modulus64 == 0
  {
    (x - MinInt64) % Modulus64 + MinInt64
  }

  /** `leftWindowBound` and `rightWindowBound` as the handler computes them. */
  function LeftBound64(cur: int, w: nat): int { Wrap64(cur - w) }
  function RightBound64(cur: int, w: nat): int { Wrap64(cur + w) }

  /** The right-ellipsis test applied to the wrapped bound. */
  predicate RightEllipsis64(cur: int, total: int, w: nat) {
    RightBound64(cur, w) < total - 1
  }

  /** The window loop's `page++`. */
  function NextPage64(page: int): int { Wrap64(page + 1) }

  /** Wherever `cur - w` and `cur + w` fit in 64 bits, the handler's bounds and right
      ellipsis are the unbounded ones the rest of the model uses. */
  lemma BoundsAgree(cur: int, total: int, w: nat)
    requires IsInt64(cur - w) && IsInt64(cur + w)
    ensures LeftBound64(cur, w) == cur - w && RightBound64(cur, w) == cur + w
    ensures RightEllipsis64(cur, total, w) <==> RightEllipsis(cur, total, w)
  {
  }

  /** As written, at current page MaxInt64 - 2 the loop's upper bound is MaxInt64 itself:
      every 64-bit page passes the loop test, and incrementing MaxInt64 gives MinInt64, so
      the window loop never exits. */
  lemma WindowLoopNeverExits()
    ensures RightBound64(MaxInt64 - 2, DefaultWindowSize) == MaxInt64
    ensures IsInt64(LeftBound64(MaxInt64 - 2, DefaultWindowSize))
    ensures forall page :: IsInt64(page) ==>
      page <= RightBound64(MaxInt64 - 2, DefaultWindowSize) && IsInt64(NextPage64(page))
    ensures NextPage64(MaxInt64) == MinInt64
  {
  }

  /** As written, at current page MaxInt64 with 20 pages the right bound wraps to a
      negative number: the loop adds no page, yet the right-ellipsis test passes, so the
      handler's bar is First, an ellipsis, an ellipsis, Last. No page above the current one
      exists, and with unbounded integers no right ellipsis is shown. */
  lemma RightEllipsisAtMaxInt64()
    ensures RightBound64(MaxInt64, DefaultWindowSize) < 0
    ensures LeftBound64(MaxInt64, DefaultWindowSize) > RightBound64(MaxInt64, DefaultWindowSize)
    ensures LeftEllipsis(MaxInt64, DefaultWindowSize)
    ensures RightEllipsis64(MaxInt64, 20, DefaultWindowSize)
    ensures !RightEllipsis(MaxInt64, 20, DefaultWindowSize)
    ensures !exists p :: PaginationProperties.Skipped(MaxInt64, 20, DefaultWindowSize, p) && p > MaxInt64
  {
  }
}
