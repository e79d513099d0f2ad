/**
 * The optional caps of the scrapers (`max_results`, `limit`): Python's
 * truthiness makes `None` and `0` both mean "no cap".
 */
module Limits {
  import opened Wrappers

  /** `limit and count >= limit` */
  predicate Capped(limit: Option<int>, count: int) {
    limit.Some? && limit.value != 0 && count >= limit.value
  }

  /** A cap that counting up can reach: a positive limit. */
  predicate PositiveCap(limit: Option<int>) {
    limit.Some? && limit.value > 0
  }
}
