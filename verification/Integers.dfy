/** PostgreSQL's `integer` columns. */
module Integers {
  const INT4_MAX := 0x7FFF_FFFF

  predicate FitsInt4(n: int) {
    -INT4_MAX - 1 <= n <= INT4_MAX
  }
}
