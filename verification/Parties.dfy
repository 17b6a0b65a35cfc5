/** The unordered pair of parties that agreements and workflows are matched by. */
module Parties {
  predicate SamePair(a: string, b: string, c: string, d: string) {
    (a == c && b == d) || (a == d && b == c)
  }
}
