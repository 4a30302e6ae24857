/** Facts about sequences shared by the scoring and the extractor. */
module Sequences {

  /** No element occurs twice. */
  predicate NoDuplicates<T(==)>(xs: seq<T>) {
    forall x | x in xs :: multiset(xs)[x] <= 1
  }
}
