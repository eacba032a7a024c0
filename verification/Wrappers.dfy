/** Types and facts shared by the models. */
module Wrappers {
  datatype Option<+T> = None | Some(value: T)

  lemma {:induction false} SubsetSize<K>(a: set<K>, b: set<K>)
    requires a <= b
    ensures |a| <= |b|
    decreases |b|
  {
    if a != b {
      var k :| k in b && k !in a;
      SubsetSize(a, b - {k});
    }
  }
}
