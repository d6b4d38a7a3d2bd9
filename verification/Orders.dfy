/** Insertion orders of maps, as sequences. */
module Orders {
  function Without<T(==)>(order: seq<T>, k: T): seq<T> {
    if order == [] then [] else if order[0] == k then Without(order[1..], k) else [order[0]] + Without(order[1..], k)
  }

  lemma {:induction false} WithoutMembers<T>(order: seq<T>, k: T)
    ensures forall x :: x in Without(order, k) <==> x in order && x != k
  {
    if order != [] {
      WithoutMembers(order[1..], k);
    }
  }
}
