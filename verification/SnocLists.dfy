/** Lists that grow at their end, the order in which logs, runs and proofs are written. */
module SnocLists {
  datatype List<T> = End | More(front: List<T>, last: T)

  function Count<T>(l: List<T>): nat {
    match l
    case End => 0
    case More(front, _) => Count(front) + 1
  }

  ghost predicate Contains<T(!new)>(l: List<T>, x: T) {
    l.More? && (l.last == x || Contains(l.front, x))
  }

  /** whole starts with l. */
  ghost predicate Begins<T(!new)>(l: List<T>, whole: List<T>) {
    whole == l || (whole.More? && Begins(l, whole.front))
  }

  lemma {:induction false} BeginsTransitive<T(!new)>(a: List<T>, b: List<T>, c: List<T>)
    requires Begins(a, b) && Begins(b, c)
    ensures Begins(a, c)
  {
    if c != b {
      BeginsTransitive(a, b, c.front);
    }
  }
}
