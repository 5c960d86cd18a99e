// Values and list operations shared by the other modules.
module Lists {

  datatype Option<+T> = None | Some(value: T)

  /** LREM key 1 x: drop the occurrence of `x` that is nearest the head. */
  function RemoveFirst<T(==)>(xs: seq<T>, x: T): seq<T> {
    if xs == [] then []
    else if xs[0] == x then xs[1..]
    else [xs[0]] + RemoveFirst(xs[1..], x)
  }

  lemma {:induction false} RemoveFirstCounts<T>(xs: seq<T>, x: T)
    ensures multiset(RemoveFirst(xs, x)) == multiset(xs) - multiset{x}
  {
    if xs != [] {
      assert xs == [xs[0]] + xs[1..];
      if xs[0] != x {
        RemoveFirstCounts(xs[1..], x);
      }
    }
  }

  lemma RemoveFirstMultiset<T>(xs: seq<T>, x: T)
    ensures multiset(RemoveFirst(xs, x)) == multiset(xs) - multiset{x}
    ensures forall y :: y in RemoveFirst(xs, x) ==> y in xs
    ensures forall y :: y in xs && y != x ==> y in RemoveFirst(xs, x)
  {
    RemoveFirstCounts(xs, x);
    var rest := RemoveFirst(xs, x);
    assert forall y :: y in rest <==> y in multiset(rest);
    assert forall y :: y in xs <==> y in multiset(xs);
  }

  function Reverse<T>(xs: seq<T>): seq<T> {
    if xs == [] then [] else Reverse(xs[1..]) + [xs[0]]
  }

  lemma {:induction false} ReverseSnoc<T>(xs: seq<T>, x: T)
    ensures Reverse(xs + [x]) == [x] + Reverse(xs)
  {
    if xs == [] {
      assert xs + [x] == [x];
    } else {
      assert (xs + [x])[1..] == xs[1..] + [x];
      ReverseSnoc(xs[1..], x);
    }
  }
}
