/** A stable descending sort, as Python's and JavaScript's library sorts perform it. */
module Sorting {

  /** `x` goes behind every element that is at least as high. */
  function Insert<T>(x: T, xs: seq<T>, higher: (T, T) -> bool): seq<T> {
    if xs == [] then [x]
    else if higher(x, xs[0]) then [x] + xs
    else [xs[0]] + Insert(x, xs[1..], higher)
  }

  /** Sort from the highest down; `higher` is the strict order, elements that tie keep their order. */
  function SortDown<T>(xs: seq<T>, higher: (T, T) -> bool): seq<T> {
    if xs == [] then [] else Insert(xs[|xs| - 1], SortDown(xs[..|xs| - 1], higher), higher)
  }

  /** A strict weak order: comparison of keys of some kind. */
  ghost predicate KeyOrder<T(!new)>(higher: (T, T) -> bool) {
    && (forall x :: !higher(x, x))
    && (forall x, y :: higher(x, y) ==> !higher(y, x))
    && (forall x, y, z :: !higher(x, y) && !higher(y, z) ==> !higher(x, z))
  }

  ghost predicate Descending<T(!new)>(xs: seq<T>, higher: (T, T) -> bool) {
    forall i, j | 0 <= i < j < |xs| :: !higher(xs[j], xs[i])
  }

  lemma {:induction false} InsertKeeps<T(!new)>(x: T, xs: seq<T>, higher: (T, T) -> bool)
    ensures multiset(Insert(x, xs, higher)) == multiset(xs) + multiset{x}
  {
    if xs != [] && !higher(x, xs[0]) {
      InsertKeeps(x, xs[1..], higher);
      assert xs == [xs[0]] + xs[1..];
    }
  }

  lemma {:induction false} InsertDescending<T(!new)>(x: T, xs: seq<T>, higher: (T, T) -> bool)
    requires KeyOrder(higher) && Descending(xs, higher)
    ensures Descending(Insert(x, xs, higher), higher)
  {
    if xs != [] {
      if higher(x, xs[0]) {
        var r := [x] + xs;
        forall i, j | 0 <= i < j < |r| ensures !higher(r[j], r[i]) {
          if i == 0 {
            assert !higher(xs[j - 1], xs[0]) && !higher(xs[0], x);
          }
        }
      } else {
        InsertDescending(x, xs[1..], higher);
        InsertKeeps(x, xs[1..], higher);
        var rest := Insert(x, xs[1..], higher);
        forall j | 0 <= j < |rest| ensures !higher(rest[j], xs[0]) {
          assert rest[j] in multiset(rest);
          assert rest[j] in xs[1..] || rest[j] == x;
        }
      }
    }
  }

  lemma {:induction false} Sorted<T(!new)>(xs: seq<T>, higher: (T, T) -> bool)
    requires KeyOrder(higher)
    ensures Descending(SortDown(xs, higher), higher)
    ensures multiset(SortDown(xs, higher)) == multiset(xs)
  {
    if xs != [] {
      var init, last := xs[..|xs| - 1], xs[|xs| - 1];
      Sorted(init, higher);
      InsertDescending(last, SortDown(init, higher), higher);
      InsertKeeps(last, SortDown(init, higher), higher);
      assert xs == init + [last];
    }
  }

  lemma SortedLength<T(!new)>(xs: seq<T>, higher: (T, T) -> bool)
    requires KeyOrder(higher)
    ensures |SortDown(xs, higher)| == |xs|
  {
    Sorted(xs, higher);
    assert |multiset(SortDown(xs, higher))| == |multiset(xs)|;
  }

  // ---- When the result is the only one ------------------------------------------------------

  /** No two different elements tie. */
  ghost predicate NoTies<T(!new)>(xs: seq<T>, higher: (T, T) -> bool) {
    forall x, y :: x in xs && y in xs && x != y ==> higher(x, y) || higher(y, x)
  }

  lemma SameHead<T(!new)>(a: seq<T>, b: seq<T>, higher: (T, T) -> bool)
    requires a != [] && b != [] && multiset(a) == multiset(b)
    requires Descending(a, higher) && Descending(b, higher) && NoTies(a, higher)
    ensures a[0] == b[0]
  {
    assert a[0] in multiset(a) && b[0] in multiset(b);
    var i :| 0 <= i < |a| && a[i] == b[0];
    var j :| 0 <= j < |b| && b[j] == a[0];
  }

  lemma TailDescending<T(!new)>(xs: seq<T>, higher: (T, T) -> bool)
    requires xs != []
    ensures Descending(xs, higher) ==> Descending(xs[1..], higher)
    ensures NoTies(xs, higher) ==> NoTies(xs[1..], higher)
  {
  }

  lemma {:induction false} DescendingUnique<T(!new)>(a: seq<T>, b: seq<T>, higher: (T, T) -> bool)
    requires multiset(a) == multiset(b) && Descending(a, higher) && Descending(b, higher) && NoTies(a, higher)
    ensures a == b
  {
    assert |multiset(a)| == |a| && |multiset(b)| == |b|;
    if a != [] {
      SameHead(a, b, higher);
      assert a == [a[0]] + a[1..] && b == [b[0]] + b[1..];
      assert multiset(a[1..]) == multiset(a) - multiset{a[0]} == multiset(b[1..]);
      hide Descending, NoTies;
      TailDescending(a, higher);
      TailDescending(b, higher);
      DescendingUnique(a[1..], b[1..], higher);
    }
  }

  /** Without ties the sorted sequence depends only on what there is to sort. */
  lemma SortCanonical<T(!new)>(xs: seq<T>, ys: seq<T>, higher: (T, T) -> bool)
    requires KeyOrder(higher) && multiset(xs) == multiset(ys) && NoTies(xs, higher)
    ensures SortDown(xs, higher) == SortDown(ys, higher)
  {
    hide SortDown;
    Sorted(xs, higher);
    Sorted(ys, higher);
    var s := SortDown(xs, higher);
    assert forall x :: x in s <==> x in multiset(s);
    assert forall x :: x in xs <==> x in multiset(xs);
    DescendingUnique(s, SortDown(ys, higher), higher);
  }

  function IfTied<T>(y: T, x: T, higher: (T, T) -> bool): seq<T> {
    if !higher(y, x) && !higher(x, y) then [y] else []
  }

  /** The elements that tie with `x`, in order. */
  function Ties<T>(xs: seq<T>, x: T, higher: (T, T) -> bool): seq<T> {
    if xs == [] then [] else IfTied(xs[0], x, higher) + Ties(xs[1..], x, higher)
  }

  lemma {:induction false} TiesAppend<T(!new)>(xs: seq<T>, y: T, x: T, higher: (T, T) -> bool)
    ensures Ties(xs + [y], x, higher) == Ties(xs, x, higher) + IfTied(y, x, higher)
  {
    hide IfTied;
    if xs == [] {
      assert xs + [y] == [y];
    } else {
      assert (xs + [y])[1..] == xs[1..] + [y];
      TiesAppend(xs[1..], y, x, higher);
    }
  }

  lemma TiesCons<T(!new)>(y: T, xs: seq<T>, x: T, higher: (T, T) -> bool)
    ensures Ties([y] + xs, x, higher) == IfTied(y, x, higher) + Ties(xs, x, higher)
  {
    assert ([y] + xs)[1..] == xs;
  }

  lemma {:induction false} InsertStable<T(!new)>(y: T, xs: seq<T>, x: T, higher: (T, T) -> bool)
    requires KeyOrder(higher) && Descending(xs, higher)
    ensures Ties(Insert(y, xs, higher), x, higher) == Ties(xs, x, higher) + IfTied(y, x, higher)
  {
    hide KeyOrder, Descending, IfTied;
    if xs == [] {
      assert Insert(y, xs, higher) == [y] + xs;
      TiesCons(y, xs, x, higher);
    } else if higher(y, xs[0]) {
      TiesCons(y, xs, x, higher);
      NotTied(xs, y, x, higher);
    } else {
      TailDescending(xs, higher);
      InsertStable(y, xs[1..], x, higher);
      TiesCons(xs[0], Insert(y, xs[1..], higher), x, higher);
    }
  }

  lemma NotTied<T(!new)>(xs: seq<T>, y: T, x: T, higher: (T, T) -> bool)
    requires KeyOrder(higher) && Descending(xs, higher) && xs != [] && higher(y, xs[0])
    ensures IfTied(y, x, higher) == [] || Ties(xs, x, higher) == []
  {
    if IfTied(y, x, higher) != [] {
      NoneTies(xs, y, x, higher);
    }
  }

  lemma {:induction false} NoneTies<T(!new)>(xs: seq<T>, y: T, x: T, higher: (T, T) -> bool)
    requires KeyOrder(higher) && Descending(xs, higher) && (xs != [] ==> higher(y, xs[0]))
    requires !higher(y, x) && !higher(x, y)
    ensures Ties(xs, x, higher) == []
  {
    if xs != [] {
      assert higher(x, xs[0]);
      if |xs| > 1 {
        assert !higher(xs[1], xs[0]);
        assert higher(y, xs[1]);
      }
      NoneTies(xs[1..], y, x, higher);
    }
  }

  /** The sort is stable: elements that tie keep their order. */
  lemma {:induction false} SortStable<T(!new)>(xs: seq<T>, x: T, higher: (T, T) -> bool)
    requires KeyOrder(higher)
    ensures Ties(SortDown(xs, higher), x, higher) == Ties(xs, x, higher)
  {
    if xs != [] {
      var init, last := xs[..|xs| - 1], xs[|xs| - 1];
      SortStable(init, x, higher);
      Sorted(init, higher);
      InsertStable(last, SortDown(init, higher), x, higher);
      TiesAppend(init, last, x, higher);
      assert xs == init + [last];
    }
  }
}
