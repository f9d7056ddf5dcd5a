/** One field of every element of a sequence. */
module Columns {

  function Column<S, T>(xs: seq<S>, f: S -> T): seq<T> {
    if xs == [] then [] else Column(xs[..|xs| - 1], f) + [f(xs[|xs| - 1])]
  }

  lemma {:induction false} ColumnAt<S, T>(xs: seq<S>, f: S -> T)
    ensures |Column(xs, f)| == |xs|
    ensures forall i :: 0 <= i < |xs| ==> Column(xs, f)[i] == f(xs[i])
  {
    if xs != [] { ColumnAt(xs[..|xs| - 1], f); }
  }

  lemma ColumnOfMore<S, T>(xs: seq<S>, x: S, f: S -> T)
    ensures Column(xs + [x], f) == Column(xs, f) + [f(x)]
  {
    assert (xs + [x])[..|xs|] == xs;
  }

  lemma ColumnOfRest<S, T>(xs: seq<S>, f: S -> T)
    requires xs != []
    ensures Column(xs, f) != [] && Column(xs[1..], f) == Column(xs, f)[1..]
  {
    ColumnAt(xs, f);
    ColumnAt(xs[1..], f);
  }
}
