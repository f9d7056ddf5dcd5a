/** Counting the elements of a sequence that carry a given key. */
module Counting {
  import opened Wrappers

  function One(b: bool): int { if b then 1 else 0 }

  function Count<T, K(==)>(xs: seq<T>, key: T -> Option<K>, k: K): (n: int)
    ensures n >= 0
  {
    if xs == [] then 0 else Count(xs[..|xs| - 1], key, k) + One(key(xs[|xs| - 1]) == Some(k))
  }

  function Without<T>(xs: seq<T>, i: nat): seq<T>
    requires i < |xs|
  {
    xs[..i] + xs[i + 1..]
  }

  lemma CountOfOne<T, K>(x: T, key: T -> Option<K>, k: K)
    ensures Count([x], key, k) == One(key(x) == Some(k))
  {
    assert [x][..0] == [];
  }

  lemma CountAppend<T, K>(xs: seq<T>, x: T, key: T -> Option<K>, k: K)
    ensures Count(xs + [x], key, k) == Count(xs, key, k) + One(key(x) == Some(k))
  {
    assert (xs + [x])[..|xs|] == xs;
  }

  lemma {:induction false} CountOfSum<T, K>(xs: seq<T>, ys: seq<T>, key: T -> Option<K>, k: K)
    ensures Count(xs + ys, key, k) == Count(xs, key, k) + Count(ys, key, k)
  {
    if ys == [] {
      assert xs + ys == xs;
    } else {
      CountOfSum(xs, ys[..|ys| - 1], key, k);
      assert (xs + ys)[..|xs + ys| - 1] == xs + ys[..|ys| - 1];
    }
  }

  lemma CountWithout<T, K>(xs: seq<T>, i: nat, key: T -> Option<K>, k: K)
    requires i < |xs|
    ensures Count(xs, key, k) == Count(Without(xs, i), key, k) + One(key(xs[i]) == Some(k))
  {
    hide Count;
    assert xs == (xs[..i] + [xs[i]]) + xs[i + 1..];
    CountOfSum(xs[..i] + [xs[i]], xs[i + 1..], key, k);
    CountOfSum(xs[..i], [xs[i]], key, k);
    CountOfSum(xs[..i], xs[i + 1..], key, k);
    CountOfOne(xs[i], key, k);
  }

  lemma {:induction false} CountZero<T, K>(xs: seq<T>, key: T -> Option<K>, k: K)
    ensures (forall i :: 0 <= i < |xs| ==> key(xs[i]) != Some(k)) ==> Count(xs, key, k) == 0
  {
    if xs != [] { CountZero(xs[..|xs| - 1], key, k); }
  }

  lemma {:induction false} CountPositive<T, K>(xs: seq<T>, i: nat, key: T -> Option<K>, k: K)
    requires i < |xs| && key(xs[i]) == Some(k)
    ensures Count(xs, key, k) >= 1
  {
    if i < |xs| - 1 { CountPositive(xs[..|xs| - 1], i, key, k); }
  }
}
