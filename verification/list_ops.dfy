/** `list.filter(x => x.id !== id)`, the delete-by-id reducer shared by the
    users, API-configuration and NAS pages, stated once over any record type
    with an identifying key. */
module ListOps {

  /** The elements of `xs` whose key differs from `k`, in their original order. */
  function Without<T(==), K(==)>(xs: seq<T>, key: T -> K, k: K): (r: seq<T>)
    ensures |r| <= |xs|
    ensures forall i :: 0 <= i < |r| ==> r[i] in xs && key(r[i]) != k
    ensures forall i :: 0 <= i < |xs| && key(xs[i]) != k ==> xs[i] in r
  {
    if |xs| == 0 then []
    else Without(xs[..|xs| - 1], key, k) + (if key(xs[|xs| - 1]) != k then [xs[|xs| - 1]] else [])
  }

  /** Filtering distributes over concatenation, so the survivors keep their
      relative order. */
  lemma {:induction false} WithoutAppend<T, K>(xs: seq<T>, ys: seq<T>, key: T -> K, k: K)
    ensures Without(xs + ys, key, k) == Without(xs, key, k) + Without(ys, key, k)
    decreases |ys|
  {
    if |ys| == 0 {
      assert xs + ys == xs;
    } else {
      var n := |ys| - 1;
      assert (xs + ys)[..|xs + ys| - 1] == xs + ys[..n];
      assert (xs + ys)[|xs + ys| - 1] == ys[n];
      WithoutAppend(xs, ys[..n], key, k);
    }
  }

  /** Removing a key nobody has changes nothing. */
  lemma {:induction false} WithoutAbsent<T, K>(xs: seq<T>, key: T -> K, k: K)
    requires forall i :: 0 <= i < |xs| ==> key(xs[i]) != k
    ensures Without(xs, key, k) == xs
  {
    if |xs| > 0 {
      WithoutAbsent(xs[..|xs| - 1], key, k);
    }
  }

  /** Prepending a record with a fresh key and then deleting that key gives
      the original list back. */
  lemma {:induction false} PrependThenRemove<T, K>(x: T, xs: seq<T>, key: T -> K)
    requires forall i :: 0 <= i < |xs| ==> key(xs[i]) != key(x)
    ensures Without([x] + xs, key, key(x)) == xs
  {
    WithoutAppend([x], xs, key, key(x));
    assert [x][..0] == [];
    WithoutAbsent(xs, key, key(x));
  }
}
