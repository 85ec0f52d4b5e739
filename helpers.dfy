/** `unzip` and `Array.scan` (Sources/SwiftHBV/helpers/helpers.swift), and
    Swift's truncating `zip`, which they are used with. */
module Helpers {

  /** Swift's `zip`: pairs elements up to the shorter length. */
  function Zip<K, V>(keys: seq<K>, values: seq<V>): (r: seq<(K, V)>)
    ensures |r| == if |keys| <= |values| then |keys| else |values|
    ensures forall i :: 0 <= i < |r| ==> r[i] == (keys[i], values[i])
  {
    var n := if |keys| <= |values| then |keys| else |values|;
    seq(n, i requires 0 <= i < n => (keys[i], values[i]))
  }

  /** The pair of sequences `unzip` returns. */
  function Unzipped<K, V>(pairs: seq<(K, V)>): (r: (seq<K>, seq<V>))
    ensures |r.0| == |pairs| && |r.1| == |pairs|
    ensures forall i :: 0 <= i < |pairs| ==> r.0[i] == pairs[i].0 && r.1[i] == pairs[i].1
  {
    (seq(|pairs|, i requires 0 <= i < |pairs| => pairs[i].0),
     seq(|pairs|, i requires 0 <= i < |pairs| => pairs[i].1))
  }

  /** `unzip`: appends each key and value in turn. */
  method Unzip<K, V>(pairs: seq<(K, V)>) returns (keys: seq<K>, values: seq<V>)
    ensures |keys| == |pairs| && |values| == |pairs|
    ensures forall i :: 0 <= i < |pairs| ==> keys[i] == pairs[i].0 && values[i] == pairs[i].1
    ensures (keys, values) == Unzipped(pairs)
  {
    keys, values := [], [];
    var n := 0;
    while n < |pairs|
      invariant 0 <= n <= |pairs|
      invariant |keys| == n && |values| == n
      invariant forall i :: 0 <= i < n ==> keys[i] == pairs[i].0 && values[i] == pairs[i].1
    {
      keys := keys + [pairs[n].0];
      values := values + [pairs[n].1];
      n := n + 1;
    }
    assert keys == Unzipped(pairs).0;
    assert values == Unzipped(pairs).1;
  }

  /** Unzipping a zip of equal-length sequences gives them back. */
  lemma UnzipZip<K, V>(keys: seq<K>, values: seq<V>)
    requires |keys| == |values|
    ensures Unzipped(Zip(keys, values)) == (keys, values)
  {
    var r := Unzipped(Zip(keys, values));
    assert r.0 == keys;
    assert r.1 == values;
  }

  /** Zipping the two halves of an unzip gives the pairs back. */
  lemma ZipUnzip<K, V>(pairs: seq<(K, V)>)
    ensures Zip(Unzipped(pairs).0, Unzipped(pairs).1) == pairs
  {
  }

  /** `Array.scan(initial:_:)`: a reduce that starts from `[initial]` and
      appends `f(last, next)` for every element. */
  function Scan<A, T>(a: seq<A>, initial: T, f: (T, A) -> T): (r: seq<T>)
    ensures |r| == |a| + 1
    ensures r[0] == initial
    ensures forall i :: 0 <= i < |a| ==> r[i + 1] == f(r[i], a[i])
  {
    if |a| == 0 then [initial]
    else
      var soFar := Scan(a[..|a| - 1], initial, f);
      soFar + [f(soFar[|soFar| - 1], a[|a| - 1])]
  }
}
