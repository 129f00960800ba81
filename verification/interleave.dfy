/** Interleaving of fixed-width tuples, the work done by the array-valued
    `setAttribute` convenience before it forwards to the scalar overload.
    A `std::array<T, C>` is a sequence of length `c`; a vector of them is a
    sequence of such sequences. */
module Interleave {

  /** Every tuple in `data` has exactly `c` components. */
  predicate Uniform<T>(data: seq<seq<T>>, c: nat) {
    forall i :: 0 <= i < |data| ==> |data[i]| == c
  }

  /** Tuple 0's components, then tuple 1's, and so on. Defined from the back
      so that it follows the `push_back` accumulation of
      `ShaderProgram::setAttribute<T, C>`. */
  function Flatten<T>(data: seq<seq<T>>, c: nat): (r: seq<T>)
    requires Uniform(data, c)
    ensures |r| == c * |data|
    ensures |data| == 0 ==> r == []
  {
    if |data| == 0 then []
    else
      var n := |data|;
      var front := Flatten(data[..n - 1], c);
      assert c * n == c * (n - 1) + c;
      front + data[n - 1]
  }

  /** Cuts a sequence of `n` tuples' worth of components back into tuples of
      width `c`: the inverse of `Flatten`. */
  function Unflatten<T>(flat: seq<T>, c: nat, n: nat): (r: seq<seq<T>>)
    requires |flat| == c * n
    ensures |r| == n
    ensures Uniform(r, c)
  {
    if n == 0 then []
    else
      assert c * n == c * (n - 1) + c;
      var front := Unflatten(flat[..c * (n - 1)], c, n - 1);
      var r := front + [flat[c * (n - 1)..]];
      r
  }

  /** Flattening a concatenation is the concatenation of the flattenings:
      the tuples keep their order and none is dropped or merged. */
  lemma {:induction false} FlattenAppend<T>(a: seq<seq<T>>, b: seq<seq<T>>, c: nat)
    requires Uniform(a, c) && Uniform(b, c)
    ensures Uniform(a + b, c)
    ensures Flatten(a + b, c) == Flatten(a, c) + Flatten(b, c)
  {
    if |b| == 0 {
      assert a + b == a;
    } else {
      var m := |b|;
      var ab := a + b;
      var bFront := b[..m - 1];
      assert ab[..|ab| - 1] == a + bFront;
      assert ab[|ab| - 1] == b[m - 1];
      FlattenAppend(a, bFront, c);
      calc {
        Flatten(ab, c);
        Flatten(a + bFront, c) + b[m - 1];
        Flatten(a, c) + Flatten(bFront, c) + b[m - 1];
        Flatten(a, c) + Flatten(b, c);
      }
    }
  }

  lemma {:induction false} MulMonotone(i: nat, n: nat, c: nat)
    requires i < n
    ensures i * c + c <= n * c
  {
    assert n * c == (n - 1) * c + c;
    if i < n - 1 {
      MulMonotone(i, n - 1, c);
    }
  }

  /** Where component `j` of tuple `i` sits in the interleaved sequence. */
  function Position(c: nat, i: nat, j: nat): nat {
    i * c + j
  }

  /** Row-major layout: component `j` of tuple `i` lands at `i * c + j`. */
  lemma {:induction false} FlattenIndex<T>(data: seq<seq<T>>, c: nat, i: nat, j: nat)
    requires Uniform(data, c)
    requires i < |data| && j < c
    ensures Position(c, i, j) < |Flatten(data, c)|
    ensures Flatten(data, c)[Position(c, i, j)] == data[i][j]
  {
    var n := |data|;
    var front := data[..n - 1];
    MulMonotone(i, n, c);
    if i < n - 1 {
      FlattenIndex(front, c, i, j);
      assert front[i] == data[i];
    } else {
      assert |Flatten(front, c)| == i * c;
    }
  }

  /** `FlattenIndex` for every tuple and component at once. */
  lemma FlattenIndexAll<T>(data: seq<seq<T>>, c: nat)
    requires Uniform(data, c)
    ensures forall i, j :: 0 <= i < |data| && 0 <= j < c ==>
      Position(c, i, j) < |Flatten(data, c)| && Flatten(data, c)[Position(c, i, j)] == data[i][j]
  {
    forall i, j | 0 <= i < |data| && 0 <= j < c
      ensures Position(c, i, j) < |Flatten(data, c)| && Flatten(data, c)[Position(c, i, j)] == data[i][j]
    {
      FlattenIndex(data, c, i, j);
    }
  }

  /** With width one, flattening projects each tuple onto its only component. */
  lemma {:induction false} FlattenWidthOne<T>(data: seq<seq<T>>)
    requires Uniform(data, 1)
    ensures Flatten(data, 1) == seq(|data|, i requires 0 <= i < |data| => data[i][0])
  {
    var p := seq(|data|, i requires 0 <= i < |data| => data[i][0]);
    forall k | 0 <= k < |data|
      ensures Flatten(data, 1)[k] == p[k]
    {
      FlattenIndex(data, 1, k, 0);
    }
  }

  /** Flattening loses nothing: the tuples are recovered exactly. */
  lemma {:induction false} UnflattenFlatten<T>(data: seq<seq<T>>, c: nat)
    requires Uniform(data, c)
    ensures Unflatten(Flatten(data, c), c, |data|) == data
  {
    var n := |data|;
    if n > 0 {
      var front := data[..n - 1];
      var flat := Flatten(data, c);
      assert flat == Flatten(front, c) + data[n - 1];
      assert flat[..c * (n - 1)] == Flatten(front, c);
      assert flat[c * (n - 1)..] == data[n - 1];
      UnflattenFlatten(front, c);
      assert data == front + [data[n - 1]];
    }
  }

  /** Every sequence of `c * n` components is the flattening of some `n`
      tuples of width `c`, namely its unflattening. */
  lemma {:induction false} FlattenUnflatten<T>(flat: seq<T>, c: nat, n: nat)
    requires |flat| == c * n
    ensures Flatten(Unflatten(flat, c, n), c) == flat
  {
    if n > 0 {
      var k := c * (n - 1);
      assert |flat| == k + c by {
        assert c * n == c * (n - 1) + c;
      }
      var front := Unflatten(flat[..k], c, n - 1);
      var r := Unflatten(flat, c, n);
      assert r == front + [flat[k..]];
      assert r[..n - 1] == front;
      assert r[n - 1] == flat[k..];
      calc {
        Flatten(r, c);
        Flatten(front, c) + flat[k..];
        { FlattenUnflatten(flat[..k], c, n - 1); }
        flat[..k] + flat[k..];
        flat;
      }
    }
  }

  /** The nested loop of `ShaderProgram::setAttribute<T, C>`: for each tuple
      in order, append its `c` components one at a time. */
  method InterleaveTuples<T>(data: seq<seq<T>>, c: nat) returns (entryData: seq<T>)
    requires Uniform(data, c)
    ensures entryData == Flatten(data, c)
    ensures |entryData| == c * |data|
  {
    entryData := [];
    var k := 0;
    while k < |data|
      invariant 0 <= k <= |data|
      invariant Uniform(data[..k], c)
      invariant entryData == Flatten(data[..k], c)
    {
      var x := data[k];
      var i := 0;
      while i < c
        invariant 0 <= i <= c
        invariant entryData == Flatten(data[..k], c) + x[..i]
      {
        entryData := entryData + [x[i]];
        i := i + 1;
      }
      assert x[..c] == x;
      assert data[..k + 1][..k] == data[..k];
      k := k + 1;
    }
    assert data[..|data|] == data;
  }
}
