/**
 * The part of NumPy the acquisition code relies on: an n-dimensional array of
 * reals, stored as its shape and its elements in row-major (C) order, with
 * `arange` and `mean(axis=0)`.
 */
module NdArrays {
  import opened Outcomes

  /** Number of elements of an array of the given shape (1 for a scalar). */
  function Size(shape: seq<nat>): nat
  {
    if shape == [] then 1 else shape[0] * Size(shape[1..])
  }

  lemma SizeOfMatrix(shape: seq<nat>)
    requires |shape| == 2
    ensures Size(shape) == shape[0] * shape[1]
  {
    assert shape[1..][1..] == [];
    assert Size(shape[1..]) == shape[1] * Size([]);
  }

  /** Slice `i` of `n` slices of `s` elements each ends inside the whole. */
  lemma SliceBounds(n: nat, s: nat, i: nat)
    requires i < n
    ensures i * s + s == (i + 1) * s <= n * s
  {
  }

  /** An array as NumPy holds it: a shape and its elements in row-major order. */
  datatype Array = Array(shape: seq<nat>, items: seq<real>)
  {
    /** A NumPy array always holds exactly as many elements as its shape describes. */
    predicate Valid()
    {
      |items| == Size(shape)
    }

    /** `ndim` */
    function Rank(): nat
    {
      |shape|
    }

    /** `a[i]`: the `i`-th sub-array along the first axis. */
    function Sub(i: nat): (r: Array)
      requires Valid() && Rank() >= 1 && i < shape[0]
      ensures r.Valid() && r.shape == shape[1..]
    {
      var s := Size(shape[1..]);
      SliceBounds(shape[0], s, i);
      Array(shape[1..], items[i * s .. (i + 1) * s])
    }

    /** `a[i, j]` of a two-dimensional array, by row-major offset. */
    function At(i: nat, j: nat): real
      requires Valid() && Rank() == 2
      requires i < shape[0] && j < shape[1]
    {
      SizeOfMatrix(shape);
      SliceBounds(shape[0], shape[1], i);
      items[i * shape[1] + j]
    }
  }

  /** `np.arange(n)`: the integers 0, 1, ..., n - 1 in order. */
  function Arange(n: nat): (r: seq<int>)
    ensures |r| == n
    ensures forall i :: 0 <= i < n ==> r[i] == i
  {
    if n == 0 then [] else Arange(n - 1) + [n - 1]
  }

  function Sum(xs: seq<real>): real
  {
    if xs == [] then 0.0 else xs[0] + Sum(xs[1..])
  }

  /** Element `k` of each sub-array `a[0]`, ..., `a[n-1]`: the values `mean(axis=0)` averages into element `k`. */
  function Column(a: Array, k: nat): (c: seq<real>)
    requires a.Valid() && a.Rank() >= 1 && k < Size(a.shape[1..])
    ensures |c| == a.shape[0]
  {
    seq(a.shape[0], i requires 0 <= i < a.shape[0] => a.Sub(i).items[k])
  }

  /**
   * `np.mean(a, axis=0)`: the elementwise mean of the sub-arrays `a[0]`, ...,
   * `a[n-1]`. A scalar has no axis 0. Over an empty first axis NumPy returns
   * NaN elements, which reals cannot hold; the model reports EmptySlice.
   */
  function MeanAxis0(a: Array): (r: Result<Array>)
    requires a.Valid()
    ensures r.Success? <==> a.Rank() >= 1 && a.shape[0] > 0
    ensures a.Rank() == 0 ==> r == Failure(AxisError)
    ensures a.Rank() >= 1 && a.shape[0] == 0 ==> r == Failure(EmptySlice)
    ensures r.Success? ==> r.value.Valid() && r.value.shape == a.shape[1..]
  {
    if a.Rank() == 0 then Failure(AxisError)
    else if a.shape[0] == 0 then Failure(EmptySlice)
    else
      var n, s := a.shape[0], Size(a.shape[1..]);
      Success(Array(a.shape[1..], seq(s, k requires 0 <= k < s => Sum(Column(a, k)) / n as real)))
  }

  lemma {:induction false} SumOfConstant(xs: seq<real>, v: real)
    requires forall i | 0 <= i < |xs| :: xs[i] == v
    ensures Sum(xs) == |xs| as real * v
  {
    if xs != [] {
      SumOfConstant(xs[1..], v);
    }
  }

  lemma {:induction false} SumBounds(xs: seq<real>, lo: real, hi: real)
    requires forall i | 0 <= i < |xs| :: lo <= xs[i] <= hi
    ensures |xs| as real * lo <= Sum(xs) <= |xs| as real * hi
  {
    if xs != [] {
      SumBounds(xs[1..], lo, hi);
    }
  }

  /** Averaging identical sub-arrays gives back that sub-array. */
  lemma MeanOfIdenticalSlices(a: Array)
    requires a.Valid() && a.Rank() >= 1 && a.shape[0] > 0
    requires forall i | 0 <= i < a.shape[0] :: a.Sub(i) == a.Sub(0)
    ensures MeanAxis0(a) == Success(a.Sub(0))
  {
    var s := Size(a.shape[1..]);
    var mean := MeanAxis0(a).value;
    forall k | 0 <= k < s
      ensures mean.items[k] == a.Sub(0).items[k]
    {
      var v := a.Sub(0).items[k];
      SumOfConstant(Column(a, k), v);
      DivideOut(Sum(Column(a, k)), a.shape[0] as real, v);
    }
    assert mean.items == a.Sub(0).items;
  }

  /** Every element of the mean lies between the least and the greatest of the elements it averages. */
  lemma MeanWithinBounds(a: Array, k: nat, lo: real, hi: real)
    requires a.Valid() && a.Rank() >= 1 && a.shape[0] > 0
    requires k < Size(a.shape[1..])
    requires forall i | 0 <= i < a.shape[0] :: lo <= a.Sub(i).items[k] <= hi
    ensures lo <= MeanAxis0(a).value.items[k] <= hi
  {
    var column := Column(a, k);
    SumBounds(column, lo, hi);
    DivideBounds(Sum(column), |column| as real, lo, hi);
  }

  lemma DivideOut(sum: real, n: real, v: real)
    requires n > 0.0 && sum == n * v
    ensures sum / n == v
  {
  }

  lemma DivideBounds(sum: real, n: real, lo: real, hi: real)
    requires n > 0.0 && n * lo <= sum <= n * hi
    ensures lo <= sum / n <= hi
  {
  }
}
