/** backend/storage/paths.py: the metadata of a saved path matrix and the
    sub-selection of stored Monte-Carlo paths.  The GridFS read and write and
    the NPZ encoding are outside the model: the stored matrix (or its absence)
    is a parameter. */
module Paths {
  import opened Base
  import opened Floats
  import opened PyValue
  import opened Query

  /** A (paths x steps+1) matrix: `rows` of exactly `cols` entries each. */
  datatype Matrix = Matrix(rows: seq<seq<Num>>, cols: nat)

  predicate WellFormed(m: Matrix)
  {
    forall i :: 0 <= i < |m.rows| ==> |m.rows[i]| == m.cols
  }

  /** save_paths_npz_meta: the stored file's id with the row and column counts. */
  function SavePathsMeta(fileId: string, m: Matrix): (meta: Value)
    ensures meta.DictV? && |meta.entries| == 3
    ensures Lookup(meta.entries, KStr("gridfs_id")) == Some(StrV(fileId))
    ensures Lookup(meta.entries, KStr("n_total")) == Some(IntV(|m.rows|))
    ensures Lookup(meta.entries, KStr("steps_total")) == Some(IntV(m.cols))
  {
    var meta := Dict([("gridfs_id", StrV(fileId)), ("n_total", IntV(|m.rows|)), ("steps_total", IntV(m.cols))]);
    assert meta.entries == [(KStr("gridfs_id"), StrV(fileId)), (KStr("n_total"), IntV(|m.rows|)),
                            (KStr("steps_total"), IntV(m.cols))];
    assert meta.entries[1..] == [(KStr("n_total"), IntV(|m.rows|)), (KStr("steps_total"), IntV(m.cols))];
    assert meta.entries[1..][1..] == [(KStr("steps_total"), IntV(m.cols))];
    assert Lookup(meta.entries[1..][1..], KStr("steps_total")) == Some(IntV(m.cols));
    assert Lookup(meta.entries[1..], KStr("steps_total")) == Some(IntV(m.cols));
    meta
  }

  function Max1(x: int): (r: nat)
    ensures r >= 1 && r >= x
    ensures x >= 1 ==> r == x
  {
    if x < 1 then 1 else x
  }

  /** Number of rows `P[::s]` keeps: ceil(n / s). */
  function StrideCount(n: nat, s: nat): nat
    requires s >= 1
  {
    (n + s - 1) / s
  }

  /** `P[::s]`: rows 0, s, 2s, ... */
  function StrideRows<T>(rows: seq<T>, s: nat): (r: seq<T>)
    requires s >= 1
    ensures |r| == StrideCount(|rows|, s)
    ensures forall i :: 0 <= i < |r| ==> i * s < |rows| && r[i] == rows[i * s]
  {
    var n := StrideCount(|rows|, s);
    assert forall i :: 0 <= i < n ==> i * s < |rows| by {
      forall i | 0 <= i < n ensures i * s < |rows| {
        StrideBound(|rows|, s, i);
      }
    }
    seq(n, i requires 0 <= i < n => rows[i * s])
  }

  lemma StrideBound(len: nat, s: nat, i: nat)
    requires s >= 1 && i < StrideCount(len, s)
    ensures i * s < len
  {
    var n := StrideCount(len, s);
    assert n * s <= len + s - 1;
    assert i * s <= (n - 1) * s by {
      MulMono(i, n - 1, s);
    }
  }

  /** Every stored row index that is a multiple of `s` is kept by `P[::s]`: nothing is
      skipped that should not be. */
  lemma {:induction false} StrideKeepsMultiples<T>(rows: seq<T>, s: nat, k: nat)
    requires s >= 1 && k * s < |rows|
    ensures k < |StrideRows(rows, s)| && StrideRows(rows, s)[k] == rows[k * s]
  {
    var n := |rows|;
    assert (k + 1) * s == k * s + s;
    DivLowerBound(n + s - 1, s, k + 1);
  }

  /** StrideCount(n, s) is the number of multiples of s below n, i.e. ceil(n / s). */
  lemma StrideCountIsCeiling(n: nat, s: nat, k: nat)
    requires s >= 1
    ensures k < StrideCount(n, s) <==> k * s < n
  {
    if k < StrideCount(n, s) {
      StrideBound(n, s, k);
    }
    if k * s < n {
      assert (k + 1) * s == k * s + s;
      DivLowerBound(n + s - 1, s, k + 1);
    }
  }

  lemma MulMono(y: nat, x: nat, s: nat)
    requires y <= x
    ensures y * s <= x * s
  {
    var e := x - y;
    assert x * s == y * s + e * s;
  }

  lemma DivLowerBound(a: nat, s: nat, q: nat)
    requires s >= 1 && q * s <= a
    ensures q <= a / s
  {
    var d := a / s;
    assert a == d * s + a % s;
    assert (d + 1) * s == d * s + s;
    if d + 1 <= q {
      MulMono(d + 1, q, s);
      assert false;
    }
  }

  /** `np.linspace(0, 1.0, cols)`. */
  function Linspace(cols: nat): (t: seq<real>)
    ensures |t| == cols
    ensures cols >= 1 ==> t[0] == 0.0
    ensures cols >= 2 ==> t[cols - 1] == 1.0
    ensures forall i, j :: 0 <= i < j < cols ==> t[i] < t[j]
    ensures cols >= 2 ==> forall i :: 0 <= i < cols - 1 ==> t[i + 1] - t[i] == 1.0 / (cols - 1) as real
  {
    if cols <= 1 then seq(cols, i => 0.0)
    else
      var d := (cols - 1) as real;
      var t := seq(cols, i requires 0 <= i < cols => i as real / d);
      forall i | 0 <= i < cols - 1 ensures t[i + 1] - t[i] == 1.0 / d {
        DivStep(i as real, d);
      }
      assert forall i, j :: 0 <= i < j < cols ==> t[i] < t[j] by {
        forall i, j | 0 <= i < j < cols ensures t[i] < t[j] {
          DivMonotone(i as real, j as real, d);
        }
      }
      assert t[cols - 1] == d / d;
      assert d / d == 1.0;
      t
  }

  lemma DivStep(x: real, d: real)
    requires d > 0.0
    ensures (x + 1.0) / d - x / d == 1.0 / d
  {
  }

  lemma DivMonotone(x: real, y: real, d: real)
    requires x < y && d > 0.0
    ensures x / d < y / d
  {
    assert y / d - x / d == (y - x) / d;
  }

  /** What load_paths_subset returns for a stored matrix. */
  datatype Subset = Subset(t: seq<real>, series: seq<seq<Num>>, nTotal: int, stepsTotal: int)

  /** load_paths_subset: None without a stored file; otherwise every max(1, stride)-th
      row, at most max(1, limit) of them, each row whole, with a 0..1 time axis.
      `n_total` counts the rows returned, not the rows stored. */
  function LoadPathsSubset(stored: Option<Matrix>, limit: int, stride: int): (r: Option<Subset>)
    requires stored.Some? ==> WellFormed(stored.value)
    ensures r.None? <==> stored.None?
    ensures r.Some? ==>
              var m := stored.value;
              var s := Max1(stride);
              var sub := r.value;
              |sub.series| == Min(Max1(limit), StrideCount(|m.rows|, s))
              && (forall i :: 0 <= i < |sub.series| ==> i * s < |m.rows| && sub.series[i] == m.rows[i * s])
              && |sub.t| == m.cols
              && (forall i :: 0 <= i < |sub.series| ==> |sub.series[i]| == |sub.t|)
              && sub.nTotal == |sub.series|
              && sub.stepsTotal == m.cols
  {
    match stored
    case None => None
    case Some(m) =>
      var s := Max1(stride);
      var k := Min(Max1(limit), StrideCount(|m.rows|, s));
      StridePrefix(m, s, k);
      var q := StrideRows(m.rows, s)[..k];
      Some(Subset(Linspace(m.cols), q, |q|, m.cols))
  }

  /** The first k strided rows are stored rows i*s, each of the stored width. */
  lemma StridePrefix(m: Matrix, s: nat, k: nat)
    requires WellFormed(m) && s >= 1 && k <= StrideCount(|m.rows|, s)
    ensures var q := StrideRows(m.rows, s)[..k];
            |q| == k
            && forall i :: 0 <= i < k ==> i * s < |m.rows| && q[i] == m.rows[i * s] && |q[i]| == m.cols
  {
    var p := StrideRows(m.rows, s);
    forall i | 0 <= i < k
      ensures i * s < |m.rows| && p[..k][i] == m.rows[i * s] && |p[..k][i]| == m.cols
    {
      assert p[..k][i] == p[i];
    }
  }

  /** A stride of zero or less behaves as a stride of one, and with one the first rows are
      returned as stored. */
  lemma {:induction false} NonPositiveStrideIsOne(m: Matrix, limit: int, stride: int)
    requires WellFormed(m) && stride <= 1
    ensures var sub := LoadPathsSubset(Some(m), limit, stride).value;
            sub == LoadPathsSubset(Some(m), limit, 1).value
            && sub.series == m.rows[..Min(Max1(limit), |m.rows|)]
  {
    var sub := LoadPathsSubset(Some(m), limit, stride).value;
    var k := Min(Max1(limit), |m.rows|);
    assert StrideCount(|m.rows|, 1) == |m.rows|;
    assert sub.series == m.rows[..k];
  }
}
