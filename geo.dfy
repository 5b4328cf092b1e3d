/** The voxel-to-normalised-coordinates builder of minc/geo.py: the 4x4
    homogeneous matrix taking voxel indices of a volume to the [-1, 1]
    coordinates a grid sampler expects, shifted by half a voxel so that the
    outer edges of the first and last voxel land on -1 and +1. */
module Geo {
  import opened Matrices

  /** A volume's extents in the order the array is indexed, (z, y, x).
      The source does not validate them: any integers are accepted. */
  datatype Shape = Shape(d0: int, d1: int, d2: int) {

    /** `shape[k]`. */
    function Extent(k: nat): int
      requires k < 3
    {
      if k == 0 then d0 else if k == 1 then d1 else d2
    }

    /** The same shape with extent `k` replaced by `n`. */
    function WithExtent(k: nat, n: int): (s: Shape)
      requires k < 3
      ensures s.Extent(k) == n
      ensures forall k' :: 0 <= k' < 3 && k' != k ==> s.Extent(k') == Extent(k')
    {
      if k == 0 then this.(d0 := n) else if k == 1 then this.(d1 := n) else this.(d2 := n)
    }
  }

  /** Every extent can be divided by. */
  predicate NonZero(shape: Shape) {
    shape.d0 != 0 && shape.d1 != 0 && shape.d2 != 0
  }

  /** The division error Python raises on a zero extent. */
  datatype Error = ZeroDivision

  datatype Result<T> = Ok(value: T) | Err(error: Error)

  /** Row i < 3 of the matrix for an axis of extent `n`: scale `2/n` in
      column i, shift `1/n - 1` in column 3, zero elsewhere. */
  function AxisRow(i: nat, n: int): (row: seq<real>)
    requires i < 3 && n != 0
    ensures |row| == 4
  {
    seq(4, j requires 0 <= j < 4 =>
      if j == i then 2.0 / (n as real) else if j == 3 then 1.0 / (n as real) - 1.0 else 0.0)
  }

  /** The per-axis scales of the matrix, one per matrix row: row i uses
      `shape[2 - i]`. */
  function Scales(shape: Shape): (s: seq<real>)
    requires NonZero(shape)
    ensures |s| == 3
  {
    [2.0 / (shape.d2 as real), 2.0 / (shape.d1 as real), 2.0 / (shape.d0 as real)]
  }

  /** The per-axis shifts of the matrix, one per matrix row: the half-voxel
      adjustment `1/n - 1` with `n = shape[2 - i]`. */
  function Shifts(shape: Shape): (t: seq<real>)
    requires NonZero(shape)
    ensures |t| == 3
  {
    [1.0 / (shape.d2 as real) - 1.0, 1.0 / (shape.d1 as real) - 1.0, 1.0 / (shape.d0 as real) - 1.0]
  }

  /** `create_v2p_matrix(shape)`. Row i of the matrix is built from
      `shape[2 - i]`: scale `2/n` on the diagonal, shift `1/n - 1` in the
      last column; the bottom row is [0, 0, 0, 1]. */
  function CreateV2PMatrix(shape: Shape): (r: Result<Matrix>)
    ensures r.Err? <==> !NonZero(shape)
    ensures r.Ok? ==> IsAffine(r.value)
    ensures r.Ok? ==> forall i :: 0 <= i < 3 ==> r.value[i] == AxisRow(i, shape.Extent(2 - i))
  {
    if shape.d2 == 0 || shape.d1 == 0 || shape.d0 == 0 then
      Err(ZeroDivision)
    else
      var v2p := Diag(Scales(shape) + [1.0]);
      Ok(SetTranslation(v2p, Shifts(shape)))
  }

  /** The normalised coordinate of voxel coordinate `x` on an axis of
      extent `n`. */
  function AxisMap(n: int, x: real): real
    requires n != 0
  {
    (2.0 * x + 1.0) / (n as real) - 1.0
  }

  /** The voxel coordinate of normalised coordinate `p` on an axis of
      extent `n`. */
  function AxisUnmap(n: int, p: real): real
    requires n != 0
  {
    ((n as real) * (p + 1.0) - 1.0) / 2.0
  }

  /** The matrix maps a voxel point (x, y, z, 1) axis by axis: x with the
      extent `shape[2]`, y with `shape[1]`, z with `shape[0]`, and keeps it
      a point. */
  lemma V2PMapsAxes(shape: Shape, x: real, y: real, z: real)
    requires NonZero(shape)
    ensures Apply(CreateV2PMatrix(shape).value, [x, y, z, 1.0]) ==
      [AxisMap(shape.d2, x), AxisMap(shape.d1, y), AxisMap(shape.d0, z), 1.0]
  {
    var m := CreateV2PMatrix(shape).value;
    var v := [x, y, z, 1.0];
    forall i | 0 <= i < 3
      ensures Dot(m[i], v) == AxisMap(shape.Extent(2 - i), v[i])
    {
      Dot4(m[i], v);
      AxisMapAffine(shape.Extent(2 - i), v[i]);
    }
    AffineKeepsPoints(m, v);
  }

  /** The axis map is the affine map with slope `2/n` and offset `1/n - 1`. */
  lemma AxisMapAffine(n: int, x: real)
    requires n != 0
    ensures AxisMap(n, x) == (2.0 / (n as real)) * x + (1.0 / (n as real) - 1.0)
  {
    var r := n as real;
    assert (2.0 * x + 1.0) / r == (2.0 / r) * x + 1.0 / r;
  }

  /** Edge alignment: the outer edge of the first voxel (-1/2) maps to -1
      and the outer edge of the last voxel (n - 1/2) maps to +1. */
  lemma EdgesAlign(n: int)
    requires n != 0
    ensures AxisMap(n, -0.5) == -1.0
    ensures AxisMap(n, (n as real) - 0.5) == 1.0
  {
    var r := n as real;
    assert 2.0 * (-0.5) + 1.0 == 0.0;
    assert 2.0 * (r - 0.5) + 1.0 == 2.0 * r;
    assert (2.0 * r) / r == 2.0;
  }

  /** Dividing by a positive number keeps the order of two reals. */
  lemma DivideKeepsOrder(a: real, b: real, r: real)
    requires r > 0.0
    ensures a < b <==> a / r < b / r
    ensures a <= b <==> a / r <= b / r
  {
    assert a == (a / r) * r && b == (b / r) * r;
    if a < b {
      assert (b - a) / r > 0.0;
      assert b / r - a / r == (b - a) / r;
    }
    if a / r <= b / r {
      assert (b / r - a / r) * r >= 0.0;
    }
  }

  /** For a positive extent the axis map is strictly increasing. */
  lemma AxisMapIncreasing(n: int, x: real, x': real)
    requires n > 0
    ensures x < x' <==> AxisMap(n, x) < AxisMap(n, x')
  {
    DivideKeepsOrder(2.0 * x + 1.0, 2.0 * x' + 1.0, n as real);
  }

  /** For a positive extent, exactly the coordinates between the outer
      voxel edges land in [-1, 1]. */
  lemma AxisMapRange(n: int, x: real)
    requires n > 0
    ensures -1.0 <= AxisMap(n, x) <= 1.0 <==> -0.5 <= x <= (n as real) - 0.5
  {
    var r := n as real;
    DivideKeepsOrder(0.0, 2.0 * x + 1.0, r);
    DivideKeepsOrder(2.0 * x + 1.0, 2.0 * r, r);
    assert (2.0 * r) / r == 2.0;
  }

  /** Every voxel centre 0 .. n-1 lands strictly inside (-1, 1). */
  lemma VoxelCentresInside(n: int, x: real)
    requires n > 0 && 0.0 <= x <= (n as real) - 1.0
    ensures -1.0 < AxisMap(n, x) < 1.0
  {
    AxisMapIncreasing(n, -0.5, x);
    AxisMapIncreasing(n, x, (n as real) - 0.5);
    EdgesAlign(n);
  }

  /** The axis map and its inverse undo each other. */
  lemma AxisRoundTrip(n: int, x: real, p: real)
    requires n != 0
    ensures AxisUnmap(n, AxisMap(n, x)) == x
    ensures AxisMap(n, AxisUnmap(n, p)) == p
  {
  }

  /** The per-axis scales of the inverse matrix, row order (x, y, z). */
  function InverseScales(shape: Shape): (s: seq<real>)
    ensures |s| == 3
  {
    [(shape.d2 as real) / 2.0, (shape.d1 as real) / 2.0, (shape.d0 as real) / 2.0]
  }

  /** The per-axis shifts of the inverse matrix, row order (x, y, z). */
  function InverseShifts(shape: Shape): (t: seq<real>)
    ensures |t| == 3
  {
    [(shape.d2 as real - 1.0) / 2.0, (shape.d1 as real - 1.0) / 2.0, (shape.d0 as real - 1.0) / 2.0]
  }

  /** The inverse matrix, taking normalised coordinates back to voxel
      coordinates: scale `n/2`, shift `(n - 1)/2` per axis. */
  function P2VMatrix(shape: Shape): (m: Matrix)
    ensures IsAffine(m)
  {
    ScaleShift(InverseScales(shape), InverseShifts(shape))
  }

  /** The inverse matrix maps a normalised point (p, q, r, 1) back axis by
      axis with the same reversed pairing of extents. */
  lemma P2VMapsAxes(shape: Shape, p: real, q: real, r: real)
    requires NonZero(shape)
    ensures Apply(P2VMatrix(shape), [p, q, r, 1.0]) ==
      [AxisUnmap(shape.d2, p), AxisUnmap(shape.d1, q), AxisUnmap(shape.d0, r), 1.0]
  {
    var m := P2VMatrix(shape);
    var v := [p, q, r, 1.0];
    var s, t := InverseScales(shape), InverseShifts(shape);
    assert s + [1.0] == [s[0], s[1], s[2], 1.0];
    forall i | 0 <= i < 3
      ensures Dot(m[i], v) == AxisUnmap(shape.Extent(2 - i), v[i])
    {
      Dot4(m[i], v);
      assert m[i][i] == s[i] && m[i][3] == t[i];
      var n := shape.Extent(2 - i) as real;
      assert (n * (v[i] + 1.0) - 1.0) / 2.0 == (n / 2.0) * v[i] + (n - 1.0) / 2.0;
    }
    AffineKeepsPoints(m, v);
  }

  /** The scale and shift of an axis against those of its inverse. */
  lemma ScaleShiftInverse(r: real)
    requires r != 0.0
    ensures (2.0 / r) * (r / 2.0) == 1.0
    ensures (2.0 / r) * ((r - 1.0) / 2.0) + (1.0 / r - 1.0) == 0.0
    ensures (r / 2.0) * (2.0 / r) == 1.0
    ensures (r / 2.0) * (1.0 / r - 1.0) + (r - 1.0) / 2.0 == 0.0
  {
    assert (2.0 / r) * r == 2.0;
    assert (1.0 / r) * r == 1.0;
  }

  /** The identity scales by one and shifts by zero. */
  lemma IdentityIsScaleShift()
    ensures Identity() == ScaleShift([1.0, 1.0, 1.0], [0.0, 0.0, 0.0])
  {
    assert [1.0, 1.0, 1.0] + [1.0] == [1.0, 1.0, 1.0, 1.0];
    SameEntries(Identity(), ScaleShift([1.0, 1.0, 1.0], [0.0, 0.0, 0.0]));
  }

  /** Axis k of the matrix and of its inverse undo each other. */
  lemma AxisInverse(shape: Shape, k: nat)
    requires NonZero(shape) && k < 3
    ensures Scales(shape)[k] * InverseScales(shape)[k] == 1.0
    ensures Scales(shape)[k] * InverseShifts(shape)[k] + Shifts(shape)[k] == 0.0
    ensures InverseScales(shape)[k] * Scales(shape)[k] == 1.0
    ensures InverseScales(shape)[k] * Shifts(shape)[k] + InverseShifts(shape)[k] == 0.0
  {
    var r := shape.Extent(2 - k) as real;
    assert Scales(shape)[k] == 2.0 / r && Shifts(shape)[k] == 1.0 / r - 1.0;
    assert InverseScales(shape)[k] == r / 2.0 && InverseShifts(shape)[k] == (r - 1.0) / 2.0;
    ScaleShiftInverse(r);
  }

  /** Every axis of the matrix composed with the inverse, in either order,
      scales by one and shifts by zero. */
  lemma InverseComposes(shape: Shape)
    requires NonZero(shape)
    ensures ComposesTo(Scales(shape), Shifts(shape), InverseScales(shape), InverseShifts(shape),
                       [1.0, 1.0, 1.0], [0.0, 0.0, 0.0])
    ensures ComposesTo(InverseScales(shape), InverseShifts(shape), Scales(shape), Shifts(shape),
                       [1.0, 1.0, 1.0], [0.0, 0.0, 0.0])
  {
    forall k | 0 <= k < 3
      ensures Scales(shape)[k] * InverseScales(shape)[k] == 1.0
      ensures Scales(shape)[k] * InverseShifts(shape)[k] + Shifts(shape)[k] == 0.0
      ensures InverseScales(shape)[k] * Scales(shape)[k] == 1.0
      ensures InverseScales(shape)[k] * Shifts(shape)[k] + InverseShifts(shape)[k] == 0.0
    {
      AxisInverse(shape, k);
    }
  }

  /** The matrix is the scale-and-shift matrix of its scales and shifts. */
  lemma V2PIsScaleShift(shape: Shape)
    requires NonZero(shape)
    ensures CreateV2PMatrix(shape) == Ok(ScaleShift(Scales(shape), Shifts(shape)))
  {
  }

  /** For non-zero extents the matrix is invertible: P2VMatrix is its
      two-sided inverse. */
  lemma V2PInvertible(shape: Shape)
    requires NonZero(shape)
    ensures MatMul(CreateV2PMatrix(shape).value, P2VMatrix(shape)) == Identity()
    ensures MatMul(P2VMatrix(shape), CreateV2PMatrix(shape).value) == Identity()
  {
    var s, t, s', t' := Scales(shape), Shifts(shape), InverseScales(shape), InverseShifts(shape);
    InverseComposes(shape);
    V2PIsScaleShift(shape);
    IdentityIsScaleShift();
    ComposeScaleShift(s, t, s', t', [1.0, 1.0, 1.0], [0.0, 0.0, 0.0]);
    ComposeScaleShift(s', t', s, t, [1.0, 1.0, 1.0], [0.0, 0.0, 0.0]);
  }

  /** Axis order is reversed: row i of the matrix is the row of extent
      `shape[2 - i]`, so row 0 belongs to the last extent and row 2 to the
      first. This is the builder's contract read one row at a time. */
  lemma RowReadsReversedExtent(shape: Shape, i: nat)
    requires NonZero(shape) && i < 3
    ensures CreateV2PMatrix(shape).value[i] == AxisRow(i, shape.Extent(2 - i))
  {
    var m := CreateV2PMatrix(shape).value;
    assert forall j :: 0 <= j < 4 ==> m[i][j] == AxisRow(i, shape.Extent(2 - i))[j];
  }

  /** Different extents give different rows. */
  lemma AxisRowInjective(i: nat, n: int, n': int)
    requires i < 3 && n != 0 && n' != 0
    ensures AxisRow(i, n) == AxisRow(i, n') <==> n == n'
  {
    if AxisRow(i, n) == AxisRow(i, n') {
      var a, b := n as real, n' as real;
      assert 2.0 / a == 2.0 / b by {
        assert AxisRow(i, n)[i] == AxisRow(i, n')[i];
      }
      assert a == 2.0 / (2.0 / a) && b == 2.0 / (2.0 / b);
    }
  }

  /** Changing `shape[k]` changes row `2 - k` of the matrix and nothing
      else: the axes are independent and their order is reversed. */
  lemma AxesIndependent(shape: Shape, k: nat, n: int)
    requires NonZero(shape) && k < 3 && n != 0
    ensures forall i :: 0 <= i < 4 && i != 2 - k ==>
      CreateV2PMatrix(shape.WithExtent(k, n)).value[i] == CreateV2PMatrix(shape).value[i]
    ensures CreateV2PMatrix(shape.WithExtent(k, n)).value[2 - k] == CreateV2PMatrix(shape).value[2 - k]
      <==> n == shape.Extent(k)
  {
    var shape' := shape.WithExtent(k, n);
    forall i | 0 <= i < 3
      ensures CreateV2PMatrix(shape').value[i] == AxisRow(i, shape'.Extent(2 - i))
      ensures CreateV2PMatrix(shape).value[i] == AxisRow(i, shape.Extent(2 - i))
    {
      RowReadsReversedExtent(shape', i);
      RowReadsReversedExtent(shape, i);
    }
    AxisRowInjective(2 - k, n, shape.Extent(k));
  }

  /** A single-voxel volume: scale 2, no shift; the voxel centre maps to
      the origin. */
  lemma UnitShape()
    ensures CreateV2PMatrix(Shape(1, 1, 1)) ==
      Ok([[2.0, 0.0, 0.0, 0.0],
          [0.0, 2.0, 0.0, 0.0],
          [0.0, 0.0, 2.0, 0.0],
          [0.0, 0.0, 0.0, 1.0]])
  {
    SameEntries(CreateV2PMatrix(Shape(1, 1, 1)).value,
      [[2.0, 0.0, 0.0, 0.0],
       [0.0, 2.0, 0.0, 0.0],
      [0.0, 0.0, 2.0, 0.0],
      [0.0, 0.0, 0.0, 1.0]]);
  }

  /** A 4x4x4 volume: scale 0.5, shift -0.75 on every axis. */
  lemma CubeOfFour()
    ensures CreateV2PMatrix(Shape(4, 4, 4)) ==
      Ok([[0.5, 0.0, 0.0, -0.75],
          [0.0, 0.5, 0.0, -0.75],
          [0.0, 0.0, 0.5, -0.75],
          [0.0, 0.0, 0.0, 1.0]])
  {
    SameEntries(CreateV2PMatrix(Shape(4, 4, 4)).value, [[0.5, 0.0, 0.0, -0.75],
      [0.0, 0.5, 0.0, -0.75],
      [0.0, 0.0, 0.5, -0.75],
      [0.0, 0.0, 0.0, 1.0]]);
  }

  /** A 2x4x8 volume: the first row is built from the last extent (8). */
  lemma ReversedAxes()
    ensures CreateV2PMatrix(Shape(2, 4, 8)) ==
      Ok([[0.25, 0.0, 0.0, -0.875],
          [0.0, 0.5, 0.0, -0.75],
          [0.0, 0.0, 1.0, -0.5],
          [0.0, 0.0, 0.0, 1.0]])
  {
    SameEntries(CreateV2PMatrix(Shape(2, 4, 8)).value, [[0.25, 0.0, 0.0, -0.875],
      [0.0, 0.5, 0.0, -0.75],
      [0.0, 0.0, 1.0, -0.5],
      [0.0, 0.0, 0.0, 1.0]]);
  }
}
