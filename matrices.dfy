/** Dense 4x4 real matrices and homogeneous vectors, the small slice of
    array arithmetic that the voxel-to-normalised-coordinates builder needs.
    Arithmetic is exact (`real`), not binary floating point. */
module Matrices {

  /** A matrix as a sequence of rows. */
  type Matrix = seq<seq<real>>

  /** Four rows of four entries each. */
  predicate Is4x4(m: Matrix) {
    |m| == 4 && forall i :: 0 <= i < 4 ==> |m[i]| == 4
  }

  /** A homogeneous affine transform: bottom row exactly [0, 0, 0, 1]. */
  predicate IsAffine(m: Matrix) {
    Is4x4(m) && m[3] == [0.0, 0.0, 0.0, 1.0]
  }

  /** The square matrix with `d` on its diagonal and zero elsewhere. */
  function Diag(d: seq<real>): (m: Matrix)
    requires |d| == 4
    ensures Is4x4(m)
    ensures forall i, j :: 0 <= i < 4 && 0 <= j < 4 ==>
      m[i][j] == if i == j then d[i] else 0.0
  {
    [[d[0], 0.0, 0.0, 0.0],
     [0.0, d[1], 0.0, 0.0],
     [0.0, 0.0, d[2], 0.0],
     [0.0, 0.0, 0.0, d[3]]]
  }

  /** `m` with the first three entries of its last column replaced by `t`
      (the slice assignment `m[0:3, 3] = t`); every other entry is kept. */
  function SetTranslation(m: Matrix, t: seq<real>): (r: Matrix)
    requires Is4x4(m) && |t| == 3
    ensures Is4x4(r)
    ensures forall i, j :: 0 <= i < 4 && 0 <= j < 4 ==>
      r[i][j] == if i < 3 && j == 3 then t[i] else m[i][j]
  {
    [m[0][3 := t[0]], m[1][3 := t[1]], m[2][3 := t[2]], m[3]]
  }

  /** Two 4x4 matrices with the same entries are equal. */
  lemma SameEntries(a: Matrix, b: Matrix)
    requires Is4x4(a) && Is4x4(b)
    requires forall i, j :: 0 <= i < 4 && 0 <= j < 4 ==> a[i][j] == b[i][j]
    ensures a == b
  {
    assert forall i :: 0 <= i < 4 ==> a[i] == b[i];
  }

  /** Inner product of two vectors of equal length. */
  function Dot(u: seq<real>, v: seq<real>): real
    requires |u| == |v|
  {
    if |u| == 0 then 0.0 else u[0] * v[0] + Dot(u[1..], v[1..])
  }

  /** The inner product of two 4-vectors, written out. */
  lemma {:induction false} Dot4(u: seq<real>, v: seq<real>)
    requires |u| == 4 && |v| == 4
    ensures Dot(u, v) == u[0] * v[0] + u[1] * v[1] + u[2] * v[2] + u[3] * v[3]
  {
    assert u[1..][1..] == u[2..] && u[2..][1..] == u[3..] && u[3..][1..] == u[4..];
    assert v[1..][1..] == v[2..] && v[2..][1..] == v[3..] && v[3..][1..] == v[4..];
    assert Dot(u[3..], v[3..]) == u[3] * v[3];
    assert Dot(u[2..], v[2..]) == u[2] * v[2] + u[3] * v[3];
  }

  /** Matrix times column vector. */
  function Apply(m: Matrix, v: seq<real>): (r: seq<real>)
    requires Is4x4(m) && |v| == 4
    ensures |r| == 4
  {
    [Dot(m[0], v), Dot(m[1], v), Dot(m[2], v), Dot(m[3], v)]
  }

  /** Column `j` of a 4x4 matrix. */
  function Column(m: Matrix, j: nat): (c: seq<real>)
    requires Is4x4(m) && j < 4
    ensures |c| == 4
  {
    [m[0][j], m[1][j], m[2][j], m[3][j]]
  }

  /** The matrix product `a @ b`. */
  function MatMul(a: Matrix, b: Matrix): (c: Matrix)
    requires Is4x4(a) && Is4x4(b)
    ensures Is4x4(c)
    ensures forall i, j :: 0 <= i < 4 && 0 <= j < 4 ==> c[i][j] == Dot(a[i], Column(b, j))
  {
    seq(4, i requires 0 <= i < 4 => seq(4, j requires 0 <= j < 4 => Dot(a[i], Column(b, j))))
  }

  /** The 4x4 identity. */
  function Identity(): (m: Matrix)
    ensures Is4x4(m)
    ensures forall i, j :: 0 <= i < 4 && 0 <= j < 4 ==> m[i][j] == if i == j then 1.0 else 0.0
  {
    Diag([1.0, 1.0, 1.0, 1.0])
  }

  /** The affine matrix that scales axis i by `s[i]` and then shifts it by
      `t[i]`. */
  function ScaleShift(s: seq<real>, t: seq<real>): (m: Matrix)
    requires |s| == 3 && |t| == 3
    ensures IsAffine(m)
  {
    SetTranslation(Diag(s + [1.0]), t)
  }

  /** Scaling axis k by `s'[k]`, shifting by `t'[k]`, then scaling by `s[k]`
      and shifting by `t[k]` scales it by `s''[k]` and shifts it by `t''[k]`. */
  predicate ComposesTo(s: seq<real>, t: seq<real>, s': seq<real>, t': seq<real>,
                       s'': seq<real>, t'': seq<real>)
    requires |s| == 3 && |t| == 3 && |s'| == 3 && |t'| == 3 && |s''| == 3 && |t''| == 3
  {
    forall k :: 0 <= k < 3 ==> s''[k] == s[k] * s'[k] && t''[k] == s[k] * t'[k] + t[k]
  }

  /** One entry of the product of two scale-and-shift matrices. */
  lemma ComposeScaleShiftAt(s: seq<real>, t: seq<real>, s': seq<real>, t': seq<real>,
                            s'': seq<real>, t'': seq<real>, i: nat, j: nat)
    requires |s| == 3 && |t| == 3 && |s'| == 3 && |t'| == 3 && |s''| == 3 && |t''| == 3
    requires ComposesTo(s, t, s', t', s'', t'')
    requires i < 4 && j < 4
    ensures Dot(ScaleShift(s, t)[i], Column(ScaleShift(s', t'), j)) == ScaleShift(s'', t'')[i][j]
  {
    var a, b := ScaleShift(s, t), ScaleShift(s', t');
    Dot4(a[i], Column(b, j));
  }

  /** Scale-and-shift matrices compose axis by axis: the product scales
      axis k by `s''[k] = s[k] * s'[k]` and shifts it by
      `t''[k] = s[k] * t'[k] + t[k]`. */
  lemma ComposeScaleShift(s: seq<real>, t: seq<real>, s': seq<real>, t': seq<real>,
                          s'': seq<real>, t'': seq<real>)
    requires |s| == 3 && |t| == 3 && |s'| == 3 && |t'| == 3 && |s''| == 3 && |t''| == 3
    requires ComposesTo(s, t, s', t', s'', t'')
    ensures MatMul(ScaleShift(s, t), ScaleShift(s', t')) == ScaleShift(s'', t'')
  {
    var c, d := MatMul(ScaleShift(s, t), ScaleShift(s', t')), ScaleShift(s'', t'');
    forall i, j | 0 <= i < 4 && 0 <= j < 4
      ensures c[i][j] == d[i][j]
    {
      ComposeScaleShiftAt(s, t, s', t', s'', t'', i, j);
    }
    SameEntries(c, d);
  }

  /** An affine matrix maps a point (last coordinate 1) to a point. */
  lemma AffineKeepsPoints(m: Matrix, v: seq<real>)
    requires IsAffine(m) && |v| == 4 && v[3] == 1.0
    ensures Apply(m, v)[3] == 1.0
  {
    Dot4(m[3], v);
  }
}
