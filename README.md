# Voxel-to-normalised-coordinates matrix (minc geometry helpers)

This project models `create_v2p_matrix` of `minc/geo.py`, the builder of
the 4x4 homogeneous matrix that takes voxel indices of a volume to the
normalised [-1, 1] coordinates a grid sampler expects. A volume's shape is
given in array order (z, y, x). Matrix row 0 is built from `shape[2]`, row 1
from `shape[1]` and row 2 from `shape[0]`. Each row scales by `2/n` and
shifts by `1/n - 1`, the half-voxel adjustment. The outer edge of the
first voxel lands on -1 and the outer edge of the last voxel on +1.

Two modules:

- `Matrices` (`matrices.dfy`): 4x4 real matrices as `seq<seq<real>>`.
  `Diag` is the diagonal constructor, and `SetTranslation` is the slice
  assignment `m[0:3, 3] = t`. It also holds the matrix-vector product
  `Apply`, the product `MatMul` and the composition law of scale-and-shift
  matrices.
- `Geo` (`geo.dfy`): the shape, the builder `CreateV2PMatrix`, the per-axis
  map `AxisMap` and its inverse `AxisUnmap`, the inverse matrix `P2VMatrix`,
  and the lemmas.

Arithmetic is exact `real` arithmetic. Extents are unbounded integers, as
in Python. A zero extent gives `Err(ZeroDivision)`, which models the
`ZeroDivisionError` the source raises. Negative extents are not rejected,
because the source does not reject them. The lemmas that need positive
extents (monotonicity, range) require them.

The outer edges of the first and last voxel land on -1 and +1. The voxel
centres land strictly inside (-1, 1); see `Geo.EdgesAlign` and
`Geo.VoxelCentresInside`.

## Model

| member | source | states |
|---|---|---|
| `Geo.CreateV2PMatrix` | minc/geo.py:17-20 | fails with a division error exactly when some extent is zero; otherwise returns an affine matrix (bottom row [0,0,0,1]) whose row i < 3 is `AxisRow(i, shape[2-i])`: `2/shape[2-i]` on the diagonal, `1/shape[2-i] - 1` in the last column and zero elsewhere. Its helpers `Geo.Scales` (the list literal at line 18), `Geo.Shifts` (the tuple at line 19), `Geo.AxisRow` and `Geo.Shape.Extent` (`shape[k]`) belong to this row |
| `Matrices.Diag` | minc/geo.py:18 | the diagonal constructor: entry (i, j) is `d[i]` when i = j and zero otherwise |
| `Matrices.SetTranslation` | minc/geo.py:19 | the slice assignment `m[0:3,3] = t`: rows 0-2 of the last column become `t`, every other entry is unchanged |
| `Geo.V2PMapsAxes` | minc/geo.py:18-19 | the matrix maps the point (x, y, z, 1) to (AxisMap(shape[2], x), AxisMap(shape[1], y), AxisMap(shape[0], z), 1), with AxisMap(n, x) = (2x+1)/n - 1 |
| `Geo.EdgesAlign` | minc/geo.py:19 | half-voxel shift: the first voxel's outer edge -1/2 maps to -1 and the last voxel's outer edge n - 1/2 maps to +1 |
| `Geo.AxisMapIncreasing` | minc/geo.py:18-19 | for a positive extent, x < x' if and only if AxisMap(n, x) < AxisMap(n, x') |
| `Geo.AxisMapRange` | minc/geo.py:18-19 | for a positive extent, AxisMap(n, x) lies in [-1, 1] if and only if x lies in [-1/2, n - 1/2] |
| `Geo.VoxelCentresInside` | minc/geo.py:18-19 | for a positive extent, every real coordinate x in [0, n-1], so every voxel centre, maps into the open interval (-1, 1) |
| `Geo.AxisRoundTrip` | minc/geo.py:18-19 | for a non-zero extent, AxisUnmap(n, p) = (n(p+1) - 1)/2 and AxisMap(n, x) undo each other in both orders |
| `Geo.P2VMapsAxes` | minc/geo.py:18-19 | the inverse matrix maps a normalised point back axis by axis with AxisUnmap and the same reversed pairing of extents |
| `Geo.V2PInvertible` | minc/geo.py:18-19 | for non-zero extents the matrix is invertible: it times P2VMatrix is the identity, in both orders |
| `Geo.RowReadsReversedExtent` | minc/geo.py:18-19 | axis order is reversed: row i < 3 of the matrix is the row of extent `shape[2-i]` (scale in column i, shift in column 3, zeros elsewhere) |
| `Geo.AxisRowInjective` | minc/geo.py:18-19 | two non-zero extents give the same matrix row if and only if they are equal |
| `Geo.AxesIndependent` | minc/geo.py:18-19 | replacing `shape[k]` by a non-zero n leaves every row other than 2-k unchanged, and row 2-k is unchanged if and only if n equals the old extent |
| `Geo.UnitShape` | minc/geo.py:18-19 | shape (1,1,1) gives diagonal (2,2,2,1) and translation (0,0,0) |
| `Geo.CubeOfFour` | minc/geo.py:18-19 | shape (4,4,4) gives diagonal (0.5,0.5,0.5,1) and translation (-0.75,-0.75,-0.75) |
| `Geo.ReversedAxes` | minc/geo.py:18-19 | shape (2,4,8) gives diagonal (0.25,0.5,1,1) and translation (-0.875,-0.75,-0.5): row 0 is built from the last extent |

## Left out

- `decompose` (minc/geo.py:6-12): its result is defined by the foreign SVD and matrix-inverse routines (`np.linalg.svd`, `np.linalg.inv`), and their ordering and sign choices are not visible here.
- minc/nifti.py: `save_nifti_volume` and `load_nifti_volume` are file I/O through nibabel. The array transposes, `ascontiguousarray` and the float-to-`uint8` cast are library semantics.
- Floating point: Python computes `2/n` and `1/n - 1` in binary double precision. The model uses exact reals and does not capture rounding.
- Malformed shapes: a shape of the wrong length or with non-integer extents is not modelled. `Shape` holds exactly three integers.
- Which zero extent the source divides by first: every zero extent gives the same error, so the model reports one `ZeroDivision`.
