# LocalRotate: a verified model of the local rotation augmentation

`LocalRotate` perturbs a 3×N point cloud. It picks the `num_samples` nearest
neighbours of a random anchor point. It copies the cloud and overwrites the
neighbours' columns with rotated copies. In anisotropic mode (any mode string
starting with `"aniso"`) each neighbour gets its own rotation, built from its
own column of random Euler angles. In every other mode all neighbours share
one rotation, whose single angle column is repeated `num_samples` times. A
call returns the new cloud, the 3×num_samples angle array and the sorted
neighbour indices repeated on three rows.

The project has five modules:

- `Geometry` (geometry.dfy): 3-vectors, 3×3 matrices, `np.eye(3)`, entry
  assignment, matrix product, matrix times vector, transpose, and the
  associativity and identity laws the rotation proofs need.
- `Rotation` (rotation.dfy): the three elementary rotations of
  `_build_rotation_matrix`, filled entry by entry into an identity matrix as
  the source does, their composition Z·(Y·X), and orthonormality of each
  factor and of the product under cos² + sin² = 1.
- `Sorting` (sorting.dfy): `np.sort` on the neighbour indices, as an
  insertion sort proved ascending and a permutation of its input.
- `MaskedUpdate` (masked_update.dfy): the two column updates of `__call__`
  stated on values. `AnisotropicUpdate` is the per-column loop and
  `IsotropicUpdate` is the gather / rotate / scatter block assignment.
- `LocalRotation` (local_rotate.dfy): the class `LocalRotate` with its
  configuration, the method `Call` over a Dafny `array2<real>`, and the
  function `Expected`, which gives the outcome of a call as a value. `Call`
  copies the input array, runs the anisotropic loop or the block
  assignment in place on the copy, and is proved to return exactly
  `Expected`. The lemmas beside it state the shape, frame and rotation
  properties.

Inputs that the model takes from outside:

- `neighbours`: the index row the nearest-neighbour query returns. The query
  pads with the index N when it cannot find `num_samples` neighbours; such an
  index is not a column of the cloud. The source then fails with an index
  error, and the model returns `Err(IndexOutOfBounds)`.
- `draws`: the uniform angle draws. There are `num_samples` columns in
  anisotropic mode and one column otherwise.
- `trig`: the cosine and sine, as two real functions.
- An empty cloud makes the anchor draw `randint(0, 0)` fail; the model
  returns `Err(EmptyCloud)`.
- A query for a single neighbour (num_samples = 1) returns a bare index
  rather than a row, and `np.sort` of it fails; the model returns
  `Err(ScalarIndex)`.

Three behaviours of the code worth knowing:

- The y-axis rotation has sin θ at (0, 2) and −sin θ at (2, 0), the usual
  right-handed form.
- A cloud with fewer points than `num_samples` raises no dedicated error. The
  query pads with the out-of-range index, and the failure is the index error
  of the column update (`Failures`).
- An unrecognised mode string is not rejected. It takes the isotropic path
  (`IsAnisotropic`, `LocalRotate.Default`).

## Model

| member | source | states |
|---|---|---|
| Rotation.RotX | graph_ter_seg/transforms/local_rotate.py:27-31 | row 0 and column 0 are the unit x vector; both diagonal entries are cos θx; (1, 2) is −sin θx and (2, 1) is +sin θx |
| Rotation.RotY | graph_ter_seg/transforms/local_rotate.py:33-37 | row 1 and column 1 are the unit y vector; both diagonal entries are cos θy; (0, 2) is +sin θy and (2, 0) is −sin θy |
| Rotation.RotZ | graph_ter_seg/transforms/local_rotate.py:39-43 | row 2 and column 2 are the unit z vector; both diagonal entries are cos θz; (0, 1) is −sin θz and (1, 0) is +sin θz |
| Rotation.ElementaryFixesAxis | graph_ter_seg/transforms/local_rotate.py:27-43 | each elementary rotation leaves the coordinate of its own axis unchanged, for any angle |
| Rotation.FactorXOrthonormal | graph_ter_seg/transforms/local_rotate.py:27-31 | if cos² θx + sin² θx = 1, the x factor times its transpose is the identity, on both sides |
| Rotation.FactorYOrthonormal | graph_ter_seg/transforms/local_rotate.py:33-37 | if cos² θy + sin² θy = 1, the y factor times its transpose is the identity, on both sides |
| Rotation.FactorZOrthonormal | graph_ter_seg/transforms/local_rotate.py:39-43 | if cos² θz + sin² θz = 1, the z factor times its transpose is the identity, on both sides |
| Rotation.BuildRotationMatrix | graph_ter_seg/transforms/local_rotate.py:22-46 | `_build_rotation_matrix` for one angle column: the product Z·(Y·X) of the three factors; its properties are carried by RotationOrthonormal, RotationOrder and RotationBracketing |
| Rotation.RotationOrthonormal | graph_ter_seg/transforms/local_rotate.py:22-46 | if the Pythagorean identity holds for all three angles, the built matrix is orthonormal: its transpose is its inverse |
| Rotation.RotationOrder | graph_ter_seg/transforms/local_rotate.py:45 | applying the built matrix to a point rotates it about x first, then about y, then about z |
| Rotation.RotationBracketing | graph_ter_seg/transforms/local_rotate.py:45 | the composition Z·(Y·X) equals (Z·Y)·X |
| Sorting.Insert | graph_ter_seg/transforms/local_rotate.py:53 | inserting into an ascending row keeps it ascending, adds exactly one element, and keeps it strictly ascending when the new element is fresh |
| Sorting.Sort | graph_ter_seg/transforms/local_rotate.py:53 | the mask is ascending, has the same length and the same multiset of indices as the query row, and is strictly ascending when the query row has no repeats |
| MaskedUpdate.AnisotropicPrefix | graph_ter_seg/transforms/local_rotate.py:68-70 | the cloud after the first k passes of the loop: pass k rotates column mask[k] as it then is by the matrix of angle column k; keeps N columns; its properties are carried by AnisotropicPrefixFrame and AnisotropicPrefixAt |
| MaskedUpdate.AnisotropicUpdate | graph_ter_seg/transforms/local_rotate.py:67-70 | the cloud after the whole loop; keeps N columns; its properties are carried by AnisotropicUnmasked, AnisotropicMasked and RotateEach |
| MaskedUpdate.Gather | graph_ter_seg/transforms/local_rotate.py:73 | `y[:, mask]` read: entry i is column mask[i] of the cloud |
| MaskedUpdate.RotateBlock | graph_ter_seg/transforms/local_rotate.py:73 | `np.dot` of the matrix and the block: entry i is block column i rotated by the matrix |
| MaskedUpdate.ScatterPrefix | graph_ter_seg/transforms/local_rotate.py:73 | `y[:, mask] = block` after its first k column writes; keeps N columns; its properties are carried by IsotropicPrefixAt |
| MaskedUpdate.IsotropicUpdate | graph_ter_seg/transforms/local_rotate.py:72-73 | the cloud after the block assignment with one matrix; keeps N columns; its properties are carried by IsotropicAt and RotateMasked |
| MaskedUpdate.AnisotropicPrefixFrame | graph_ter_seg/transforms/local_rotate.py:68-70 | after any number of loop passes, a column that no pass has named still holds its input value |
| MaskedUpdate.AnisotropicPrefixAt | graph_ter_seg/transforms/local_rotate.py:68-70 | with distinct indices, after k passes the column named at position i < k holds its input rotated by the matrix of angle column i |
| MaskedUpdate.IsotropicPrefixAt | graph_ter_seg/transforms/local_rotate.py:73 | after k column writes of the block assignment, a column named among the first k positions holds its rotated input, any other its input |
| MaskedUpdate.AnisotropicUnmasked | graph_ter_seg/transforms/local_rotate.py:66-70 | after the anisotropic loop the cloud has N columns and every column outside the mask is unchanged |
| MaskedUpdate.AnisotropicMasked | graph_ter_seg/transforms/local_rotate.py:67-70 | with distinct indices, after the loop column mask[i] is input column mask[i] rotated by the matrix of angle column i alone |
| MaskedUpdate.IsotropicAt | graph_ter_seg/transforms/local_rotate.py:72-73 | after the block assignment the cloud has N columns; a masked column is its input rotated by the shared matrix, any other column is unchanged |
| MaskedUpdate.IsotropicMatchesAnisotropic | graph_ter_seg/transforms/local_rotate.py:64-73 | with distinct indices and all angle columns equal to p, the per-column loop and the block assignment with the matrix of p give the same cloud |
| LocalRotation.IsAnisotropic | graph_ter_seg/transforms/local_rotate.py:55 | a mode takes the per-point path exactly when the string starts with "aniso"; every other string takes the isotropic path |
| LocalRotation.Parameters | graph_ter_seg/transforms/local_rotate.py:55-64 | the angle array has num_samples columns; in anisotropic mode they are the drawn columns, otherwise every one is the single drawn column |
| LocalRotation.MaskRows | graph_ter_seg/transforms/local_rotate.py:74-76 | the returned mask has three rows, each equal to the sorted index row |
| LocalRotation.QueryResultShape | graph_ter_seg/transforms/local_rotate.py:52 | a query result without the padding index is a row of distinct in-range columns; the padding index occurs exactly when the query asks for more neighbours than there are points |
| LocalRotation.CopyCloud | graph_ter_seg/transforms/local_rotate.py:66 | the copy is a fresh array holding the same columns as the input |
| LocalRotation.SetColumn | graph_ter_seg/transforms/local_rotate.py:70 | writing a column changes that column of the held cloud and no other |
| LocalRotation.RotateColumn | graph_ter_seg/transforms/local_rotate.py:70 | one loop pass replaces column j by the matrix applied to it and leaves the other columns alone |
| LocalRotation.RotateEach | graph_ter_seg/transforms/local_rotate.py:67-70 | the in-place loop leaves the array holding the anisotropic update of the cloud it held |
| LocalRotation.RotateMasked | graph_ter_seg/transforms/local_rotate.py:72-73 | the in-place block assignment leaves the array holding the isotropic update of the cloud it held |
| LocalRotation.LocalRotate.constructor | graph_ter_seg/transforms/local_rotate.py:12-19 | the configuration records the class name, num_samples, the mode and the resolved range |
| LocalRotation.LocalRotate.Default | graph_ter_seg/transforms/local_rotate.py:12-15 | the defaults are 512 sampled points and the mode "isotropic", which takes the isotropic path |
| LocalRotation.LocalRotate.GetConfig | graph_ter_seg/transforms/local_rotate.py:84-91 | the configuration record: class name, num_samples, mode and the resolved range; its content is stated by the constructor's contract |
| LocalRotation.LocalRotate.Expected | graph_ter_seg/transforms/local_rotate.py:48-77 | the outcome of `__call__` as a value, with the error cases in the order the source meets them; its properties are carried by Failures, OutputShapes, UnmaskedPointsUnchanged, AnisotropicPoints, IsotropicPoints and ParametersInRange, and Call is proved to return it |
| LocalRotation.LocalRotate.Call | graph_ter_seg/transforms/local_rotate.py:48-77 | the input array is not modified; an error is reported exactly when the value model errs; otherwise a fresh array holds the expected cloud, and the angles and mask are the expected ones |
| LocalRotation.LocalRotate.Failures | graph_ter_seg/transforms/local_rotate.py:49-73 | a call fails with EmptyCloud exactly on an empty cloud, with ScalarIndex exactly on a non-empty cloud when num_samples is 1, and otherwise with IndexOutOfBounds exactly when the query padded its result; it succeeds in every other case: always when 2 ≤ num_samples ≤ N, never when num_samples exceeds N |
| LocalRotation.LocalRotate.OutputShapes | graph_ter_seg/transforms/local_rotate.py:53-77 | a successful call returns N columns, num_samples angle columns and three identical mask rows, each the neighbour indices in strictly ascending order and in range |
| LocalRotation.LocalRotate.UnmaskedPointsUnchanged | graph_ter_seg/transforms/local_rotate.py:66-73 | in either mode, a column whose index the query did not return keeps its input value |
| LocalRotation.LocalRotate.WholeCloud | graph_ter_seg/transforms/local_rotate.py:52-73 | when num_samples equals N (and is at least 2) the call succeeds, every column index is in the mask, and in isotropic mode every column is rotated by the one shared matrix |
| LocalRotation.LocalRotate.AnisotropicPoints | graph_ter_seg/transforms/local_rotate.py:56-70 | anisotropic mode returns the drawn angles; the column at mask position i is its input rotated by the matrix of angle column i |
| LocalRotation.LocalRotate.IsotropicPoints | graph_ter_seg/transforms/local_rotate.py:61-73 | isotropic mode returns num_samples identical angle columns; a returned neighbour's column is its input rotated by the matrix of that column, any other column is unchanged |
| LocalRotation.LocalRotate.ParametersInRange | graph_ter_seg/transforms/local_rotate.py:56-64 | when the draws lie in [low, high), every returned angle does too |
| LocalRotation.LocalRotate.ConfigDeterminesOutcome | graph_ter_seg/transforms/local_rotate.py:84-91 | two transforms with equal configurations give the same outcome on the same inputs |

## Left out

- The nearest-neighbour search (`cKDTree` and `tree.query`, local_rotate.py:50-52) is a scipy library call. Its result is the input `neighbours`. `QueryResult` states what it can contain: indices up to N, no real index twice, and the padding index N only when more neighbours are asked for than there are points.
- The random draws (`np.random.randint` and `np.random.uniform`, lines 51 and 56-63) read a global random source. The anchor only feeds the query, so it does not appear. The angles are the input `draws`.
- `np.cos`, `np.sin` and floating-point rounding are not modelled. Numbers are reals, and cosine and sine are the two functions of `Trig`.
- Rotation.RotationOrthonormal: proves that the transpose is the inverse, not that det(R) = 1. The determinant of a product of symbolic real matrices is a nonlinear identity that the model does not prove.
- `utils.get_range` and the `Transformer` base class are not part of this model. The constructor takes the already resolved `(low, high)`, and `out_features` is the constant 3.
- `__repr__` (JSON text, lines 79-82) and `main` (printing, lines 94-107) are output only and are left out.
- LocalRotation.LocalRotate.Call: requires a leading dimension of 3. With any other leading dimension the source fails inside `np.dot` against the 3×3 matrix; that failure is not modelled.
- LocalRotation.LocalRotate.Call: requires num_samples ≥ 1. What the scipy query does when asked for zero neighbours is not part of this model.
- The model assumes a floating-point cloud and holds its entries as reals. `__call__` accepts any numeric array, and `x.copy()` keeps its element type. For an integer array, numpy truncates the rotated coordinates toward zero when it writes them back (lines 70 and 73); that truncation is not modelled.
