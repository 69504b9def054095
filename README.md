# Grid/domain layer of VECtorsToolkit, in Dafny

VECtorsToolkit stores a vector field over a discretised domain `omega` (2 or 3
positive integer extents) as a 5-axis numpy array `(x, y, z|1, T, k)`: the
spatial axes (the third one fixed at 1 for a 2-D domain), `T` timepoints and
`k` stored components, a multiple of the dimension `d`. This project models:

- the shape queries `check_omega`, `check_is_vf`, `get_omega_from_vf` and
  `vf_shape_from_omega_and_timepoints` (module `Queries`, file `queries.dfy`),
  as total functions returning a value or the `IOError` the toolkit raises;
- the numpy operations the Eulerian identity is built from:
  `np.meshgrid(..., indexing='ij')`, `np.repeat` without an axis and C-order
  `reshape`. They are modelled on flat sequences (module `NdGrid`, file `nd_grid.dfy`);
- the four identity builders of `generate_identities.py` (module
  `GenerateIdentities`, file `generate_identities.dfy`). The Lagrangian
  identity is the zero field. It is a pure function returning nested sequences.
  The Eulerian identity is the coordinate grid: `vf_identity_eulerian`
  allocates a zero `array5<real>` and assigns whole component slices in place.
  Each slice assignment is one Dafny `forall` statement in `FillSlice`;
- the cases asserted by the query tests, one lemma per test function, the
  `vf_norm` tests excepted (module `FieldsQueriesCases`, file `test_fields_queries.dfy`).

The module `VECtorsToolkit/tools/fields/queries.py` is not part of this model.
The queries' behaviour is fixed here by the cases asserted in
`tests/test_fields_queries.py`, together with the layout described above.
Where those cases are silent, the model uses this rule:

- `check_omega` accepts a sequence of length 2 or 3 whose entries are all Python
  ints greater than 0. A float extent is refused even when it is whole.
- `check_is_vf` accepts a numpy array of rank 5 that meets all of these:
  - the three spatial axes and the timepoint axis are at least 1;
  - the dimension is 2 when axis 2 has length 1, and 3 otherwise;
  - the last axis is a positive multiple of that dimension.

  So a 3-D field with 6 components is accepted.
- `get_omega_from_vf` validates its input with `check_is_vf` and returns the
  first `d` axis lengths.
- `vf_shape_from_omega_and_timepoints` validates its domain with
  `check_omega`, then returns `omega + [1] * (3 - d) + [t, d]`.

One consequence of this rule is proved in `CanonicalShapeRoundTrip`. Take a
3-D domain whose third extent is 1. Its canonical shape `(a, b, 1, T, 3)` reads
back as a 2-D field with 3 components, so `check_is_vf` refuses it.
`queries.py` is not modelled here, so this is recorded as a property of the
chosen rule, not as a defect of the toolkit.

The docstrings of the two `_like` builders swap the words Eulerian and
Lagrangian (`generate_identities.py` lines 63 and 73-74). The model follows the
code: `vf_identity_lagrangian_like` returns zeros of the input's exact shape.
`vf_identity_eulerian_like` returns the coordinate grid over the input's domain
and timepoints, and its last axis is `d` even when the input has `2d` or more
components.

The Lagrangian identity is a nested-sequence `Field` whose shape is stated by
`HasShape`. The Eulerian identity is an `array5<real>` whose shape is `Shape`.
The two representations are not converted into one another. The two identities
have the same shape because each builder's contract equates its shape with
`VfShapeFromOmegaAndTimepoints(omega, t)`. As in the source, both builders
take one timepoint when `t` is not given.

## Model

| member | source | states |
|---|---|---|
| `Queries.CheckOmega` | tests/test_fields_queries.py:11-28 | a domain is accepted iff it has 2 or 3 entries, all of them ints above 0, and the result is then its length (2 or 3) |
| `Queries.CheckIsVf` | tests/test_fields_queries.py:34-53 | a value is accepted iff it is a rank-5 array with positive spatial and timepoint axes whose last axis is a positive multiple of the dimension; the dimension is 2 exactly when axis 2 is 1 |
| `Queries.GetOmegaFromVf` | tests/test_fields_queries.py:59-69 | succeeds exactly when `check_is_vf` does; returns the first `d` axis lengths, which `check_omega` accepts with dimension `d` |
| `Queries.VfShapeFromOmegaAndTimepoints` | tests/test_fields_queries.py:73-74 | succeeds exactly on legal domains; the shape has 5 axes: the extents, 1 up to axis 2, then `t`, then `d` |
| `Queries.CanonicalShapeRoundTrip` | VECtorsToolkit/tools/fields/generate_identities.py:32-35 | the canonical shape of a legal domain is a legal field iff `t >= 1` and the domain is not 3-D with third extent 1; it then reads back the same dimension and domain |
| `Queries.FieldShapeFromItsDomain` | VECtorsToolkit/tools/fields/generate_identities.py:76-77 | the canonical shape built from a legal field's domain and timepoints is the field's shape with last axis `d`; it equals the field's shape iff the field has exactly `d` components |
| `NdGrid.Ravel` | VECtorsToolkit/tools/fields/generate_identities.py:42-43 | the C-order flat position of an in-bounds multi-index is below the number of elements |
| `NdGrid.RavelAppend` | VECtorsToolkit/tools/fields/generate_identities.py:42-43 | reshaping to `omega + [t]`: appending a timepoint axis maps position `p` with timepoint `k` to `p * t + k` |
| `NdGrid.ReshapeAt` | VECtorsToolkit/tools/fields/generate_identities.py:42-43 | the element at `idx` of `flat.reshape(dims)`, read at the C-order position of `idx`; reshaping to a single axis keeps the flat order |
| `NdGrid.RavelInjective` | VECtorsToolkit/tools/fields/generate_identities.py:42-43 | distinct in-bounds multi-indices have distinct flat positions, so a reshape reads no element twice |
| `NdGrid.Unravel` | VECtorsToolkit/tools/fields/generate_identities.py:42-43 | every flat position below the element count is the C-order position of an in-bounds multi-index; with `RavelInjective`, a reshape reads every element exactly once |
| `NdGrid.Repeat` | VECtorsToolkit/tools/fields/generate_identities.py:42-43 | `np.repeat(s, t)` has `t` times as many elements as `s` |
| `NdGrid.RepeatAt` | VECtorsToolkit/tools/fields/generate_identities.py:42-43 | `np.repeat(s, t)` holds `s[i]` at every position `i * t + k`, `k < t` |
| `NdGrid.Meshgrid` | VECtorsToolkit/tools/fields/generate_identities.py:38-40 | a flattened meshgrid component has one element per grid point |
| `NdGrid.MeshgridAt` | VECtorsToolkit/tools/fields/generate_identities.py:46-49 | meshgrid component `c` with `indexing='ij'` holds each grid point's `c`-th coordinate |
| `NdGrid.RepeatedMeshgridAt` | VECtorsToolkit/tools/fields/generate_identities.py:51-53 | `np.repeat(gc, t).reshape(omega + [t])` holds at `(idx, k)` the `c`-th coordinate of `idx`, for every timepoint `k` |
| `GenerateIdentities.Zeros` | VECtorsToolkit/tools/fields/generate_identities.py:23 | `np.zeros(shape)` has that shape and every entry 0 |
| `GenerateIdentities.VfIdentityLagrangian` | VECtorsToolkit/tools/fields/generate_identities.py:15-23 | `t` defaults to 1; fails exactly when `check_omega` does; otherwise all zeros, with the shape `vf_shape_from_omega_and_timepoints(omega, t)` |
| `GenerateIdentities.VfIdentityLagrangianLike` | VECtorsToolkit/tools/fields/generate_identities.py:61-67 | fails exactly when `check_is_vf` does; otherwise all zeros with the input's exact shape, last axis included |
| `GenerateIdentities.LagrangianLikeOfLagrangian` | VECtorsToolkit/tools/fields/generate_identities.py:61-67 | the Lagrangian identity rebuilt from the shape of a legal Lagrangian identity is that identity |
| `GenerateIdentities.FillSlice` | VECtorsToolkit/tools/fields/generate_identities.py:42-43 | one slice assignment puts the `c`-th coordinate of `(x, y, z)` at every `[x, y, z, k, c]` and leaves the other components unchanged |
| `GenerateIdentities.VfIdentityEulerian` | VECtorsToolkit/tools/fields/generate_identities.py:26-58 | `t` defaults to 1; fails exactly when `check_omega` does; otherwise a fresh array of shape `vf_shape_from_omega_and_timepoints(omega, t)` whose entry `[x, y, z, k, c]` is the `c`-th coordinate of `(x, y, z)`, independent of `k` |
| `GenerateIdentities.VfIdentityEulerianLike` | VECtorsToolkit/tools/fields/generate_identities.py:70-77 | fails exactly when `check_is_vf` does; otherwise the Eulerian identity over the input's domain and timepoint count, with last axis `d` |
| `FieldsQueriesCases.CheckOmegaType` | tests/test_fields_queries.py:11-13 | `(10, 10, 10.2)` is refused |
| `FieldsQueriesCases.CheckOmegaWrongDimension4` | tests/test_fields_queries.py:16-18 | `(10, 10, 10, 1)` is refused |
| `FieldsQueriesCases.CheckOmegaWrongDimension1` | tests/test_fields_queries.py:21-23 | `(10,)` is refused |
| `FieldsQueriesCases.CheckOmegaOk` | tests/test_fields_queries.py:26-28 | `(10, 11, 12)` gives 3 and `(10, 11)` gives 2 |
| `FieldsQueriesCases.CheckIsVfWrongInput` | tests/test_fields_queries.py:34-36 | a plain list is refused |
| `FieldsQueriesCases.CheckIsVfWrongInputLen` | tests/test_fields_queries.py:39-41 | a rank-1 array is refused |
| `FieldsQueriesCases.CheckIsVfMismatchOmegaLastDimension` | tests/test_fields_queries.py:44-46 | shape `(10, 10, 10, 1, 7)` is refused |
| `FieldsQueriesCases.CheckIsVfOk` | tests/test_fields_queries.py:49-53 | shapes with last axis 3 or 9 over a 3-D grid give 3, with last axis 2 or 4 over a 2-D grid give 2 |
| `FieldsQueriesCases.GetOmegaFromVfWrongInput` | tests/test_fields_queries.py:59-61 | `(10, 10, 10, 1, 2)` is refused |
| `FieldsQueriesCases.GetOmegaFromVf3d` | tests/test_fields_queries.py:64-65 | `(10, 10, 10, 1, 3)` gives `[10, 10, 10]` |
| `FieldsQueriesCases.GetOmegaFromVf2d` | tests/test_fields_queries.py:68-69 | `(10, 10, 1, 1, 2)` gives `[10, 10]` |
| `FieldsQueriesCases.VfShapeFromOmegaAndTimepointsCase` | tests/test_fields_queries.py:73-74 | `[10, 10]` with 3 timepoints gives `(10, 10, 1, 3, 2)` |

## Left out

- `vf_norm` (tests/test_fields_queries.py:80-92) is not modelled. It needs square roots and floating-point sums.
- Composition, interpolation, the exponential integrators, the PGL(2) generators, benchmarking and plotting are not part of this model.
- Array entries are Dafny `real`s, not float64. Every value the builders write is an integer grid coordinate or 0, so no rounding arises.
- An array handed to `check_is_vf` or a `_like` builder is represented by its shape only. None of the modelled functions read its entries, and its dtype is not modelled.
- The timepoint count is a `nat`. A negative count, which numpy refuses when it allocates the array, is not modelled.
- A domain that is neither a tuple nor a list is not modelled: `omega` is always a sequence of Python numbers.
- The branch `raise IOError("Dimensions allowed: 2, 3")` of `vf_identity_eulerian` (generate_identities.py:55-56) cannot be reached, because `check_omega` has already guaranteed `d` is 2 or 3. The model's `else` branch is the `d == 3` case.
