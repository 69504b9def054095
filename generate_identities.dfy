/**
 * The identity vector field of a domain, in both coordinate conventions.
 * In Lagrangian coordinates (displacement) the identity is the zero field;
 * in Eulerian coordinates (deformation) it is the coordinate grid, each
 * grid point holding its own coordinates at every timepoint.
 */
module GenerateIdentities {
  import opened Queries
  import opened NdGrid

  /** A 5-axis numpy array `(x, y, z|1, T, k)` as nested sequences. */
  type Field = seq<seq<seq<seq<seq<real>>>>>

  /** `f` has the 5-axis shape `s`. */
  ghost predicate HasShape(f: Field, s: seq<nat>)
  {
    && |s| == 5 && |f| == s[0]
    && (forall x :: 0 <= x < |f| ==> |f[x]| == s[1])
    && (forall x, y :: 0 <= x < |f| && 0 <= y < |f[x]| ==> |f[x][y]| == s[2])
    && (forall x, y, z :: 0 <= x < |f| && 0 <= y < |f[x]| && 0 <= z < |f[x][y]| ==> |f[x][y][z]| == s[3])
    && (forall x, y, z, k :: 0 <= x < |f| && 0 <= y < |f[x]| && 0 <= z < |f[x][y]| && 0 <= k < |f[x][y][z]| ==>
          |f[x][y][z][k]| == s[4])
  }

  /** Every entry of `f` is zero. */
  ghost predicate IsZero(f: Field)
  {
    forall x, y, z, k, c ::
      0 <= x < |f| && 0 <= y < |f[x]| && 0 <= z < |f[x][y]| && 0 <= k < |f[x][y][z]| && 0 <= c < |f[x][y][z][k]| ==>
        f[x][y][z][k][c] == 0.0
  }

  /** `np.zeros(s)` for a 5-axis shape. */
  function Zeros(s: seq<nat>): (f: Field)
    requires |s| == 5
    ensures HasShape(f, s) && IsZero(f)
  {
    seq(s[0], _ => seq(s[1], _ => seq(s[2], _ => seq(s[3], _ => seq(s[4], _ => 0.0)))))
  }

  /** `vf_identity_lagrangian`: the zero field over `omega` with `t` timepoints and `d` components. */
  function VfIdentityLagrangian(omega: seq<Scalar>, t: nat := 1): (r: Result<Field>)
    ensures r.Ok? <==> CheckOmega(omega).Ok?
    ensures r.Ok? ==> HasShape(r.value, VfShapeFromOmegaAndTimepoints(omega, t).value) && IsZero(r.value)
  {
    var d :- CheckOmega(omega);
    Ok(Zeros(Extents(omega) + seq(3 - d, _ => 1) + [t, d]))
  }

  /** `vf_identity_lagrangian_like`: the zero field with exactly the shape of a legal field, last axis included. */
  function VfIdentityLagrangianLike(v: Value): (r: Result<Field>)
    ensures r.Ok? <==> CheckIsVf(v).Ok?
    ensures r.Ok? ==> HasShape(r.value, v.shape) && IsZero(r.value)
  {
    var d :- CheckIsVf(v);
    Ok(Zeros(v.shape))
  }

  /**
   * Rebuilding the Lagrangian identity from the shape of a Lagrangian
   * identity gives it back, whenever that shape is a legal field.
   */
  lemma LagrangianLikeOfLagrangian(omega: seq<Scalar>, t: nat)
    requires CheckOmega(omega).Ok? && t >= 1 && !(|omega| == 3 && omega[2] == Int(1))
    ensures VfIdentityLagrangianLike(NdArray(VfShapeFromOmegaAndTimepoints(omega, t).value)) == VfIdentityLagrangian(omega, t)
  {
  }

  /** The axis lengths of a 5-axis array, as a shape. */
  function Shape(a: array5<real>): (s: seq<nat>)
    ensures |s| == 5
  {
    [a.Length0, a.Length1, a.Length2, a.Length3, a.Length4]
  }

  /** The identity position of component `c` at grid point `(x, y, z)`: its `c`-th coordinate. */
  function GridCoordinate(x: nat, y: nat, z: nat, c: nat): (v: real)
  {
    if c == 0 then x as real else if c == 1 then y as real else z as real
  }

  /** Every entry `[x, y, z, k, c]` of `a` is the `c`-th coordinate of `(x, y, z)`, whatever `k`. */
  ghost predicate IsEulerianIdentity(a: array5<real>)
    reads a
  {
    forall x, y, z, k, c ::
      0 <= x < a.Length0 && 0 <= y < a.Length1 && 0 <= z < a.Length2 && 0 <= k < a.Length3 && 0 <= c < a.Length4 ==>
        a[x, y, z, k, c] == GridCoordinate(x, y, z, c)
  }

  /** The spatial multi-index of grid point `(x, y, z)` in a `d`-dimensional domain. */
  function SpatialIndex(x: nat, y: nat, z: nat, d: nat): (idx: seq<nat>)
    ensures |idx| == (if d == 2 then 2 else 3)
  {
    if d == 2 then [x, y] else [x, y, z]
  }

  /**
   * One slice assignment `id_vf[..., c] = np.repeat(gc, t).reshape(omega + [t])`:
   * component `c` receives the meshgrid component `c` repeated over the
   * timepoints (in 2-D the single index of axis 2 is 0). The other
   * components are left as they were.
   */
  method FillSlice(idVf: array5<real>, dims: seq<nat>, t: nat, c: nat)
    requires |dims| == 2 || |dims| == 3
    requires idVf.Length0 == dims[0] && idVf.Length1 == dims[1]
    requires idVf.Length2 == (if |dims| == 2 then 1 else dims[2])
    requires idVf.Length3 == t && c < |dims| == idVf.Length4
    modifies idVf
    ensures forall x, y, z, k | 0 <= x < idVf.Length0 && 0 <= y < idVf.Length1 && 0 <= z < idVf.Length2 && 0 <= k < t ::
      idVf[x, y, z, k, c] == GridCoordinate(x, y, z, c)
    ensures forall x, y, z, k, e | 0 <= x < idVf.Length0 && 0 <= y < idVf.Length1 && 0 <= z < idVf.Length2 && 0 <= k < t && 0 <= e < idVf.Length4 && e != c ::
      idVf[x, y, z, k, e] == old(idVf[x, y, z, k, e])
  {
    var d := |dims|;
    var slabShape := dims + [t];
    var g := Repeat(Meshgrid(dims, c), t);
    ProdAppend(dims, t);
    forall x, y, z, k | 0 <= x < idVf.Length0 && 0 <= y < idVf.Length1 && 0 <= z < idVf.Length2 && 0 <= k < t
      ensures InBounds(SpatialIndex(x, y, z, d) + [k], slabShape)
      ensures ReshapeAt(g, slabShape, SpatialIndex(x, y, z, d) + [k]) as real == GridCoordinate(x, y, z, c)
    {
      RepeatedMeshgridAt(dims, c, t, SpatialIndex(x, y, z, d), k);
    }
    forall x, y, z, k | 0 <= x < idVf.Length0 && 0 <= y < idVf.Length1 && 0 <= z < idVf.Length2 && 0 <= k < t {
      idVf[x, y, z, k, c] := ReshapeAt(g, slabShape, SpatialIndex(x, y, z, d) + [k]) as real;
    }
  }

  /**
   * `vf_identity_eulerian`: allocates a zero field of the canonical shape and
   * fills component slice `c` with the meshgrid component `c` repeated across
   * the timepoints.
   */
  method VfIdentityEulerian(omega: seq<Scalar>, t: nat := 1) returns (r: Result<array5<real>>)
    ensures r.IOError? <==> CheckOmega(omega).IOError?
    ensures r.Ok? ==> fresh(r.value)
    ensures r.Ok? ==> Shape(r.value) == VfShapeFromOmegaAndTimepoints(omega, t).value
    ensures r.Ok? ==> IsEulerianIdentity(r.value)
  {
    var d :- CheckOmega(omega);
    var dims := Extents(omega);
    var vShape := VfShapeFromOmegaAndTimepoints(omega, t).value;
    var idVf := new real[vShape[0], vShape[1], vShape[2], vShape[3], vShape[4]]((_, _, _, _, _) => 0.0);
    assert vShape[..d] == dims;
    assert forall a :: 0 <= a < d ==> vShape[a] == dims[a];
    if d == 2 {
      FillSlice(idVf, dims, t, 0);
      FillSlice(idVf, dims, t, 1);
    } else {
      FillSlice(idVf, dims, t, 0);
      FillSlice(idVf, dims, t, 1);
      FillSlice(idVf, dims, t, 2);
    }
    r := Ok(idVf);
  }

  /**
   * `vf_identity_eulerian_like`: the Eulerian identity over the domain and
   * timepoints of a legal field. Its last axis is the dimension `d`, even
   * when the input carries a larger multiple of `d` components.
   */
  method VfIdentityEulerianLike(v: Value) returns (r: Result<array5<real>>)
    ensures r.IOError? <==> CheckIsVf(v).IOError?
    ensures r.Ok? ==> fresh(r.value)
    ensures r.Ok? ==> Shape(r.value) == v.shape[..4] + [CheckIsVf(v).value]
    ensures r.Ok? ==> IsEulerianIdentity(r.value)
  {
    var d :- CheckIsVf(v);
    var omega := GetOmegaFromVf(v).value;
    FieldShapeFromItsDomain(v);
    r := VfIdentityEulerian(AsScalars(omega), v.shape[3]);
  }
}
