/**
 * Shape queries of the vector-field toolkit: validating a discretised domain
 * `omega`, validating the 5-axis layout `(x, y, z|1, T, k)` of a vector field,
 * recovering `omega` from a field and building the canonical field shape.
 *
 * Failures are the `IOError` the toolkit raises; every query is total.
 */
module Queries {

  /** A value returned by a query, or the IOError it raises instead. */
  datatype Result<+T> = Ok(value: T) | IOError {
    predicate IsFailure() { IOError? }
    function PropagateFailure<U>(): Result<U> requires IOError? { IOError }
    function Extract(): T requires Ok? { value }
  }

  /** A Python number as it may appear in a domain tuple: an int or a float. */
  datatype Scalar = Int(i: int) | Float(f: real)

  /** The object handed to `check_is_vf`: a numpy array (only its shape is read) or anything else. */
  datatype Value = NdArray(shape: seq<nat>) | NotAnArray

  /** Every entry of the domain is a Python int greater than zero, checked front to back. */
  predicate AllPositiveInts(omega: seq<Scalar>)
    ensures AllPositiveInts(omega) <==> forall a :: 0 <= a < |omega| ==> omega[a].Int? && omega[a].i > 0
  {
    omega == [] || (omega[0].Int? && omega[0].i > 0 && AllPositiveInts(omega[1..]))
  }

  /** `check_omega`: the dimension of a legal domain, an IOError otherwise. */
  function CheckOmega(omega: seq<Scalar>): (r: Result<nat>)
    ensures r.Ok? <==> (|omega| == 2 || |omega| == 3) && forall a :: 0 <= a < |omega| ==> omega[a].Int? && omega[a].i > 0
    ensures r.Ok? ==> r.value == |omega| && 2 <= r.value <= 3
  {
    if |omega| != 2 && |omega| != 3 then IOError
    else if !AllPositiveInts(omega) then IOError
    else Ok(|omega|)
  }

  /** The grid extents of a domain `check_omega` accepts, as naturals. */
  function Extents(omega: seq<Scalar>): (e: seq<nat>)
    requires CheckOmega(omega).Ok?
    ensures |e| == |omega| && forall a :: 0 <= a < |e| ==> omega[a] == Int(e[a]) && e[a] > 0
  {
    seq(|omega|, a requires 0 <= a < |omega| => omega[a].i as nat)
  }

  /** A list of Python ints, as `get_omega_from_vf` returns it and `check_omega` reads it. */
  function AsScalars(e: seq<nat>): (omega: seq<Scalar>)
    ensures |omega| == |e| && forall a :: 0 <= a < |e| ==> omega[a] == Int(e[a])
  {
    seq(|e|, a requires 0 <= a < |e| => Int(e[a]))
  }

  /** The dimension a rank-5 shape encodes: a third axis of length 1 marks a 2-D field. */
  function SpatialDim(shape: seq<nat>): (d: nat)
    requires |shape| == 5
    ensures d == 2 || d == 3
  {
    if shape[2] == 1 then 2 else 3
  }

  /** `check_is_vf`: the dimension of a legal vector field, an IOError otherwise. */
  function CheckIsVf(v: Value): (r: Result<nat>)
    ensures r.Ok? <==>
      && v.NdArray? && |v.shape| == 5
      && v.shape[0] >= 1 && v.shape[1] >= 1 && v.shape[2] >= 1 && v.shape[3] >= 1
      && v.shape[4] >= 1 && v.shape[4] % SpatialDim(v.shape) == 0
    ensures r.Ok? ==> r.value == SpatialDim(v.shape)
    ensures r.Ok? ==> (r.value == 2 <==> v.shape[2] == 1)
  {
    if !v.NdArray? then IOError
    else if |v.shape| != 5 then IOError
    else if v.shape[0] == 0 || v.shape[1] == 0 || v.shape[2] == 0 || v.shape[3] == 0 then IOError
    else
      var d := SpatialDim(v.shape);
      if v.shape[4] == 0 || v.shape[4] % d != 0 then IOError
      else Ok(d)
  }

  /** `get_omega_from_vf`: the spatial extents of a legal field (its third axis dropped in 2-D). */
  function GetOmegaFromVf(v: Value): (r: Result<seq<nat>>)
    ensures r.Ok? <==> CheckIsVf(v).Ok?
    ensures r.Ok? ==> |r.value| == CheckIsVf(v).value && r.value == v.shape[..|r.value|]
    ensures r.Ok? ==> CheckOmega(AsScalars(r.value)) == Ok(|r.value|)
  {
    var d :- CheckIsVf(v);
    Ok(v.shape[..d])
  }

  /** `vf_shape_from_omega_and_timepoints`: the canonical field shape of a domain and a number of timepoints. */
  function VfShapeFromOmegaAndTimepoints(omega: seq<Scalar>, t: nat): (r: Result<seq<nat>>)
    ensures r.Ok? <==> CheckOmega(omega).Ok?
    ensures r.Ok? ==>
      && |r.value| == 5
      && r.value[..|omega|] == Extents(omega)
      && (forall a :: |omega| <= a < 3 ==> r.value[a] == 1)
      && r.value[3] == t && r.value[4] == |omega|
  {
    var d :- CheckOmega(omega);
    Ok(Extents(omega) + seq(3 - d, _ => 1) + [t, d])
  }

  /**
   * The canonical shape of a legal domain is a legal field shape exactly when
   * there is at least one timepoint and the domain is not a 3-D domain whose
   * third extent is 1 (that one reads back as a 2-D field with 3 components);
   * when it is legal, the field gives back the domain and its dimension.
   */
  lemma CanonicalShapeRoundTrip(omega: seq<Scalar>, t: nat)
    requires CheckOmega(omega).Ok?
    ensures var s := VfShapeFromOmegaAndTimepoints(omega, t).value;
      CheckIsVf(NdArray(s)).Ok? <==> t >= 1 && !(|omega| == 3 && omega[2] == Int(1))
    ensures var s := VfShapeFromOmegaAndTimepoints(omega, t).value;
      CheckIsVf(NdArray(s)).Ok? ==>
        CheckIsVf(NdArray(s)) == Ok(|omega|) && GetOmegaFromVf(NdArray(s)) == Ok(Extents(omega))
  {
  }

  /**
   * A legal field's shape is rebuilt by the canonical shape of the domain and
   * timepoints read from it, except the last axis, which becomes the dimension.
   */
  lemma FieldShapeFromItsDomain(v: Value)
    requires CheckIsVf(v).Ok?
    ensures var d := CheckIsVf(v).value;
      VfShapeFromOmegaAndTimepoints(AsScalars(GetOmegaFromVf(v).value), v.shape[3]) == Ok(v.shape[..4] + [d])
    ensures var d := CheckIsVf(v).value;
      VfShapeFromOmegaAndTimepoints(AsScalars(GetOmegaFromVf(v).value), v.shape[3]) == Ok(v.shape) <==> v.shape[4] == d
  {
    var d := CheckIsVf(v).value;
    var omega := AsScalars(GetOmegaFromVf(v).value);
    var s := VfShapeFromOmegaAndTimepoints(omega, v.shape[3]).value;
    assert s[..d] == v.shape[..d];
    assert s == v.shape[..4] + [d] by {
      forall a | 0 <= a < 5 ensures s[a] == (v.shape[..4] + [d])[a] {
        if a < d { assert s[a] == s[..d][a]; }
      }
    }
    if v.shape[4] == d {
      assert v.shape == v.shape[..4] + [d];
    } else {
      assert s[4] != v.shape[4];
    }
  }
}
