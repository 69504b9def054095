/**
 * The cases the toolkit's query tests assert, one lemma per test function
 * (the `vf_norm` tests excepted), stated about the model of the shape queries.
 */
module FieldsQueriesCases {
  import opened Queries

  /** A float extent is refused. */
  lemma CheckOmegaType()
    ensures CheckOmega([Int(10), Int(10), Float(10.2)]) == IOError
  {
  }

  /** A domain of length 4 is refused. */
  lemma CheckOmegaWrongDimension4()
    ensures CheckOmega([Int(10), Int(10), Int(10), Int(1)]) == IOError
  {
  }

  /** A domain of length 1 is refused. */
  lemma CheckOmegaWrongDimension1()
    ensures CheckOmega([Int(10)]) == IOError
  {
  }

  /** Three and two integer extents give dimensions 3 and 2. */
  lemma CheckOmegaOk()
    ensures CheckOmega([Int(10), Int(11), Int(12)]) == Ok(3)
    ensures CheckOmega([Int(10), Int(11)]) == Ok(2)
  {
  }

  /** A plain list is not a vector field. */
  lemma CheckIsVfWrongInput()
    ensures CheckIsVf(NotAnArray) == IOError
  {
  }

  /** A rank-1 array is not a vector field. */
  lemma CheckIsVfWrongInputLen()
    ensures CheckIsVf(NdArray([3])) == IOError
  {
  }

  /** Seven components do not fit a 3-D field. */
  lemma CheckIsVfMismatchOmegaLastDimension()
    ensures CheckIsVf(NdArray([10, 10, 10, 1, 7])) == IOError
  {
  }

  /** Multiples of 3 components in 3-D and multiples of 2 in 2-D are accepted. */
  lemma CheckIsVfOk()
    ensures CheckIsVf(NdArray([10, 10, 10, 1, 3])) == Ok(3)
    ensures CheckIsVf(NdArray([10, 10, 10, 1, 9])) == Ok(3)
    ensures CheckIsVf(NdArray([10, 10, 1, 1, 2])) == Ok(2)
    ensures CheckIsVf(NdArray([10, 10, 1, 1, 4])) == Ok(2)
  {
  }

  /** Three spatial axes with two components is not a legal field, so no domain is read. */
  lemma GetOmegaFromVfWrongInput()
    ensures GetOmegaFromVf(NdArray([10, 10, 10, 1, 2])) == IOError
  {
  }

  /** A legal 3-D field gives back its three extents. */
  lemma GetOmegaFromVf3d()
    ensures GetOmegaFromVf(NdArray([10, 10, 10, 1, 3])) == Ok([10, 10, 10])
  {
    assert [10, 10, 10, 1, 3][..3] == [10, 10, 10];
  }

  /** A legal 2-D field gives back its two extents, its third axis dropped. */
  lemma GetOmegaFromVf2d()
    ensures GetOmegaFromVf(NdArray([10, 10, 1, 1, 2])) == Ok([10, 10])
  {
    assert [10, 10, 1, 1, 2][..2] == [10, 10];
  }

  /** A 2-D domain with 3 timepoints pads the third axis with 1 and ends with `(3, 2)`. */
  lemma VfShapeFromOmegaAndTimepointsCase()
    ensures VfShapeFromOmegaAndTimepoints([Int(10), Int(10)], 3) == Ok([10, 10, 1, 3, 2])
  {
    var e := Extents([Int(10), Int(10)]);
    assert e == [10, 10];
    assert seq(1, _ => 1) == [1];
    assert e + seq(1, _ => 1) + [3, 2] == [10, 10, 1, 3, 2];
  }
}
