/**
 * The three numpy operations the Eulerian identity is built from, on flat
 * arrays in C (row-major) order: `np.meshgrid(..., indexing='ij')`,
 * `np.repeat(a, t)` (no axis: the array is flattened first) and
 * `reshape(dims)`.
 */
module NdGrid {

  /** Number of elements of an array with axis lengths `dims`. */
  function Prod(dims: seq<nat>): (n: nat)
  {
    if dims == [] then 1 else dims[0] * Prod(dims[1..])
  }

  /** `idx` is a valid multi-index into an array with axis lengths `dims`. */
  predicate InBounds(idx: seq<nat>, dims: seq<nat>)
  {
    |idx| == |dims| && forall a :: 0 <= a < |idx| ==> idx[a] < dims[a]
  }

  lemma MulMono(a: nat, b: nat, c: nat)
    requires a <= b
    ensures a * c <= b * c
  {
  }

  /** Position of the multi-index `idx` in the C-order flattening of the array. */
  function Ravel(idx: seq<nat>, dims: seq<nat>): (p: nat)
    requires InBounds(idx, dims)
    ensures p < Prod(dims)
  {
    if idx == [] then 0
    else
      assert InBounds(idx[1..], dims[1..]);
      var rest, q := Ravel(idx[1..], dims[1..]), Prod(dims[1..]);
      MulMono(idx[0] + 1, dims[0], q);
      assert (idx[0] + 1) * q == idx[0] * q + q;
      idx[0] * q + rest
  }

  /** The element at multi-index `idx` of `flat.reshape(dims)`. */
  function ReshapeAt<T>(flat: seq<T>, dims: seq<nat>, idx: seq<nat>): (r: T)
    requires |flat| == Prod(dims) && InBounds(idx, dims)
    ensures |dims| == 1 ==> idx[0] < |flat| && r == flat[idx[0]]
  {
    flat[Ravel(idx, dims)]
  }

  /** Distinct multi-indices have distinct C-order positions: a reshape reads no element twice. */
  lemma {:induction false} RavelInjective(i: seq<nat>, j: seq<nat>, dims: seq<nat>)
    requires InBounds(i, dims) && InBounds(j, dims)
    ensures Ravel(i, dims) == Ravel(j, dims) ==> i == j
  {
    if i != [] {
      assert InBounds(i[1..], dims[1..]) && InBounds(j[1..], dims[1..]);
      var p := Prod(dims[1..]);
      var ri, rj := Ravel(i[1..], dims[1..]), Ravel(j[1..], dims[1..]);
      assert Ravel(i, dims) == i[0] * p + ri && Ravel(j, dims) == j[0] * p + rj;
      if i[0] < j[0] {
        MulMono(i[0] + 1, j[0], p);
        assert (i[0] + 1) * p == i[0] * p + p;
      } else if j[0] < i[0] {
        MulMono(j[0] + 1, i[0], p);
        assert (j[0] + 1) * p == j[0] * p + p;
      } else {
        RavelInjective(i[1..], j[1..], dims[1..]);
        if i[1..] == j[1..] {
          assert i == [i[0]] + i[1..] && j == [j[0]] + j[1..];
        }
      }
    }
  }

  /**
   * The multi-index at flat position `p` of an array with axis lengths `dims`:
   * every flat position is reached by `Ravel`, so with `RavelInjective` a
   * reshape reads every element exactly once.
   */
  function Unravel(p: nat, dims: seq<nat>): (idx: seq<nat>)
    requires p < Prod(dims)
    ensures InBounds(idx, dims) && Ravel(idx, dims) == p
  {
    if dims == [] then []
    else
      var q := Prod(dims[1..]);
      assert q > 0;
      var (i, r) := BlockOffset(p, q);
      BlockBelow(p, q, dims[0], i, r);
      var rest := Unravel(r, dims[1..]);
      RavelCons(i, rest, dims);
      [i] + rest
  }

  /** Position `p` as `i` whole blocks of length `q` plus an offset `r < q`. */
  function BlockOffset(p: nat, q: nat): (ir: (nat, nat))
    requires q > 0
    ensures ir.0 * q + ir.1 == p && ir.1 < q
  {
    if p < q then (0, p)
    else
      var (i, r) := BlockOffset(p - q, q);
      assert (i + 1) * q == i * q + q;
      (i + 1, r)
  }

  lemma BlockBelow(p: nat, q: nat, n: nat, i: nat, r: nat)
    requires i * q + r == p && p < n * q
    ensures i < n
  {
    if i >= n { MulMono(n, i, q); }
  }

  /** Prepending an index on axis 0 moves the flat position by whole blocks of the remaining axes. */
  lemma RavelCons(i: nat, rest: seq<nat>, dims: seq<nat>)
    requires dims != [] && i < dims[0] && InBounds(rest, dims[1..])
    ensures InBounds([i] + rest, dims)
    ensures Ravel([i] + rest, dims) == i * Prod(dims[1..]) + Ravel(rest, dims[1..])
  {
    var idx := [i] + rest;
    assert idx[1..] == rest;
    assert InBounds(idx, dims) by {
      forall a | 0 <= a < |idx| ensures idx[a] < dims[a] {
        if a > 0 { assert idx[a] == rest[a - 1]; }
      }
    }
  }

  /** `np.repeat(s, t)` of a flat array: each element repeated `t` times in place. */
  function Repeat<T>(s: seq<T>, t: nat): (r: seq<T>)
    ensures |r| == |s| * t
  {
    if s == [] then [] else seq(t, _ => s[0]) + Repeat(s[1..], t)
  }

  /** Component `c` of `np.meshgrid(range(dims[0]), range(dims[1]), ..., indexing='ij')`, flattened. */
  function Meshgrid(dims: seq<nat>, c: nat): (g: seq<nat>)
    requires c < |dims|
    ensures |g| == Prod(dims)
    decreases |dims|, 1
  {
    MeshRows(dims, c, dims[0])
  }

  /**
   * The first `n` rows (sub-arrays along axis 0) of a meshgrid component, flattened:
   * row `i` of component 0 is `i` everywhere, row `i` of component `c > 0` is
   * component `c - 1` of the grid over the remaining axes.
   */
  function MeshRows(dims: seq<nat>, c: nat, n: nat): (g: seq<nat>)
    requires c < |dims|
    ensures |g| == n * Prod(dims[1..])
    decreases |dims|, 0, n
  {
    if n == 0 then []
    else MeshRows(dims, c, n - 1) + (if c == 0 then seq(Prod(dims[1..]), _ => n - 1) else Meshgrid(dims[1..], c - 1))
  }

  lemma {:induction false} ProdAppend(dims: seq<nat>, t: nat)
    ensures Prod(dims + [t]) == Prod(dims) * t
  {
    if dims != [] {
      assert (dims + [t])[1..] == dims[1..] + [t];
      ProdAppend(dims[1..], t);
      assert dims[0] * (Prod(dims[1..]) * t) == (dims[0] * Prod(dims[1..])) * t;
    }
  }

  lemma Distribute(a: nat, p: nat, q: nat, t: nat)
    ensures a * (p * t) + (q * t) == (a * p + q) * t
  {
  }

  /** Appending an axis of length `t` multiplies every flat position by `t`. */
  lemma {:induction false} RavelAppend(idx: seq<nat>, dims: seq<nat>, k: nat, t: nat)
    requires InBounds(idx, dims) && k < t
    ensures InBounds(idx + [k], dims + [t])
    ensures Ravel(idx + [k], dims + [t]) == Ravel(idx, dims) * t + k
  {
    assert InBounds(idx + [k], dims + [t]) by {
      forall a | 0 <= a < |idx + [k]| ensures (idx + [k])[a] < (dims + [t])[a] {
        if a < |idx| { assert (idx + [k])[a] == idx[a]; }
      }
    }
    if idx != [] {
      var i, d := idx + [k], dims + [t];
      assert i[1..] == idx[1..] + [k] && d[1..] == dims[1..] + [t];
      assert InBounds(idx[1..], dims[1..]);
      RavelAppend(idx[1..], dims[1..], k, t);
      ProdAppend(dims[1..], t);
      Distribute(idx[0], Prod(dims[1..]), Ravel(idx[1..], dims[1..]), t);
    }
  }

  /** Element `k` of the `i`-th block of `np.repeat(s, t)` is `s[i]`. */
  lemma {:induction false} RepeatAt<T>(s: seq<T>, t: nat, i: nat, k: nat)
    requires i < |s| && k < t
    ensures i * t + k < |Repeat(s, t)| && Repeat(s, t)[i * t + k] == s[i]
  {
    MulMono(i + 1, |s|, t);
    if i > 0 {
      RepeatAt(s[1..], t, i - 1, k);
      assert i * t + k == t + ((i - 1) * t + k);
    }
  }

  /** Row `j`, offset `q` of the first `n` meshgrid rows is row `j`'s element `q`. */
  lemma {:induction false} MeshRowsAt(dims: seq<nat>, c: nat, n: nat, j: nat, q: nat)
    requires c < |dims| && j < n && q < Prod(dims[1..])
    ensures j * Prod(dims[1..]) + q < |MeshRows(dims, c, n)|
    ensures MeshRows(dims, c, n)[j * Prod(dims[1..]) + q] ==
      if c == 0 then j else Meshgrid(dims[1..], c - 1)[q]
  {
    var p := Prod(dims[1..]);
    MulMono(j + 1, n, p);
    if j < n - 1 {
      MeshRowsAt(dims, c, n - 1, j, q);
      MulMono(j + 1, n - 1, p);
    } else {
      assert j * p == (n - 1) * p;
    }
  }

  /** The meshgrid component `c` holds, at every grid point, that point's `c`-th coordinate. */
  lemma {:induction false} MeshgridAt(dims: seq<nat>, c: nat, idx: seq<nat>)
    requires c < |dims| && InBounds(idx, dims)
    ensures Meshgrid(dims, c)[Ravel(idx, dims)] == idx[c]
    decreases |dims|
  {
    assert InBounds(idx[1..], dims[1..]);
    MeshRowsAt(dims, c, dims[0], idx[0], Ravel(idx[1..], dims[1..]));
    if c > 0 {
      MeshgridAt(dims[1..], c - 1, idx[1..]);
    }
  }

  /**
   * `np.repeat(gc, t).reshape(dims + [t])`, for the meshgrid component `gc`,
   * holds at `idx + [k]` the `c`-th coordinate of `idx`, whatever the
   * timepoint `k`: every grid value is repeated across the `t` timepoints.
   */
  lemma RepeatedMeshgridAt(dims: seq<nat>, c: nat, t: nat, idx: seq<nat>, k: nat)
    requires c < |dims| && InBounds(idx, dims) && k < t
    ensures |Repeat(Meshgrid(dims, c), t)| == Prod(dims + [t])
    ensures InBounds(idx + [k], dims + [t])
    ensures ReshapeAt(Repeat(Meshgrid(dims, c), t), dims + [t], idx + [k]) == idx[c]
  {
    ProdAppend(dims, t);
    RavelAppend(idx, dims, k, t);
    RepeatAt(Meshgrid(dims, c), t, Ravel(idx, dims), k);
    MeshgridAt(dims, c, idx);
  }
}
