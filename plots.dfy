/**
 * The two data-shaping helpers of gpry/plots.py: the grid of points along
 * one coordinate used to draw slices of the model (`param_samples_for_slices`)
 * and the normalisation of reference bounds to five entries per parameter
 * (`_prepare_reference`).
 */
module Plots {
  import opened Outcomes

  // ---------------------------------------------------------------------
  // Slices
  // ---------------------------------------------------------------------

  datatype SliceError =
    | NegativeCount     // np.linspace with a negative number of samples
    | IndexOutOfRange   // the sliced coordinate is not an index of the last axis

  /** Whether `i` indexes an axis of length `d`, Python style (negative counts from the end). */
  predicate IsIndex(i: int, d: nat) {
    -(d as int) <= i < d
  }

  /** The non-negative position `i` denotes on an axis of length `d`. */
  function Wrap(i: int, d: nat): (c: nat)
    requires IsIndex(i, d)
    ensures c < d
    ensures c == i || c == i + d
  {
    if i < 0 then i + d else i
  }

  /**
   * `np.linspace(lo, hi, n)`: `n` values from `lo` to `hi` inclusive, evenly
   * spaced; a single value is `lo`. NumPy computes `lo + k * step` and then
   * writes `hi` into the last slot; the reals here are exact.
   */
  function Linspace(lo: real, hi: real, n: nat): (r: seq<real>)
    ensures |r| == n
    ensures n >= 1 ==> r[0] == lo
    ensures n >= 2 ==> r[n - 1] == hi
    ensures n >= 2 ==> forall k :: 0 <= k < n - 1 ==> r[k + 1] - r[k] == (hi - lo) / (n - 1) as real
  {
    if n <= 1 then seq(n, k => lo)
    else
      var step := (hi - lo) / (n - 1) as real;
      LastStepReachesEnd(lo, hi, n);
      seq(n, k requires 0 <= k < n => if k == n - 1 then hi else lo + k as real * step)
  }

  lemma LastStepReachesEnd(lo: real, hi: real, n: nat)
    requires n >= 2
    ensures lo + (n - 2) as real * ((hi - lo) / (n - 1) as real) + (hi - lo) / (n - 1) as real == hi
  {
    var step := (hi - lo) / (n - 1) as real;
    calc {
      lo + (n - 2) as real * step + step;
      lo + (n - 1) as real * step;
      { assert (n - 1) as real * step == hi - lo; }
      hi;
    }
  }

  /** Every row of `X` has `d` coordinates (X is a 2-D array). */
  predicate Rows(X: seq<seq<real>>, d: nat) {
    forall j :: 0 <= j < |X| ==> |X[j]| == d
  }

  /** Whether (j, k, c) is a position of the grid `a`. */
  predicate InGrid(a: array3<real>, j: int, k: int, c: int) {
    0 <= j < a.Length0 && 0 <= k < a.Length1 && 0 <= c < a.Length2
  }

  /** Writes `row` into a[j, k, ..], leaving every other point of the grid alone. */
  method FillPoint(a: array3<real>, j: nat, k: nat, row: seq<real>)
    requires j < a.Length0 && k < a.Length1 && |row| == a.Length2
    modifies a
    ensures forall c :: 0 <= c < a.Length2 ==> a[j, k, c] == row[c]
    ensures forall j', k', c :: InGrid(a, j', k', c) && (j' != j || k' != k) ==> a[j', k', c] == old(a[j', k', c])
  {
    var c := 0;
    while c < a.Length2
      invariant 0 <= c <= a.Length2
      invariant forall c' :: 0 <= c' < c ==> a[j, k, c'] == row[c']
      invariant forall j', k', c' :: InGrid(a, j', k', c') && (j' != j || k' != k || c' >= c) ==>
        a[j', k', c'] == old(a[j', k', c'])
    {
      a[j, k, c] := row[c];
      c := c + 1;
    }
  }

  /** `X_slices[j, :, :] = n * [X_j]`. */
  method FillRow(a: array3<real>, j: nat, row: seq<real>)
    requires j < a.Length0 && |row| == a.Length2
    modifies a
    ensures forall k, c :: 0 <= k < a.Length1 && 0 <= c < a.Length2 ==> a[j, k, c] == row[c]
    ensures forall j', k, c :: InGrid(a, j', k, c) && j' != j ==> a[j', k, c] == old(a[j', k, c])
  {
    var k := 0;
    while k < a.Length1
      invariant 0 <= k <= a.Length1
      invariant forall k', c :: 0 <= k' < k && 0 <= c < a.Length2 ==> a[j, k', c] == row[c]
      invariant forall j', k', c :: InGrid(a, j', k', c) && (j' != j || k' >= k) ==> a[j', k', c] == old(a[j', k', c])
    {
      FillPoint(a, j, k, row);
      k := k + 1;
    }
  }

  /** The loop over `enumerate(X)`: every point of slice j starts as a copy of X[j]. */
  method FillRows(a: array3<real>, X: seq<seq<real>>)
    requires a.Length0 == |X| && Rows(X, a.Length2)
    modifies a
    ensures forall j, k, c :: 0 <= j < a.Length0 && 0 <= k < a.Length1 && 0 <= c < a.Length2 ==> a[j, k, c] == X[j][c]
  {
    var j := 0;
    while j < a.Length0
      invariant 0 <= j <= a.Length0
      invariant forall j', k, c :: 0 <= j' < j && 0 <= k < a.Length1 && 0 <= c < a.Length2 ==> a[j', k, c] == X[j'][c]
    {
      FillRow(a, j, X[j]);
      j := j + 1;
    }
  }

  /** `X_slices[j, :, col] = xs` for one j. */
  method SetColumnOfRow(a: array3<real>, j: nat, col: nat, xs: seq<real>)
    requires j < a.Length0 && col < a.Length2 && |xs| == a.Length1
    modifies a
    ensures forall j', k, c :: 0 <= j' < a.Length0 && 0 <= k < a.Length1 && 0 <= c < a.Length2 ==>
      a[j', k, c] == if j' == j && c == col then xs[k] else old(a[j', k, c])
  {
    var k := 0;
    while k < a.Length1
      invariant 0 <= k <= a.Length1
      invariant forall j', k', c :: 0 <= j' < a.Length0 && 0 <= k' < a.Length1 && 0 <= c < a.Length2 ==>
        a[j', k', c] == if j' == j && c == col && k' < k then xs[k'] else old(a[j', k', c])
    {
      a[j, k, col] := xs[k];
      k := k + 1;
    }
  }

  /** `X_slices[:, :, col] = xs`. */
  method SetColumn(a: array3<real>, col: nat, xs: seq<real>)
    requires col < a.Length2 && |xs| == a.Length1
    modifies a
    ensures forall j, k, c :: 0 <= j < a.Length0 && 0 <= k < a.Length1 && 0 <= c < a.Length2 ==>
      a[j, k, c] == if c == col then xs[k] else old(a[j, k, c])
  {
    var j := 0;
    while j < a.Length0
      invariant 0 <= j <= a.Length0
      invariant forall j', k, c :: 0 <= j' < a.Length0 && 0 <= k < a.Length1 && 0 <= c < a.Length2 ==>
        a[j', k, c] == if j' < j && c == col then xs[k] else old(a[j', k, c])
    {
      SetColumnOfRow(a, j, col, xs);
      j := j + 1;
    }
  }

  /**
   * `param_samples_for_slices(X, i, (lo, hi), n)` for a 2-D `X` whose rows
   * have `d` coordinates: an array of shape (|X|, n, d) in which slice j,
   * point k is X[j] with coordinate i replaced by the k-th grid value.
   */
  method ParamSamplesForSlices(X: seq<seq<real>>, d: nat, i: int, lo: real, hi: real, n: int)
    returns (r: Result<array3<real>, SliceError>)
    requires Rows(X, d)
    ensures n < 0 ==> r == Failure(NegativeCount)
    ensures n >= 0 && !IsIndex(i, d) ==> r == Failure(IndexOutOfRange)
    ensures n >= 0 && IsIndex(i, d) ==> r.Success?
    ensures r.Success? ==>
      && fresh(r.value)
      && r.value.Length0 == |X| && r.value.Length1 == n && r.value.Length2 == d
      && forall j, k, c :: 0 <= j < |X| && 0 <= k < n && 0 <= c < d ==>
           r.value[j, k, c] == if c == Wrap(i, d) then Linspace(lo, hi, n)[k] else X[j][c]
  {
    if n < 0 {
      return Failure(NegativeCount);
    }
    var xs := Linspace(lo, hi, n);
    var a := new real[|X|, n, d];
    FillRows(a, X);
    if !IsIndex(i, d) {
      return Failure(IndexOutOfRange);
    }
    SetColumn(a, Wrap(i, d), xs);
    return Success(a);
  }

  // ---------------------------------------------------------------------
  // Reference bounds
  // ---------------------------------------------------------------------

  /** One reference value: a number, or a list whose entries may be None. */
  datatype RefValue = Num(x: real) | List(items: seq<Option<real>>)

  /** The `reference` argument: a mapping from parameter names, or values in parameter order. */
  datatype Reference = Mapping(m: map<string, RefValue>) | Ordered(vals: seq<RefValue>)

  datatype RefError =
    | WrongCount            // an ordered reference without one entry per parameter
    | BadLength(p: string)  // a list that is neither a single central value nor five values

  /** `[None] * 5`. */
  const NoBounds: seq<Option<real>> := [None, None, None, None, None]

  /** A central value with no bounds: `[None, None, v, None, None]`. */
  function Centred(v: Option<real>): (r: seq<Option<real>>)
    ensures |r| == 5 && r[2] == v
    ensures forall q :: 0 <= q < 5 && q != 2 ==> r[q].None?
  {
    [None, None, v, None, None]
  }

  /**
   * The five entries a parameter ends up with, given what the reference
   * holds for it (None when the parameter is absent), or None when that
   * value is a list of a length other than one or five.
   */
  function Normalized(v: Option<RefValue>): (r: Option<seq<Option<real>>>)
    ensures r.Some? ==> |r.value| == 5
    ensures r.None? <==> v.Some? && v.value.List? && |v.value.items| != 1 && |v.value.items| != 5
    ensures v.None? ==> r == Some(NoBounds)
    ensures v.Some? && v.value.Num? ==> r == Some(Centred(Some(v.value.x)))
    ensures v.Some? && v.value.List? && |v.value.items| == 1 ==> r == Some(Centred(v.value.items[0]))
    ensures v.Some? && v.value.List? && |v.value.items| == 5 ==> r == Some(v.value.items)
  {
    match v
    case None => Some(NoBounds)
    case Some(Num(x)) => Some(Centred(Some(x)))
    case Some(List(items)) =>
      if |items| == 1 then Some(Centred(items[0]))
      else if |items| == 5 then Some(items)
      else None
  }

  /** Normalising an already normalised entry changes nothing. */
  lemma NormalizedIsIdempotent(v: Option<RefValue>)
    requires Normalized(v).Some?
    ensures Normalized(Some(List(Normalized(v).value))) == Normalized(v)
  {
  }

  /** Parameter names are distinct (they are the keys of the model's parameterization). */
  predicate Distinct(params: seq<string>) {
    forall a, b :: 0 <= a < b < |params| ==> params[a] != params[b]
  }

  /** `dict(zip(params, vals))`. */
  function Zip(params: seq<string>, vals: seq<RefValue>): (m: map<string, RefValue>)
    requires |params| == |vals| && Distinct(params)
    ensures m.Keys == set a | 0 <= a < |params| :: params[a]
    ensures forall a :: 0 <= a < |params| ==> m[params[a]] == vals[a]
  {
    if |params| == 0 then map[]
    else
      var n := |params| - 1;
      var m := Zip(params[..n], vals[..n]);
      assert forall a :: 0 <= a < n ==> params[..n][a] == params[a];
      m[params[n] := vals[n]]
  }

  /** The dictionary the normalising loop starts from, or WrongCount. */
  function AsMapping(params: seq<string>, ref: Reference): (r: Result<map<string, RefValue>, RefError>)
    requires Distinct(params)
    ensures r.Failure? <==> ref.Ordered? && |ref.vals| != |params|
    ensures ref.Mapping? ==> r == Success(ref.m)
  {
    match ref
    case Mapping(m) => Success(m)
    case Ordered(vals) => if |vals| != |params| then Failure(WrongCount) else Success(Zip(params, vals))
  }

  /** What `m` holds for `p`, None when it holds nothing. */
  function Lookup(m: map<string, RefValue>, p: string): Option<RefValue> {
    if p in m then Some(m[p]) else None
  }

  /** Whether the first `q` parameters have all been normalised from `m0` into `m`, with nothing else touched. */
  ghost predicate NormalisedUpTo(m0: map<string, RefValue>, m: map<string, RefValue>, params: seq<string>, q: nat)
    requires q <= |params|
  {
    && (forall a :: 0 <= a < q ==>
          Normalized(Lookup(m0, params[a])).Some? && params[a] in m &&
          m[params[a]] == List(Normalized(Lookup(m0, params[a])).value))
    && (forall key :: key in m0 && key !in params[..q] ==> key in m && m[key] == m0[key])
    && (forall key :: key in m ==> key in m0 || key in params[..q])
  }

  /** One pass of the loop: the entry of `p` as rewritten (kept when it already holds five values). */
  function Rewritten(m: map<string, RefValue>, p: string): (r: map<string, RefValue>)
    requires Normalized(Lookup(m, p)).Some?
    ensures p in r && r[p] == List(Normalized(Lookup(m, p)).value)
    ensures forall key :: key != p ==> (key in r <==> key in m) && (key in m ==> r[key] == m[key])
  {
    if p in m && m[p].List? && |m[p].items| == 5 then m else m[p := List(Normalized(Lookup(m, p)).value)]
  }

  /** Rewriting the next parameter's entry extends the normalised prefix by one. */
  lemma NormaliseStep(m0: map<string, RefValue>, m: map<string, RefValue>, params: seq<string>, q: nat)
    requires Distinct(params) && q < |params| && NormalisedUpTo(m0, m, params, q)
    requires Normalized(Lookup(m0, params[q])).Some?
    ensures Lookup(m, params[q]) == Lookup(m0, params[q])
    ensures NormalisedUpTo(m0, Rewritten(m, params[q]), params, q + 1)
  {
    var p := params[q];
    assert p !in params[..q];
    assert params[..q + 1] == params[..q] + [p];
  }

  /**
   * `_prepare_reference(reference, model)` without the getdist MCSamples
   * input: None when getdist is not installed; WrongCount for an ordered
   * reference of the wrong length; otherwise the loop over the parameters
   * rewrites each one's entry to five values, failing at the first one whose
   * list has a length other than one or five.
   */
  method PrepareReference(params: seq<string>, ref: Reference, getdistInstalled: bool)
    returns (r: Result<Option<map<string, RefValue>>, RefError>)
    requires Distinct(params)
    ensures !getdistInstalled ==> r == Success(None)
    ensures getdistInstalled && AsMapping(params, ref).Failure? ==> r == Failure(WrongCount)
    ensures getdistInstalled && AsMapping(params, ref).Success? ==>
      var m0 := AsMapping(params, ref).value;
      && (r.Failure? <==> exists a :: 0 <= a < |params| && Normalized(Lookup(m0, params[a])).None?)
      && (r.Failure? ==> exists a :: (0 <= a < |params| && r.error == BadLength(params[a]) &&
            Normalized(Lookup(m0, params[a])).None? &&
            forall b :: 0 <= b < a ==> Normalized(Lookup(m0, params[b])).Some?))
      && (r.Success? ==> r.value.Some? && NormalisedUpTo(m0, r.value.value, params, |params|))
  {
    if !getdistInstalled {
      return Success(None);
    }
    var start := AsMapping(params, ref);
    if start.Failure? {
      return Failure(WrongCount);
    }
    var m0 := start.value;
    var m := m0;
    var q := 0;
    while q < |params|
      invariant 0 <= q <= |params|
      invariant NormalisedUpTo(m0, m, params, q)
    {
      var p := params[q];
      var entry := Normalized(Lookup(m, p));
      if entry.None? {
        assert p !in params[..q];
        return Failure(BadLength(p));
      }
      NormaliseStep(m0, m, params, q);
      if !(p in m && m[p].List? && |m[p].items| == 5) {
        m := m[p := List(entry.value)];
      }
      q := q + 1;
    }
    assert params[..q] == params;
    return Success(Some(m));
  }
}
