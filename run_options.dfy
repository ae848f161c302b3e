/**
 * The run's integer options (gpry/run.py, `Runner._construct_options`): how
 * given values and defaults are resolved, the clamping and positivity loop,
 * the ordering checks between the budgets, and the rounding of the batch
 * size and of the optimizer restarts to the number of MPI processes.
 */
module RunOptions {
  import opened Outcomes
  import opened PyArith

  /** `_large_value`: every checked option is capped at 10^9. */
  const Large: int := 1000000000

  datatype Options = Options(
    nInitial: int, maxInitial: int, maxTotal: int, maxFinite: int, nPointsPerAcq: int,
    fitFullEvery: int, fitSimpleEvery: int, nResamplesBeforeGiveup: int)

  /** The options that the sanity loop clamps and checks. */
  datatype Attr = NInitial | MaxInitial | MaxFinite | MaxTotal | NPointsPerAcq | FitFullEvery | FitSimpleEvery

  /** The order in which the sanity loop visits them. */
  const Checked: seq<Attr> := [NInitial, MaxInitial, MaxFinite, MaxTotal, NPointsPerAcq, FitFullEvery, FitSimpleEvery]

  datatype OptionError =
    | NotPositive(attr: Attr)
    | MaxInitialBelowNInitial
    | MaxFiniteBelowNInitial
    | MaxTotalBelowMaxInitial
    | MaxTotalBelowMaxFinite

  /**
   * The defaults that the source computes in floating point from the
   * dimension (`30*d**1.5`, `70*d**1.5`, `2*sqrt(d)`), as the integers they
   * are converted to.
   */
  datatype FloatDefaults = FloatDefaults(maxInitial: int, maxTotal: int, fitFullEvery: int)

  function Get(o: Options, a: Attr): int {
    match a
    case NInitial => o.nInitial
    case MaxInitial => o.maxInitial
    case MaxFinite => o.maxFinite
    case MaxTotal => o.maxTotal
    case NPointsPerAcq => o.nPointsPerAcq
    case FitFullEvery => o.fitFullEvery
    case FitSimpleEvery => o.fitSimpleEvery
  }

  /** `setattr(self, attr, v)`: only the named option changes. */
  function Set(o: Options, a: Attr, v: int): (r: Options)
    ensures Get(r, a) == v
    ensures forall b :: b != a ==> Get(r, b) == Get(o, b)
    ensures r.nResamplesBeforeGiveup == o.nResamplesBeforeGiveup
  {
    match a
    case NInitial => o.(nInitial := v)
    case MaxInitial => o.(maxInitial := v)
    case MaxFinite => o.(maxFinite := v)
    case MaxTotal => o.(maxTotal := v)
    case NPointsPerAcq => o.(nPointsPerAcq := v)
    case FitFullEvery => o.(fitFullEvery := v)
    case FitSimpleEvery => o.(fitSimpleEvery := v)
  }

  function Max(a: int, b: int): int {
    if a >= b then a else b
  }

  /** `min(_large_value, int(np.round(v)))` for an integer `v`. */
  function Clamp(v: int): (r: int)
    ensures r <= Large
    ensures v <= Large ==> r == v
    ensures v > Large ==> r == Large
  {
    if v < Large then v else Large
  }

  /** `_opt_or_default`: the given value unless the key is missing or its value is None. */
  function OptOrDefault(given: map<string, Option<int>>, name: string, default: int): (r: int)
    ensures name in given && given[name].Some? ==> r == given[name].value
    ensures !(name in given && given[name].Some?) ==> r == default
  {
    if name in given && given[name].Some? then given[name].value else default
  }

  /** The options as assigned before the sanity loop. */
  function Resolve(given: map<string, Option<int>>, d: nat, fd: FloatDefaults): (o: Options)
    ensures o.nInitial >= 2 && o.fitFullEvery >= 1 && o.fitSimpleEvery >= 1
    ensures !("max_total" in given && given["max_total"].Some?) ==> o.maxTotal >= o.maxInitial
    ensures !("max_finite" in given && given["max_finite"].Some?) ==> o.maxFinite == o.maxTotal
  {
    var nInitial := Max(OptOrDefault(given, "n_initial", 3 * d), 2);
    var maxInitial := OptOrDefault(given, "max_initial", fd.maxInitial);
    var maxTotal := OptOrDefault(given, "max_total", Max(maxInitial, fd.maxTotal));
    var maxFinite := OptOrDefault(given, "max_finite", maxTotal);
    var nPointsPerAcq := OptOrDefault(given, "n_points_per_acq", d);
    var fitFullEvery := Max(OptOrDefault(given, "fit_full_every", fd.fitFullEvery), 1);
    var fitSimpleEvery := Max(OptOrDefault(given, "fit_simple_every", 1), 1);
    var nResamples := OptOrDefault(given, "n_resamples_before_giveup", 2);
    Options(nInitial, maxInitial, maxTotal, maxFinite, nPointsPerAcq, fitFullEvery, fitSimpleEvery, nResamples)
  }

  /** The options after the sanity loop clamped the first `k` checked ones. */
  function ClampUpTo(o: Options, k: nat): (r: Options)
    requires k <= |Checked|
    ensures r.nResamplesBeforeGiveup == o.nResamplesBeforeGiveup
  {
    if k == 0 then o
    else
      var p := ClampUpTo(o, k - 1);
      Set(p, Checked[k - 1], Clamp(Get(p, Checked[k - 1])))
  }

  /** The position in the loop of the first option that clamps to a non-positive value. */
  function FirstNonPositive(o: Options, from: nat): (r: Option<nat>)
    requires from <= |Checked|
    ensures r.Some? ==> from <= r.value < |Checked| && Clamp(Get(o, Checked[r.value])) <= 0
    ensures r.Some? ==> forall j :: from <= j < r.value ==> Clamp(Get(o, Checked[j])) > 0
    ensures r.None? ==> forall j :: from <= j < |Checked| ==> Clamp(Get(o, Checked[j])) > 0
    decreases |Checked| - from
  {
    if from == |Checked| then None
    else if Clamp(Get(o, Checked[from])) <= 0 then Some(from)
    else FirstNonPositive(o, from + 1)
  }

  /** The four ordering checks, in the order the source makes them. */
  function OrderError(o: Options): (r: Option<OptionError>)
    ensures r.None? <==>
      o.maxInitial >= o.nInitial && o.maxFinite >= o.nInitial && o.maxTotal >= o.maxInitial && o.maxTotal >= o.maxFinite
  {
    if o.maxInitial < o.nInitial then Some(MaxInitialBelowNInitial)
    else if o.maxFinite < o.nInitial then Some(MaxFiniteBelowNInitial)
    else if o.maxTotal < o.maxInitial then Some(MaxTotalBelowMaxInitial)
    else if o.maxTotal < o.maxFinite then Some(MaxTotalBelowMaxFinite)
    else None
  }

  /**
   * `n_points_per_acq` rounded down to a multiple of the number of processes
   * when the remainder is non-zero and at most 20% of it.
   */
  function RoundAcq(n: int, size: int): (r: int)
    requires size >= 1
    ensures r <= n && n - r < size
    ensures r != n ==> r == size * FloorDiv(n, size) && FloorMod(n, size) != 0
    ensures FloorMod(n, size) == 0 ==> r == n
  {
    var rest := FloorMod(n, size);
    if rest as real <= 0.2 * n as real && rest != 0 then n - rest else n
  }

  /**
   * `n_restarts_optimizer` rounded down to a multiple of the number of
   * processes when it exceeds that number and is not a multiple already.
   */
  function RoundRestarts(n: int, size: int): (r: int)
    requires size >= 1
    ensures r <= n && n - r < size
    ensures n <= size || FloorMod(n, size) == 0 ==> r == n
    ensures r != n ==> r == size * FloorDiv(n, size) && r >= size
  {
    if n > size && FloorMod(n, size) != 0 then FloorDiv(n, size) * size else n
  }

  /** A checked option is clamped once, when the loop reaches it; the others keep their value. */
  lemma {:induction false} ClampUpToAt(o: Options, k: nat, a: Attr)
    requires k <= |Checked|
    ensures a in Checked[..k] ==> Get(ClampUpTo(o, k), a) == Clamp(Get(o, a))
    ensures a !in Checked[..k] ==> Get(ClampUpTo(o, k), a) == Get(o, a)
  {
    if k > 0 {
      ClampUpToAt(o, k - 1, a);
      assert Checked[..k] == Checked[..k - 1] + [Checked[k - 1]];
      if a == Checked[k - 1] {
        assert a !in Checked[..k - 1];
      }
    }
  }

  /**
   * Options that pass the sanity loop, the ordering checks and the rounding
   * are all in [1, 10^9], at least two initial points are asked for, and the
   * budgets are ordered: n_initial <= max_initial <= max_total and
   * n_initial <= max_finite <= max_total.
   */
  lemma AcceptedOptionsSane(raw: Options, size: int)
    requires size >= 1 && raw.nInitial >= 2
    requires FirstNonPositive(raw, 0).None?
    requires OrderError(ClampUpTo(raw, |Checked|)).None?
    ensures var c := ClampUpTo(raw, |Checked|);
      var o := c.(nPointsPerAcq := RoundAcq(c.nPointsPerAcq, size));
      && (forall a :: 1 <= Get(o, a) <= Large)
      && o.nInitial >= 2
      && o.nInitial <= o.maxInitial <= o.maxTotal
      && o.nInitial <= o.maxFinite <= o.maxTotal
  {
    var c := ClampUpTo(raw, |Checked|);
    assert Checked[..|Checked|] == Checked;
    forall a
      ensures 1 <= Get(c, a) <= Large
    {
      ClampUpToAt(raw, |Checked|, a);
      var j :| 0 <= j < |Checked| && Checked[j] == a;
    }
    ClampUpToAt(raw, |Checked|, NInitial);
    assert 1 <= Get(c, NPointsPerAcq);
    RoundAcqBounds(c.nPointsPerAcq, size);
    var o := c.(nPointsPerAcq := RoundAcq(c.nPointsPerAcq, size));
    forall a
      ensures 1 <= Get(o, a) <= Large
    {
      assert 1 <= Get(c, a) <= Large;
    }
  }

  /**
   * The rounded batch size is positive and never larger; when it changes it
   * becomes a multiple of the number of processes and loses at most 20%.
   */
  lemma RoundAcqBounds(n: int, size: int)
    requires n >= 1 && size >= 1
    ensures 1 <= RoundAcq(n, size) <= n
    ensures RoundAcq(n, size) != n ==>
      FloorMod(RoundAcq(n, size), size) == 0 && (n - RoundAcq(n, size)) as real <= 0.2 * n as real
    ensures RoundAcq(n, size) == n ==>
      FloorMod(n, size) == 0 || FloorMod(n, size) as real > 0.2 * n as real
  {
    var rest := FloorMod(n, size);
    var q := FloorDiv(n, size);
    if rest as real <= 0.2 * n as real && rest != 0 {
      var r := n - rest;
      assert r == size * q;
      assert FloorMod(r, size) == 0 by {
        var q' := FloorDiv(r, size);
        assert size * q' <= size * q < size * q' + size;
        MultipleIsExact(q, q', size);
      }
    }
  }

  lemma MultipleIsExact(q: int, q': int, size: int)
    requires size >= 1 && size * q' <= size * q < size * q' + size
    ensures q == q'
  {
    if q < q' {
      assert size * q <= size * (q' - 1) by { MulMonotone(size, q, q' - 1); }
    } else if q > q' {
      assert size * (q' + 1) <= size * q by { MulMonotone(size, q' + 1, q); }
    }
  }

  lemma MulMonotone(size: int, a: int, b: int)
    requires size >= 1 && a <= b
    ensures size * a <= size * b
  {
    assert size * b - size * a == size * (b - a);
  }

  /**
   * Rounded restarts never grow, become a multiple of the number of
   * processes when above it, lose less than one process's share, and are
   * not rounded again.
   */
  lemma RoundRestartsBounds(n: int, size: int)
    requires size >= 1
    ensures RoundRestarts(n, size) <= n
    ensures n > size ==> FloorMod(RoundRestarts(n, size), size) == 0 && n - RoundRestarts(n, size) < size
    ensures n > size ==> RoundRestarts(n, size) >= size
    ensures n <= size ==> RoundRestarts(n, size) == n
    ensures RoundRestarts(RoundRestarts(n, size), size) == RoundRestarts(n, size)
  {
    var q := FloorDiv(n, size);
    var r := RoundRestarts(n, size);
    if n > size {
      if FloorMod(n, size) != 0 {
        assert r == size * q;
        var q' := FloorDiv(r, size);
        assert size * q' <= size * q < size * q' + size;
        MultipleIsExact(q, q', size);
        assert q >= 1 by {
          if q < 1 {
            MulMonotone(size, q, 0);
          }
        }
        MulMonotone(size, 1, q);
      }
    }
  }
}
