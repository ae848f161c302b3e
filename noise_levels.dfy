/**
 * The regressor's noise level: one scalar for every training point, or one
 * level per finite training point, and the rules by which a new value given to
 * `append_to_data` is reconciled with the stored one (`_reset_noise_level`).
 */
module NoiseLevels {
  import opened Outcomes
  import opened Masks

  datatype Noise = Scalar(level: real) | PerPoint(levels: seq<real>)

  /** The `noise_level` argument as the caller passed it: None, a number, an array, or anything else. */
  datatype NoiseArg = Missing | Number(value: real) | Levels(levels: seq<real>) | Unsupported

  datatype NoiseError =
    | LengthMismatch      // new array length differs from the number of new finite points
    | ArrayWithoutValue   // stored per-point levels, but no new value given
    | UnsupportedType     // neither None, a number nor an array

  /** A per-point noise level has one entry per training point; a scalar fits any size. */
  predicate Fits(n: Noise, size: nat) {
    n.PerPoint? ==> |n.levels| == size
  }

  /** Applies a y-preprocessor's element-wise noise-level transform. */
  function MapNoise(f: real -> real, n: Noise): (r: Noise)
    ensures r.Scalar? <==> n.Scalar?
    ensures n.Scalar? ==> r.level == f(n.level)
    ensures n.PerPoint? ==> r.levels == MapSeq(f, n.levels)
  {
    match n
    case Scalar(s) => Scalar(f(s))
    case PerPoint(v) => PerPoint(MapSeq(f, v))
  }

  /** `alpha = noise_level_**2`, the diagonal added to the kernel matrix. */
  function Squared(n: Noise): (r: Noise)
    ensures r.Scalar? <==> n.Scalar?
    ensures n.Scalar? ==> r.level == n.level * n.level
    ensures n.PerPoint? ==> |r.levels| == |n.levels|
    ensures n.PerPoint? ==> forall i :: 0 <= i < |n.levels| ==> r.levels[i] == n.levels[i] * n.levels[i]
  {
    match n
    case Scalar(s) => Scalar(s * s)
    case PerPoint(v) => PerPoint(MapSeq((x: real) => x * x, v))
  }

  /** `np.append(stored, vals)`: numpy flattens a scalar into a one-entry array first. */
  function AppendLevels(stored: Noise, vals: seq<real>): (r: Noise)
    ensures r.PerPoint?
    ensures stored.PerPoint? ==> r.levels == stored.levels + vals
  {
    match stored
    case Scalar(s) => PerPoint([s] + vals)
    case PerPoint(v) => PerPoint(v + vals)
  }

  /** `np.ones(n) * s`: the stored scalar broadcast to the old training set. */
  function Broadcast(s: real, n: nat): (r: seq<real>)
    ensures |r| == n
    ensures forall i :: 0 <= i < n ==> r[i] == s
  {
    seq(n, _ => s)
  }

  /**
   * The pair (noise_level, noise_level_) after reconciling the new argument
   * with the stored pair. `nNew` is the number of new finite points, `nOld`
   * the size of the finite training set before the append, `t` the
   * y-preprocessor's noise transform. When `refit` is set the transformed
   * level is left alone, because the following refit recomputes it.
   */
  function Reconcile(stored: Noise, storedT: Noise, arg: NoiseArg, nNew: nat, nOld: nat,
                     refit: bool, t: real -> real): (r: Result<(Noise, Noise), NoiseError>)
    ensures arg.Levels? && |arg.levels| != nNew ==> r == Failure(LengthMismatch)
    ensures arg.Missing? && stored.PerPoint? ==> r == Failure(ArrayWithoutValue)
    ensures arg.Unsupported? ==> r == Failure(UnsupportedType)
    ensures arg.Missing? && stored.Scalar? ==> r == Success((stored, storedT))
    ensures arg.Number? ==> r.Success? && r.value.0 == Scalar(arg.value)
    ensures arg.Levels? && |arg.levels| == nNew ==> r.Success? && r.value.0.PerPoint?
    ensures r.Success? && refit ==> r.value.1 == storedT
  {
    match arg
    case Levels(v) =>
      if |v| != nNew then Failure(LengthMismatch)
      else if stored.PerPoint? then
        var levels := stored.levels + v;
        Success((PerPoint(levels), if refit then storedT else AppendLevels(storedT, MapSeq(t, v))))
      else
        var levels := Broadcast(stored.level, nOld) + v;
        Success((PerPoint(levels), if refit then storedT else PerPoint(MapSeq(t, levels))))
    case Missing =>
      if stored.PerPoint? then Failure(ArrayWithoutValue) else Success((stored, storedT))
    case Number(s) =>
      Success((Scalar(s), if refit then storedT else Scalar(t(s))))
    case Unsupported =>
      Failure(UnsupportedType)
  }

  /**
   * A stored scalar and a new array become one array: its length is the old
   * size plus the new one, its first entries repeat the old scalar, and the
   * new levels follow in order.
   */
  lemma ScalarUpgradedToArray(s: real, storedT: Noise, v: seq<real>, nOld: nat, refit: bool, t: real -> real)
    ensures var r := Reconcile(Scalar(s), storedT, Levels(v), |v|, nOld, refit, t);
      && r.Success? && r.value.0.PerPoint?
      && |r.value.0.levels| == nOld + |v|
      && (forall i :: 0 <= i < nOld ==> r.value.0.levels[i] == s)
      && r.value.0.levels[nOld..] == v
  {
    var r := Reconcile(Scalar(s), storedT, Levels(v), |v|, nOld, refit, t);
    assert r.value.0.levels == Broadcast(s, nOld) + v;
  }

  /**
   * Reconciling without a refit keeps the pair in lock-step: if the stored
   * levels fit the old training set and the transformed copy is the transform
   * of the raw one, the same holds afterwards for the enlarged training set.
   */
  lemma {:induction false} ReconcileKeepsLockStep(stored: Noise, storedT: Noise, arg: NoiseArg,
                                                  nNew: nat, nOld: nat, t: real -> real)
    requires Fits(stored, nOld) && storedT == MapNoise(t, stored)
    requires Reconcile(stored, storedT, arg, nNew, nOld, false, t).Success?
    ensures var (n, nT) := Reconcile(stored, storedT, arg, nNew, nOld, false, t).value;
      Fits(n, nOld + nNew) && nT == MapNoise(t, n)
  {
    match arg
    case Levels(v) =>
      if stored.PerPoint? {
        MapSeqAppend(t, stored.levels, v);
      } else {
        var levels := Broadcast(stored.level, nOld) + v;
        assert |levels| == nOld + nNew;
      }
    case Missing =>
    case Number(s) =>
  }

  /**
   * The noise level kept for the finite points: a per-point level is masked
   * like the points themselves, a scalar is kept.
   */
  function FilterNoise(n: Noise, mask: seq<bool>): (r: Noise)
    requires Fits(n, |mask|)
    ensures Fits(r, Count(mask))
    ensures n.Scalar? ==> r == n
    ensures n.PerPoint? ==> r.PerPoint? && r.levels == Select(n.levels, mask)
  {
    match n
    case Scalar(_) => n
    case PerPoint(v) => PerPoint(Select(v, mask))
  }

  /**
   * Whatever the refit flag, a successful reconciliation leaves a noise level
   * that fits the enlarged training set when the stored one fitted the old one.
   */
  lemma ReconcileFits(stored: Noise, storedT: Noise, arg: NoiseArg, nNew: nat, nOld: nat,
                      refit: bool, t: real -> real)
    requires Fits(stored, nOld)
    requires Reconcile(stored, storedT, arg, nNew, nOld, refit, t).Success?
    ensures Fits(Reconcile(stored, storedT, arg, nNew, nOld, refit, t).value.0, nOld + nNew)
  {
  }

  /**
   * `noise_level_` after the scalar branch of `_reset_noise_level` AS WRITTEN:
   * the transformed level is only updated inside the block that also emits
   * the verbosity-dependent warning, so with `verbose <= 1` it keeps the old value.
   */
  function ScalarBranchAsWritten(storedT: Noise, s: real, refit: bool, verbose: int, t: real -> real): (r: Noise)
    ensures !refit && verbose > 1 ==> r == Scalar(t(s))
    ensures refit || verbose <= 1 ==> r == storedT
  {
    if !refit && verbose > 1 then Scalar(t(s)) else storedT
  }

  /**
   * At the default verbosity, replacing a scalar noise level 0.01 by 0.5 without
   * a refit leaves the transformed level (and so `alpha`) at 0.01, whereas the
   * intended update, Reconcile, moves it to 0.5.
   */
  lemma StaleScalarNoiseAtDefaultVerbosity()
    ensures ScalarBranchAsWritten(Scalar(0.01), 0.5, false, 1, x => x) == Scalar(0.01)
    ensures Squared(ScalarBranchAsWritten(Scalar(0.01), 0.5, false, 1, x => x)).level != 0.5 * 0.5
    ensures Reconcile(Scalar(0.01), Scalar(0.01), Number(0.5), 1, 3, false, x => x)
         == Success((Scalar(0.5), Scalar(0.5)))
  {
  }

  /** Without a refit the corrected scalar branch always moves the transformed level with the raw one. */
  lemma ScalarBranchFollowsValue(stored: Noise, storedT: Noise, s: real, nNew: nat, nOld: nat, t: real -> real)
    ensures Reconcile(stored, storedT, Number(s), nNew, nOld, false, t).value.1 == MapNoise(t, Scalar(s))
  {
  }
}
