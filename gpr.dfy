/**
 * The Gaussian-process regressor's state machine (gpry/gpr.py): the full
 * training set and the finite-only training set with their transformed
 * copies, the noise level, the bookkeeping counters, the fitted flag and the
 * size of the cached factorization `V_`.
 *
 * Foreign collaborators are arguments: the refitted preprocessors
 * (`Preprocessing`), the finiteness classifier (`Classifier`), the optimizer
 * with its random restart draws and the log marginal likelihood (`Numerics`).
 * The Cholesky factorization itself is represented only by its size.
 */
module Gpr {
  import opened Outcomes
  import opened Masks
  import opened NoiseLevels
  import opened Hyper
  import Prediction

  type Row = seq<real>

  /** The fitted X- and y-preprocessors, as element-wise transforms (identity when absent). */
  datatype Preprocessing = Preprocessing(x: Row -> Row, y: real -> real, noise: real -> real)

  /** The classifier's `fit(X_, y_, threshold)`: one finite/non-finite flag per point (threshold folded in). */
  type Classifier = (seq<Row>, seq<real>) -> seq<bool>

  ghost predicate ClassifierContract(c: Classifier) {
    forall xs, ys :: |c(xs, ys)| == |xs|
  }

  /**
   * The optimizer from a starting theta, the restart draws, the LML at a
   * theta, and the last theta the optimizer evaluates from a starting theta.
   */
  datatype Numerics = Numerics(run: seq<real> -> Optimum, draw: nat -> seq<real>, lml: seq<real> -> real,
                               last: seq<real> -> seq<real>)

  datatype GprError =
    | XyOneMissing                  // fit: exactly one of X, y given
    | NoiseWithoutData              // fit: a noise level without X and y
    | StoredNoiseNotScalar          // fit: no noise level given while the stored one is an array
    | NoiseLevel(cause: NoiseError) // noise-level length or type errors
    | NoTrainingSet                 // an attribute that only exists after a fit is missing
    | MaskMismatch                  // a boolean mask whose length differs from the array it indexes
    | Hyperparameters(why: HyperError)
    | NothingAppended               // _update_model: newly_appended_for_inv < 1
    | NoFactorization               // _update_model: X_train_, y_train_ or V_ missing
    | StaleFactorization            // _update_model: V_ size differs from the pre-append size
    | EmptyTrainingSet              // y_max of an empty training set

  /** Locations with their targets, stored side by side as the regressor's X and y arrays. */
  datatype Points = Points(x: seq<Row>, y: seq<real>) {
    predicate Paired() {
      |x| == |y|
    }

    function Map(p: Preprocessing): Points {
      Points(MapSeq(p.x, x), MapSeq(p.y, y))
    }

    /** `X[mask], y[mask]`. */
    function Keep(mask: seq<bool>): (r: Points)
      requires |x| == |mask| && |y| == |mask|
      ensures r.Paired() && |r.y| == Count(mask)
    {
      Points(Select(x, mask), Select(y, mask))
    }

    /** `np.append` of both arrays. */
    function Concat(other: Points): Points {
      Points(x + other.x, y + other.y)
    }

    /** `X[-n:], y[-n:]`. */
    function Tail(n: nat): Points {
      Points(PyTail(x, n), PyTail(y, n))
    }
  }

  /** The hyperparameters, the LML, the number of rows of `V_` when it exists, and `_fitted`. */
  datatype Fitting = Fitting(theta: seq<real>, lml: real, factor: Option<nat>, fitted: bool)

  /**
   * The regressor's finite side: whether a training set exists, the finite
   * set and its transform, the raw and transformed noise levels, alpha, the
   * preprocessors, the fitting, and the append counters of the finite set.
   */
  datatype FiniteSide = FiniteSide(hasTrain: bool, train: Points, trainT: Points, noise: Noise, noiseT: Noise,
                                   alpha: Noise, pre: Preprocessing, fitting: Fitting, nLastAppendedFinite: nat,
                                   newlyAppendedForInv: nat)

  /** Transforming an appended batch is appending its transform. */
  lemma MapConcat(a: Points, b: Points, p: Preprocessing)
    ensures a.Concat(b).Map(p) == a.Map(p).Concat(b.Map(p))
  {
    MapSeqAppend(p.x, a.x, b.x);
    MapSeqAppend(p.y, a.y, b.y);
  }

  /** Masking commutes with the element-wise transforms. */
  lemma KeepMap(a: Points, mask: seq<bool>, p: Preprocessing)
    requires |a.x| == |mask| && |a.y| == |mask|
    ensures a.Map(p).Keep(mask) == a.Keep(mask).Map(p)
  {
    SelectMapSeq(p.x, a.x, mask);
    SelectMapSeq(p.y, a.y, mask);
  }

  /** No preprocessor: both transforms are the identity. */
  ghost predicate Unprocessed(p: Preprocessing) {
    (forall r :: p.x(r) == r) && (forall v :: p.y(v) == v)
  }

  /**
   * Without preprocessors, appending the batch's transform to a transformed
   * full set that copies the raw one gives a copy of the grown raw full set,
   * which is what `append_to_data` stores in that case.
   */
  lemma IdentityGrowthCopies(allT: Points, all: Points, batch: Points, p: Preprocessing)
    requires Unprocessed(p) && allT == all
    ensures allT.Concat(batch.Map(p)) == all.Concat(batch)
  {
    assert MapSeq(p.x, batch.x) == batch.x;
    forall i | 0 <= i < |batch.y|
      ensures MapSeq(p.y, batch.y)[i] == batch.y[i]
    {
      assert p.y(batch.y[i]) == batch.y[i];
    }
  }

  /** Masking a concatenation masks each part. */
  lemma KeepConcat(a: Points, b: Points, ma: seq<bool>, mb: seq<bool>)
    requires a.Paired() && b.Paired() && |a.y| == |ma| && |b.y| == |mb|
    ensures a.Concat(b).Keep(ma + mb) == a.Keep(ma).Concat(b.Keep(mb))
  {
    SelectAppend(a.x, b.x, ma, mb);
    SelectAppend(a.y, b.y, ma, mb);
  }

  /** The largest value of a non-empty sequence. */
  function Max(s: seq<real>): (m: real)
    requires |s| > 0
    ensures m in s
    ensures forall i :: 0 <= i < |s| ==> s[i] <= m
  {
    if |s| == 1 then s[0]
    else
      var m := Max(s[..|s| - 1]);
      if s[|s| - 1] > m then s[|s| - 1] else m
  }

  function AllTrue(n: nat): (r: seq<bool>)
    ensures |r| == n && Count(r) == n
  {
    if n == 0 then [] else
      var r := AllTrue(n - 1) + [true];
      assert r[..n - 1] == AllTrue(n - 1);
      r
  }

  lemma {:induction false} SelectAllTrue<T>(xs: seq<T>)
    ensures Select(xs, AllTrue(|xs|)) == xs
  {
    if |xs| > 0 {
      var n := |xs| - 1;
      assert AllTrue(|xs|)[..n] == AllTrue(n);
      SelectAllTrue(xs[..n]);
      assert xs[..n] + [xs[n]] == xs;
    }
  }

  lemma KeepAll(a: Points)
    requires a.Paired()
    ensures a.Keep(AllTrue(|a.y|)) == a
  {
    SelectAllTrue(a.x);
    SelectAllTrue(a.y);
  }

  /** The noise level that `fit(X, y, noise_level)` adopts for the new full set. */
  function FitNoise(arg: NoiseArg, stored: Noise, n: nat): (r: Result<Noise, GprError>)
    ensures arg.Missing? && stored.PerPoint? ==> r == Failure(StoredNoiseNotScalar)
    ensures arg.Missing? && stored.Scalar? ==> r == Success(stored)
    ensures arg.Number? ==> r == Success(Scalar(arg.value))
    ensures arg.Levels? ==> (r.Success? <==> |arg.levels| == n)
    ensures arg.Unsupported? ==> r.Failure?
    ensures r.Success? ==> Fits(r.value, n)
  {
    match arg
    case Missing => if stored.PerPoint? then Failure(StoredNoiseNotScalar) else Success(stored)
    case Number(s) => Success(Scalar(s))
    case Levels(v) => if |v| != n then Failure(NoiseLevel(LengthMismatch)) else Success(PerPoint(v))
    case Unsupported => Failure(NoiseLevel(UnsupportedType))
  }

  /**
   * The noise level `fit` stores AS WRITTEN when a classifier drops points:
   * the array as given, one entry per point of the FULL set, although the
   * finite training set it belongs to is smaller.
   */
  function StoredNoiseAsWritten(resolved: Noise, mask: seq<bool>): (r: Noise)
    requires Fits(resolved, |mask|)
    ensures Fits(r, |mask|)
  {
    resolved
  }

  /**
   * Three points of which the classifier keeps two, with per-point noise
   * levels: the stored level as written has three entries for a training set
   * of two (and so cannot be added to the 2×2 kernel matrix on the next
   * refit), while the filtered level fits.
   */
  lemma UnfilteredNoiseOutgrowsTrainingSet()
    ensures var mask := [true, false, true];
      && !Fits(StoredNoiseAsWritten(PerPoint([0.1, 0.2, 0.3]), mask), Count(mask))
      && FilterNoise(PerPoint([0.1, 0.2, 0.3]), mask) == PerPoint([0.1, 0.3])
      && Fits(FilterNoise(PerPoint([0.1, 0.2, 0.3]), mask), Count(mask))
  {
    var mask, levels := [true, false, true], [0.1, 0.2, 0.3];
    assert mask[..2] == [true, false] && mask[..2][..1] == [true];
    assert levels[..2] == [0.1, 0.2] && levels[..2][..1] == [0.1];
    assert Select(levels[..2][..1], mask[..2][..1]) == [0.1];
    assert Select(levels[..2], mask[..2]) == [0.1];
    assert Select(levels, mask) == [0.1, 0.3];
  }

  /** The noise argument restricted to the appended points kept as finite. */
  function MaskedNoiseArg(arg: NoiseArg, hasClassifier: bool, kept: seq<bool>): (r: Result<NoiseArg, GprError>)
    ensures !hasClassifier || !arg.Levels? ==> r == Success(arg)
    ensures hasClassifier && arg.Levels? && |arg.levels| == |kept| ==> r == Success(Levels(Select(arg.levels, kept)))
    ensures hasClassifier && arg.Levels? && |arg.levels| != |kept| ==> r == Failure(MaskMismatch)
  {
    if hasClassifier && arg.Levels? then
      if |arg.levels| != |kept| then Failure(MaskMismatch) else Success(Levels(Select(arg.levels, kept)))
    else Success(arg)
  }

  class Regressor {
    // Configuration fixed at construction.
    const hasClassifier: bool
    const hasOptimizer: bool
    const kernelDims: nat
    const kernelBoundsFinite: bool
    const nRestartsOptimizer: int
    const verbose: int

    var all: Points             // X_train_all, y_train_all: finite and non-finite points
    var hasAll: bool            // X_train_all and y_train_all exist
    var allT: Points            // X_train_all_, y_train_all_
    var train: Points           // X_train, y_train: finite points only
    var trainT: Points          // X_train_, y_train_
    var hasTrain: bool          // X_train, y_train, X_train_, y_train_ and the full transformed set exist
    var noise: Noise            // noise_level
    var noiseT: Noise           // noise_level_
    var alpha: Noise            // noise_level_**2
    var pre: Preprocessing
    var theta: seq<real>        // kernel_.theta
    var lml: real               // log_marginal_likelihood_value_
    var factor: Option<nat>     // number of rows of V_, when it exists
    var fitted: bool            // _fitted
    var finiteFlags: seq<bool>  // the classifier's flags over its last training set
    var nLastAppended: nat
    var nLastAppendedFinite: nat
    var newlyAppendedForInv: nat
    var nEval: nat

    /** Shape facts that every operation keeps, whatever it raises. */
    ghost predicate Valid()
      reads this
    {
      && all.Paired() && allT.Paired() && train.Paired() && trainT.Paired() && (hasTrain ==> hasAll)
      && (!hasClassifier ==> finiteFlags == [])
    }

    /**
     * The state after a successful fit or append: the transformed copy is the
     * transform of the finite set, a per-point noise level has one entry per
     * finite point, alpha is the squared transformed noise level, and the
     * factorization covers the whole finite set.
     */
    ghost predicate Consistent()
      reads this
    {
      && Valid()
      && (hasTrain ==>
        && Coherent(train, trainT, noise, noiseT, alpha, pre)
        && fitted
        && factor == Some(|train.y|)
        && newlyAppendedForInv == 0)
    }

    /**
     * The transformed copies follow the raw ones: the transformed finite set
     * and noise level are the transforms of the raw ones, a per-point noise
     * level has one entry per finite point, and alpha squares the transformed level.
     */
    static ghost predicate Coherent(train: Points, trainT: Points, noise: Noise, noiseT: Noise, alpha: Noise,
                                    pre: Preprocessing)
    {
      && trainT == train.Map(pre)
      && Fits(noise, |train.y|)
      && noiseT == MapNoise(pre.noise, noise)
      && alpha == Squared(noiseT)
    }

    /**
     * Appending a batch and its transform without a refit keeps the copies
     * coherent: the noise level reconciled for the batch fits the grown set
     * and its transformed copy is still its transform.
     */
    static lemma AppendKeepsCoherent(train: Points, trainT: Points, noise: Noise, noiseT: Noise, pre: Preprocessing,
                                     batch: Points, batchT: Points, arg: NoiseArg)
      requires Coherent(train, trainT, noise, noiseT, Squared(noiseT), pre) && batchT == batch.Map(pre)
      requires Reconcile(noise, noiseT, arg, |batch.y|, |trainT.y|, false, pre.noise).Success?
      ensures var (n, nT) := Reconcile(noise, noiseT, arg, |batch.y|, |trainT.y|, false, pre.noise).value;
        Coherent(train.Concat(batch), trainT.Concat(batchT), n, nT, Squared(nT), pre)
    {
      ReconcileKeepsLockStep(noise, noiseT, arg, |batch.y|, |trainT.y|, pre.noise);
      MapConcat(train, batch, pre);
    }

    constructor (hasClassifier: bool, hasOptimizer: bool, kernelDims: nat, kernelBoundsFinite: bool,
                 nRestartsOptimizer: int, verbose: int, noise: Noise, theta: seq<real>, pre: Preprocessing)
      ensures Consistent() && CountsCover()
      ensures this.hasClassifier == hasClassifier && this.hasOptimizer == hasOptimizer
      ensures this.kernelDims == kernelDims && this.kernelBoundsFinite == kernelBoundsFinite
      ensures this.nRestartsOptimizer == nRestartsOptimizer && this.verbose == verbose
      ensures this.noise == noise && this.theta == theta && this.pre == pre
      ensures !hasAll && !hasTrain && !fitted && factor.None? && finiteFlags == []
      ensures nLastAppended == 0 && nLastAppendedFinite == 0 && newlyAppendedForInv == 0 && nEval == 0
    {
      this.hasClassifier := hasClassifier;
      this.hasOptimizer := hasOptimizer;
      this.kernelDims := kernelDims;
      this.kernelBoundsFinite := kernelBoundsFinite;
      this.nRestartsOptimizer := nRestartsOptimizer;
      this.verbose := verbose;
      all, hasAll, allT := Points([], []), false, Points([], []);
      train, trainT, hasTrain := Points([], []), Points([], []), false;
      this.noise, noiseT, alpha := noise, noise, Squared(noise);
      this.pre, this.theta, lml := pre, theta, 0.0;
      factor, fitted, finiteFlags := None, false, [];
      nLastAppended, nLastAppendedFinite, newlyAppendedForInv, nEval := 0, 0, 0, 0;
    }

    /** `n`: the number of finite training points (0 before any training set exists). */
    function N(): (r: nat)
      reads this
      ensures hasTrain ==> r == |train.y|
      ensures !hasTrain ==> r == 0
    {
      if hasTrain then |train.y| else 0
    }

    /** `n_total`: the classifier's point count when it holds any, else `n`. */
    function NTotal(): (r: nat)
      reads this
      ensures !hasClassifier ==> r == N()
      ensures hasClassifier && |finiteFlags| > 0 ==> r == |finiteFlags|
      ensures hasClassifier && |finiteFlags| == 0 ==> r == N()
      ensures CountsCover() ==> N() <= r
    {
      if hasClassifier && |finiteFlags| != 0 then |finiteFlags| else N()
    }

    /** `X_train_infinite`: the full set's points the classifier flags non-finite, in order. */
    function XTrainInfinite(): (r: Result<seq<Row>, GprError>)
      reads this
      ensures !hasClassifier ==> r == Success([])
      ensures hasClassifier && !hasAll ==> r == Failure(NoTrainingSet)
      ensures hasClassifier && hasAll && |finiteFlags| != |all.x| ==> r == Failure(MaskMismatch)
      ensures hasClassifier && hasAll && |finiteFlags| == |all.x| ==>
        && r == Success(Select(all.x, Not(finiteFlags)))
        && |r.value| == |all.x| - Count(finiteFlags)
    {
      if !hasClassifier then Success([])
      else if !hasAll then Failure(NoTrainingSet)
      else if |finiteFlags| != |all.x| then Failure(MaskMismatch)
      else
        CountNot(finiteFlags);
        Success(Select(all.x, Not(finiteFlags)))
    }

    /** `y_max`: −∞ before any training set, else the largest finite target. */
    function YMax(): (r: Result<ExtReal, GprError>)
      reads this
      ensures !hasTrain ==> r == Success(NegInf)
      ensures hasTrain && |train.y| == 0 ==> r == Failure(EmptyTrainingSet)
      ensures hasTrain && |train.y| > 0 ==> r.Success? && r.value.Fin?
      ensures r.Success? && r.value.Fin? ==>
        r.value.r in train.y && forall i :: 0 <= i < |train.y| ==> train.y[i] <= r.value.r
    {
      if !hasTrain then Success(NegInf)
      else if |train.y| == 0 then Failure(EmptyTrainingSet)
      else Success(Fin(Max(train.y)))
    }

    /**
     * `last_appended_finite`: the last `n_last_appended_finite` finite points,
     * with Python's `[-n:]`, which gives the whole set for n = 0 and for n past its length.
     */
    function LastAppendedFinite(): (r: Result<Points, GprError>)
      reads this
      ensures !hasTrain ==> r == Failure(NoTrainingSet)
      ensures hasTrain && train.Paired() && 0 < nLastAppendedFinite <= |train.y| ==>
        var from := |train.y| - nLastAppendedFinite;
        r == Success(Points(train.x[from..], train.y[from..]))
      ensures hasTrain && (nLastAppendedFinite == 0 || nLastAppendedFinite > |train.y|) && train.Paired() ==>
        r == Success(train)
    {
      if !hasTrain then Failure(NoTrainingSet) else Success(train.Tail(nLastAppendedFinite))
    }

    /**
     * `last_appended`: the last `n_last_appended` points of the full set (of
     * the finite set without a classifier), again with Python's `[-n:]`.
     */
    function LastAppended(): (r: Result<Points, GprError>)
      reads this
      ensures !hasClassifier ==> r == LastAppendedFinite()
      ensures hasClassifier && !hasAll ==> r == Failure(NoTrainingSet)
      ensures hasClassifier && hasAll && all.Paired() && 0 < nLastAppended <= |all.y| ==>
        var from := |all.y| - nLastAppended;
        r == Success(Points(all.x[from..], all.y[from..]))
      ensures hasClassifier && hasAll && all.Paired() && (nLastAppended == 0 || nLastAppended > |all.y|) ==>
        r == Success(all)
    {
      if !hasClassifier then LastAppendedFinite()
      else if !hasAll then Failure(NoTrainingSet)
      else Success(all.Tail(nLastAppended))
    }

    /**
     * With a classifier and a training set, the classifier's flags and the
     * transformed full set match the full set point for point, and the
     * finite set leaves room for `room` more points within it.
     */
    ghost predicate CoverWithRoom(room: nat)
      reads this
    {
      hasClassifier && hasTrain ==>
        && |finiteFlags| == |all.y| && |allT.y| == |all.y| && |train.y| + room <= |all.y|
    }

    /** The counts `n`, `n_total` and `X_train_infinite` are about the same points. */
    ghost predicate CountsCover()
      reads this
    {
      CoverWithRoom(0)
    }

    /**
     * With a classifier, the non-finite points and the finite flags split the
     * full set: `len(X_train_infinite) + (flags set) == n_total`, and the
     * non-finite points are the full set's unflagged ones, in order.
     */
    lemma InfiniteSplitsTotal()
      requires Valid() && CountsCover() && hasClassifier && hasTrain
      ensures XTrainInfinite() == Success(Select(all.x, Not(finiteFlags)))
      ensures |XTrainInfinite().value| + Count(finiteFlags) == NTotal()
      ensures N() <= NTotal()
    {
      CountNot(finiteFlags);
      if |finiteFlags| == 0 {
        assert Count(finiteFlags) == 0;
      }
    }

    /** The classifier's first mask in `fit`: raw data until the preprocessors were ever fitted. */
    function PreFitMask(X: seq<Row>, y: seq<real>, classify: Classifier): (r: seq<bool>)
      requires ClassifierContract(classify)
      reads this
      ensures |r| == |X|
    {
      if hasTrain then classify(MapSeq(pre.x, X), MapSeq(pre.y, y)) else classify(X, y)
    }

    /** The hyperparameters, the LML, the factorization size and the fitted flag, as they stand. */
    ghost function FittingNow(): Fitting
      reads this
    {
      Fitting(theta, lml, factor, fitted)
    }

    /** The finite side of the state, as it stands. */
    ghost function FiniteNow(): FiniteSide
      reads this
    {
      FiniteSide(hasTrain, train, trainT, noise, noiseT, alpha, pre, FittingNow(), nLastAppendedFinite,
                 newlyAppendedForInv)
    }

    /** Nothing on the finite side changed, except perhaps the raw noise level. */
    twostate predicate FiniteKept()
      reads this
    {
      unchanged(this`hasTrain, this`train, this`trainT, this`noiseT, this`alpha, this`pre)
      && unchanged(this`theta, this`lml, this`factor, this`fitted, this`nLastAppendedFinite, this`newlyAppendedForInv)
    }

    /**
     * The outcome of the tuning step of `fit` from `theta0` for noise level
     * `nl`: a level that does not fit the finite set is refused before any
     * optimizer run; otherwise theta and the LML are Tune's, or Tune's error
     * is raised and theta is where the refused optimization left it.
     */
    ghost predicate TuneOutcome(theta0: seq<real>, nl: Noise, simplified: bool, nRestarts: Option<int>,
                                startFromCurrent: bool, num: Numerics, err: Option<GprError>)
      reads this
    {
      && (!Fits(nl, |train.y|) ==> err == Some(NoiseLevel(LengthMismatch)) && theta == theta0)
      && (Fits(nl, |train.y|) ==>
            var t := Tune(theta0, simplified, startFromCurrent, nRestarts, nRestartsOptimizer,
                          hasOptimizer, kernelDims, kernelBoundsFinite, num.run, num.draw, num.lml);
            && (t.Failure? ==>
                  && err == Some(Hyperparameters(t.error))
                  && theta == ThetaAfterRefusal(theta0, simplified, startFromCurrent, nRestarts,
                                                nRestartsOptimizer, num.last))
            && (t.Success? ==> err.None? && (theta, lml) == t.value))
    }

    /**
     * The state after the refit part of `fit` with noise level `nl`, from the
     * fitting `f0`: the new preprocessors; the transformed finite set, full
     * set and noise level; alpha; the classifier refitted on the transformed
     * full set; the tuning outcome; and, exactly on success, a factorization
     * of the whole finite set. A refused refit keeps the LML, the
     * factorization and the fitted flag.
     */
    ghost predicate Refitted(f0: Fitting, nl: Noise, simplified: bool, nRestarts: Option<int>, startFromCurrent: bool,
                             newPre: Preprocessing, num: Numerics, classify: Classifier, err: Option<GprError>)
      reads this
    {
      && hasTrain && pre == newPre
      && trainT == train.Map(newPre) && allT == all.Map(newPre)
      && noiseT == MapNoise(newPre.noise, nl) && alpha == Squared(noiseT)
      && (hasClassifier ==> finiteFlags == classify(allT.x, allT.y))
      && TuneOutcome(f0.theta, nl, simplified, nRestarts, startFromCurrent, num, err)
      && (err.None? ==> fitted && factor == Some(|trainT.y|) && newlyAppendedForInv == 0)
      && (err.Some? ==> lml == f0.lml && fitted == f0.fitted && factor == f0.factor)
    }

    /**
     * The outcome of `fit(X, y, noise_level, ...)` with X and y given: they
     * become the full set and the noise level is resolved (an error stops
     * here); the classifier picks the finite points and, when there is none,
     * `fit` returns without touching the finite side; otherwise the finite
     * points become the training set and are refitted.
     */
    twostate predicate NewSetFitted(batch: Points, noiseArg: NoiseArg, simplified: bool, nRestarts: Option<int>,
                                    startFromCurrent: bool, newPre: Preprocessing, num: Numerics,
                                    classify: Classifier, new err: Option<GprError>)
      requires batch.Paired() && ClassifierContract(classify)
      reads this
    {
      var resolved := FitNoise(noiseArg, old(noise), |batch.y|);
      var mask := old(PreFitMask(batch.x, batch.y, classify));
      && hasAll && all == batch
      && (resolved.Failure? ==>
            && err == Some(resolved.error) && FiniteKept() && allT == old(allT)
            && finiteFlags == old(finiteFlags)
            && noise == (if noiseArg.Levels? then PerPoint(noiseArg.levels) else old(noise)))
      && (resolved.Success? && hasClassifier && NoneSet(mask) ==>
            && err.None? && FiniteKept() && allT == old(allT)
            && finiteFlags == mask && noise == FilterNoise(resolved.value, mask))
      && (resolved.Success? && !(hasClassifier && NoneSet(mask)) ==>
            && train == (if hasClassifier then batch.Keep(mask) else batch)
            && noise == (if hasClassifier then FilterNoise(resolved.value, mask) else resolved.value)
            && Refitted(old(FittingNow()), noise, simplified, nRestarts, startFromCurrent, newPre, num, classify, err)
            && nLastAppendedFinite == old(nLastAppendedFinite)
            && (err.Some? ==> newlyAppendedForInv == old(newlyAppendedForInv))
            && (err.None? ==> Consistent())
            && CountsCover())
    }

    /**
     * `fit(X, y, noise_level, simplified, n_restarts, start_from_current)`.
     * With X and y: see NewSetFitted. Without them: refit the stored finite
     * set with the stored noise level.
     */
    method Fit(X: Option<seq<Row>>, y: Option<seq<real>>, noiseArg: NoiseArg, simplified: bool,
               nRestarts: Option<int>, startFromCurrent: bool,
               newPre: Preprocessing, num: Numerics, classify: Classifier)
      returns (err: Option<GprError>)
      requires Valid() && ClassifierContract(classify)
      requires X.Some? && y.Some? ==> |X.value| == |y.value|
      modifies this`all, this`hasAll, this`noise, this`finiteFlags, this`train, this`pre, this`trainT, this`allT
      modifies this`noiseT, this`alpha, this`hasTrain, this`theta, this`lml, this`factor, this`newlyAppendedForInv
      modifies this`fitted
      ensures Valid()
      // argument checks
      ensures X.Some? != y.Some? ==> err == Some(XyOneMissing) && unchanged(this)
      ensures X.None? && y.None? && !noiseArg.Missing? ==> err == Some(NoiseWithoutData) && unchanged(this)
      ensures X.None? && y.None? && noiseArg.Missing? && !old(hasTrain) ==>
        err == Some(NoTrainingSet) && unchanged(this)
      // refit of the stored finite set
      ensures X.None? && y.None? && noiseArg.Missing? && old(hasTrain) ==>
        && all == old(all) && train == old(train) && noise == old(noise)
        && Refitted(old(FittingNow()), noise, simplified, nRestarts, startFromCurrent, newPre, num, classify, err)
        && (err.Some? ==> newlyAppendedForInv == old(newlyAppendedForInv))
        && (err.None? ==> Consistent())
        && (old(CountsCover()) ==> CountsCover())
      // a new full set
      ensures X.Some? && y.Some? ==>
        NewSetFitted(Points(X.value, y.value), noiseArg, simplified, nRestarts, startFromCurrent, newPre, num,
                     classify, err)
    {
      if X.None? || y.None? {
        if X.Some? || y.Some? {
          return Some(XyOneMissing);
        }
        if !noiseArg.Missing? {
          return Some(NoiseWithoutData);
        }
        if !hasTrain {
          return Some(NoTrainingSet);
        }
        err := Refit(noise, simplified, nRestarts, startFromCurrent, newPre, num, classify);
      } else {
        err := FitNewSet(Points(X.value, y.value), noiseArg, simplified, nRestarts, startFromCurrent,
                         newPre, num, classify);
      }
    }

    /** `fit` given X and y: adopt them as the full set, then refit its finite part. */
    method FitNewSet(batch: Points, noiseArg: NoiseArg, simplified: bool,
                     nRestarts: Option<int>, startFromCurrent: bool,
                     newPre: Preprocessing, num: Numerics, classify: Classifier)
      returns (err: Option<GprError>)
      requires Valid() && batch.Paired() && ClassifierContract(classify)
      modifies this`all, this`hasAll, this`noise, this`finiteFlags, this`train, this`pre, this`trainT, this`allT
      modifies this`noiseT, this`alpha, this`hasTrain, this`theta, this`lml, this`factor, this`newlyAppendedForInv
      modifies this`fitted
      ensures Valid()
      ensures NewSetFitted(batch, noiseArg, simplified, nRestarts, startFromCurrent, newPre, num, classify, err)
    {
      ghost var f0 := FittingNow();
      var adopted;
      err, adopted := AdoptFullSet(batch, noiseArg, classify);
      if adopted.None? {
        return;
      }
      assert FittingNow() == f0;
      ghost var mask := old(PreFitMask(batch.x, batch.y, classify));
      assert |mask| == |batch.x|;
      err := Refit(adopted.value, simplified, nRestarts, startFromCurrent, newPre, num, classify);
    }

    /**
     * The first half of `fit(X, y, noise_level)`: store the full set and the
     * noise level, let the classifier pick the finite points and store those.
     * Returns the noise level for the refit, or None when `fit` stops here
     * (an error, or no finite point).
     */
    method AdoptFullSet(batch: Points, noiseArg: NoiseArg, classify: Classifier)
      returns (err: Option<GprError>, nl: Option<Noise>)
      requires Valid() && batch.Paired() && ClassifierContract(classify)
      modifies this`all, this`hasAll, this`noise, this`finiteFlags, this`train
      ensures Valid() && hasAll && all == batch
      ensures var resolved := FitNoise(noiseArg, old(noise), |batch.y|);
        && (resolved.Failure? ==>
              && err == Some(resolved.error) && nl.None? && train == old(train) && finiteFlags == old(finiteFlags)
              && noise == (if noiseArg.Levels? then PerPoint(noiseArg.levels) else old(noise)))
        && (resolved.Success? && !hasClassifier ==>
              err.None? && nl == Some(noise) && noise == resolved.value && train == batch
              && finiteFlags == old(finiteFlags))
      ensures var resolved := FitNoise(noiseArg, old(noise), |batch.y|);
        var mask := old(PreFitMask(batch.x, batch.y, classify));
        && (resolved.Success? && hasClassifier ==>
              err.None? && finiteFlags == mask && noise == FilterNoise(resolved.value, mask))
        && (resolved.Success? && hasClassifier && NoneSet(mask) ==> nl.None? && train == old(train))
        && (resolved.Success? && hasClassifier && !NoneSet(mask) ==>
              nl == Some(noise) && train == batch.Keep(mask))
      ensures nl.Some? ==> |train.y| <= |all.y|
      ensures nl.None? ==> FiniteKept() && allT == old(allT)
      ensures unchanged(this`theta, this`lml, this`factor, this`fitted)
    {
      var stored := noise;
      var mask := PreFitMask(batch.x, batch.y, classify);
      all, hasAll := batch, true;
      if noiseArg.Number? {
        noise := Scalar(noiseArg.value);
      } else if noiseArg.Levels? {
        noise := PerPoint(noiseArg.levels);
      }
      var resolved := FitNoise(noiseArg, stored, |batch.y|);
      if resolved.Failure? {
        return Some(resolved.error), None;
      }
      err := None;
      nl := KeepFinite(batch, resolved.value, mask);
    }

    /**
     * The classifier step of `fit(X, y)` for the resolved noise level `level`
     * and the classifier's flags `mask`: store the flags, keep the finite
     * points and their noise levels, or stop when there is none.
     */
    method KeepFinite(batch: Points, level: Noise, mask: seq<bool>) returns (nl: Option<Noise>)
      requires Valid() && hasAll && batch.Paired() && |mask| == |batch.y| && Fits(level, |batch.y|)
      requires all == batch
      modifies this`finiteFlags, this`noise, this`train
      ensures Valid()
      ensures !hasClassifier ==> nl == Some(noise) && noise == level && train == batch
      ensures hasClassifier ==> finiteFlags == mask && noise == FilterNoise(level, mask)
      ensures hasClassifier && NoneSet(mask) ==> nl.None? && train == old(train)
      ensures hasClassifier && !NoneSet(mask) ==> nl == Some(noise) && train == batch.Keep(mask)
      ensures nl.Some? ==> |train.y| <= |all.y|
    {
      var kept := batch;
      var filtered := level;
      if hasClassifier {
        finiteFlags := mask;
        // the stored level covers the finite points only (see Findings)
        filtered := FilterNoise(level, mask);
        if NoneSet(mask) {
          noise := filtered;
          return None;
        }
        kept := batch.Keep(mask);
      }
      noise, train := filtered, kept;
      nl := Some(filtered);
    }

    /**
     * The second half of `fit`: preprocess, tune the hyperparameters, factorize.
     * A noise level that does not fit the finite set cannot be added to the
     * kernel matrix's diagonal and is refused before the optimizer runs.
     */
    method Refit(nl: Noise, simplified: bool, nRestarts: Option<int>, startFromCurrent: bool,
                 newPre: Preprocessing, num: Numerics, classify: Classifier)
      returns (err: Option<GprError>)
      requires Valid() && hasAll && ClassifierContract(classify)
      modifies this`pre, this`trainT, this`allT, this`noiseT, this`alpha, this`hasTrain, this`finiteFlags
      modifies this`theta, this`lml, this`factor, this`newlyAppendedForInv, this`fitted
      ensures Valid()
      ensures Refitted(old(FittingNow()), nl, simplified, nRestarts, startFromCurrent, newPre, num, classify, err)
      ensures err.Some? ==> newlyAppendedForInv == old(newlyAppendedForInv)
      ensures err.None? && nl == noise ==> Consistent()
      ensures !hasClassifier || |train.y| <= |all.y| ==> CountsCover()
    {
      Transform(nl, newPre, classify);
      err := TuneAndFactorize(nl, simplified, nRestarts, startFromCurrent, num);
    }

    /**
     * The end of `fit`: refuse a noise level that does not fit the finite
     * set, tune the hyperparameters, and factorize the whole finite set.
     */
    method TuneAndFactorize(nl: Noise, simplified: bool, nRestarts: Option<int>, startFromCurrent: bool,
                            num: Numerics)
      returns (err: Option<GprError>)
      modifies this`theta, this`lml, this`factor, this`newlyAppendedForInv, this`fitted
      ensures TuneOutcome(old(theta), nl, simplified, nRestarts, startFromCurrent, num, err)
      ensures err.None? ==> fitted && factor == Some(|trainT.y|) && newlyAppendedForInv == 0
      ensures err.Some? ==> lml == old(lml) && fitted == old(fitted) && factor == old(factor)
      ensures err.Some? ==> newlyAppendedForInv == old(newlyAppendedForInv)
    {
      if !Fits(nl, |train.y|) {
        return Some(NoiseLevel(LengthMismatch));
      }
      var tuned := Tuning(simplified, nRestarts, startFromCurrent, num);
      if tuned.Some? {
        return Some(Hyperparameters(tuned.value));
      }
      factor, newlyAppendedForInv, fitted := Some(|trainT.y|), 0, true;
      err := None;
    }

    /**
     * The preprocessing part of `fit`: adopt the refitted preprocessors, store
     * the transformed finite and full sets, the transformed noise level and
     * alpha, and refit the classifier in the transformed space.
     */
    method Transform(nl: Noise, newPre: Preprocessing, classify: Classifier)
      requires Valid() && hasAll && ClassifierContract(classify)
      modifies this`pre, this`trainT, this`allT, this`noiseT, this`alpha, this`hasTrain, this`finiteFlags
      ensures Valid() && hasTrain && pre == newPre
      ensures trainT == train.Map(newPre) && allT == all.Map(newPre)
      ensures noiseT == MapNoise(newPre.noise, nl) && alpha == Squared(noiseT)
      ensures finiteFlags == if hasClassifier then classify(allT.x, allT.y) else old(finiteFlags)
    {
      var t, a := train.Map(newPre), all.Map(newPre);
      var level := MapNoise(newPre.noise, nl);
      var flags := if hasClassifier then classify(a.x, a.y) else finiteFlags;
      pre, trainT, allT, noiseT, alpha, hasTrain, finiteFlags := newPre, t, a, level, Squared(level), true, flags;
    }

    /**
     * The optimization loop of `fit`, or the LML at the current theta when no
     * optimization is due. The likelihood evaluations set the kernel's theta
     * as they go, so a refused optimization that had already run from the
     * current theta leaves theta where that run ended.
     */
    method Tuning(simplified: bool, nRestarts: Option<int>, startFromCurrent: bool, num: Numerics)
      returns (err: Option<HyperError>)
      modifies this`theta, this`lml
      ensures var t := Tune(old(theta), simplified, startFromCurrent, nRestarts, nRestartsOptimizer,
                            hasOptimizer, kernelDims, kernelBoundsFinite, num.run, num.draw, num.lml);
        && (t.Failure? ==>
              && err == Some(t.error) && lml == old(lml)
              && theta == ThetaAfterRefusal(old(theta), simplified, startFromCurrent, nRestarts,
                                            nRestartsOptimizer, num.last))
        && (t.Success? ==> err.None? && (theta, lml) == t.value)
    {
      var (sfc, nr) := EffectiveRuns(simplified, startFromCurrent, nRestarts, nRestartsOptimizer);
      if DoOptimization(hasOptimizer, kernelDims, sfc, nr) {
        var best := RunOptimizer(sfc, nr, theta, num.run, num.draw, kernelBoundsFinite);
        if best.Failure? {
          if sfc {
            theta := num.last(theta);
          }
          return Some(best.error);
        }
        theta, lml := best.value.theta, -best.value.value;
      } else {
        lml := num.lml(theta);
      }
      err := None;
    }

    /**
     * `_reset_noise_level(noise_level, n_train, fit)`: reconcile the new noise
     * level with the stored one for `nNew` new finite points (see Reconcile);
     * an error leaves both levels untouched.
     */
    method ResetNoiseLevel(arg: NoiseArg, nNew: nat, refit: bool) returns (err: Option<GprError>)
      modifies this`noise, this`noiseT
      ensures var r := Reconcile(old(noise), old(noiseT), arg, nNew, |trainT.y|, refit, pre.noise);
        && (r.Failure? ==> err == Some(NoiseLevel(r.error)) && noise == old(noise) && noiseT == old(noiseT))
        && (r.Success? ==> err.None? && (noise, noiseT) == r.value)
    {
      match arg {
        case Levels(v) =>
          if |v| != nNew {
            return Some(NoiseLevel(LengthMismatch));
          }
          if noise.PerPoint? {
            noise := PerPoint(noise.levels + v);
            if !refit {
              noiseT := AppendLevels(noiseT, MapSeq(pre.noise, v));
            }
          } else {
            var levels := Broadcast(noise.level, |trainT.y|) + v;
            noise := PerPoint(levels);
            if !refit {
              noiseT := PerPoint(MapSeq(pre.noise, levels));
            }
          }
        case Missing =>
          if noise.PerPoint? {
            return Some(NoiseLevel(ArrayWithoutValue));
          }
        case Number(s) =>
          if !refit {
            noiseT := Scalar(pre.noise(s));
          }
          noise := Scalar(s);
        case Unsupported =>
          return Some(NoiseLevel(UnsupportedType));
      }
      err := None;
    }

    /**
     * `_update_model`: extend the factorization by the points appended since
     * the last one. Refused when nothing was appended, when there is no
     * factorization, or when its size is not the size before the append.
     */
    method UpdateModel() returns (err: Option<GprError>)
      modifies this`factor, this`newlyAppendedForInv
      ensures err == Some(NothingAppended) <==> old(newlyAppendedForInv) < 1
      ensures old(newlyAppendedForInv) >= 1 && (!hasTrain || old(factor).None?) ==> err == Some(NoFactorization)
      ensures err.None? <==>
        && old(newlyAppendedForInv) >= 1 && hasTrain && old(factor).Some?
        && old(factor).value == |trainT.y| - old(newlyAppendedForInv)
      ensures err.None? ==> factor == Some(|trainT.y|) && newlyAppendedForInv == 0
      ensures err.Some? ==> factor == old(factor) && newlyAppendedForInv == old(newlyAppendedForInv)
    {
      if newlyAppendedForInv < 1 {
        return Some(NothingAppended);
      }
      if !hasTrain || factor.None? {
        return Some(NoFactorization);
      }
      if factor.value != |trainT.y| - newlyAppendedForInv {
        return Some(StaleFactorization);
      }
      factor, newlyAppendedForInv := Some(|trainT.y|), 0;
      err := None;
    }

    /**
     * Which appended points are finite: the tail of the flags the classifier
     * gives the grown transformed full set, or all of them without a classifier.
     */
    function AppendKept(batch: Points, classify: Classifier): seq<bool>
      reads this
    {
      if hasClassifier then PyTail(classify(allT.x + MapSeq(pre.x, batch.x), allT.y + MapSeq(pre.y, batch.y)), |batch.y|)
      else AllTrue(|batch.y|)
    }

    /** The batch joined the full set. */
    twostate predicate FullSetGrown(batch: Points)
      reads this
    {
      hasAll && all == old(all).Concat(batch) && nLastAppended == |batch.y|
    }

    /**
     * The transform of the batch (by the preprocessors in place before the
     * append) joined the transformed full set, and the classifier was refitted on it.
     */
    twostate predicate FullSetTransformGrown(batch: Points, classify: Classifier)
      reads this
    {
      && allT == old(allT).Concat(batch.Map(old(pre)))
      && (hasClassifier ==> finiteFlags == classify(allT.x, allT.y))
    }

    /**
     * The finite part `kept` of a batch joined the finite set `train0`, and
     * the grown set was refitted from the current theta, the fitting being
     * `f0` before.
     */
    ghost predicate GrownRefitted(train0: Points, f0: Fitting, kept: Points, simplifiedFit: bool,
                                  newPre: Preprocessing, num: Numerics, classify: Classifier, err: Option<GprError>)
      reads this
    {
      && hasTrain && train == train0.Concat(kept) && nLastAppendedFinite == |kept.y|
      && Refitted(f0, noise, simplifiedFit, None, true, newPre, num, classify, err)
      && (err.Some? ==> newlyAppendedForInv == |kept.y|)
    }

    /**
     * The finite part `kept` of a batch joined the finite set `train0`, its
     * transform by `pre0` joined the transformed set `trainT0`, alpha follows
     * the transformed noise level `levelT`, and `_update_model` ran: refused
     * for an empty batch or a missing factorization, and successful exactly
     * when the factorization `f0.factor` covered the whole set before.
     */
    ghost predicate GrownExtended(train0: Points, trainT0: Points, pre0: Preprocessing, f0: Fitting, kept: Points,
                                  levelT: Noise, err: Option<GprError>)
      reads this
    {
      && hasTrain && train == train0.Concat(kept) && nLastAppendedFinite == |kept.y|
      && pre == pre0 && theta == f0.theta && lml == f0.lml && fitted == f0.fitted
      && trainT == trainT0.Concat(kept.Map(pre0)) && noiseT == levelT && alpha == Squared(noiseT)
      && (err == Some(NothingAppended) <==> |kept.y| == 0)
      && (|kept.y| > 0 && f0.factor.None? ==> err == Some(NoFactorization))
      && (err.None? <==> |kept.y| > 0 && f0.factor == Some(|trainT0.y|))
      && (err.None? ==> factor == Some(|trainT.y|) && newlyAppendedForInv == 0)
      && (err.Some? ==> factor == f0.factor && newlyAppendedForInv == |kept.y|)
    }

    /**
     * Starting from the finite side `before`, the finite part `kept` of a
     * batch joined the finite set with the reconciled noise level `level`
     * (raw and transformed); then either the finite set was refitted, or the
     * factorization was extended.
     */
    ghost predicate FiniteSetGrown(before: FiniteSide, kept: Points, level: (Noise, Noise), fit: bool,
                                   simplifiedFit: bool, newPre: Preprocessing, num: Numerics, classify: Classifier,
                                   err: Option<GprError>)
      reads this
    {
      && noise == level.0
      && (fit ==> GrownRefitted(before.train, before.fitting, kept, simplifiedFit, newPre, num, classify, err))
      && (!fit ==> GrownExtended(before.train, before.trainT, before.pre, before.fitting, kept, level.1, err))
    }

    /**
     * `_reset_noise_level` for the finite part `kept` of a batch, from the
     * finite side `before`, then the growth of the finite set; a refused
     * noise level stops the append with the finite side as it was.
     */
    ghost predicate NoiseThenFinite(before: FiniteSide, kept: Points, arg: NoiseArg, fit: bool, simplifiedFit: bool,
                                    newPre: Preprocessing, num: Numerics, classify: Classifier,
                                    err: Option<GprError>)
      reads this
    {
      var r := Reconcile(before.noise, before.noiseT, arg, |kept.y|, |before.trainT.y|, fit, before.pre.noise);
      && (r.Failure? ==> err == Some(NoiseLevel(r.error)) && FiniteNow() == before)
      && (r.Success? ==> FiniteSetGrown(before, kept, r.value, fit, simplifiedFit, newPre, num, classify, err))
    }

    /**
     * The outcome of `append_to_data` on a regressor that holds a training
     * set: the batch joins the full set; when the refitted classifier flags
     * none of it finite, or its flags do not match it, or the noise array
     * does not match them, the finite side is left as it was; otherwise the
     * finite part of the batch goes on to the noise level and the finite set.
     * Unless that part is refitted, the transformed full set grows with the
     * batch's transform and keeps the classifier's flags over it.
     */
    twostate predicate Appended(batch: Points, noiseArg: NoiseArg, fit: bool, simplifiedFit: bool,
                                newPre: Preprocessing, num: Numerics, classify: Classifier, new err: Option<GprError>)
      requires batch.Paired()
      reads this
    {
      var kept := old(AppendKept(batch, classify));
      var arg := MaskedNoiseArg(noiseArg, hasClassifier, kept);
      var stops := (hasClassifier && NoneSet(kept)) || |kept| != |batch.y| || arg.Failure?;
      var refits := fit && !stops &&
        Reconcile(old(noise), old(noiseT), arg.value, Count(kept), |old(trainT).y|, fit, old(pre).noise).Success?;
      && FullSetGrown(batch)
      && (!refits ==> FullSetTransformGrown(batch, classify))
      && (hasClassifier && NoneSet(kept) ==> err.None?)
      && (!(hasClassifier && NoneSet(kept)) && |kept| != |batch.y| ==> err == Some(MaskMismatch))
      && (!(hasClassifier && NoneSet(kept)) && |kept| == |batch.y| && arg.Failure? ==> err == Some(arg.error))
      && (stops ==> FiniteNow() == old(FiniteNow()))
      && (!stops ==>
            NoiseThenFinite(old(FiniteNow()), batch.Keep(kept), arg.value, fit, simplifiedFit, newPre, num, classify, err))
    }

    /**
     * `append_to_data(X, y, noise_level, fit, simplified_fit)`: grow the full
     * set, keep the appended points the refitted classifier calls finite,
     * reconcile the noise level, grow the finite set, then either refit or
     * update the factorization. Without a previous training set it is
     * `fit(X, y, noise_level)` with the default tuning options.
     */
    method AppendToData(X: seq<Row>, y: seq<real>, noiseArg: NoiseArg, fit: bool, simplifiedFit: bool,
                        newPre: Preprocessing, num: Numerics, classify: Classifier)
      returns (err: Option<GprError>)
      requires Valid() && ClassifierContract(classify) && |X| == |y|
      modifies this`all, this`hasAll, this`allT, this`nLastAppended, this`finiteFlags
      modifies this`noise, this`train, this`nLastAppendedFinite
      modifies this`pre, this`trainT, this`noiseT, this`alpha, this`hasTrain
      modifies this`theta, this`lml, this`factor, this`newlyAppendedForInv, this`fitted
      ensures Valid()
      ensures !old(hasTrain) ==>
        && NewSetFitted(Points(X, y), noiseArg, false, None, true, newPre, num, classify, err)
        && nLastAppended == old(nLastAppended)
      ensures old(hasTrain) ==> Appended(Points(X, y), noiseArg, fit, simplifiedFit, newPre, num, classify, err)
      ensures old(CountsCover()) ==> CountsCover()
      ensures old(Consistent()) && err.None? ==> Consistent()
    {
      if !hasTrain {
        err := FitNewSet(Points(X, y), noiseArg, false, None, true, newPre, num, classify);
      } else {
        err := AppendToTrained(Points(X, y), noiseArg, fit, simplifiedFit, newPre, num, classify);
      }
    }

    /** The append to a regressor that already holds a training set. */
    method AppendToTrained(batch: Points, noiseArg: NoiseArg, fit: bool, simplifiedFit: bool,
                           newPre: Preprocessing, num: Numerics, classify: Classifier)
      returns (err: Option<GprError>)
      requires Valid() && hasTrain && batch.Paired() && ClassifierContract(classify)
      modifies this`all, this`allT, this`nLastAppended, this`finiteFlags
      modifies this`noise, this`train, this`nLastAppendedFinite
      modifies this`pre, this`trainT, this`noiseT, this`alpha, this`hasTrain
      modifies this`theta, this`lml, this`factor, this`newlyAppendedForInv, this`fitted
      ensures Valid()
      ensures Appended(batch, noiseArg, fit, simplifiedFit, newPre, num, classify, err)
      ensures old(CountsCover()) ==> CountsCover()
      ensures old(Consistent()) && err.None? ==> Consistent()
    {
      ghost var before := FiniteNow();
      var kept := GrowFullSet(batch, classify);
      assert FiniteNow() == before;
      if hasClassifier && NoneSet(kept) {
        return None;
      }
      if |kept| != |batch.x| {
        return Some(MaskMismatch);
      }
      err := AppendKeptBatch(batch, kept, noiseArg, fit, simplifiedFit, newPre, num, classify);
    }

    /**
     * The start of the append: the batch joins the full set and its transform
     * the transformed full set, the classifier is refitted on the latter, and
     * the flags of the batch (all set without a classifier) are returned.
     */
    method GrowFullSet(batch: Points, classify: Classifier) returns (kept: seq<bool>)
      requires Valid() && hasAll && batch.Paired() && ClassifierContract(classify)
      modifies this`all, this`allT, this`nLastAppended, this`finiteFlags
      ensures Valid()
      ensures FullSetGrown(batch) && FullSetTransformGrown(batch, classify) && FiniteNow() == old(FiniteNow())
      ensures kept == old(AppendKept(batch, classify))
      ensures old(CountsCover()) ==> CoverWithRoom(|batch.y|)
    {
      var batchT := batch.Map(pre);
      var grown, grownT := all.Concat(batch), allT.Concat(batchT);
      all, allT, nLastAppended := grown, grownT, |batch.y|;
      if hasClassifier {
        finiteFlags := classify(grownT.x, grownT.y);
        kept := PyTail(finiteFlags, |batch.y|);
      } else {
        kept := AllTrue(|batch.y|);
      }
    }

    /**
     * The append once the batch has joined the full set and its flags match
     * it: the noise argument is cut to the kept points, and the kept part of
     * the batch goes on to the finite set.
     */
    method AppendKeptBatch(batch: Points, kept: seq<bool>, noiseArg: NoiseArg, fit: bool, simplifiedFit: bool,
                           newPre: Preprocessing, num: Numerics, classify: Classifier)
      returns (err: Option<GprError>)
      requires Valid() && hasTrain && batch.Paired() && |kept| == |batch.y| && ClassifierContract(classify)
      modifies this`noise, this`train, this`nLastAppendedFinite
      modifies this`pre, this`trainT, this`allT, this`noiseT, this`alpha, this`hasTrain, this`finiteFlags
      modifies this`theta, this`lml, this`factor, this`newlyAppendedForInv, this`fitted
      ensures Valid()
      ensures var arg := MaskedNoiseArg(noiseArg, hasClassifier, kept);
        && (arg.Failure? ==> err == Some(arg.error) && FiniteNow() == old(FiniteNow()))
        && (arg.Success? ==>
              NoiseThenFinite(old(FiniteNow()), batch.Keep(kept), arg.value, fit, simplifiedFit, newPre, num, classify, err))
        && (arg.Failure? || !fit ||
            Reconcile(old(noise), old(noiseT), arg.value, Count(kept), |old(trainT).y|, fit, old(pre).noise).Failure?
            ==> allT == old(allT) && finiteFlags == old(finiteFlags))
      ensures old(CoverWithRoom(|batch.y|)) ==> CountsCover()
      ensures old(Consistent()) && err.None? ==> Consistent()
    {
      var arg := MaskedNoiseArg(noiseArg, hasClassifier, kept);
      if arg.Failure? {
        return Some(arg.error);
      }
      err := AppendFinite(batch.Keep(kept), arg.value, fit, simplifiedFit, newPre, num, classify);
    }

    /**
     * The rest of the append, for the finite part `kept` of the batch:
     * reconcile the noise level, grow the finite set and the counters, then
     * refit, or grow the transformed finite set and update the factorization.
     */
    method AppendFinite(kept: Points, arg: NoiseArg, fit: bool, simplifiedFit: bool,
                        newPre: Preprocessing, num: Numerics, classify: Classifier)
      returns (err: Option<GprError>)
      requires Valid() && hasTrain && kept.Paired() && ClassifierContract(classify)
      modifies this`noise, this`train, this`nLastAppendedFinite
      modifies this`pre, this`trainT, this`allT, this`noiseT, this`alpha, this`hasTrain, this`finiteFlags
      modifies this`theta, this`lml, this`factor, this`newlyAppendedForInv, this`fitted
      ensures Valid()
      ensures NoiseThenFinite(old(FiniteNow()), kept, arg, fit, simplifiedFit, newPre, num, classify, err)
      ensures !fit || Reconcile(old(noise), old(noiseT), arg, |kept.y|, |old(trainT).y|, fit, old(pre).noise).Failure?
        ==> allT == old(allT) && finiteFlags == old(finiteFlags)
      ensures old(CoverWithRoom(|kept.y|)) ==> CountsCover()
      ensures old(Consistent()) && err.None? ==> Consistent()
    {
      err := ResetBatchNoise(kept, arg, fit);
      if err.Some? {
        return;
      }
      ghost var before := old(FiniteNow());
      ghost var r := Reconcile(before.noise, before.noiseT, arg, |kept.y|, |before.trainT.y|, fit, before.pre.noise);
      ghost var mid := FiniteNow();
      err := GrowFinite(kept, fit, simplifiedFit, newPre, num, classify);
      GrownFromSameSide(mid, before, kept, r.value, fit, simplifiedFit, newPre, num, classify, err);
    }

    /**
     * `_reset_noise_level` for the finite part `kept` of a batch; without a
     * refit, copies that followed the raw ones still do so once the batch joins.
     */
    method ResetBatchNoise(kept: Points, arg: NoiseArg, fit: bool) returns (err: Option<GprError>)
      requires Valid() && kept.Paired()
      modifies this`noise, this`noiseT
      ensures Valid()
      ensures var r := Reconcile(old(noise), old(noiseT), arg, |kept.y|, |trainT.y|, fit, pre.noise);
        && (r.Failure? ==> err == Some(NoiseLevel(r.error)) && noise == old(noise) && noiseT == old(noiseT))
        && (r.Success? ==> err.None? && (noise, noiseT) == r.value)
      ensures err.None? && !fit && old(Consistent()) && hasTrain ==>
        fitted && Coherent(train.Concat(kept), trainT.Concat(kept.Map(pre)), noise, noiseT, Squared(noiseT), pre)
    {
      ghost var consistent := Consistent();
      err := ResetNoiseLevel(arg, |kept.y|, fit);
      if err.None? && !fit && consistent && hasTrain {
        AppendKeepsCoherent(old(train), old(trainT), old(noise), old(noiseT), pre, kept, kept.Map(pre), arg);
      }
    }

    /** Growth of the finite set does not depend on the noise level recorded in its starting side. */
    lemma GrownFromSameSide(a: FiniteSide, b: FiniteSide, kept: Points, level: (Noise, Noise), fit: bool,
                            simplifiedFit: bool, newPre: Preprocessing, num: Numerics, classify: Classifier,
                            err: Option<GprError>)
      requires a.train == b.train && a.trainT == b.trainT && a.pre == b.pre && a.fitting == b.fitting
      requires FiniteSetGrown(a, kept, level, fit, simplifiedFit, newPre, num, classify, err)
      ensures FiniteSetGrown(b, kept, level, fit, simplifiedFit, newPre, num, classify, err)
    {
    }

    /**
     * The append after the noise level is reconciled: the finite set and the
     * counters grow, then the finite set is refitted or the factorization is
     * extended by the batch.
     */
    method GrowFinite(kept: Points, fit: bool, simplifiedFit: bool,
                      newPre: Preprocessing, num: Numerics, classify: Classifier)
      returns (err: Option<GprError>)
      requires Valid() && hasTrain && kept.Paired() && ClassifierContract(classify)
      modifies this`train, this`nLastAppendedFinite
      modifies this`pre, this`trainT, this`allT, this`noiseT, this`alpha, this`hasTrain, this`finiteFlags
      modifies this`theta, this`lml, this`factor, this`newlyAppendedForInv, this`fitted
      ensures Valid()
      ensures FiniteSetGrown(old(FiniteNow()), kept, (old(noise), old(noiseT)), fit, simplifiedFit, newPre, num,
                             classify, err)
      ensures !fit ==> allT == old(allT) && finiteFlags == old(finiteFlags)
      ensures old(CoverWithRoom(|kept.y|)) ==> CountsCover()
      ensures fit && err.None? ==> Consistent()
      ensures !fit && err.None? && old(fitted) &&
              old(Coherent(train.Concat(kept), trainT.Concat(kept.Map(pre)), noise, noiseT, Squared(noiseT), pre))
        ==> Consistent()
    {
      if fit {
        err := GrowAndRefit(kept, simplifiedFit, newPre, num, classify);
      } else {
        err := GrowAndExtend(kept);
      }
    }

    /** The refitting end of the append: the finite set grows, then `fit(simplified=simplified_fit)`. */
    method GrowAndRefit(kept: Points, simplifiedFit: bool, newPre: Preprocessing, num: Numerics, classify: Classifier)
      returns (err: Option<GprError>)
      requires Valid() && hasTrain && kept.Paired() && ClassifierContract(classify)
      modifies this`train, this`nLastAppendedFinite
      modifies this`pre, this`trainT, this`allT, this`noiseT, this`alpha, this`hasTrain, this`finiteFlags
      modifies this`theta, this`lml, this`factor, this`newlyAppendedForInv, this`fitted
      ensures Valid()
      ensures GrownRefitted(old(train), old(FittingNow()), kept, simplifiedFit, newPre, num, classify, err)
      ensures old(CoverWithRoom(|kept.y|)) ==> CountsCover()
      ensures err.None? ==> Consistent()
    {
      train, nLastAppendedFinite, newlyAppendedForInv := train.Concat(kept), |kept.y|, |kept.y|;
      err := RefitStored(simplifiedFit, newPre, num, classify);
    }

    /**
     * The no-refit end of the append: the finite set, its transform and alpha
     * grow with the batch, then `_update_model` extends the factorization.
     */
    method GrowAndExtend(kept: Points) returns (err: Option<GprError>)
      requires Valid() && hasTrain && kept.Paired()
      modifies this`train, this`nLastAppendedFinite, this`trainT, this`alpha, this`factor, this`newlyAppendedForInv
      ensures Valid()
      ensures GrownExtended(old(train), old(trainT), pre, old(FittingNow()), kept, noiseT, err)
      ensures old(CoverWithRoom(|kept.y|)) ==> CountsCover()
      ensures err.None? && old(fitted) &&
              old(Coherent(train.Concat(kept), trainT.Concat(kept.Map(pre)), noise, noiseT, Squared(noiseT), pre))
        ==> Consistent()
    {
      train, nLastAppendedFinite, newlyAppendedForInv := train.Concat(kept), |kept.y|, |kept.y|;
      err := ExtendFactorization(kept.Map(pre));
    }

    /**
     * `fit(simplified=simplified_fit)` after an append: the stored finite set
     * and noise level are refitted from the current theta.
     */
    method RefitStored(simplified: bool, newPre: Preprocessing, num: Numerics, classify: Classifier)
      returns (err: Option<GprError>)
      requires Valid() && hasTrain && ClassifierContract(classify)
      modifies this`pre, this`trainT, this`allT, this`noiseT, this`alpha, this`hasTrain, this`finiteFlags
      modifies this`theta, this`lml, this`factor, this`newlyAppendedForInv, this`fitted
      ensures Valid()
      ensures Refitted(old(FittingNow()), noise, simplified, None, true, newPre, num, classify, err)
      ensures err.Some? ==> newlyAppendedForInv == old(newlyAppendedForInv)
      ensures err.None? ==> Consistent()
    {
      err := Refit(noise, simplified, None, true, newPre, num, classify);
    }

    /**
     * The no-refit end of the append: the transformed finite set and alpha
     * grow with the batch, then `_update_model` extends the factorization.
     */
    method ExtendFactorization(batchT: Points) returns (err: Option<GprError>)
      requires hasTrain
      modifies this`trainT, this`alpha, this`factor, this`newlyAppendedForInv
      ensures trainT == old(trainT).Concat(batchT) && alpha == Squared(noiseT)
      ensures err == Some(NothingAppended) <==> old(newlyAppendedForInv) < 1
      ensures old(newlyAppendedForInv) >= 1 && old(factor).None? ==> err == Some(NoFactorization)
      ensures err.None? <==>
        && old(newlyAppendedForInv) >= 1 && old(factor).Some?
        && old(factor).value == |trainT.y| - old(newlyAppendedForInv)
      ensures err.None? ==> factor == Some(|trainT.y|) && newlyAppendedForInv == 0
      ensures err.Some? ==> factor == old(factor) && newlyAppendedForInv == old(newlyAppendedForInv)
    {
      trainT, alpha := trainT.Concat(batchT), Squared(noiseT);
      err := UpdateModel();
    }

    /** `predict(X, return_std, return_mean_grad, return_std_grad)`; counts the evaluated points. */
    method Predict(X: seq<Row>, returnStd: bool, returnMeanGrad: bool, returnStdGrad: bool,
                   gate: seq<Row> -> seq<bool>, post: Prediction.Posterior)
      returns (r: Result<Prediction.Predicted, Prediction.PredictError>)
      requires Prediction.GateContract(gate)
      modifies this`nEval
      ensures nEval == old(nEval) + |X|
      ensures r == Prediction.Predict(hasTrain, factor == Some(|trainT.y|), hasClassifier, pre.x, X,
                                      returnStd, returnMeanGrad, returnStdGrad, gate, post)
    {
      nEval := nEval + |X|;
      var check := Prediction.CheckFlags(|X|, returnStd, returnMeanGrad, returnStdGrad);
      if check.Some? {
        return Failure(check.value);
      }
      if !hasTrain {
        return Success(Prediction.PriorResult(X, returnStd, returnMeanGrad, returnStdGrad, post));
      }
      var tx := pre.x;
      var flags := Prediction.Flags(hasClassifier, gate, tx, X);
      if hasClassifier && NoneSet(flags) {
        return Success(Prediction.AllGatedResult(X, returnStd, returnMeanGrad, returnStdGrad));
      }
      if factor != Some(|trainT.y|) {
        return Failure(Prediction.NoFactorization);
      }
      var mean, std := Prediction.PosteriorValues(hasClassifier, flags, tx, X, post);
      r := Success(Prediction.Predicted(
        mean,
        if returnStd then Some(std) else None,
        if returnMeanGrad then Some(Prediction.MeanGrads(tx, X, post)) else None,
        if returnStdGrad then Some(Prediction.StdGrads(std, tx, X, post)) else None));
    }

    /** `predict_std(X)`; counts the evaluated points. */
    method PredictStd(X: seq<Row>, gate: seq<Row> -> seq<bool>, post: Prediction.Posterior)
      returns (r: Result<seq<real>, Prediction.PredictError>)
      requires Prediction.GateContract(gate)
      modifies this`nEval
      ensures nEval == old(nEval) + |X|
      ensures r == Prediction.PredictStd(hasTrain, factor == Some(|trainT.y|), hasClassifier, pre.x, X, gate, post)
    {
      nEval := nEval + |X|;
      if !hasTrain {
        return Success(MapSeq(post.priorStd, X));
      }
      var tx := pre.x;
      var flags := Prediction.Flags(hasClassifier, gate, tx, X);
      if hasClassifier && NoneSet(flags) {
        return Success(Prediction.Zeros(|X|));
      }
      if factor != Some(|trainT.y|) {
        return Failure(Prediction.NoFactorization);
      }
      var mean, std := Prediction.PosteriorValues(hasClassifier, flags, tx, X, post);
      r := Success(std);
    }
  }
}
