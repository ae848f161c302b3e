/**
 * What `predict` and `predict_std` return. The kernel algebra (cross-covariance,
 * `K_trans · alpha_`, `diag − ||V_ K_transᵀ||²`, the input gradients) and the
 * square root with the y-preprocessor's inverse transforms are foreign numerics,
 * given as the arrow fields of `Posterior`; what is modelled exactly is the
 * argument checks, the prior branch, the finiteness gate with its sentinels,
 * the scatter back to the query order and the clipping of negative variances.
 */
module Prediction {
  import opened Outcomes
  import opened Masks

  type Row = seq<real>

  /** The foreign numerics, each evaluated at one (transformed) query point. */
  datatype Posterior = Posterior(
    priorStd: Row -> real,     // sqrt(kernel.diag(x)) of the configured kernel (unfitted model)
    mean: Row -> real,         // K_trans · alpha_, inverse-transformed through the y-preprocessor
    variance: Row -> real,     // kernel_.diag(x) − ||V_ K_transᵀ||², before clipping
    std: real -> real,         // sqrt of a clipped variance, inverse noise transform applied
    meanGrad: Row -> Row,      // gradient of the mean
    stdGrad: Row -> Row)       // gradient of the std, used when the std is not zero

  datatype Predicted = Predicted(
    mean: seq<ExtReal>,
    std: Option<seq<real>>,
    meanGrad: Option<seq<seq<ExtReal>>>,
    stdGrad: Option<seq<Row>>)

  datatype PredictError =
    | StdGradWithoutStdAndMeanGrad   // return_std_grad without both return_std and return_mean_grad
    | GradientForSeveralPoints       // gradients requested for a number of points other than one
    | NoFactorization                // a training set exists but alpha_/V_ are missing or sized for another one

  /** The classifier's `predict` returns one flag per query point. */
  ghost predicate GateContract(gate: seq<Row> -> seq<bool>) {
    forall xs :: |gate(xs)| == |xs|
  }

  /** Negative variances (numerical noise) are set to zero before the square root. */
  function Clip(v: real): (c: real)
    ensures c >= 0.0
    ensures v >= 0.0 ==> c == v
    ensures v < 0.0 ==> c == 0.0
  {
    if v < 0.0 then 0.0 else v
  }

  function Zeros(n: nat): (r: seq<real>)
    ensures |r| == n && forall i :: 0 <= i < n ==> r[i] == 0.0
  {
    seq(n, _ => 0.0)
  }

  /** `np.zeros_like(X)` / `np.full_like(X, v)` for a list of rows. */
  function RowsLike<T>(X: seq<Row>, v: T): (r: seq<seq<T>>)
    ensures |r| == |X|
    ensures forall i :: 0 <= i < |X| ==> |r[i]| == |X[i]| && forall c :: 0 <= c < |X[i]| ==> r[i][c] == v
  {
    seq(|X|, i requires 0 <= i < |X| => seq(|X[i]|, _ => v))
  }

  function Extend(row: Row): (r: seq<ExtReal>)
    ensures |r| == |row| && forall c :: 0 <= c < |row| ==> r[c] == Fin(row[c])
  {
    seq(|row|, c requires 0 <= c < |row| => Fin(row[c]))
  }

  /** Mean of a finite-predicted point, given its raw coordinates. */
  function MeanAt(tx: Row -> Row, post: Posterior, x: Row): ExtReal {
    Fin(post.mean(tx(x)))
  }

  /** Standard deviation of a finite-predicted point: the clipped variance through `post.std`. */
  function StdAt(tx: Row -> Row, post: Posterior, x: Row): real {
    post.std(Clip(post.variance(tx(x))))
  }

  /** The argument checks that `predict` makes before anything else. */
  function CheckFlags(n: nat, returnStd: bool, returnMeanGrad: bool, returnStdGrad: bool): (r: Option<PredictError>)
    ensures r == Some(StdGradWithoutStdAndMeanGrad) <==> returnStdGrad && !(returnStd && returnMeanGrad)
    ensures r == Some(GradientForSeveralPoints) <==>
      !(returnStdGrad && !(returnStd && returnMeanGrad)) && n != 1 && (returnMeanGrad || returnStdGrad)
    ensures r.None? <==> !(returnStdGrad && !(returnStd && returnMeanGrad)) && !(n != 1 && (returnMeanGrad || returnStdGrad))
  {
    if returnStdGrad && !(returnStd && returnMeanGrad) then Some(StdGradWithoutStdAndMeanGrad)
    else if n != 1 && (returnMeanGrad || returnStdGrad) then Some(GradientForSeveralPoints)
    else None
  }

  /** The finiteness flags of the query points: the classifier's prediction, or all finite without one. */
  function Flags(classified: bool, gate: seq<Row> -> seq<bool>, tx: Row -> Row, X: seq<Row>): (f: seq<bool>)
    requires GateContract(gate)
    ensures |f| == |X|
    ensures !classified ==> forall i :: 0 <= i < |X| ==> f[i]
  {
    if classified then gate(MapSeq(tx, X)) else seq(|X|, _ => true)
  }

  /** Posterior means at the finite-flagged points, −∞ at the others. */
  function Means(flags: seq<bool>, tx: Row -> Row, X: seq<Row>, post: Posterior): (m: seq<ExtReal>)
    requires |flags| == |X|
  {
    seq(|X|, i requires 0 <= i < |X| => if flags[i] then MeanAt(tx, post, X[i]) else NegInf)
  }

  /** Posterior standard deviations at the finite-flagged points, 0 at the others. */
  function Stds(flags: seq<bool>, tx: Row -> Row, X: seq<Row>, post: Posterior): (s: seq<real>)
    requires |flags| == |X|
  {
    seq(|X|, i requires 0 <= i < |X| => if flags[i] then StdAt(tx, post, X[i]) else 0.0)
  }

  /** Mean gradients, per query point. */
  function MeanGrads(tx: Row -> Row, X: seq<Row>, post: Posterior): seq<seq<ExtReal>> {
    seq(|X|, i requires 0 <= i < |X| => Extend(post.meanGrad(tx(X[i]))))
  }

  /**
   * Std gradients, per query point: zero where the std is zero. The source
   * tests `np.allclose(std, 0)`, a tolerance on floating-point values; on
   * the model's exact reals that test is equality with zero.
   */
  function StdGrads(std: seq<real>, tx: Row -> Row, X: seq<Row>, post: Posterior): seq<Row>
    requires |std| == |X|
  {
    seq(|X|, i requires 0 <= i < |X| => if std[i] == 0.0 then Zeros(|X[i]|) else post.stdGrad(tx(X[i])))
  }

  /** The prior branch: zero mean, the kernel's own std, zero gradients. */
  function PriorResult(X: seq<Row>, returnStd: bool, returnMeanGrad: bool, returnStdGrad: bool,
                       post: Posterior): Predicted
  {
    Predicted(
      seq(|X|, _ => Fin(0.0)),
      if returnStd then Some(MapSeq(post.priorStd, X)) else None,
      if returnMeanGrad then Some(RowsLike(X, Fin(0.0))) else None,
      if returnStdGrad then Some(RowsLike(X, 0.0)) else None)
  }

  /** Every query point classified non-finite: −∞ means, zero stds, +∞ mean gradients. */
  function AllGatedResult(X: seq<Row>, returnStd: bool, returnMeanGrad: bool, returnStdGrad: bool): Predicted {
    Predicted(
      seq(|X|, _ => NegInf),
      if returnStd then Some(Zeros(|X|)) else None,
      if returnMeanGrad then Some(RowsLike(X, PosInf)) else None,
      if returnStdGrad then Some(RowsLike(X, 0.0)) else None)
  }

  /** The posterior branch, assembled from the gated means and stds. */
  function PosteriorResult(flags: seq<bool>, tx: Row -> Row, X: seq<Row>, returnStd: bool,
                           returnMeanGrad: bool, returnStdGrad: bool, post: Posterior): Predicted
    requires |flags| == |X|
  {
    var std := Stds(flags, tx, X, post);
    Predicted(
      Means(flags, tx, X, post),
      if returnStd then Some(std) else None,
      if returnMeanGrad then Some(MeanGrads(tx, X, post)) else None,
      if returnStdGrad then Some(StdGrads(std, tx, X, post)) else None)
  }

  /**
   * The result of `predict(X, return_std, return_mean_grad, return_std_grad)`.
   * `trained` says whether a training set exists (`X_train_`), `factored` whether
   * alpha_ and V_ exist and cover that whole training set, `classified` whether
   * a finiteness classifier is set,
   * `tx` is the X-preprocessor and `gate` the classifier's prediction on
   * transformed points.
   */
  function Predict(trained: bool, factored: bool, classified: bool, tx: Row -> Row, X: seq<Row>,
                   returnStd: bool, returnMeanGrad: bool, returnStdGrad: bool,
                   gate: seq<Row> -> seq<bool>, post: Posterior): (r: Result<Predicted, PredictError>)
    requires GateContract(gate)
    ensures var check := CheckFlags(|X|, returnStd, returnMeanGrad, returnStdGrad);
      && (check.Some? ==> r == Failure(check.value))
      && (r == Failure(NoFactorization) <==>
            check.None? && trained && !factored && !(classified && NoneSet(Flags(classified, gate, tx, X))))
    ensures r.Success? ==>
      && |r.value.mean| == |X|
      && (r.value.std.Some? <==> returnStd) && (returnStd ==> |r.value.std.value| == |X|)
      && (r.value.meanGrad.Some? <==> returnMeanGrad) && (r.value.stdGrad.Some? <==> returnStdGrad)
  {
    var check := CheckFlags(|X|, returnStd, returnMeanGrad, returnStdGrad);
    if check.Some? then Failure(check.value)
    else if !trained then Success(PriorResult(X, returnStd, returnMeanGrad, returnStdGrad, post))
    else
      var flags := Flags(classified, gate, tx, X);
      if classified && NoneSet(flags) then Success(AllGatedResult(X, returnStd, returnMeanGrad, returnStdGrad))
      else if !factored then Failure(NoFactorization)
      else Success(PosteriorResult(flags, tx, X, returnStd, returnMeanGrad, returnStdGrad, post))
  }

  /** The result of `predict_std(X)`: the same gate, clipping and scatter, standard deviation only. */
  function PredictStd(trained: bool, factored: bool, classified: bool, tx: Row -> Row, X: seq<Row>,
                      gate: seq<Row> -> seq<bool>, post: Posterior): (r: Result<seq<real>, PredictError>)
    requires GateContract(gate)
    ensures r.Failure? <==> trained && !factored && !(classified && NoneSet(Flags(classified, gate, tx, X)))
    ensures r.Failure? ==> r.error == NoFactorization
    ensures r.Success? ==> |r.value| == |X|
  {
    if !trained then Success(MapSeq(post.priorStd, X))
    else
      var flags := Flags(classified, gate, tx, X);
      if classified && NoneSet(flags) then Success(Zeros(|X|))
      else if !factored then Failure(NoFactorization)
      else Success(Stds(flags, tx, X, post))
  }

  /**
   * The posterior means and stds as `predict` computes them: with a
   * classifier on the finite-flagged points only, scattered back; without
   * one on all points.
   */
  method PosteriorValues(classified: bool, flags: seq<bool>, tx: Row -> Row, X: seq<Row>, post: Posterior)
    returns (mean: seq<ExtReal>, std: seq<real>)
    requires |flags| == |X|
    requires !classified ==> forall i :: 0 <= i < |X| ==> flags[i]
    ensures mean == Means(flags, tx, X, post) && std == Stds(flags, tx, X, post)
  {
    if classified {
      mean := GatedValues(X, flags, x => MeanAt(tx, post, x), Fin(1.0), NegInf);
      std := GatedValues(X, flags, x => StdAt(tx, post, x), 0.0, 0.0);
    } else {
      mean := MapSeq(x => MeanAt(tx, post, x), X);
      std := MapSeq(x => StdAt(tx, post, x), X);
    }
  }

  /** `full[~mask] = fill`: every unflagged position gets `fill`, the flagged ones keep their value. */
  method FillUnflagged<T>(a: array<T>, mask: seq<bool>, fill: T)
    requires a.Length == |mask|
    modifies a
    ensures forall j :: 0 <= j < |mask| ==> a[j] == if mask[j] then old(a[j]) else fill
  {
    var i := 0;
    while i < |mask|
      invariant 0 <= i <= |mask|
      invariant forall j :: 0 <= j < |mask| ==> a[j] == if !mask[j] && j < i then fill else old(a[j])
    {
      if !mask[i] {
        a[i] := fill;
      }
      i := i + 1;
    }
  }

  /** `full[mask] = vals` once the unflagged positions hold `fill`: the array becomes the scatter of `vals`. */
  method FillFlagged<T>(a: array<T>, mask: seq<bool>, vals: seq<T>, fill: T)
    requires a.Length == |mask| && |vals| == Count(mask)
    requires forall j :: 0 <= j < |mask| && !mask[j] ==> a[j] == fill
    modifies a
    ensures a[..] == Scatter(mask, vals, fill)
  {
    var i, k := 0, 0;
    while i < |mask|
      invariant 0 <= i <= |mask| && k == Count(mask[..i]) && k <= |vals|
      invariant a[..i] == Scatter(mask[..i], vals[..k], fill)
      invariant forall j :: i <= j < |mask| && !mask[j] ==> a[j] == fill
    {
      ghost var before, k0 := a[..i], k;
      assert mask[..i + 1][..i] == mask[..i];
      if mask[i] {
        SelectRankBound(mask, i);
        a[i] := vals[k];
        k := k + 1;
      }
      assert vals[..k][..k0] == vals[..k0];
      assert a[..i + 1] == before + [a[i]];
      i := i + 1;
    }
    assert mask[..i] == mask && vals[..k] == vals;
  }

  /**
   * `full = np.full(n, init); full[~mask] = fill; full[mask] = vals`, on an array:
   * the flagged positions receive `vals` in order, the others `fill`.
   */
  method FillGated<T>(mask: seq<bool>, vals: seq<T>, init: T, fill: T) returns (full: seq<T>)
    requires |vals| == Count(mask)
    ensures full == Scatter(mask, vals, fill)
  {
    var a := new T[|mask|](_ => init);
    FillUnflagged(a, mask, fill);
    FillFlagged(a, mask, vals, fill);
    full := a[..];
  }

  /**
   * The gated part of `predict`: the points the gate keeps are evaluated in
   * one batch and scattered back; the result, position by position, is the
   * posterior value at a kept point and the sentinel at a gated one.
   */
  method GatedValues<T>(X: seq<Row>, flags: seq<bool>, f: Row -> T, init: T, sentinel: T) returns (full: seq<T>)
    requires |flags| == |X|
    ensures |full| == |X|
    ensures forall i :: 0 <= i < |X| ==> full[i] == if flags[i] then f(X[i]) else sentinel
  {
    var kept := Select(X, flags);
    var vals := MapSeq(f, kept);
    full := FillGated(flags, vals, init, sentinel);
    ScatterSelected(X, flags, f, sentinel);
  }

  /** The two argument errors are raised exactly when the flags are inconsistent or gradients are asked for several points. */
  lemma {:induction false} PredictRejects(trained: bool, factored: bool, classified: bool, tx: Row -> Row, X: seq<Row>,
                                          returnStd: bool, returnMeanGrad: bool, returnStdGrad: bool,
                                          gate: seq<Row> -> seq<bool>, post: Posterior)
    requires GateContract(gate)
    ensures var r := Predict(trained, factored, classified, tx, X, returnStd, returnMeanGrad, returnStdGrad, gate, post);
      && (r == Failure(StdGradWithoutStdAndMeanGrad) <==> returnStdGrad && !(returnStd && returnMeanGrad))
      && (returnMeanGrad && |X| != 1 ==> r.Failure?)
      && (r.Success? ==> (r.value.std.Some? <==> returnStd) && (r.value.meanGrad.Some? <==> returnMeanGrad)
                         && (r.value.stdGrad.Some? <==> returnStdGrad) && |r.value.mean| == |X|)
  {
  }

  /** Before any fit the model predicts from the prior: zero mean, the kernel's own std, zero gradients. */
  lemma UnfittedPredictsPrior(factored: bool, classified: bool, tx: Row -> Row, X: seq<Row>,
                              returnStd: bool, gate: seq<Row> -> seq<bool>, post: Posterior)
    requires GateContract(gate)
    ensures var r := Predict(false, factored, classified, tx, X, returnStd, false, false, gate, post);
      && r.Success?
      && (forall i :: 0 <= i < |X| ==> r.value.mean[i] == Fin(0.0))
      && (returnStd ==> forall i :: 0 <= i < |X| ==> r.value.std.value[i] == post.priorStd(X[i]))
  {
  }

  /**
   * For a fitted model with a classifier: a point the classifier calls
   * non-finite gets mean −∞ and std 0; any other keeps its own position and
   * gets the posterior mean and the std of the clipped, non-negative variance.
   */
  lemma FittedGate(classified: bool, tx: Row -> Row, X: seq<Row>, returnStd: bool,
                   gate: seq<Row> -> seq<bool>, post: Posterior, i: nat)
    requires GateContract(gate) && i < |X|
    ensures var r := Predict(true, true, classified, tx, X, returnStd, false, false, gate, post);
      var finite := !classified || gate(MapSeq(tx, X))[i];
      && r.Success?
      && (!finite ==> r.value.mean[i] == NegInf && (returnStd ==> r.value.std.value[i] == 0.0))
      && (finite ==> r.value.mean[i] == Fin(post.mean(tx(X[i]))))
      && (finite && returnStd ==> r.value.std.value[i] == post.std(Clip(post.variance(tx(X[i])))))
  {
  }

  /** `predict_std` agrees with the std that `predict` returns. */
  lemma {:induction false} PredictStdAgrees(trained: bool, factored: bool, classified: bool, tx: Row -> Row, X: seq<Row>,
                                            gate: seq<Row> -> seq<bool>, post: Posterior)
    requires GateContract(gate)
    ensures var full := Predict(trained, factored, classified, tx, X, true, false, false, gate, post);
      var std := PredictStd(trained, factored, classified, tx, X, gate, post);
      (full.Success? <==> std.Success?) && (full.Success? ==> full.value.std == Some(std.value))
  {
  }
}
