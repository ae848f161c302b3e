/**
 * Hyperparameter selection in `fit`: which optimizer runs happen (one from the
 * current theta, then `n_restarts` from random draws), and which optimum is kept
 * (the first with the smallest negative log marginal likelihood).
 */
module Hyper {
  import opened Outcomes

  /** One optimizer run's result: the theta it reached and the objective there (−LML). */
  datatype Optimum = Optimum(theta: seq<real>, value: real)

  datatype HyperError =
    | UnboundedRestarts   // restarts requested while some kernel bound is infinite
    | NoOptimum           // no run was made, so there is no minimum to take

  /**
   * The effective (start_from_current, n_restarts): `simplified` forces a
   * single run from the current theta; otherwise a missing count takes the
   * instance's `n_restarts_optimizer`.
   */
  function EffectiveRuns(simplified: bool, startFromCurrent: bool, nRestarts: Option<int>,
                         instanceRestarts: int): (r: (bool, int))
    ensures simplified ==> r == (true, 0)
    ensures !simplified ==> r.0 == startFromCurrent
    ensures !simplified && nRestarts.None? ==> r.1 == instanceRestarts
    ensures !simplified && nRestarts.Some? ==> r.1 == nRestarts.value
  {
    if simplified then (true, 0)
    else (startFromCurrent, if nRestarts.None? then instanceRestarts else nRestarts.value)
  }

  /** Whether `fit` optimizes at all (else it only evaluates the LML at the current theta). */
  predicate DoOptimization(hasOptimizer: bool, kernelDims: nat, startFromCurrent: bool, nRestarts: int) {
    hasOptimizer && kernelDims > 0 && (startFromCurrent || nRestarts != 0)
  }

  /** The restart draws, in order: run i starts from draw(i). */
  function Restarts(run: seq<real> -> Optimum, draw: nat -> seq<real>, n: nat): (r: seq<Optimum>)
    ensures |r| == n
    ensures forall i :: 0 <= i < n ==> r[i] == run(draw(i))
  {
    seq(n, i requires 0 <= i => run(draw(i)))
  }

  /** All runs, in the order `fit` appends them to `optima`. */
  function Runs(startFromCurrent: bool, nRestarts: int, theta: seq<real>,
                run: seq<real> -> Optimum, draw: nat -> seq<real>): (r: seq<Optimum>)
    ensures |r| == (if startFromCurrent then 1 else 0) + (if nRestarts > 0 then nRestarts else 0)
    ensures startFromCurrent ==> r[0] == run(theta)
  {
    (if startFromCurrent then [run(theta)] else []) + Restarts(run, draw, if nRestarts > 0 then nRestarts else 0)
  }

  function Values(optima: seq<Optimum>): (r: seq<real>)
    ensures |r| == |optima|
    ensures forall i :: 0 <= i < |optima| ==> r[i] == optima[i].value
  {
    seq(|optima|, i requires 0 <= i < |optima| => optima[i].value)
  }

  /** numpy's argmin: the FIRST index holding the smallest value. */
  function FirstMin(vals: seq<real>): (k: nat)
    requires |vals| > 0
    ensures k < |vals|
    ensures forall j :: 0 <= j < |vals| ==> vals[k] <= vals[j]
    ensures forall j :: 0 <= j < k ==> vals[j] > vals[k]
  {
    if |vals| == 1 then 0
    else
      var n := |vals| - 1;
      var k := FirstMin(vals[..n]);
      if vals[n] < vals[k] then n else k
  }

  /**
   * The optimizer loop of `fit`: a run from the current theta if asked, then
   * the restarts (refused when the kernel bounds are not all finite, checked
   * after the first run), and the first run with minimal objective.
   */
  method RunOptimizer(startFromCurrent: bool, nRestarts: int, theta: seq<real>,
                      run: seq<real> -> Optimum, draw: nat -> seq<real>, boundsFinite: bool)
    returns (r: Result<Optimum, HyperError>)
    ensures nRestarts > 0 && !boundsFinite ==> r == Failure(UnboundedRestarts)
    ensures (nRestarts <= 0 || boundsFinite) && !startFromCurrent && nRestarts <= 0 ==> r == Failure(NoOptimum)
    ensures (nRestarts <= 0 || boundsFinite) && (startFromCurrent || nRestarts > 0) ==>
      var optima := Runs(startFromCurrent, nRestarts, theta, run, draw);
      r == Success(optima[FirstMin(Values(optima))])
  {
    var optima: seq<Optimum> := [];
    if startFromCurrent {
      optima := optima + [run(theta)];
    }
    if nRestarts > 0 {
      if !boundsFinite {
        return Failure(UnboundedRestarts);
      }
      var i := 0;
      while i < nRestarts
        invariant 0 <= i <= nRestarts
        invariant optima == (if startFromCurrent then [run(theta)] else []) + Restarts(run, draw, i)
      {
        optima := optima + [run(draw(i))];
        i := i + 1;
      }
    }
    assert optima == Runs(startFromCurrent, nRestarts, theta, run, draw);
    if optima == [] {
      return Failure(NoOptimum);
    }
    var values := Values(optima);
    r := Success(optima[FirstMin(values)]);
  }

  /** The kept optimum has the smallest objective of all runs, and no earlier run ties it. */
  lemma {:induction false} SelectedIsFirstMinimum(optima: seq<Optimum>)
    requires |optima| > 0
    ensures var best := optima[FirstMin(Values(optima))];
      && best in optima
      && (forall o :: o in optima ==> best.value <= o.value)
      && (forall j :: 0 <= j < FirstMin(Values(optima)) ==> optima[j].value > best.value)
  {
    var vals := Values(optima);
    var k := FirstMin(vals);
    forall o | o in optima
      ensures optima[k].value <= o.value
    {
      var j :| 0 <= j < |optima| && optima[j] == o;
      assert vals[k] <= vals[j];
    }
  }

  /** A simplified fit makes exactly one optimizer run, from the current theta. */
  lemma SimplifiedRunsOnce(startFromCurrent: bool, nRestarts: Option<int>, instanceRestarts: int,
                           theta: seq<real>, run: seq<real> -> Optimum, draw: nat -> seq<real>)
    ensures var (sfc, nr) := EffectiveRuns(true, startFromCurrent, nRestarts, instanceRestarts);
      Runs(sfc, nr, theta, run, draw) == [run(theta)]
  {
    assert Restarts(run, draw, 0) == [];
  }

  /**
   * The (theta, log marginal likelihood) pair that `fit` stores: without
   * optimization the current theta and its LML; otherwise the kept optimum
   * and minus its objective; or the error the optimizer loop raises.
   */
  function Tune(theta: seq<real>, simplified: bool, startFromCurrent: bool, nRestarts: Option<int>,
                instanceRestarts: int, hasOptimizer: bool, kernelDims: nat, boundsFinite: bool,
                run: seq<real> -> Optimum, draw: nat -> seq<real>, lml: seq<real> -> real)
    : (r: Result<(seq<real>, real), HyperError>)
    ensures var (sfc, nr) := EffectiveRuns(simplified, startFromCurrent, nRestarts, instanceRestarts);
      && (!DoOptimization(hasOptimizer, kernelDims, sfc, nr) ==> r == Success((theta, lml(theta))))
      && (DoOptimization(hasOptimizer, kernelDims, sfc, nr) ==>
            && (r == Failure(UnboundedRestarts) <==> nr > 0 && !boundsFinite)
            && (r == Failure(NoOptimum) <==> (nr <= 0 || boundsFinite) && !sfc && nr <= 0))
  {
    var (sfc, nr) := EffectiveRuns(simplified, startFromCurrent, nRestarts, instanceRestarts);
    if !DoOptimization(hasOptimizer, kernelDims, sfc, nr) then Success((theta, lml(theta)))
    else if nr > 0 && !boundsFinite then Failure(UnboundedRestarts)
    else Best(Runs(sfc, nr, theta, run, draw))
  }

  /** The first run with minimal objective, as (theta, LML); none when no run was made. */
  function Best(optima: seq<Optimum>): Result<(seq<real>, real), HyperError>
  {
    if optima == [] then Failure(NoOptimum)
    else
      var best := optima[FirstMin(Values(optima))];
      Success((best.theta, -best.value))
  }

  /**
   * The kernel's theta after a refused tuning. The objective sets the
   * kernel's theta in place at every evaluation, so once the run from the
   * current theta has been made, theta is left at the last point that run
   * evaluated (`last`); a refusal before any run leaves it as it was.
   */
  function ThetaAfterRefusal(theta: seq<real>, simplified: bool, startFromCurrent: bool, nRestarts: Option<int>,
                             instanceRestarts: int, last: seq<real> -> seq<real>): seq<real>
  {
    if EffectiveRuns(simplified, startFromCurrent, nRestarts, instanceRestarts).0 then last(theta) else theta
  }

  /**
   * When `fit` optimizes and succeeds, the stored theta is reached by one of
   * the runs and its LML is at least that of every run (the LML is the
   * negated objective).
   */
  lemma TunedIsBestRun(theta: seq<real>, simplified: bool, startFromCurrent: bool, nRestarts: Option<int>,
                       instanceRestarts: int, hasOptimizer: bool, kernelDims: nat, boundsFinite: bool,
                       run: seq<real> -> Optimum, draw: nat -> seq<real>, lml: seq<real> -> real)
    requires var (sfc, nr) := EffectiveRuns(simplified, startFromCurrent, nRestarts, instanceRestarts);
      DoOptimization(hasOptimizer, kernelDims, sfc, nr)
    requires Tune(theta, simplified, startFromCurrent, nRestarts, instanceRestarts, hasOptimizer, kernelDims,
                  boundsFinite, run, draw, lml).Success?
    ensures var (sfc, nr) := EffectiveRuns(simplified, startFromCurrent, nRestarts, instanceRestarts);
      var optima := Runs(sfc, nr, theta, run, draw);
      var (t, l) := Tune(theta, simplified, startFromCurrent, nRestarts, instanceRestarts, hasOptimizer,
                         kernelDims, boundsFinite, run, draw, lml).value;
      && Optimum(t, -l) in optima
      && forall o :: o in optima ==> -o.value <= l
  {
    var (sfc, nr) := EffectiveRuns(simplified, startFromCurrent, nRestarts, instanceRestarts);
    var optima := Runs(sfc, nr, theta, run, draw);
    SelectedIsFirstMinimum(optima);
  }

  /** The optimizer loop is refused exactly when restarts are asked for with unbounded kernel bounds. */
  lemma TuneRefusesUnbounded(theta: seq<real>, simplified: bool, startFromCurrent: bool, nRestarts: Option<int>,
                             instanceRestarts: int, hasOptimizer: bool, kernelDims: nat,
                             run: seq<real> -> Optimum, draw: nat -> seq<real>, lml: seq<real> -> real)
    ensures var (sfc, nr) := EffectiveRuns(simplified, startFromCurrent, nRestarts, instanceRestarts);
      (Tune(theta, simplified, startFromCurrent, nRestarts, instanceRestarts, hasOptimizer, kernelDims,
            false, run, draw, lml) == Failure(UnboundedRestarts))
      <==> DoOptimization(hasOptimizer, kernelDims, sfc, nr) && nr > 0
    ensures Tune(theta, true, startFromCurrent, nRestarts, instanceRestarts, hasOptimizer, kernelDims,
                 false, run, draw, lml).Success?
  {
  }
}

