/**
 * The active-learning loop's bookkeeping (gpry/run.py, class `Runner`): the
 * options it validates, the evaluation budgets left, the hyperparameter-fit
 * schedule, the filtering of proposed candidates, the resample/give-up
 * counter, the fold of the convergence criteria, and the size of the initial
 * sample.
 *
 * Acquisition, truth evaluation, MPI communication, checkpoints and logging
 * are not modelled: their results enter as arguments.
 */
module RunLoop {
  import opened Outcomes
  import opened Masks
  import opened PyArith
  import opened RunOptions
  import Gpr

  type Row = seq<real>

  /** What the loop does after an acquisition. */
  datatype Step = Proceed | Resample | GiveUp

  /** How the GP hyperparameters are treated in an iteration: the restarts passed to the fit. */
  datatype FitKind = FullFit(restarts: int) | SimpleFit | KeptConstant

  /** The size of the initial sample, as `do_initial_training` computes it. */
  datatype InitialPlan =
    | EnoughPretrained                           // nothing left to sample; return at once
    | Sample(perProcess: nat, attempts: nat)     // points per process per attempt, attempts before giving up

  datatype RunError = DivisionByZero | NoConvergenceCriterion

  /** `is_this_iter(every)`: the last iteration of every block of `every` (falsy `every` never). */
  function IsThisIter(iteration: int, every: int): (b: bool)
    ensures every <= 0 ==> !b
    ensures every == 1 ==> b
  {
    every != 0 && FloorMod(iteration, every) == every - 1
  }

  /**
   * The fit of `_fit_gpr_parallel` at an iteration: a full fit with this
   * process's share of the restarts, else a simple fit with one restart,
   * else none.
   */
  function FitAt(iteration: int, fullEvery: int, simpleEvery: int, share: int): (k: FitKind)
    ensures IsThisIter(iteration, fullEvery) <==> k.FullFit?
    ensures k.FullFit? ==> k.restarts == share
    ensures k.SimpleFit? <==> !IsThisIter(iteration, fullEvery) && IsThisIter(iteration, simpleEvery)
  {
    if IsThisIter(iteration, fullEvery) then FullFit(share)
    else if IsThisIter(iteration, simpleEvery) then SimpleFit
    else KeptConstant
  }

  /** The `n_restarts` that the fit receives. */
  function Restarts(k: FitKind): int {
    match k
    case FullFit(r) => r
    case SimpleFit => 1
    case KeptConstant => 0
  }

  /**
   * With a positive period, full fits come back every `fullEvery` iterations:
   * the schedule at iteration i + every is the schedule at i, and exactly one
   * of any `every` consecutive iterations is a full fit's.
   */
  lemma {:induction false} FullFitPeriodic(i: int, every: int, simpleEvery: int, share: int)
    requires every >= 1
    ensures FitAt(i + every, every, simpleEvery, share).FullFit? == FitAt(i, every, simpleEvery, share).FullFit?
    ensures IsThisIter(i, every) <==> (i + 1) % every == 0
  {
    var q := FloorDiv(i, every);
    assert i + every == every * (q + 1) + FloorMod(i, every);
    ModUnique(i + every, every, q + 1, FloorMod(i, every));
    assert i + 1 == every * q + FloorMod(i, every) + 1;
    if FloorMod(i, every) == every - 1 {
      assert i + 1 == every * (q + 1);
      ModUnique(i + 1, every, q + 1, 0);
    } else {
      ModUnique(i + 1, every, q, FloorMod(i, every) + 1);
    }
  }

  lemma ModUnique(a: int, b: int, q: int, r: int)
    requires b >= 1 && 0 <= r < b && a == b * q + r
    ensures FloorMod(a, b) == r && a % b == r
  {
    var q' := FloorDiv(a, b);
    var r' := FloorMod(a, b);
    if q' < q {
      assert b * q' <= b * (q - 1) by { MulMono(b, q', q - 1); }
    } else if q' > q {
      assert b * (q + 1) <= b * q' by { MulMono(b, q + 1, q'); }
    }
  }

  lemma MulMono(b: int, x: int, y: int)
    requires b >= 1 && x <= y
    ensures b * x <= b * y
  {
    assert b * y - b * x == b * (y - x);
  }

  /** The candidates kept: neither already in the training set nor repeated. */
  function KeepMask(inTraining: seq<bool>, duplicates: seq<bool>): (m: seq<bool>)
    requires |inTraining| == |duplicates|
    ensures |m| == |inTraining|
    ensures forall i :: 0 <= i < |m| ==> (m[i] <==> !inTraining[i] && !duplicates[i])
  {
    seq(|inTraining|, i requires 0 <= i < |inTraining| => !(inTraining[i] || duplicates[i]))
  }

  /**
   * The proposal after the candidate check: when any prediction came back,
   * one shared mask removes the rejected candidates from the locations, the
   * predicted values and the acquisition values alike.
   */
  function FilterCandidates(X: seq<Row>, yPred: seq<real>, acq: seq<real>,
                            inTraining: seq<bool>, duplicates: seq<bool>)
    : (r: (seq<Row>, seq<real>, seq<real>))
    requires |X| == |yPred| == |acq| == |inTraining| == |duplicates|
    ensures |r.0| == |r.1| == |r.2| <= |X|
  {
    if |yPred| > 0 then
      var keep := KeepMask(inTraining, duplicates);
      (Select(X, keep), Select(yPred, keep), Select(acq, keep))
    else (X, yPred, acq)
  }

  /**
   * Every candidate left is a proposed one that is neither in the training set
   * nor a duplicate, at its rank among those, and it keeps its own predicted
   * and acquisition values.
   */
  lemma KeptCandidatesAreNew(X: seq<Row>, yPred: seq<real>, acq: seq<real>,
                             inTraining: seq<bool>, duplicates: seq<bool>, k: nat)
    requires |X| == |yPred| == |acq| == |inTraining| == |duplicates|
    requires k < |FilterCandidates(X, yPred, acq, inTraining, duplicates).0|
    ensures var r := FilterCandidates(X, yPred, acq, inTraining, duplicates);
      exists i :: 0 <= i < |X| && !inTraining[i] && !duplicates[i]
        && r.0[k] == X[i] && r.1[k] == yPred[i] && r.2[k] == acq[i]
  {
    var r := FilterCandidates(X, yPred, acq, inTraining, duplicates);
    var keep := KeepMask(inTraining, duplicates);
    SelectFrom(X, keep, k);
    var i :| 0 <= i < |keep| && keep[i] && Count(keep[..i]) == k && X[i] == r.0[k];
    SelectAt(yPred, keep, i);
    SelectAt(acq, keep, i);
    assert !inTraining[i] && !duplicates[i] && r.1[k] == yPred[i] && r.2[k] == acq[i];
  }

  /** Every proposed candidate that is new and not repeated is left, at its rank among those. */
  lemma NewCandidatesAreKept(X: seq<Row>, yPred: seq<real>, acq: seq<real>,
                             inTraining: seq<bool>, duplicates: seq<bool>, i: nat)
    requires |X| == |yPred| == |acq| == |inTraining| == |duplicates|
    requires i < |X| && !inTraining[i] && !duplicates[i]
    ensures var r := FilterCandidates(X, yPred, acq, inTraining, duplicates);
      var k := Count(KeepMask(inTraining, duplicates)[..i]);
      k < |r.0| && r.0[k] == X[i] && r.1[k] == yPred[i] && r.2[k] == acq[i]
  {
    var keep := KeepMask(inTraining, duplicates);
    SelectAt(X, keep, i);
    SelectAt(yPred, keep, i);
    SelectAt(acq, keep, i);
  }

  /**
   * One acquisition's effect on the resample counter: fewer candidates than
   * `max(1, n_points_per_acq // 2)` count as a failed acquisition (resample,
   * or give up once the counter exceeds the limit); otherwise the counter resets.
   */
  function NextResample(resamples: int, nCandidates: nat, nPointsPerAcq: int, limit: int): (r: (Step, int))
    ensures r.0 == Proceed <==> nCandidates >= Max(1, FloorDiv(nPointsPerAcq, 2))
    ensures r.0 == Proceed ==> r.1 == 0
    ensures r.0 != Proceed ==> r.1 == resamples + 1 && (r.0 == GiveUp <==> resamples + 1 > limit)
  {
    if nCandidates < Max(1, FloorDiv(nPointsPerAcq, 2)) then
      var n := resamples + 1;
      (if n > limit then GiveUp else Resample, n)
    else (Proceed, 0)
  }

  /** The steps the loop takes over successive acquisitions, up to and including a give-up. */
  function Trace(resamples: int, counts: seq<nat>, nPointsPerAcq: int, limit: int): seq<Step>
    decreases |counts|
  {
    if |counts| == 0 then []
    else
      var (step, n) := NextResample(resamples, counts[0], nPointsPerAcq, limit);
      if step == GiveUp then [GiveUp] else [step] + Trace(n, counts[1..], nPointsPerAcq, limit)
  }

  function Resamples(k: nat): (s: seq<Step>)
    ensures |s| == k && forall i :: 0 <= i < k ==> s[i] == Resample
  {
    seq(k, _ => Resample)
  }

  /**
   * Failed acquisitions in a row, from a counter r within the limit: the loop
   * resamples `limit - r` times and gives up at the next one.
   */
  lemma {:induction false} ShortfallsGiveUp(r: int, counts: seq<nat>, nPointsPerAcq: int, limit: int)
    requires 0 <= r <= limit && |counts| > limit - r
    requires forall i :: 0 <= i < |counts| ==> counts[i] < Max(1, FloorDiv(nPointsPerAcq, 2))
    ensures Trace(r, counts, nPointsPerAcq, limit) == Resamples(limit - r) + [GiveUp]
    decreases limit - r
  {
    if r < limit {
      ShortfallsGiveUp(r + 1, counts[1..], nPointsPerAcq, limit);
      assert [Resample] + Resamples(limit - r - 1) == Resamples(limit - r);
    }
  }

  /**
   * The convergence verdict: the first criterion's, then each later one
   * joined by `and` when its policy is "and" and by `or` otherwise.
   */
  function Fold(results: seq<bool>, policies: seq<string>): (r: bool)
    requires |results| >= 1 && |policies| == |results|
    ensures |results| == 1 ==> r == results[0]
    ensures (forall i :: 0 <= i < |results| ==> results[i]) ==> r
    ensures r ==> exists i :: 0 <= i < |results| && results[i]
    ensures results[|results| - 1] && policies[|results| - 1] != "and" ==> r
    ensures !results[|results| - 1] && policies[|results| - 1] == "and" ==> !r
  {
    if |results| == 1 then results[0]
    else
      var n := |results| - 1;
      var acc := Fold(results[..n], policies[..n]);
      assert forall i :: 0 <= i < n ==> results[..n][i] == results[i];
      if policies[n] == "and" then acc && results[n] else acc || results[n]
  }

  /** A criterion whose check raised `ConvergenceCheckError` counts as not converged. */
  function Verdicts(results: seq<Option<bool>>): (v: seq<bool>)
    ensures |v| == |results|
    ensures forall i :: 0 <= i < |v| ==> (v[i] <==> results[i] == Some(true))
  {
    seq(|results|, i requires 0 <= i < |results| => results[i] == Some(true))
  }

  /** With every later policy "and", the run has converged when every criterion has. */
  lemma {:induction false} FoldAllAnd(results: seq<bool>, policies: seq<string>)
    requires |results| >= 1 && |policies| == |results|
    requires forall i :: 1 <= i < |policies| ==> policies[i] == "and"
    ensures Fold(results, policies) <==> forall i :: 0 <= i < |results| ==> results[i]
  {
    if |results| > 1 {
      var n := |results| - 1;
      FoldAllAnd(results[..n], policies[..n]);
      assert forall i :: 0 <= i < n ==> results[..n][i] == results[i];
    }
  }

  /** With no later policy "and", the run has converged when any criterion has. */
  lemma {:induction false} FoldAllOr(results: seq<bool>, policies: seq<string>)
    requires |results| >= 1 && |policies| == |results|
    requires forall i :: 1 <= i < |policies| ==> policies[i] != "and"
    ensures Fold(results, policies) <==> exists i :: 0 <= i < |results| && results[i]
  {
    if |results| > 1 {
      var n := |results| - 1;
      FoldAllOr(results[..n], policies[..n]);
      assert forall i :: 0 <= i < n ==> results[..n][i] == results[i];
    }
  }

  /**
   * `do_initial_training`'s counts AS WRITTEN: the early return for enough
   * pretrained points sits under `verbose > 1`, so at lower verbosity the
   * attempts count divides by a zero per-process count.
   */
  function InitialPlanAsWritten(nInitial: int, pretrained: nat, size: nat, verbose: int, maxInitial: nat)
    : (r: Result<InitialPlan, RunError>)
    requires size >= 1
    ensures r == Failure(DivisionByZero) <==> pretrained >= nInitial && verbose <= 1
    ensures r == Success(EnoughPretrained) <==> pretrained >= nInitial && verbose > 1
  {
    var needed := if nInitial - pretrained > 0 then nInitial - pretrained else 0;
    var perProcess := CeilDiv(needed, size);
    if perProcess == 0 && verbose > 1 then Success(EnoughPretrained)
    else if perProcess == 0 then Failure(DivisionByZero)
    else Success(Sample(perProcess, CeilDiv(maxInitial, perProcess)))
  }

  /**
   * The counts as intended: nothing to sample once the pretrained points
   * reach `n_initial`, whatever the verbosity; otherwise the still-needed
   * points are split over the processes, rounding up, and the attempts cover
   * `max_initial` evaluations.
   */
  function InitialPlanFor(nInitial: int, pretrained: nat, size: nat, maxInitial: nat): (r: InitialPlan)
    requires size >= 1
    ensures r.EnoughPretrained? <==> pretrained >= nInitial
    ensures r.Sample? ==>
      var needed := nInitial - pretrained;
      && r.perProcess * size >= needed > (r.perProcess - 1) * size
      && r.attempts * r.perProcess >= maxInitial
  {
    var needed := if nInitial - pretrained > 0 then nInitial - pretrained else 0;
    var perProcess := CeilDiv(needed, size);
    if perProcess == 0 then EnoughPretrained
    else Sample(perProcess, CeilDiv(maxInitial, perProcess))
  }

  /** Three initial points wanted, five pretrained, verbosity 1: the code as written divides by zero. */
  lemma PretrainedDividesByZero()
    ensures InitialPlanAsWritten(3, 5, 1, 1, 30) == Failure(DivisionByZero)
    ensures InitialPlanFor(3, 5, 1, 30) == EnoughPretrained
  {
  }

  /** Apart from that case the intended counts are the ones written. */
  lemma InitialPlanAgrees(nInitial: int, pretrained: nat, size: nat, verbose: int, maxInitial: nat)
    requires size >= 1
    requires pretrained < nInitial || verbose > 1
    ensures InitialPlanAsWritten(nInitial, pretrained, size, verbose, maxInitial)
         == Success(InitialPlanFor(nInitial, pretrained, size, maxInitial))
  {
  }

  class Runner {
    const gpr: Gpr.Regressor
    const size: int              // mpi.SIZE
    const d: nat                 // dimension of the parameter space

    var opts: Options
    var resamples: int
    var hasConverged: bool

    constructor (gpr: Gpr.Regressor, size: int, d: nat)
      requires size >= 1
      ensures this.gpr == gpr && this.size == size && this.d == d
      ensures resamples == 0 && !hasConverged
    {
      this.gpr, this.size, this.d := gpr, size, d;
      opts := Options(0, 0, 0, 0, 0, 0, 0, 0);
      resamples, hasConverged := 0, false;
    }

    /**
     * `_construct_options(options)`: resolve the options, clamp each checked
     * one to 10^9 and refuse a non-positive one (the loop stops at the first,
     * leaving the earlier ones clamped), make the ordering checks, and round
     * the batch size to the number of processes.
     */
    method ConstructOptions(given: map<string, Option<int>>, fd: FloatDefaults)
      returns (err: Option<OptionError>)
      requires size >= 1
      modifies this`opts, this`resamples
      ensures resamples == 0
      ensures var raw := Resolve(given, d, fd);
        var bad := FirstNonPositive(raw, 0);
        && (bad.Some? ==> err == Some(NotPositive(Checked[bad.value])) && opts == ClampUpTo(raw, bad.value + 1))
        && (bad.None? && OrderError(ClampUpTo(raw, |Checked|)).Some? ==>
              err == OrderError(ClampUpTo(raw, |Checked|)) && opts == ClampUpTo(raw, |Checked|))
        && (bad.None? && OrderError(ClampUpTo(raw, |Checked|)).None? ==>
              var c := ClampUpTo(raw, |Checked|);
              err.None? && opts == c.(nPointsPerAcq := RoundAcq(c.nPointsPerAcq, size)))
    {
      ghost var raw := Resolve(given, d, fd);
      opts, resamples := Resolve(given, d, fd), 0;
      var i := 0;
      while i < |Checked|
        invariant 0 <= i <= |Checked|
        invariant opts == ClampUpTo(raw, i) && resamples == 0
        invariant FirstNonPositive(raw, 0) == FirstNonPositive(raw, i)
      {
        var a := Checked[i];
        ClampUpToAt(raw, i, a);
        assert a !in Checked[..i];
        opts := Set(opts, a, Clamp(Get(opts, a)));
        if Get(opts, a) <= 0 {
          return Some(NotPositive(a));
        }
        i := i + 1;
      }
      assert opts == ClampUpTo(raw, |Checked|);
      err := OrderError(opts);
      if err.None? {
        opts := opts.(nPointsPerAcq := RoundAcq(opts.nPointsPerAcq, size));
      }
    }

    /** `n_total_left`: evaluations left before the total budget is spent. */
    function NTotalLeft(): (r: int)
      reads this, gpr
      ensures !gpr.hasClassifier ==> r == NFiniteLeft() + opts.maxTotal - opts.maxFinite
      ensures gpr.CountsCover() ==> r <= opts.maxTotal - gpr.N()
      ensures gpr.hasClassifier && |gpr.finiteFlags| > 0 ==> r == opts.maxTotal - |gpr.finiteFlags|
      ensures gpr.hasClassifier && |gpr.finiteFlags| == 0 ==> r == NFiniteLeft() + opts.maxTotal - opts.maxFinite
    {
      opts.maxTotal - gpr.NTotal()
    }

    /** `n_finite_left`: finite evaluations left before the finite budget is spent. */
    function NFiniteLeft(): (r: int)
      reads this, gpr
      ensures gpr.hasTrain ==> r == opts.maxFinite - |gpr.train.y|
      ensures !gpr.hasTrain ==> r == opts.maxFinite
    {
      opts.maxFinite - gpr.N()
    }

    /**
     * With the default `max_finite = max_total` the total budget is never
     * further from exhaustion than the finite one: the finite points are
     * among the points counted in `n_total` (all of them without a classifier).
     */
    lemma TotalBudgetBindsFirst()
      requires opts.maxFinite == opts.maxTotal
      requires gpr.Valid() && gpr.CountsCover()
      ensures NTotalLeft() <= NFiniteLeft()
      ensures !gpr.hasClassifier ==> NTotalLeft() == NFiniteLeft()
      ensures gpr.hasClassifier && gpr.hasTrain ==>
        NTotalLeft() + |gpr.XTrainInfinite().value| + Count(gpr.finiteFlags) == opts.maxTotal
    {
      if gpr.hasClassifier && gpr.hasTrain {
        gpr.InfiniteSplitsTotal();
      }
    }

    /**
     * The resample check after an acquisition that left `nCandidates`
     * candidates: count a shortfall and resample or give up, or reset.
     */
    method ResampleStep(nCandidates: nat) returns (step: Step)
      modifies this`resamples
      ensures (step, resamples) == NextResample(old(resamples), nCandidates, opts.nPointsPerAcq, opts.nResamplesBeforeGiveup)
    {
      if nCandidates < Max(1, FloorDiv(opts.nPointsPerAcq, 2)) {
        resamples := resamples + 1;
        if resamples > opts.nResamplesBeforeGiveup {
          return GiveUp;
        }
        return Resample;
      }
      resamples := 0;
      step := Proceed;
    }

    /**
     * The convergence update: the verdicts of the criteria folded left with
     * their policies. Without any criterion the first verdict does not exist.
     */
    method UpdateConvergence(results: seq<Option<bool>>, policies: seq<string>) returns (err: Option<RunError>)
      requires |policies| == |results|
      modifies this`hasConverged
      ensures |results| == 0 ==> err == Some(NoConvergenceCriterion) && hasConverged == old(hasConverged)
      ensures |results| > 0 ==> err.None? && hasConverged == Fold(Verdicts(results), policies)
    {
      var verdicts := Verdicts(results);
      if |verdicts| == 0 {
        return Some(NoConvergenceCriterion);
      }
      hasConverged := verdicts[0];
      var i := 1;
      while i < |verdicts|
        invariant 1 <= i <= |verdicts|
        invariant hasConverged == Fold(verdicts[..i], policies[..i])
      {
        assert verdicts[..i + 1][..i] == verdicts[..i] && policies[..i + 1][..i] == policies[..i];
        hasConverged := if policies[i] == "and" then hasConverged && verdicts[i] else hasConverged || verdicts[i];
        i := i + 1;
      }
      assert verdicts[..i] == verdicts && policies[..i] == policies;
      err := None;
    }
  }
}
