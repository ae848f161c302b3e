# GPry core, modelled in Dafny

GPry samples expensive posterior distributions by active learning with a Gaussian-process
regressor (GPR). This project models three parts of it:

1. **The regressor's state** (`gpry/gpr.py`, class `GaussianProcessRegressor`).
   - It holds a full training set and a finite-only training set, each with a transformed
     copy.
   - It holds a scalar or per-point noise level and its transformed copy, plus `alpha`.
   - It holds the bookkeeping counters and the size of the cached Cholesky factor `V_`.
   - `fit` replaces the training set and tunes the hyperparameters. `append_to_data` grows
     the set and then refits, or extends the factorization. `_reset_noise_level` reconciles
     noise levels. `_update_model` checks the factorization before extending it.
   - `predict` and `predict_std` gate query points through the infinities classifier.
2. **The active-learning runner** (`gpry/run.py`, class `Runner`).
   - The validation and rounding of its integer options.
   - The fit schedule, the candidate filter and the resample/give-up counter.
   - The fold of the convergence criteria and the counts of the initial sampling phase.
   - The evaluation budgets and the iteration banner.
3. **Two data-shaping helpers** (`gpry/plots.py`). The slice grid `param_samples_for_slices`
   and the reference-bound normalisation `_prepare_reference`.

Code that works by changing state is imperative Dafny:

- `Gpr.Regressor` is a class whose methods update its fields.
- `RunLoop.Runner` keeps the options, the resample counter and the convergence flag.
- The slice grid is filled in place in an `array3`.
- The reference dictionary is rewritten inside a loop.

Each method is proved against a specification. For most it is a function: `Reconcile`,
`Tune`, `Prediction.Predict`, `NextResample`, `Fold`, `Resolve`, `ClampUpTo`, `OrderError`,
`Linspace` or `Normalized`. `UpdateModel` and the `Plots.Fill*` and `SetColumn*` loops state
the new fields or the array contents directly.
Lemmas state the properties the code promises. Collaborators whose code is not part of
this model enter as arguments, as arrow-typed values:

- the preprocessors;
- the SVM classifier;
- the optimizer, its random restart draws and the log marginal likelihood;
- the kernel posterior;
- the candidate checks;
- the MPI size and share.

Modules:

- `Outcomes`: the Result, Option and extended-real types.
- `Masks`: numpy boolean masks: count, select, scatter and `[-n:]`.
- `PyArith`: Python's `//` and `%`, and `int(np.ceil(a / b))`.
- `NoiseLevels`, `Hyper`, `Prediction`, `Gpr`: the regressor.
- `RunOptions`, `RunLoop`, `Banner`: the runner.
- `Plots`: the two helpers.

Where the model and the code differ:

- When the classifier flags no point finite, `fit` returns early. By then it has already
  overwritten `X_train_all` and `y_train_all`, and the noise level: the code stores the
  level as given, the model its filtered form (empty for an array), the correction of the
  third finding.
- `predict` accepts `return_cov` and ignores it.
- After every classifier fit the model stores the noise level filtered to the finite points
  (`AdoptFullSet`, `KeepFinite`), where the code keeps the level as given; the correction of
  the third finding.
- Appending a scalar noise level without a refit updates the stored level at any verbosity
  (`ResetNoiseLevel`, through `NoiseLevels.Reconcile`), where the code updates it only above
  verbosity 1; the correction of the first finding.
- A per-point noise level whose length differs from the finite training set makes the
  refit fail. The code fails later, in numpy's broadcast onto the kernel diagonal during
  the first LML evaluation; here the refit refuses before the optimizer runs.
- A refused tuning (restarts with unbounded kernel bounds, or no optimizer run at all)
  happens after the run from the current theta, whose objective sets the kernel's theta in
  place. Theta is then left at the last point that run evaluated, a function argument of
  the model (`Numerics.last`).

## Model

| member | source | states |
|---|---|---|
| PyArith.FloorDiv | gpry/run.py:352-354 | `a // b` rounds toward minus infinity: `b*q <= a < b*q + b` for a positive divisor, mirrored for a negative one |
| PyArith.FloorMod | gpry/run.py:1125 | `a % b` satisfies `a == b*(a//b) + r` with the remainder in `[0, b)` for a positive divisor |
| PyArith.CeilDiv | gpry/run.py:977 | `ceil(a / b)` is the least `q` with `b*q >= a` |
| NoiseLevels.AppendLevels | gpry/gpr.py:597-607 | appending to a per-point level concatenates the arrays |
| NoiseLevels.Broadcast | gpry/gpr.py:614-615 | a scalar level broadcast to `n` points is `n` copies of it |
| NoiseLevels.Reconcile | gpry/gpr.py:588-644 | each error case of `_reset_noise_level` (wrong length, no value for a stored array, unsupported type); a number becomes the scalar level; an array always yields a per-point level; with a refit the transformed level is left for `fit` |
| NoiseLevels.ScalarUpgradedToArray | gpry/gpr.py:608-623 | an array appended to a scalar level yields the scalar repeated once per old point, followed by the new array |
| NoiseLevels.ReconcileKeepsLockStep | gpry/gpr.py:588-644 | without a refit, the reconciled level fits the grown set and its transformed copy is still the transform of the raw level |
| NoiseLevels.ReconcileFits | gpry/gpr.py:592-616 | a successful reconciliation yields a level with one entry per point of the grown set, or a scalar |
| NoiseLevels.FilterNoise | gpry/gpr.py:805-808 | the finite points' noise level: the array entries under the classifier's mask; the result fits the finite set |
| NoiseLevels.ScalarBranchAsWritten | gpry/gpr.py:630-641 | as written, the transformed level follows a new scalar only when `verbose > 1` and there is no refit |
| NoiseLevels.StaleScalarNoiseAtDefaultVerbosity | gpry/gpr.py:630-641 | at verbosity 1, replacing 0.01 by 0.5 keeps `noise_level_` (and so `alpha`) at 0.01, whereas `Reconcile` moves it to 0.5 |
| NoiseLevels.ScalarBranchFollowsValue | gpry/gpr.py:630-641 | corrected: without a refit the transformed level is always the transform of the new scalar |
| Hyper.EffectiveRuns | gpry/gpr.py:844-848 | `simplified` forces one run from the current theta and no restarts; otherwise the instance's restart count stands in for `n_restarts=None` |
| Hyper.Restarts | gpry/gpr.py:880-888 | restart `i` is an optimizer run from the `i`-th random draw, in order |
| Hyper.Runs | gpry/gpr.py:866-888 | the optimizer runs: the run from the current theta first (when requested), then the restarts |
| Hyper.FirstMin | gpry/gpr.py:890-891 | `np.argmin`: the index of a minimum with no equal-or-smaller value before it |
| Hyper.RunOptimizer | gpry/gpr.py:866-893 | restarts with infinite kernel bounds are refused; otherwise the result is the first run of least negative LML |
| Hyper.SelectedIsFirstMinimum | gpry/gpr.py:890-893 | the selected optimum is one of the runs, no run has a lower value, and every earlier run has a strictly higher one |
| Hyper.SimplifiedRunsOnce | gpry/gpr.py:844-873 | a simplified fit runs the optimizer exactly once, from the current theta |
| Hyper.TunedIsBestRun | gpry/gpr.py:849-896 | when optimizing, the adopted theta and LML come from one of the runs, and no run reached a higher LML |
| Hyper.TuneRefusesUnbounded | gpry/gpr.py:875-879 | tuning fails for unbounded hyperparameters exactly when it optimizes with restarts; a simplified fit never fails for that reason |
| Hyper.Tune | gpry/gpr.py:844-896 | without optimization, the current theta and its LML; with it, restarts with unbounded kernel bounds are refused exactly when restarts are requested, and the absence of any optimum exactly when neither the current-theta run nor a restart is made |
| Prediction.Clip | gpry/gpr.py:1118-1124 | negative predicted variances are set to zero before the square root; others are kept |
| Prediction.CheckFlags | gpry/gpr.py:1018-1025 | a std gradient without std and mean gradient is refused; gradients for any number of points other than one are refused; otherwise nothing is refused |
| Prediction.Flags | gpry/gpr.py:1055-1068 | the classifier's finite flags, one per query point; all set without a classifier |
| Prediction.PosteriorValues | gpry/gpr.py:1089-1128 | the loop computing means and stds of the finite points agrees with the posterior specification |
| Prediction.FillGated | gpry/gpr.py:1103-1105 | writing the finite points' values back into the full array is scattering them under the mask |
| Prediction.GatedValues | gpry/gpr.py:1063-1091 | a gated point gets the sentinel (−∞ mean, zero std); every other point gets its own posterior value |
| Prediction.PredictRejects | gpry/gpr.py:1016-1025 | exactly the std-gradient flag combination is refused; a mean gradient for several points fails; a result carries exactly the requested parts and one mean per point |
| Prediction.UnfittedPredictsPrior | gpry/gpr.py:1032-1052 | before any fit the mean is 0 and the std is the prior's |
| Prediction.FittedGate | gpry/gpr.py:1055-1124 | after a fit, a point the classifier rejects has mean −∞ and std 0; any other point has the posterior mean and the std of its clipped variance |
| Prediction.PredictStdAgrees | gpry/gpr.py:1178-1254 | `predict_std` succeeds exactly when `predict(return_std=True)` does, and returns the same stds |
| Prediction.Predict | gpry/gpr.py:1016-1124 | the argument checks come first; `NoFactorization` exactly when the checks pass, a training set exists, some query point is not gated out and the factorization is missing or stale; a result has one mean per point and exactly the requested parts, each with one entry per point |
| Prediction.PredictStd | gpry/gpr.py:1178-1254 | fails, and only with `NoFactorization`, exactly when a training set exists, some query point is not gated out and the factorization is missing or stale; otherwise one std per point |
| Gpr.MapConcat | gpry/gpr.py:536-549 | transforming the appended full set is appending the batch's transform |
| Gpr.KeepMap | gpry/gpr.py:562-565 | masking the raw and the transformed batch with the same flags keeps them in step |
| Gpr.KeepConcat | gpry/gpr.py:564-572 | masking an appended batch appends its masked part |
| Gpr.IdentityGrowthCopies | gpry/gpr.py:536-547 | without preprocessors, appending the batch to a transformed full set that copies the raw one gives a copy of the grown raw full set, as the code stores |
| Gpr.FitNoise | gpry/gpr.py:771-783 | no value with a stored array is refused; no value keeps a stored scalar; a number becomes the level; an array must have one entry per point |
| Gpr.StoredNoiseAsWritten | gpry/gpr.py:777-808 | as written, `fit` stores the array as given, one entry per point of the full set |
| Gpr.UnfilteredNoiseOutgrowsTrainingSet | gpry/gpr.py:777-808 | three points, the classifier keeps two: the stored level as written has three entries, while the filtered level `[0.1, 0.3]` fits |
| Gpr.MaskedNoiseArg | gpry/gpr.py:566-567 | an array noise level is cut down to the appended points kept as finite; a mask of another length is refused |
| Gpr.Regressor.constructor | gpry/gpr.py:230-312 | a fresh regressor holds no training set, is not fitted, has no factorization and all counters at zero |
| Gpr.Regressor.XTrainInfinite | gpry/gpr.py:374-381 | empty without a classifier; with one, no full set or flags of another length are errors; otherwise exactly the full set's points flagged non-finite, in order, as many as the unset flags |
| Gpr.Regressor.YMax | gpry/gpr.py:336-339 | −∞ before a training set exists; an error for an empty one; a non-empty one always gives a finite target of the set that bounds all of them |
| Gpr.Regressor.N | gpry/gpr.py:341-351 | `n` is the number of finite training points, 0 before any |
| Gpr.Regressor.NTotal | gpry/gpr.py:360-372 | `n` without a classifier; the classifier's point count when it holds any, else `n` (`classifier.n or self.n`); never below `n` while the counts cover the same points |
| Gpr.Regressor.InfiniteSplitsTotal | gpry/gpr.py:341-381 | with a classifier and a training set, the non-finite points are the unflagged ones in order, and they and the flagged ones add up to `n_total`, which is at least `n` |
| Gpr.Regressor.LastAppendedFinite | gpry/gpr.py:408-412 | no training set is an error; otherwise X and y of the last `n_last_appended_finite` finite points, and the whole set when that count is 0 (`[-0:]`) or exceeds the set |
| Gpr.Regressor.LastAppended | gpry/gpr.py:397-406 | without a classifier it is `last_appended_finite`; with one, X and y of the last `n_last_appended` points of the full set, with the same whole-set cases |
| Gpr.Regressor.Fit | gpry/gpr.py:710-905 | a call with one of X, y, with a noise level alone, or with no data and no training set leaves the state unchanged; without data, the stored finite set is refitted with the stored noise (`Refitted`: transforms, classifier flags, theta and LML as `Hyper.Tune` gives them, or the refusal's theta); given X and y, see `FitNewSet` |
| Gpr.Regressor.FitNewSet | gpry/gpr.py:767-905 | X and y become the full set; a refused noise level stops with the finite side unchanged; no finite point stops with the flags and filtered noise stored; otherwise the classifier-kept points become the finite set and are refitted, theta and LML being `Hyper.Tune`'s result (or the refusal's theta), and a success leaves the state consistent |
| Gpr.Regressor.AdoptFullSet | gpry/gpr.py:767-811 | stores the full set and the given noise level; a refused level stops there; records the classifier flags and keeps the flagged points with their filtered noise (the corrected form of the third finding); hyperparameters and factorization are untouched |
| Gpr.Regressor.KeepFinite | gpry/gpr.py:787-807 | with a classifier, the flags are recorded and the noise filtered; no finite point stops without touching the finite set; otherwise the finite set is the flagged part of the batch |
| Gpr.Regressor.Refit | gpry/gpr.py:813-905 | the transformed sets, transformed noise, alpha and classifier flags are recomputed; a noise level not fitting the finite set is refused with theta kept; otherwise theta and LML are `Hyper.Tune`'s result, or on a refused tuning theta is where the run from the current theta left it; a success factorizes the whole finite set, a failure keeps LML, `fitted` and the factorization |
| Gpr.Regressor.Transform | gpry/gpr.py:813-842 | the preprocessors are adopted, the sets and noise are transformed, `alpha` is the squared transformed noise, and the classifier is refitted on the transformed full set |
| Gpr.Regressor.TuneAndFactorize | gpry/gpr.py:844-905 | a noise level not fitting the finite set is refused with theta kept; otherwise the tuning outcome of `Hyper.Tune` (theta after a refusal as in `Tuning`); success: fitted, with a factorization of the finite set's size and no pending appended points; failure: LML, `fitted`, the factorization and the pending count unchanged |
| Gpr.Regressor.Tuning | gpry/gpr.py:844-896 | theta and LML become `Hyper.Tune`'s result; a refused tuning keeps the LML and leaves theta at the last point evaluated by the run from the current theta, or unchanged when that run was not made |
| Gpr.Regressor.ResetNoiseLevel | gpry/gpr.py:588-644 | the new raw and transformed levels are `Reconcile`'s, the corrected scalar branch of the first finding; an error leaves both unchanged |
| Gpr.Regressor.ResetBatchNoise | gpry/gpr.py:569-575 | `ResetNoiseLevel` for the kept part of a batch; without a refit, a consistent model's copies still follow the raw ones once the batch joins |
| Gpr.Regressor.UpdateModel | gpry/gpr.py:907-955 | refused exactly when nothing was appended, without a factorization, or when `V_` does not have the pre-append size; otherwise `V_` covers the whole finite set and no appended point is pending |
| Gpr.Regressor.AppendToData | gpry/gpr.py:470-586 | without a training set it is `fit(X, y, noise_level)`, i.e. `FitNewSet` with `simplified=False`, no restart count and `start_from_current=True`; otherwise see `AppendToTrained`; counts that cover the same points keep doing so, and a consistent model stays consistent on success |
| Gpr.Regressor.AppendToTrained | gpry/gpr.py:533-586 | the full set grows by the batch and the classifier is refitted; no finite point, a flag count other than the batch's, or a noise argument that does not match stops the append with the finite side unchanged; otherwise the noise is reconciled (a refusal leaves the finite side unchanged) and the finite set grows, refitted or with the factorization extended; unless refitted, the transformed full set grows by the batch's transform |
| Gpr.Regressor.AppendKeptBatch | gpry/gpr.py:566-586 | the noise argument cut to the kept points; a mismatch stops with the finite side unchanged; otherwise the noise is reconciled and the finite set grows |
| Gpr.Regressor.GrowFullSet | gpry/gpr.py:533-565 | the full set and its transform grow by the batch (and its transform), the classifier is refitted on the grown transformed set, and the batch's own flags are returned; the finite side is unchanged |
| Gpr.Regressor.AppendFinite | gpry/gpr.py:569-586 | a refused noise level leaves the finite side unchanged; otherwise the finite set grows by the kept points, refitted or with the factorization extended (refused exactly when the batch is empty or the factorization does not cover the pre-append set); a consistent model stays consistent on success |
| Gpr.Regressor.AppendKeepsCoherent | gpry/gpr.py:569-585 | appending a batch and its transform without a refit keeps the transforms, noise and alpha coherent |
| Gpr.Regressor.GrowFinite | gpry/gpr.py:571-586 | the finite set and the appended counters grow; then a refit or the factorization update |
| Gpr.Regressor.GrowAndRefit | gpry/gpr.py:571-579 | the finite set and the appended counters grow, then the grown set is refitted from the current theta with no restart count, theta and LML as `Hyper.Tune` gives them |
| Gpr.Regressor.GrowAndExtend | gpry/gpr.py:571-585 | the finite set, its transform and alpha grow; hyperparameters and LML are kept; the factorization is extended exactly when the batch is non-empty and the factorization covered the pre-append set, and otherwise kept |
| Gpr.Regressor.RefitStored | gpry/gpr.py:576-579 | the refit after an append starts from the current theta with no restart count; theta and LML are `Hyper.Tune`'s result or the refusal's theta; a success leaves the model consistent |
| Gpr.Regressor.ExtendFactorization | gpry/gpr.py:580-585 | the transformed finite set and alpha grow; nothing appended is refused; a factorization sized for the pre-append set is extended to the whole set exactly when points were appended; any failure keeps the factorization and the pending count |
| Gpr.Regressor.Predict | gpry/gpr.py:957-1176 | counts the evaluated points and returns `Prediction.Predict` for the regressor's state, a factorization counting only when it covers the current transformed training set |
| Gpr.Regressor.PredictStd | gpry/gpr.py:1178-1254 | counts the evaluated points and returns `Prediction.PredictStd` for the regressor's state, with the same factorization test |
| RunOptions.Clamp | gpry/run.py:539-540 | options are capped at 1e9 and otherwise unchanged |
| RunOptions.OptOrDefault | gpry/run.py:517-520 | a given non-None option wins; a missing or None one takes the default |
| RunOptions.Resolve | gpry/run.py:524-533 | `n_initial >= 2`, both fit periods `>= 1`; by default `max_total >= max_initial` and `max_finite == max_total` |
| RunOptions.Set | gpry/run.py:540 | `setattr` changes the named option and no other |
| RunOptions.FirstNonPositive | gpry/run.py:535-542 | the first option, in checking order, that is not positive after capping, or none |
| RunOptions.OrderError | gpry/run.py:543-566 | no error exactly when `n_initial <= max_initial, max_finite <= max_total` and `max_initial <= max_total` |
| RunOptions.ClampUpToAt | gpry/run.py:535-540 | after the loop's k-th step, exactly the options checked so far are capped |
| RunOptions.AcceptedOptionsSane | gpry/run.py:524-586 | accepted options lie in `[1, 1e9]` and satisfy `2 <= n_initial <= max_initial <= max_total` and `n_initial <= max_finite <= max_total` |
| RunOptions.RoundAcqBounds | gpry/run.py:576-585 | `n_points_per_acq` stays in `[1, n]`; rounding happens only when the remainder is non-zero and within 20% of it, and lands on a multiple of the MPI size |
| RunOptions.RoundAcq | gpry/run.py:576-585 | the batch size never grows and loses less than one MPI size; a change rounds down to `size * (n // size)` and happens only for a non-zero remainder; a multiple of the size is kept |
| RunOptions.RoundRestartsBounds | gpry/run.py:347-354 | optimizer restarts above the MPI size are rounded down to a multiple of it, losing fewer than one size; the rounding is idempotent |
| RunOptions.RoundRestarts | gpry/run.py:347-354 | the restart count never grows and loses less than one MPI size; it is unchanged up to the size and for multiples of it; a change rounds down to `size * (n // size)`, which is at least the size |
| RunLoop.FitAt | gpry/run.py:1125-1133 | a full fit, with this process's share of the restarts, exactly at the full-fit period; a simple fit with one restart at the simple period otherwise; else none |
| RunLoop.FullFitPeriodic | gpry/run.py:1125-1127 | full fits recur every `fit_full_every` iterations; Python's floor `%` makes `is_this_iter` mean `(i+1)` divisible by the period |
| RunLoop.IsThisIter | gpry/run.py:1125-1131 | a falsy or negative period never matches, a period of 1 matches every iteration |
| RunLoop.KeepMask | gpry/run.py:783 | a candidate is kept exactly when it is neither in the training set nor a duplicate |
| RunLoop.FilterCandidates | gpry/run.py:797-799 | the three filtered arrays keep the same length, at most the number of candidates |
| RunLoop.KeptCandidatesAreNew | gpry/run.py:768-799 | every kept candidate is a new, non-duplicate proposal, together with its own prediction and acquisition value |
| RunLoop.NewCandidatesAreKept | gpry/run.py:768-799 | every new, non-duplicate proposal is kept, at its rank among the kept ones |
| RunLoop.NextResample | gpry/run.py:811-831 | proceed (and reset the counter) exactly when at least `max(1, n_points_per_acq // 2)` candidates remain; else count a resample and give up past the limit |
| RunLoop.Resamples | gpry/run.py:811-815 | the shortfall trace before giving up: `k` resamples |
| RunLoop.ShortfallsGiveUp | gpry/run.py:811-831 | repeated shortfalls resample until the limit and then give up |
| RunLoop.Verdicts | gpry/run.py:869-876 | a criterion counts as converged only when it reported True |
| RunLoop.FoldAllAnd | gpry/run.py:877-881 | with every policy "and", the fold is the conjunction of all verdicts |
| RunLoop.FoldAllOr | gpry/run.py:877-881 | with no policy "and", the fold is their disjunction |
| RunLoop.Fold | gpry/run.py:877-881 | one criterion decides alone; all converged gives converged; converged implies some criterion converged; the last criterion decides when it is a converged "or" or an unconverged "and" |
| RunLoop.InitialPlanAsWritten | gpry/run.py:972-986 | as written: enough pretrained points returns early only when `verbose > 1`, and otherwise fails dividing by zero |
| RunLoop.PretrainedDividesByZero | gpry/run.py:976-986 | with 3 initial points wanted, 5 pretrained and verbosity 1, the code as written divides `max_initial` by 0 |
| RunLoop.InitialPlanFor | gpry/run.py:972-986 | corrected: nothing to sample exactly when the pretrained points suffice; otherwise the per-process count covers the points still needed (rounded up) and the attempts cover `max_initial` |
| RunLoop.InitialPlanAgrees | gpry/run.py:972-986 | whenever the early return is not at stake, the code as written and the corrected counts agree |
| RunLoop.Runner.constructor | gpry/run.py:311-313 | a new runner has no resamples and has not converged |
| RunLoop.Runner.ConstructOptions | gpry/run.py:514-586 | the validation loop caps each option in order and stops at the first non-positive one; then come the order checks; accepted options get the rounded `n_points_per_acq`; resamples restart at 0 |
| RunLoop.Runner.TotalBudgetBindsFirst | gpry/run.py:621-629 | with `max_finite == max_total` and counts covering the same points, `n_total_left <= n_finite_left`, equal without a classifier; with a classifier the total left plus the non-finite and flagged-finite points is `max_total` |
| RunLoop.Runner.NTotalLeft | gpry/run.py:621-624 | `max_total - n_total`: without a classifier the finite budget's remainder shifted by `max_total - max_finite`; with one, `max_total` less the classifier's point count, or the same shifted remainder when the classifier holds no point; never more than `max_total - n` while the counts cover the same points |
| RunLoop.Runner.NFiniteLeft | gpry/run.py:626-629 | `max_finite` less the number of finite training points |
| RunLoop.Runner.ResampleStep | gpry/run.py:811-831 | the step taken and the new counter are `NextResample`'s |
| RunLoop.Runner.UpdateConvergence | gpry/run.py:869-881 | no criterion is an error; otherwise `has_converged` is the left-to-right fold of the verdicts under the policies |
| Banner.Repeat | gpry/run.py:638 | `n * s` has length `n*len(s)` (empty for `n <= 0`) and repeats a one-character string |
| Banner.RuleLine | gpry/run.py:635-638 | a rule is printed exactly for a truthy header; a non-string header prints '=' |
| Banner.StripLeading | gpry/run.py:639 | `lstrip("\n")` removes only leading newlines, and all of them |
| Banner.StripTrailing | gpry/run.py:639 | `rstrip("\n")` removes only trailing newlines, and all of them |
| Banner.Split | gpry/run.py:640 | `split("\n")` gives at least one part, none containing a newline |
| Banner.JoinSplit | gpry/run.py:640 | joining the parts with newlines gives the text back |
| Banner.PadLine | gpry/run.py:641-646 | a line starts with prefix + text; when the suffix fits, it is exactly `max_line_length` long, padded with spaces, and ends with the suffix; otherwise no suffix is added |
| Banner.PadAll | gpry/run.py:641-647 | one padded line per text line, in order |
| Banner.DefaultBannerFramed | gpry/run.py:631-651 | a default banner is a 79-'=' rule, one framed line per text line, and a closing rule; short lines are exactly 79 wide |
| Banner.Banner | gpry/run.py:631-651 | nothing when the level is above the verbosity; otherwise the header rule if any, one padded line per line of the stripped text, in order, and the footer rule if any |
| Plots.Wrap | gpry/plots.py:37 | a Python index in `[-d, d)` denotes position `i` or `i + d` |
| Plots.Linspace | gpry/plots.py:33 | `n` values from `lo` to `hi` inclusive, evenly spaced |
| Plots.FillPoint | gpry/plots.py:35-36 | one grid point gets the row, and nothing else changes |
| Plots.FillRow | gpry/plots.py:35-36 | every point of slice `j` gets `X[j]`, and other slices are unchanged |
| Plots.FillRows | gpry/plots.py:35-36 | every point of every slice `j` is a copy of `X[j]` |
| Plots.SetColumnOfRow | gpry/plots.py:37 | coordinate `col` of slice `j` takes the grid values; everything else is unchanged |
| Plots.SetColumn | gpry/plots.py:37 | coordinate `col` of every slice takes the grid values; everything else is unchanged |
| Plots.ParamSamplesForSlices | gpry/plots.py:22-39 | a negative count and a bad index are errors; otherwise the shape is `(len(X), n, d)`, and point `(j, k)` is `X[j]` except at coordinate `i`, which holds the `k`-th grid value |
| Plots.Centred | gpry/plots.py:349-350 | a central value becomes `[None, None, v, None, None]` |
| Plots.Normalized | gpry/plots.py:343-356 | a missing parameter gets five Nones; a number or a one-element list is centred; five values are kept; any other length is refused (and only that) |
| Plots.NormalizedIsIdempotent | gpry/plots.py:343-356 | normalising a normalised entry changes nothing |
| Plots.Zip | gpry/plots.py:341 | `dict(zip(params, values))` maps each parameter to its value in order, and has no other keys |
| Plots.AsMapping | gpry/plots.py:334-341 | an ordered reference of the wrong length is refused; a mapping is used as it is |
| Plots.PrepareReference | gpry/plots.py:293-357 | None without getdist; the wrong count is an error; fails at the first parameter with a bad length, and exactly when one exists; otherwise every parameter gets its normalised five entries and other keys are kept |

## Left out

- The kernel, its hyperparameter priors and bounds, and the Cholesky factorization. `V_` is
  represented by its number of rows. `alpha_`, the posterior mean and variance, and the
  gradients come from a `Posterior` argument. The std-gradient formula is taken from that
  argument.
- Floating point: reals are exact. `np.sqrt`, `np.round` and the float defaults of the run
  options are not modelled. The defaults (`30*d**1.5`, `70*d**1.5`, `2*sqrt(d)`) are
  parameters (`FloatDefaults`). `get_Xnumber` is foreign, so options arrive as integers.
- The optimizer (`_constrained_optimization`), the random number generator and the log
  marginal likelihood are function arguments. `hyperparameter_bounds` is reduced to whether
  the kernel bounds are finite.
- The SVM infinities classifier is a function from a training set to flags. Its threshold,
  the `diff_threshold` transform and its point count are not modelled; `n_total` uses the
  number of stored flags. The preprocessors are element-wise transforms. Their own fitting
  is foreign. "Fitted at least once" is approximated by "a training set exists".
- `remove_from_data`, `predict_is_finite`, `abs_threshold_finite`, `is_finite`,
  `set_random_state`, `__deepcopy__`, `compute_threshold_given_sigma`, `d` and
  `y_train_infinite`: not part of this model.
- `predict`: the `validate`/`check_array` input checks and the inverse y-transform of the
  outputs are not modelled; the posterior argument supplies the values.
- `Runner.run`: the acquisition engine, truth evaluations, MPI communication
  (`share_attr`, `bcast`, `split_number_for_parallel_processes`), checkpoints, progress
  tables, plotting and timers. The MPI size and this process's share are parameters.
  `check_candidates` and the convergence criteria are inputs. `convergence.py` is not part
  of this model; the policy strings are given.
- Logging and warnings. `Banner` returns the lines that `log` prints instead of printing
  them. The `n_points_per_acq > d` warning is not modelled.
- `plots.py`: every plotting function, the getdist `MCSamples` branch of
  `_prepare_reference`, and reference values that are neither numbers nor lists.
  `np.atleast_2d` is not modelled: `X` is a rectangular sequence of rows.
- A `noise_level` of another type (neither None, a number nor an array) is refused at once
  with `UnsupportedType`. `_reset_noise_level` raises for it too. `fit` stores it and fails
  later in numpy arithmetic, which the model does not follow.
- Plots.PrepareReference: returns the new dictionary. It does not model that the code
  rewrites the caller's mapping in place (aliasing).
- Gpr.Regressor.TuneAndFactorize: for a noise level that does not fit the finite set, the
  code raises inside the first LML evaluation, after the objective has set the kernel's
  theta to that run's starting point. The model refuses before any run and keeps theta.
  The two differ only when the optimizer starts from random restarts alone, where the code
  leaves theta at the first restart's starting point.
- Gpr.Regressor.GrowFullSet: without an X or y preprocessor the code rebuilds
  `X_train_all_` (`y_train_all_`) as a copy of the grown raw full set. The model always
  appends the batch's transform, a missing preprocessor being the identity. The two agree
  whenever the transformed full set was a copy of the raw one before the append, as a fit
  that reaches the refit leaves it (`Gpr.IdentityGrowthCopies`). They differ after `fit`
  returned early for no finite point: that return replaces the raw full set but not the
  transformed one, so the code refits the classifier on the new raw set plus the batch and
  the model on the old transformed set plus the batch.
- Gpr.Regressor.InfiniteSplitsTotal: `n + len(X_train_infinite) == n_total` is not stated.
  It needs the finite set to be exactly the full set's flagged points, and the code does
  not keep that: `fit` and `append_to_data` refit the classifier on the transformed full
  set after choosing the finite points, so the stored flags can differ from the choice.
  The model states `len(X_train_infinite) + (flags set) == n_total` and `n <= n_total`,
  while the counts cover the same points (`CountsCover`). A new regressor, every append and
  every fit that reaches the refit keep that. `fit`'s early return for no finite point does
  not: it replaces the flags but keeps the old finite set, so `n_total` can be below `n`.
- RunLoop.Runner.TotalBudgetBindsFirst: stated only while the counts cover the same points,
  for the reason given for `InfiniteSplitsTotal`.

## Findings

| source | as written | input that shows it | evidently intended | confidence | as-written member | corrected member |
|---|---|---|---|---|---|---|
| gpry/gpr.py:630-641 | In the scalar branch of `_reset_noise_level`, `noise_level_` is assigned inside the `if not fit and self.verbose > 1` warning block. At verbosity 1 or less a new scalar never reaches `noise_level_` or `alpha`. | `append_to_data(..., noise_level=0.5, fit=False)` at verbosity 1, with stored scalar 0.01: `alpha` stays `0.01**2` | update `noise_level_` whenever there is no refit; only the warning depends on verbosity | high (not executed) | NoiseLevels.ScalarBranchAsWritten | NoiseLevels.Reconcile |
| gpry/run.py:976-986 | The early return for enough pretrained points is guarded by `self.verbose > 1`. At lower verbosity the code goes on to `max_initial / n_to_sample_per_process` with a count of 0. | `n_initial=3`, 5 pretrained points, 1 process, verbosity 1: division by zero | return early whenever the per-process count is 0; only the warning depends on verbosity | high (not executed) | RunLoop.InitialPlanAsWritten | RunLoop.InitialPlanFor |
| gpry/gpr.py:777-808 | `fit` stores the given noise array in `self.noise_level` before the classifier filters the points. It then filters only the local copy, so the stored array keeps one entry per point of the full set. | noise levels `[0.1, 0.2, 0.3]` and the classifier keeps points 1 and 3: the stored level has 3 entries for 2 training points, and the next refit without arguments cannot add it to the 2×2 kernel | store the filtered array `[0.1, 0.3]` | medium (not executed) | Gpr.StoredNoiseAsWritten | NoiseLevels.FilterNoise |
