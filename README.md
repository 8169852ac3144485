# ModEA core in Dafny

This project models the core of ModEA, a framework of modular evolution strategies (ES).
The model covers six parts of the source.

- **The generational loop** (`Engine`, from `code/Algorithms.py`). One generation:
  - drops two offspring for two-point step-size adaptation (TPA);
  - evaluates the offspring in parallel, or one at a time, stopping early under sequential evaluation;
  - truncates the offspring list;
  - extends the three traces (generation sizes, sigma and fitness) so that they track the used budget;
  - keeps the best individual, replaced only on strict improvement;
  - spends two more evaluations on the TPA probe.

  Recombination, mutation, selection, parameter adaptation, the local-restart test and the fitness function are abstract callbacks. They thread an abstract parameters object `P`.
- **The restart scheduler** (`Restart`, from `code/Algorithms.py`). `localRestartAlgorithm` splits the budget into runs, and the IPOP and BIPOP schedules set the population size of each run.
- **Option handling** (`Configuration`, from `code/Algorithms.py`). It covers `addDefaults`, `calculateDependencies` with its TPA and pairwise corrections, `mu_int`, and the rule that stacks the samplers.
- **The parameter state** (`Params`, from `code/Parameters.py`). It covers:
  - the success ring buffer of 10·n flags, kept in an array;
  - the five-entry fitness history;
  - the 1/5-th success rule;
  - the smoothing of the success probability in the Cholesky and active updates;
  - the stored c_cov_neg coefficient that each negative update clamps or restores;
  - the three degeneracy checks and what each resets.
- **The samplers** (`Sampling`, from `code/Sampling.py`). These are the mirrored sampler, the buffered orthogonal sampler with its Gram-Schmidt loops and retry loop, the Sobol seed rule, and the Halton stub that fails when its backend is missing.
- **The GA mutations** (`Genotype`, from `code/GA.py`). `mutateBitstring` and `mutateIntList` work in place on an array.

Randomness and floating-point numerics are inputs to the model:

- Random draws are parameters: coin sequences, pick sequences, base-sampler streams `nat -> Vector`, and the BIPOP small-regime draws.
- Library numerics are parameters: `exp`, `eig`, `cond`, `isfinite`, `norm`, the Gram-Schmidt projection, and the rank-one matrix updates. They are bundled in the datatypes `Params.Numerics` and `Sampling.OrthoNumerics`.
- Scalars are exact `real`s. The constants are those of the source: 0.817, 1/12, 2/11, 0.44, 1e-16 and 1e16.
- `Parameters.py` is read with Python 3 true division.

## Model

| member | source | states |
|---|---|---|
| Configuration.WithDefaults | code/Algorithms.py:177-186 | options already given are kept; every missing flag option becomes False and every missing string option becomes None; no other key appears |
| Configuration.AddDefaults | code/Algorithms.py:177-186 | the in-place loops over the option table leave exactly `WithDefaults` of the old options |
| Configuration.WithDefaultsIdempotent | code/Algorithms.py:177-186 | adding defaults a second time changes nothing |
| Configuration.CalculateDependencies | code/Algorithms.py:188-219 | with TPA, lambda_ ≥ 4 and eff_lambda = lambda_ − 2, and lambda_ = max(lambda_, 4) without pairwise selection; pairwise without TPA gives eff_lambda = lambda_; with neither, both are the input; pairwise halves mu exactly when mu ≥ 0.5; a missing mu is 0.5 |
| Configuration.PairwiseEven | code/Algorithms.py:202-212 | with pairwise selection and lambda_ ≥ 1, the result is even, at least 2 (4 with TPA), and equals the input rounded down to an even number, raised to that minimum |
| Configuration.DependenciesStable | code/Algorithms.py:188-219 | feeding the corrected lambda_ back in gives the same lambda_ and eff_lambda |
| Configuration.MuInt | code/Algorithms.py:167 | a parent fraction in [0, 1] and eff_lambda ≥ 1 give between 1 and eff_lambda parents |
| Configuration.ComposeSampler | code/Algorithms.py:139-156 | mirroring is outermost exactly when 'mirrored' is set; an orthogonal layer sits directly on the base sampler exactly when 'orthogonal' is set, with batch size eff_lambda, or max(eff_lambda // 2, 1) under mirroring; the base is Sobol exactly for 'quasi-sobol', and Halton exactly for 'quasi-halton' with ghalton available |
| Configuration.MirroredBatchHalf | code/Algorithms.py:148-156 | under mirroring over an orthogonal sampler with eff_lambda ≥ 2, the orthogonal batch is at least 1 and at most half of eff_lambda |
| Engine.EvaluateSequential | code/Algorithms.py:632-650 | offspring are mutated and scored in order; the loop stops after the first index i where sequential evaluation holds and either i ≥ seq_cutoff with some offspring so far strictly better than the best, or the budget is exactly used; no earlier index satisfies that condition; the budget grows by exactly i + 1; under sequential evaluation it never passes the budget |
| Engine.EvaluateParallel | code/Algorithms.py:620-630 | every offspring is mutated in order and scored; the budget grows by lambda_ whatever the number of offspring, and i becomes lambda_ |
| Engine.DropTwo | code/Algorithms.py:617-618 | `[:-2]`: the first len − 2 offspring, or none when there are at most two |
| Engine.EvaluateGeneration | code/Algorithms.py:617-650 | the TPA drop, then parallel or sequential evaluation, then truncation to `[:i + 1]`, as `GenerationEvaluated`; the budget never shrinks, and grows whenever something was evaluated |
| Engine.TpaStep | code/Algorithms.py:680-691 | the probe adds 2 evaluations, capped at the budget only in sequential mode; tpa_result is 1 exactly when the plus probe is strictly better, otherwise −1 |
| Engine.ExpandAbove | code/Algorithms.py:655-658 | every entry of a trace built from the per-generation values is at least their minimum |
| Engine.BestFitsStep | code/Algorithms.py:659-660 | replacing the best individual only on strict improvement keeps it the minimum of the initial individual and all generation leaders |
| Engine.BaseAlgorithm.constructor | code/Algorithms.py:587-588 | empty traces and no budget used |
| Engine.BaseAlgorithm.Initialize | code/Algorithms.py:590-607 | empty traces, best individual population[0], used budget 0, seq_cutoff = mu_int · seq_cutoff, and the new population is the recombination of the population |
| Engine.BaseAlgorithm.Run | code/Algorithms.py:610-699 | `gens` records every pass of the loop: the first starts from the initial recombination, each later one from the parameters, population, offspring, budget and best individual the previous one left, and each is an exact pass (`PassOK`); the returned budget, parameters and best individual are those the last pass left; the fitness and sigma traces are each pass's population[0].fitness and sigma_mean repeated gen_size times, gen_size being the budget the pass's evaluation used beyond the previous pass's; sum(generation_size) = len(sigma_over_time) = len(fitness_over_time), between used_budget − 2 (with TPA; used_budget itself without) and used_budget; a positive budget records at least one pass; the loop ends with the budget spent unless the restart test fired; sequential evaluation never passes the budget; the best individual is the best so far |
| Engine.BaseAlgorithm.MainLoop | code/Algorithms.py:613-697 | the `while used_budget < budget` loop: the passes so far satisfy `RunSoFar`; there is a pass exactly when the budget is positive; the loop stops on a spent budget or on a pass that breaks |
| Engine.BaseAlgorithm.Generation | code/Algorithms.py:615-697 | one pass appended to the record of the earlier ones: it starts from the state they left, is an exact pass, adds its leader's fitness, its sigma_mean and its gen_size to the per-pass records, and breaks exactly when its evaluation spent the budget or the restart test fired; otherwise the budget grew |
| Engine.BaseAlgorithm.OnePass | code/Algorithms.py:617-697 | the pass `g` starts from the stored offspring, budget and best individual, satisfies `PassOK` (evaluation and selection, then either the break on a spent budget with the selected parameters and kept offspring, or `Advanced` on the sorted fitnesses of the kept offspring), leaves the loop state `Leaves` describes, and appends one entry to each per-pass record |
| Engine.BaseAlgorithm.Track | code/Algorithms.py:617-660 | evaluation and selection as `Selected`, then the tracking step: the invariant is kept, len(fitness_over_time) = used_budget, the leader's fitness, sigma_mean and gen_size = used_budget − old len(fitness_over_time) are appended, and the leader replaces the best individual only when strictly better |
| Engine.BaseAlgorithm.EvaluateAndSelect | code/Algorithms.py:617-652 | the stored offspring and budget become what the evaluation phase gives (`GenerationEvaluated`), and the new population and parameters are `select` of the current population with the kept offspring at the new budget |
| Engine.BaseAlgorithm.EvaluateOffspring | code/Algorithms.py:617-650 | the stored offspring and used budget become what `EvaluateGeneration` computes from their old values |
| Engine.BaseAlgorithm.RecordGeneration | code/Algorithms.py:655-660 | gen_size = used_budget − len(fitness_over_time) is appended; the sigma and fitness traces grow by gen_size copies of sigma_mean and of the leader's fitness, so their length becomes used_budget; the leader replaces the best individual only when strictly better |
| Engine.BaseAlgorithm.Advance | code/Algorithms.py:662-697 | `Advanced`: recombination only when the population has mu_int members, otherwise the old offspring stay; with TPA the two probes are evaluated at the parameters after recombination, the budget becomes `TpaStep`'s and tpa_result is set from it; mutateParameters runs on the new budget and the result is the local-restart test on that budget and the fitnesses; with TPA the budget grows by 1 or 2 and never passes it in sequential mode, without TPA it is unchanged |
| Restart.InitialBookWellFormed | code/Algorithms.py:466-481 | IPOP and BIPOP always start from a known lambda_init |
| Restart.Step | code/Algorithms.py:500-543 | the local budget loses the run's usage. IPOP doubles lambda_. BIPOP's first call creates the two reserves, small = local // 2 with the rest to large, and runs large; afterwards the regime is small exactly when small_budget > large_budget > 0. The large regime charges large_budget, doubles lambda_large and sets sigma 2; the small regime charges small_budget and takes the drawn lambda_ and sigma |
| Restart.LocalBudgetSpent | code/Algorithms.py:483-500 | after any runs the local budget is the initial budget minus the sum of their usages |
| Restart.IpopLambda | code/Algorithms.py:517-518 | under IPOP, after k runs lambda_ is lambda_init · 2^k |
| Restart.BipopReserves | code/Algorithms.py:522-539 | after the first BIPOP run the two reserves sum to what is left of the budget, less the first run's usage once more |
| Restart.BipopLambdaLarge | code/Algorithms.py:532-535 | lambda_large is lambda_init doubled once per large-regime run |
| Restart.BestKept | code/Algorithms.py:511-513 | a run whose minimum fitness is not strictly lower keeps the earlier best individual as the best of all runs |
| Restart.BestReplaced | code/Algorithms.py:511-513 | a run whose minimum fitness is strictly lower becomes the best of all runs |
| Restart.FirstRun | code/Algorithms.py:503-506 | the first run's statistics are the combined ones, with its minimum fitness as best_fitness |
| Restart.MergeRun | code/Algorithms.py:507-513 | the three traces are extended by the run's, best_fitness stays the minimum of all fitnesses, and the best individual comes from the first run reaching that minimum |
| Restart.Fold | code/Algorithms.py:503-513 | the statistics after one more run are the combined statistics of all runs |
| Restart.Reschedule | code/Algorithms.py:516-543 | the in-place rescheduling gives exactly the next schedule `Step` defines |
| Restart.Round | code/Algorithms.py:483-543 | one loop pass runs on the remaining options and budget, keeps the scheduling and combining invariant, and strictly decreases local_budget |
| Restart.LocalRestart | code/Algorithms.py:453-545 | every run was started with the options and positive local budget the schedule gave after the earlier runs; the loop ends with local_budget ≤ 0, so the runs used at least the budget; the empty result occurs exactly when the budget is not positive; otherwise the traces are the runs' traces concatenated and the best individual belongs to the first run with the overall minimum |
| Params.OneFifthSigma | code/Parameters.py:76-84 | sigma shrinks by c below a rate of 1/5 and grows by 1/c above it; it stays the same at 1/5 or for the NaN mean of an empty window; it stays positive |
| Params.SuccessRateInUnit | code/Parameters.py:76-79 | the success rate of a window of 0/1 flags lies in [0, 1] |
| Params.OneFifthFixedPoint | code/Parameters.py:76-84 | a window with exactly one success in five leaves sigma unchanged |
| Params.RecordFitness | code/Parameters.py:104-106 | the new fitness is last, the older ones are the most recent min(len + 1, 5) − 1 entries, and there are never more than five |
| Params.CholeskySuccess | code/Parameters.py:127 | the smoothed success probability stays in [0, 1], rising on success and falling on failure |
| Params.ActiveSuccess | code/Parameters.py:153 | on success the probability rises and stays at most 1 |
| Params.ActiveFailure | code/Parameters.py:165 | on failure the probability falls strictly when positive, and stays at least 0 |
| Params.ActiveIsCholesky | code/Parameters.py:127-165 | both active branches are the Cholesky smoothing with the flag fixed |
| Params.Parameters.constructor | code/Parameters.py:14-63 | sigma = sigma_mean = 1, p_success = p_target = 2/11, N = 10·n zero flags, identity C, B, D, A and A_inv, zero p_c, s and last_z, an empty fitness history that is a list, tau_c = 1 + (n² + n)/(2·mu), d = 1 + n/2, c_cov = c_cov_pos = 2/(n² + 6), c_act = 2/(n + 2), c_cov_neg = 0.4/(n^1.6 + 1) |
| Params.Parameters.OneFifthRule | code/Parameters.py:66-86 | with n = 0 the modulo fails and nothing changes; nothing changes when t % n ≠ 0; otherwise sigma follows `OneFifthSigma` on the first t flags (all N once t ≥ N) and sigma_mean = sigma |
| Params.Parameters.AddToSuccessHistory | code/Parameters.py:89-96 | with N = 0 the modulo fails and nothing changes; otherwise only slot t mod N changes, to 1 or 0, and lambda_success records the flag |
| Params.Parameters.AddToFitnessHistory | code/Parameters.py:99-106 | after an active reset the history is an array and `append` fails, leaving it unchanged; otherwise the history becomes `RecordFitness` of the old one; the time step is ignored |
| Params.Parameters.AdaptCholesky | code/Parameters.py:122-143 | p_success is smoothed; sigma is scaled by exp of the Cholesky exponent; A is updated only on a success with p_success < p_thresh; then the Cholesky check either resets or keeps the new state; sigma_mean ends in range |
| Params.Parameters.ActiveUpdate | code/Parameters.py:146-185 | the success branch smooths p_success up and applies the positive update, the failure branch only smooths down; sigma is scaled by exp of the active exponent; the negative update applies exactly when more than four fitnesses are recorded and the last beats best_fitness, and then c_cov_neg becomes `ClampedCovNeg` of its stored value and A, A_inv are updated with the new value |
| Params.Parameters.ActiveNegative | code/Parameters.py:171-185 | when due, c_cov_neg is updated from its stored value and z² = ‖last_z‖², and A, A_inv get the negative update with the new c_cov_neg; otherwise A, A_inv and c_cov_neg are unchanged |
| Params.ClampedCovNeg | code/Parameters.py:175-178 | when the stored c_cov_neg times 2z² − 1 exceeds 1, the new value makes that product exactly 1 and, for a positive stored value, is smaller and positive; otherwise the default is restored |
| Params.CovNegDependsOnHistory | code/Parameters.py:175-178 | with n = 1, z² = 10 then z² = 5 gives 0.2, while z² = 5 on a fresh object gives 1/9; after that restore the product 0.2 · (2z² − 1) is 1.8 |
| Params.ClampedAgain | code/Parameters.py:175-178 | a second update with the same z² after a clamp restores the default |
| Params.Parameters.AdaptActive | code/Parameters.py:146-187 | `ActiveUpdate`, including the c_cov_neg update, then the Cholesky degeneracy check, as the source calls it, on the updated A and sigma |
| Params.Parameters.CheckDegenerated | code/Parameters.py:190-216 | on a non-finite C, sigma_mean outside (1e-16, 1e16) or complex eigenvalues, C, B and D become identity and sigma_mean 1, with sigma untouched; otherwise C and sigma_mean are kept and B, D are the eigen-decomposition |
| Params.Parameters.CheckCholeskyDegenerated | code/Parameters.py:221-245 | on a non-finite A, a condition number or sigma_mean out of range, sigma_mean = 1, p_success = p_target, A = I, p_c = 0; otherwise nothing changes |
| Params.Parameters.CheckActiveDegenerated | code/Parameters.py:248-270 | on cond(A·Aᵀ) > 1e14 or sigma_mean out of range, A = A_inv = I, sigma_mean = 1, p_success = 0, s = 0, and the history becomes five copies of best_fitness in an array; otherwise nothing changes |
| Sampling.BaseSampler.Next | code/Sampling.py:29-35 | the k-th call returns the k-th vector of the draw stream |
| Sampling.MirroredSampling.constructor | code/Sampling.py:172-185 | starts with a fresh draw due and no stored sample |
| Sampling.MirroredSampling.Next | code/Sampling.py:187-202 | calls alternate, starting with a fresh base draw that is stored in last_sample; every second call returns the negation of the previous sample without touching the base sampler; over all calls, even positions are consecutive base draws and odd positions negate their predecessor |
| Sampling.NormalisedAt | code/Sampling.py:156-162 | normalisation consumes one base draw per vector of norm 0, in order; vector i becomes its own unit vector, or the unit vector of the draw numbered by the collapses before it |
| Sampling.BatchShape | code/Sampling.py:132-144 | draws beyond the first n are returned exactly as drawn, and a batch costs num_samples draws plus one per collapsed vector |
| Sampling.ProjectAll | code/Sampling.py:149-154 | the nested loops give `Projected`: each vector loses its components along the already rewritten vectors before it |
| Sampling.ScaleLeading | code/Sampling.py:141-142 | the first k vectors are scaled by their recorded lengths and the rest are unchanged |
| Sampling.OrthogonalSampling.NormaliseAll | code/Sampling.py:156-162 | the loop gives `Normalised` and advances the base sampler by the draws it consumes |
| Sampling.OrthogonalSampling.GramSchmidt | code/Sampling.py:147-164 | projection then normalisation, drawing from the base sampler as `Normalised` says |
| Sampling.OrthogonalSampling.DrawRaw | code/Sampling.py:132-137 | num_samples consecutive base draws and their norms |
| Sampling.OrthogonalSampling.Orthonormalise | code/Sampling.py:139-144 | the first min(num_samples, n) draws are orthonormalised and rescaled, the rest kept, which is `Batch` |
| Sampling.OrthogonalSampling.GenerateSamples | code/Sampling.py:130-145 | the stored samples are the `Batch` starting at the base sampler's position, and the result says whether it holds a NaN |
| Sampling.Regenerate | code/Sampling.py:123-125 | the retry loop ends on the first batch without NaN, each retry starting where the previous batch stopped drawing |
| Sampling.OrthogonalSampling.Refill | code/Sampling.py:121-125 | the retry loop stores `Regenerate`'s batch and reports whether it is NaN-free |
| Sampling.OrthogonalSampling.constructor | code/Sampling.py:98-113 | batch size lambda_, counter 0, no samples |
| Sampling.OrthogonalSampling.Next | code/Sampling.py:115-128 | a new batch is made exactly when current_sample % num_samples == 0; otherwise the buffer and the base sampler are untouched; a served call returns samples[current_sample − 1] with current_sample in 1..num_samples |
| Sampling.QuasiGaussianSobolSampling.constructor | code/Sampling.py:40-50 | a given seed of at least 2 is kept, otherwise the drawn one from [2, n²) is used, so seed ≥ 2 |
| Sampling.QuasiGaussianSobolSampling.Next | code/Sampling.py:52-63 | returns ppf of the Sobol point for the current seed; the next seed is the one returned when above 1, otherwise 2, so seed ≥ 2 is kept |
| Sampling.QuasiGaussianHaltonSampling.Next | code/Sampling.py:79-89 | returns ppf of the next Halton point |
| Sampling.NewHaltonSampling | code/Sampling.py:66-93 | construction fails, with the ImportError message of the source, exactly when ghalton is unavailable |
| Genotype.Flipped | code/GA.py:37-44 | the length is kept; a bit changes exactly when its coin is below p, and then it becomes 1 − old, so 0/1 genotypes stay 0/1 |
| Genotype.FlipTwice | code/GA.py:37-44 | flipping twice with the same coins restores the genotype |
| Genotype.MutateBitstring | code/GA.py:37-44 | the in-place loop with p = 1/n leaves `Flipped` of the old genotype |
| Genotype.MutatedInts | code/GA.py:47-59 | positions whose coin is not below p are unchanged; a mutated position differs from its old value and lies in [0, num_options[i] − 1]; a collision with the old value gives num_options[i] − 1 |
| Genotype.MutateIntList | code/GA.py:47-59 | the in-place loop with p = 1/n leaves `MutatedInts` of the old genotype |

## Left out

- Random draws are inputs, not modelled: `randn`, `randint`, `i4_sobol`, `Halton.get`, `norm_dist.ppf`, `np.random.random`, `random_integers`, and the random start point `wcm`. The Gaussian sampler is the generic `BaseSampler` over a draw stream. The column or row shape of the vectors is not modelled.
- Floating-point numerics are abstract functions. This covers `exp`, `eig`, `sqrt` of the eigenvalues, `cond`, `isfinite`, norms, the Gram-Schmidt projection and the rank-one updates of A and A_inv. The power n^1.6 in the default c_cov_neg and z² = ‖last_z‖² are abstract too, while the `c_cov_neg` update itself is exact. The a, b and A_inv formulas of the negative update are inside the abstract update, so their parenthesisation is not modelled. The CMSA update of C in `adaptCovarianceMatrix` is not part of this model. The constants tau and c_a, which need sqrt, are not modelled.
- The default population size 4 + floor(3 log n) is an input (`defaultLambda`). So are the BIPOP small-regime population size and step size, which need a float power of a random number (`SmallDraw`).
- Sampling.OrthogonalSampling.Next: the `while invalid_samples` retry is bounded by an `attempts` argument. Termination depends on the random draws, and after `attempts` NaN batches the model returns None, where the source would keep drawing.
- Sampling.OrthogonalSampling.constructor: requires lambda_ ≥ 1. With lambda_ = 0 the source fails later, with a ZeroDivisionError in `next()`, and that failure is not modelled.
- Sampling.QuasiGaussianSobolSampling.constructor: requires the drawn seed to lie in [2, n²). For n ≤ 1 the source's `randint(2, n**2)` raises, and that error is not modelled.
- Params.Parameters.constructor: requires mu ≠ 0, where the source raises ZeroDivisionError in tau_c.
- Genotype.MutateBitstring and Genotype.MutateIntList: require a non-empty genotype, where the source raises ZeroDivisionError on 1/n.
- One local restart is an abstract `run` function of the restart number, the options and the remaining budget. Its result has a positive usage and a non-empty fitness trace, which is what `Engine.BaseAlgorithm.Run` proves for a positive budget. The `Parameters` object and the starting population built for each run are not modelled. Only lambda_ and sigma are modelled among the options the loop rewrites.
- The fields the loop reads from the parameters object are not modelled in `Params.Parameters`. These are mu_int, seq_cutoff, tpa, sequential, wcm, tpa_factor and localRestart. They are the inputs `LoopConfig` and the callbacks of `Strategy`. The pairwise seq_cutoff = 2 setting and the parameter_opts dictionary of the customised ES constructor are not modelled.
- The fitness function is deterministic: the same genotype always gets the same fitness.
- Individuals are values. The in-place mutation of shared individual objects and the `copy` of the best individual are not modelled as aliasing.
- The "Bad population size" message of the loop is not modelled. Only its effect is: the old offspring are kept.
- The parallel branch adds lambda_ even after the TPA truncation. Non-sequential evaluation can pass the budget. The TPA probe can charge evaluations after the last tracking step. All three are kept as in the source, which is why `Engine.BaseAlgorithm.Run` bounds the traces' length by used_budget − 2 with TPA.
- After an active reset the fitness history is a 5×1 array of +inf. It is modelled as five +inf values (`PosInf`) plus a flag saying the attribute is now an array. The length test and the `[-1] < best_fitness` test of the negative update give the same answers on both. best_fitness is never updated in the class, so it stays +inf.
- Params.Parameters.constructor: requires n^1.6 ≥ 0 of the abstract power, which holds for floats, so the default c_cov_neg is defined.
- Engine.BaseAlgorithm.Run: requires more than two initial offspring with TPA outside parallel mode. With two or fewer, the first pass evaluates nothing and the source's `self.new_population[:i + 1]` reads an unbound i, raising UnboundLocalError; that error is not modelled.
- Engine.BaseAlgorithm.Run: requires lambda_ ≥ 1 in parallel mode. With lambda_ ≤ 0 the used budget does not grow, so the source's loop ends only if the restart test fires; that case is not modelled.
- Engine.Population: recombination and selection return non-empty populations. An empty one makes the source's `population[0]` raise IndexError, and that error is not modelled.
- The other algorithms and the wiring are not modelled: `onePlusOneES`, `CMA_ES`, `GA`, `MIES`, `customizedES`, `_CustomizedES.runOptimizer`, and the selector choice of the `_CustomizedES` constructor. They only compose functions from modules that are not part of this model.
- The benchmark harness and its I/O are not modelled: `evaluate_ES`, `fetchResults`, `runAlgorithm`, the GA driver and `sysPrint`.
