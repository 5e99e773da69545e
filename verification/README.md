# muP search and bounded training loop

A Dafny model of two pieces of sequential control logic. Both sit around a training stack that the model does not see.

- **The muP coordinate-descent search** in `main` (`main_training.py`). It starts from the all-zero exponent vector over six scaling fields and runs a baseline trial. Then, for each round `i` and each field `j`, it probes coordinate `j` at `start_val - 2^(-i-1)` and then at `start_val + 2^(-i-1)`. A probe is adopted when its trial loss is strictly below `best_loss`. At the end, the search maps the exponents to absolute values `base * 2^(explore_ratio * v)`.
  - A trial is an oracle from exponent vectors, or configurations, to losses.
  - `set_mups` is a copy-and-rescale of a configuration record.
  - The learning rates of the three optimizer groups, and the `initial_lr` override on a fresh start, are modelled as real arithmetic.
- **The training loop `train`** (`fms_fsdp/utils/train_utils.py`). It is a left fold over global steps, and each step carries one `(loss, grad-norm)` observation per worker. The model covers:
  - step indices from `start_step + 1`, and the step budget;
  - the 3-slot statistics vector;
  - reports at multiples of `report_interval`;
  - the divergence guard;
  - token counting;
  - the return value, with NaN replaced by 100.

  The pure policy choices of `get_policies` and `get_mixed_precision_policy` are also included.

Modules:
- `Outcomes`: `Option` and `Result`.
- `Floats`: a loss is `NaN` or a real.
- `MupConfig`: the configuration, `set_mups`, the final values, and the learning-rate groups.
- `MupSearch`: the search.
- `TrainLoop`.
- `Policies`.

The search is written twice:
- **As the code's three nested loops.** These are the methods `Search`, `SearchRound`, `CoordinatePass` and `ProbeCoordinate`.
- **As a reference `Flat`.** This is the left fold over the flattened sequence of coordinate steps; step `k` is coordinate `k % 6` of round `k / 6`.

The methods are proved to compute exactly the reference. The properties of the search are then stated about the reference.

Two behaviours of the search as written:
- `best_loss` is assigned once, from the baseline trial, and never updated. Every probe is therefore compared with the baseline loss, not with the best loss so far. `MupSearch.LaterAdoptionCanBeWorse` exhibits the consequence: the loss of the kept vector can go up from one coordinate step to the next.
- The `-` probe runs before the `+` probe. When both beat the baseline, the `+` probe is kept.

## Model

| member | source | states |
|---|---|---|
| MupSearch.SignLoop | main_training.py:251-259 | The sign loop records one trial per sign, appended after the earlier trials, and keeps one exponent per field. |
| MupSearch.Adopt | main_training.py:251-259 | The vector a coordinate's two probes leave in place is either the vector as it was or one that strictly beats the target. |
| MupSearch.AdvanceParam | main_training.py:250-259 | The sign loop over `[-1, 1]` does three things. It records the `-` probe and then the `+` probe, both built from the coordinate's starting value. It keeps the `+` probe if that beats the target. Otherwise it keeps the `-` probe if that beats the target, and otherwise the vector as it was. |
| MupSearch.ProbeCoordinate | main_training.py:250-259 | The sign loop, run as a loop, ends in the closed-form two-probe state of `ProbeBoth`. |
| MupSearch.CoordinateStep | main_training.py:247-253 | The two probes of coordinate `j` in round `i` are flat step `6 * i + j`, offset `2^(-i-1)`. |
| MupSearch.CoordinatePass | main_training.py:248-259 | One pass of the parameter loop turns the state after `k` flat steps into the state after `k + 1`. |
| MupSearch.SearchRound | main_training.py:247-259 | One round of the parameter loop turns the state before round `i` into the state before round `i + 1`. |
| MupSearch.Search | main_training.py:241-259 | The search does six things. (1) The baseline is the trial of the zero vector. (2) The result is exactly the reference search after `6 * rounds` coordinate steps. (3) It runs `1 + 12 * rounds` trials, the first being the zero vector. (4) Every exponent lies within `Radius(rounds) < 1`. (5) The kept vector is one of the tried vectors. (6) The kept vector is the zero vector or strictly beats the baseline. |
| MupSearch.CoordInRound | main_training.py:247-248 | Flat step `6 * i + j` is coordinate `j` of round `i`. |
| MupSearch.CoordIsDivMod | main_training.py:247-248 | Flat step `k` is coordinate `k % 6` of round `k / 6`. |
| MupSearch.RoundStartIsProduct | main_training.py:247-248 | Round `i` starts after `6 * i` coordinate steps. |
| MupSearch.FlatTrials | main_training.py:251-255 | Each coordinate step adds exactly two trials. |
| MupSearch.SearchTrialCount | main_training.py:242-255 | After `n` rounds the search has run exactly `1 + 2 * 6 * n` trials, and the first is the zero vector. |
| MupSearch.SearchProbes | main_training.py:250-253 | Trials `1 + 2k` and `2 + 2k` are the two probes of coordinate step `k`. Each is the vector as it stood before the step, with only coordinate `Coord(k).1` moved by `-2^(-i-1)` and `+2^(-i-1)` respectively. |
| MupSearch.FlatKeepsEarlier | main_training.py:252-255 | Trials are only appended: an earlier trial keeps its position in every later state. |
| MupSearch.SearchAcceptsOnlyImprovements | main_training.py:243-259 | After any number of steps, the kept vector is one of the tried vectors. It is either the zero vector or a vector whose loss is strictly below the baseline loss; an equal or NaN loss never qualifies. |
| MupSearch.NoImprovementKeepsZero | main_training.py:257-259 | If none of the vectors the search has tried beats the baseline, the search is still at the zero vector. |
| MupSearch.VectorAfterStep | main_training.py:250-259 | After coordinate step `k`, the vector is the `+` probe if that beats the baseline. Otherwise it is the `-` probe if that does, and otherwise it is unchanged. |
| MupSearch.SearchStepMovesOneCoordinate | main_training.py:250-259 | Coordinate step `k` changes only coordinate `Coord(k).1` of the kept vector, and changes it by at most the offset of round `Coord(k).0`. |
| MupSearch.LaterAdoptionCanBeWorse | main_training.py:243-259 | There is an oracle under which the second coordinate step replaces a vector of loss 1 by one of loss 1.5, because acceptance is measured against the unchanged baseline. |
| MupSearch.StepSizeIsPower | main_training.py:253 | The offset of round `i` is `1 / 2^(i+1)`. |
| MupSearch.RadiusGap | main_training.py:253 | After `n` rounds, twice the next offset separates the sum of the offsets used so far from 1. |
| MupSearch.RadiusIsPower | main_training.py:253 | The offsets of `n` rounds sum to `1 - 2^(-n)`. |
| MupSearch.RadiusStep | main_training.py:253 | The radius lies in `[0, 1)` and grows by each round's offset. |
| MupSearch.AdoptMovesOneCoordinate | main_training.py:250-259 | Probing coordinate `j` with a non-negative offset changes it by at most that offset and changes no other coordinate. |
| MupSearch.AdoptWidens | main_training.py:250-259 | Probing coordinate `j` in round `i` changes it by at most that round's offset and changes no other coordinate. So it keeps the vector within the bound of round `i + 1`, and the coordinates after `j` within the bound of round `i`. |
| MupSearch.BoundWidens | main_training.py:247-253 | The bound before round `i` gives the bounds the round's coordinate loop starts from. |
| MupSearch.BoundStep | main_training.py:250-259 | A coordinate step keeps the exponents within the bound of the next round. It leaves the coordinates after `j` within the current round's bound. |
| MupSearch.RoundPrefixBound | main_training.py:248-259 | Within round `i`, the coordinates already probed lie within `Radius(i + 1)`, and the others still lie within `Radius(i)`. |
| MupSearch.SearchBound | main_training.py:247-259 | Before round `i`, every exponent satisfies `abs(v_j) <= 1 - 2^(-i)`. |
| MupSearch.ZeroWithin | main_training.py:224 | The initial vector lies within radius 0. |
| MupSearch.SearchMups | main_training.py:213-269 | `main`'s search over configurations: (1) the baseline is the loss of the unchanged configuration; (2) the kept vector is the reference search's result; (3) the kept vector is the zero vector or its configuration's loss is strictly below the baseline; (4) the six final values are the muP fields of the kept vector's configuration; (5) with a non-negative explore range, each final value lies within `2^(±explore_ratio)` of its base value. |
| MupConfig.SetMupsFrom | main_training.py:237-238 | The loop of `set_mups` over `zip(names, exponents)`, setting each field from the base configuration into the copy being built. Whatever it sets, every field outside the six muP fields keeps the value of the copy being built. |
| MupConfig.SetMups | main_training.py:234-239 | `set_mups(names, exponents, cfg)` returns a copy of `cfg` that differs from it only in muP fields. |
| MupConfig.FinalValues | main_training.py:268 | There is one final value per muP field, and each is the value that field takes in the configuration a trial of the same exponent vector runs with. |
| MupConfig.Set | main_training.py:238 | `setattr` on one muP field changes that field only and nothing outside the muP fields. |
| MupConfig.SetMupsFromSpec | main_training.py:237-238 | Over distinct names, the `set_mups` loop sets each named field to the base value scaled by its own exponent. It leaves the unnamed fields and everything else as they were. |
| MupConfig.MupParamsDistinct | main_training.py:216-223 | The six muP names are distinct and cover every muP field. |
| MupConfig.SetMupsScalesFromBase | main_training.py:234-239 | In the copy, each muP field is the base value times `2^(v_j * explore_ratio)`, not compounded with the other exponents. Every non-muP field equals the original's. |
| MupConfig.ConfigExt | main_training.py:234-239 | Two configurations that agree outside the muP fields and on every muP field are equal, so the copy is determined by those fields. |
| MupConfig.SetMupsZeroIsBase | main_training.py:241-242 | The baseline configuration built from the zero vector is the original configuration. |
| MupConfig.FinalValuesWithinRange | main_training.py:215-268 | With every exponent in `[-1, 1]` and a non-negative range, each final value lies between `base * 2^(-explore_ratio)` and `base * 2^(explore_ratio)`. |
| MupConfig.GroupLrs | main_training.py:111-131 | The optimizer has three groups, with rates `lr / dscale`, `lr / sqrt(emb_dim)` and `lr * dscale / emb_dim`. |
| MupConfig.InitialLr | main_training.py:149-154 | The override `lr / emb_dim ** (i/2) * dscale ** (i-1)` for group `i`. It is zero exactly when `lr` is zero, because every power of a non-zero base is non-zero. |
| MupConfig.ApplyResume | main_training.py:146-154 | After the checkpoint load, the override keeps one entry per group and never changes a group's `lr`. |
| MupConfig.InitialLrMatchesGroupLr | main_training.py:111-154 | The `initial_lr` override equals the configured learning rate of each of the three groups: `lr / dscale`, `lr / sqrt(emb_dim)` and `lr * dscale / emb_dim`. |
| MupConfig.FreshStartRestoresGroupLrs | main_training.py:146-154 | On a fresh start, the step counter restarts at 0. Whatever the checkpoint loaded, each group's `initial_lr` becomes that group's configured rate and its `lr` is kept. When resuming, both are kept as loaded. |
| TrainLoop.Step | fms_fsdp/utils/train_utils.py:42-97 | One iteration of the loop body runs at most one step and keeps one statistics vector per worker. A step within the budget runs and adds its statistics before the report check; with a zero interval it then raises. Its behaviour over a run is stated by the `Run…` lemmas. |
| TrainLoop.Run | fms_fsdp/utils/train_utils.py:42-97 | The loop over the batches the loader yields keeps one statistics vector per worker. |
| TrainLoop.TrialLoopSettings | main_training.py:234-239 | Every trial of the search runs `train` with the base configuration's step budget, report interval, batch size and sequence length, because `set_mups` changes only muP fields. |
| TrainLoop.Train | fms_fsdp/utils/train_utils.py:20-115 | `train` as the fold followed by the return of line 115. Its contract is `TrainResult`, `TrainIgnoresPartialWindow` and `TrainZeroInterval`. |
| TrainLoop.AllReduceZeros | fms_fsdp/utils/train_utils.py:95 | Reducing the zeroed vectors gives the zero vector. |
| TrainLoop.AllReduceAccumulate | fms_fsdp/utils/train_utils.py:55-66 | Summing over workers after each adds its step equals adding that step's total to the earlier sum. |
| TrainLoop.StepTotalCount | fms_fsdp/utils/train_utils.py:60 | One global step contributes one count per worker. |
| TrainLoop.WindowTotalCount | fms_fsdp/utils/train_utils.py:60-66 | A window of `n` lockstep global steps holds `world * n` worker steps. |
| TrainLoop.RunSteps | fms_fsdp/utils/train_utils.py:42-44 | A run takes at most `max(0, num_steps - start_step)` steps and no more than the loader yields. Stopping for the budget means exactly that many steps ran. |
| TrainLoop.RunReportsPlaced | fms_fsdp/utils/train_utils.py:65 | Reports occur at exactly the executed step indices divisible by `report_interval`, in order. |
| TrainLoop.RunWindows | fms_fsdp/utils/train_utils.py:55-95 | Each report's reduced vector is the total over all workers of the steps since the previous report. The workers' vectors hold the steps since the last report. |
| TrainLoop.ClosedWindowTotal | fms_fsdp/utils/train_utils.py:59-66 | At a boundary, the reduction is the window's total, and its count is `world` times the window length. |
| TrainLoop.RunReportValues | fms_fsdp/utils/train_utils.py:66-75 | A report does two things. It divides the reduced loss and grad-norm sums by the reduced count, which is positive. It counts `tokens_seen + (batch_idx - start_step) * world_size * batch_size * seq_length` tokens. |
| TrainLoop.RunGuard | fms_fsdp/utils/train_utils.py:96-97 | The loop stops for divergence exactly when the latest report has index above 999 and a NaN mean or a mean above 6. No step runs after it, and no earlier report met the condition. |
| TrainLoop.TokensIncrease | fms_fsdp/utils/train_utils.py:71-75 | With positive world size, batch size and sequence length, the token count strictly increases from report to report. |
| TrainLoop.RunPrefixReports | fms_fsdp/utils/train_utils.py:42-97 | A prefix of the batches yields a prefix of the reports. The later reports lie beyond that prefix. |
| TrainLoop.TrainResult | fms_fsdp/utils/train_utils.py:41-115 | With a non-zero interval, `train` raises exactly when no report was reached. Otherwise its result is computed from the last report's window `[lo, hi)` of input batches, which is non-empty. It is the summed loss of that window over all workers, divided by its `world * (hi - lo)` worker steps. NaN is replaced by 100, and any other value is returned unchanged, a finite diverged one included. |
| TrainLoop.LastWindowMean | fms_fsdp/utils/train_utils.py:55-68 | The last report's mean loss is the summed loss of the steps in its window, over all workers, divided by the `world * (hi - lo)` worker steps in it. |
| TrainLoop.LastWindow | fms_fsdp/utils/train_utils.py:55-95 | The last report's reduced vector is the total of the steps since the previous report. |
| TrainLoop.LastReportValues | fms_fsdp/utils/train_utils.py:66-67 | The last report's mean loss divides its reduced loss by its reduced count, which is positive. |
| TrainLoop.TrainIgnoresPartialWindow | fms_fsdp/utils/train_utils.py:42-115 | Cutting the batches at the last report does not change the returned value. |
| TrainLoop.TrainZeroInterval | fms_fsdp/utils/train_utils.py:41-115 | With `report_interval == 0` the loop makes no report and stops at the first batch it receives. If that batch is within the budget, its step runs first: exactly one step is taken, and the workers' statistics hold exactly that batch's total. `train` always raises. It raises on the division exactly when a step is within the budget and a batch arrives; otherwise it raises because no report was reached. |
| Policies.ShardingFor | fms_fsdp/utils/train_utils.py:163-170 | `"ddp"` gives no sharding and `"hsdp"` gives hybrid sharding. Every other name gives full sharding. |
| Policies.MixedPrecisionPolicy | fms_fsdp/utils/train_utils.py:137-150 | There is no policy exactly when mixed precision is off. With it on, the policy is bfloat16 exactly when the hardware is ready, and float16 otherwise. |
| Policies.VersionAtLeast | fms_fsdp/utils/train_utils.py:132-134 | Python's `>=` on version tuples: a version is at least any prefix of itself, the empty tuple and itself included. |
| Policies.VersionAtLeastIsLexicographic | fms_fsdp/utils/train_utils.py:132-134 | Version comparison is Python's lexicographic tuple order `>=`, in both directions. |
| Policies.VersionAtLeastSound | fms_fsdp/utils/train_utils.py:132-134 | A tuple judged at least the minimum is lexicographically at least it. |
| Policies.VersionAtLeastComplete | fms_fsdp/utils/train_utils.py:132-134 | A tuple lexicographically at least the minimum is judged so. |
| Policies.ShortReleaseBelowMinimum | fms_fsdp/utils/train_utils.py:132-134 | Examples of the tuple comparison: a CUDA release `(11,)` is below `(11, 0)`, `(12, 1)` meets it, and NCCL `(2, 9, 6)` is below `(2, 10)`. |
| Policies.BfloatSupported | fms_fsdp/utils/train_utils.py:129-135 | bfloat16 counts as supported exactly when five conditions hold: there is a CUDA build, the device supports it, the CUDA release is at least `(11, 0)`, NCCL is available, and the NCCL version is at least `(2, 10)`. |

## Left out

- Model construction, FSDP wrapping, compilation, rotary embeddings and activation checkpointing (`main_training.py:36-86`): library calls with no visible code.
- Forward and backward passes, cross-entropy, gradient clipping, and the optimizer and scheduler steps: they become the per-worker `(loss, grad-norm)` observations of each step.
- Floating-point rounding and infinities: a loss is NaN or an exact real, and so is every exponent. In binary64, `start_val +/- 2**(-i-1)` (`main_training.py:253`) stays exact only up to round 52. Real-valued `2^x` is kept symbolic as a `(base, log2)` pair, and `emb_dim ** 0.5` is an abstract square root `s` with `s * s == emb_dim`.
- `all_reduce`, process-group setup, environment flags, `barrier` and `destroy`: the reduction is a pure sum over the workers' vectors. Workers are assumed to advance in lockstep.
- Wall-clock timing, step time and throughput: clocks and float division.
- The cosine and annealing learning-rate schedules (`main_training.py:157-168`): transcendental floats.
- Grouping parameters by `isinstance` over live modules (`main_training.py:92-110`): runtime introspection. The model starts from the three groups' configured rates.
- The checkpointer, data loaders, profiler, and all printing and `report` helpers: I/O. What the checkpointer hands over (`start_step`, `tokens_seen`, `is_resuming`) is an input.
- The glue from `run` to `train` (`main_training.py:174-186`): `run` is the trial oracle `Config -> Loss`. As a modelling assumption the oracle is a function: the same configuration always gets the same loss. In the code the random state differs from run to run (`main_training.py:196-197` seeds once). In exact arithmetic the search never tries the same exponent vector twice: in round `i` the probed coordinate is an odd multiple of `2^-(i+1)`, and every value that coordinate held before the round is a multiple of `2^-i`. An exception raised inside a trial is not modelled.
- MupConfig.GroupLrs: a zero `mup_lr_dscale` or `emb_dim` raises ZeroDivisionError in Python (`main_training.py:115-126`, `150-153`). The model requires these to be non-zero and does not model that error. The same holds for MupConfig.InitialLr, MupConfig.ApplyResume, MupConfig.InitialLrMatchesGroupLr and MupConfig.FreshStartRestoresGroupLrs.
- MupConfig.Config: `mup_search_steps` is a natural number. Python also accepts a negative value, and `range` of it is empty, so that behaves as zero rounds. The model does not take negative values.
- MupConfig.Config: gradient clipping, the learning rate, the sharding name and the mixed-precision flag are not fields here, because the model never reads them from a configuration. The policy selectors take the name and the flag as arguments.
- MupSearch.Search: the kept vector is shown to be a tried vector that is either the zero vector or beats the baseline. It is not shown to be the best vector tried, because the code does not keep the best.
- `get_policies` beyond the sharding choice, that is wrapping, activation checkpointing and parameter init, is not part of this model: these are library objects. The bfloat16 probe's runtime queries are inputs.
