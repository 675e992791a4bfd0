# Mamba2 streaming inference and the adaptive-padding drivers, in Dafny

This project models the discrete core of a website-fingerprinting code base:

- **The Mamba2 layer's inference path.** The files are `mamba2_shapes.dfy`, `mamba2_cache.dfy`, `causal_conv.dfy`, `selective_scan.dfy` and `mamba2.dfy`.
  - `forward_test` primes the layer on a whole prefix. It projects every timestep, splits the projection, stores the seeded convolution windows, runs the bulk depthwise convolution and the scan kernel, stores the final SSM state and emits one row per timestep.
  - `forward_stage` advances one timestep from the cached windows and state.
  - `forward_evaluate` is the two of them put together.
  - Numbers are Dafny `real`s. `exp`, `softplus`, SiLU, `in_proj`, `out_proj`, the gated RMS norm and the chunked scan kernel are function-valued parameters of the layer. Batch size is 1.
- **The npz padding driver** (`trace_rows.dfy`, `npz_defense.dfy`).
  - It decodes each padded `(timestamp, signed length)` matrix row by row, up to the first all-zero row.
  - It hands the packets to the simulator.
  - It writes the simulated packets back into the trace's row of the output matrix, truncated to the row capacity.
- **The file padding driver** (`trace_files.dfy`). It splits globbed trace files into closed-world and open-world lists by basename, processes them in that order, and dumps each result under its own basename.
- **The configuration merge** (`padding_config.dfy`) that both drivers perform. The positive-overhead filter feeding the medians (`overheads.dfy`) is also shared by both drivers.
- **Shared modules.** `results.dfy` holds `Option` and `Result`. `seqs.dfy` holds sequence helpers. `py_num.dfy` holds Python's `//`, `abs` and `int()` on floats.

The main theorem is `Mamba2.PrimeThenStep`: priming on `us` and then stepping on `u` equals priming on `us + [u]`. The outputs, the stored windows and the SSM state all agree. Its proof goes through `Mamba2.PrimeOnThenStepOn`, which combines three facts:

- `Mamba2.ConvOutputsSnoc`: the bulk convolution over one more timestep is the old rows followed by the row the streaming path computes. It rests on `CausalConv.BulkIsCausal` (later inputs leave earlier outputs alone) and `CausalConv.BulkAtNewest` (the newest output reads the last `d_conv` inputs).
- `Mamba2.SeedConvSnoc`: the windows primed on one more timestep are the primed windows with that timestep shifted in. It rests on `CausalConv.ShiftInSeed`.
- `SelectiveScan.ScanExtends`, a helper that unfolds the reference scan once at its last timestep. Through it the kernel's result on the longer input is one more step from the shorter input's final state.

Separately, `CausalConv.StreamMatchesBulk` states the convolution half on its own, for any prefix and any number of streamed steps. Streaming after priming gives the bulk outputs at the same positions and leaves the window priming on the whole input would store.

The theorem assumes, as a named hypothesis `Mamba2.KernelIsSequential`, that the chunked scan kernel computes the sequential scan from a zero state. The kernel's source is not part of this model, so this is never claimed.

The configuration merge is modelled as written: `dict(section, **normal_rcv)` lets every `normal_rcv` option override the chosen section's option of the same name. The comment above that line says "use default values if not specified", which reads as the opposite precedence. `PaddingConfig.CoveredChoiceHasNoEffect` makes the consequence precise: a chosen section that adds no option of its own yields the `normal_rcv` configuration unchanged. The intended merge is defined beside it and recorded under "## Findings". `PaddingConfig.LoadConfig` keeps the merge as written, because that is what both drivers run; `PaddingConfig.LoadConfigIntended` is the corrected load.

## Model

| member | source | states |
|---|---|---|
| Mamba2Shapes.SplitProjection | CountMamba/model_mamba2.py:116-121 | The five-way split succeeds iff the row is at least `2*d_inner + 2*d_state + nheads` wide and the surplus is even (`d_mlp` is the floor half). Otherwise it fails with a split-size error. On success `z` has `d_inner` entries, `xBC` has `conv_dim` entries and `dt` has `nheads`, and the pieces concatenate back to the row. |
| Mamba2Shapes.SplitAtProjectionWidth | CountMamba/model_mamba2.py:27-28 | At the width `in_proj` produces, `d_mlp` is 0: the split succeeds with empty `z0` and `x0`. |
| Mamba2Shapes.SplitJoinProjection | CountMamba/model_mamba2.py:177-182 | Splitting the concatenation of fitting pieces gives back exactly those pieces. |
| Mamba2Shapes.SplitConv | CountMamba/model_mamba2.py:130 | The `x/B/C` split of a `conv_dim` row never fails. It yields widths `d_inner`, `d_state` and `d_state`, which concatenate back to the row. |
| Mamba2Shapes.SplitJoinConv | CountMamba/model_mamba2.py:191 | Splitting concatenated `x`, `B`, `C` pieces gives back the pieces. |
| Mamba2Shapes.HeadsCoverInner | CountMamba/model_mamba2.py:22-24 | When `headdim` divides `d_inner`, `d_inner == nheads * headdim`. |
| Mamba2Shapes.FlattenChunk | CountMamba/model_mamba2.py:197 | Cutting `x` into `nheads` heads of `headdim` and flattening gives back `x`. |
| Mamba2Shapes.ChunkFlatten | CountMamba/model_mamba2.py:202 | Flattening equal-width heads and cutting again gives back the heads. |
| Mamba2Cache.GetStates | CountMamba/model_mamba2.py:88-109 | It fails iff the layer index is missing. Otherwise the layer's key is in the cache afterwards, and the returned pair is the stored one. The key set grows by at most that key. A layer seen before gets its stored pair back. |
| Mamba2Cache.FirstLookupIsZero | CountMamba/model_mamba2.py:90-106 | The first lookup of a layer stores and returns a zero `conv_dim x d_conv` window and a zero `nheads x headdim x d_state` state. |
| Mamba2Cache.LookupKeepsOtherLayers | CountMamba/model_mamba2.py:106 | A lookup never changes another layer's entry. |
| Mamba2Cache.LookupIsIdempotent | CountMamba/model_mamba2.py:107-109 | A second lookup returns what the first returned and leaves the cache unchanged. |
| CausalConv.SeedWindow | CountMamba/model_mamba2.py:124-125 | The seeded window (`F.pad` by `d_conv - L`, negative meaning a crop) is exactly the last `d_conv` inputs, zero-padded on the left when `L < d_conv`. |
| CausalConv.ShiftIn | CountMamba/model_mamba2.py:185-186 | A streaming update keeps the window length, moves every entry one place left and writes the new input last. |
| CausalConv.ShiftInSeed | CountMamba/model_mamba2.py:185-186 | Shifting input `x` into the window seeded on `xs` gives the window seeded on `xs + [x]`. |
| CausalConv.PaddedWindow | CountMamba/model_mamba2.py:37 | The `k` padded inputs read by conv output `t` are the last `k` inputs up to time `t`, with zeros before time 0. |
| CausalConv.ConvFullAt | CountMamba/model_mamba2.py:31-39 | Output `t` of the depthwise `Conv1d` with padding `k - 1` is `bias + sum_k w[k] * window[k]` over the window ending at `t` (a cross-correlation). |
| CausalConv.BulkConv | CountMamba/model_mamba2.py:127-129 | The `[:-(d_conv - 1)]` slice keeps one output per input when `d_conv >= 2`, and none when `d_conv == 1`. |
| CausalConv.BulkConvAt | CountMamba/model_mamba2.py:127-128 | Bulk output `t` is the activated kernel response to the last `d_conv` inputs up to `t`. |
| CausalConv.BulkIsCausal | CountMamba/model_mamba2.py:127-128 | Inputs after time `t` do not change bulk output `t`. |
| CausalConv.StreamMatchesBulk | CountMamba/model_mamba2.py:185-189 | Priming on `prefix` and then streaming `xs` yields the bulk outputs of `prefix + xs` at the same positions. It leaves the window that priming on `prefix + xs` would store. |
| SelectiveScan.DecayInUnitInterval | CountMamba/model_mamba2.py:192-196 | With `exp` positive, increasing and `exp(0) = 1`, and `softplus` positive, `dA = exp(softplus(dt + dt_bias) * -exp(A_log))` lies strictly between 0 and 1. |
| SelectiveScan.SsmStepEntry | CountMamba/model_mamba2.py:195-201 | Per head `h`: `state'[h][p][n] = state[h][p][n] * dA[h] + dt[h] * B[n] * x[h][p]`, and `y[h][p] = sum_n state'[h][p][n] * C[n] + D[h] * x[h][p]`, read from the updated state. |
| SelectiveScan.HeadsAreIndependent | CountMamba/model_mamba2.py:198-201 | Head `h` of the new state and output depends only on head `h` of the state, `x` and `dt`, and on the shared `B` and `C`. |
| SelectiveScan.ScanComposes | CountMamba/model_mamba2.py:150-151 | Scanning `a` then `b` in one go equals scanning `b` from the final state of `a`. The stored state is all a session needs to continue. |
| SelectiveScan.ScanEntryRecurs | CountMamba/model_mamba2.py:199 | Every state entry of the scan follows the scalar recurrence `v := v * dA_t + dt_t * B_t[n] * x_t[h][p]`. |
| SelectiveScan.ScanStaysBounded | CountMamba/model_mamba2.py:196-199 | With `A = -exp(A_log)` and admissible `exp`/`softplus`, no state entry exceeds its initial magnitude plus the magnitudes of its inputs. |
| SelectiveScan.RecurStaysBelow | CountMamba/model_mamba2.py:199 | For the scalar recurrence with every decay at most `cap < 1` and every input at most `bound` in magnitude, the entry never exceeds `max(|v0|, bound / (1 - cap))`, for any number of steps. |
| SelectiveScan.ScanStaysBoundedUnderSteadyInput | CountMamba/model_mamba2.py:192-199 | Suppose head `h` gets the same raw `dt` at every step, and its inputs are bounded in magnitude by `bound`; the same `dt`, `B` and `x` at every step is a special case. Then the decay `dA` lies strictly between 0 and 1, and the state entry stays within `max(|init|, bound / (1 - dA))`, however long the scan. The state does not grow without bound. |
| Mamba2.DecayRatesNegative | CountMamba/model_mamba2.py:114 | Under admissible `exp`, every head's `A = -exp(A_log)` is negative, so every decay `exp(dt * A)` shrinks the state. |
| Mamba2.StepInOf | CountMamba/model_mamba2.py:191-197 | A step's scan inputs fit the state shape: `x` cut into heads, `B` and `C` of `d_state`. Flattened heads, `B` and `C` concatenate back to the conv output row, and `dt` is the projection's `dt`. |
| Mamba2.ProjectAll | CountMamba/model_mamba2.py:113-121 | Projecting a sequence succeeds iff every timestep's row splits. Entry `t` is then timestep `t`'s split. Otherwise it fails with a split-size error. |
| Mamba2.ForwardTest | CountMamba/model_mamba2.py:111-157 | It fails with a missing-index error when the layer has no index, and otherwise with an input-width error when a timestep is not `d_model` wide (`nn.Linear`). On success there is one output per timestep and `d_conv >= 2` unless the input is empty. The layer's key is added, its stored pair has the right shapes, and no other layer's entry changes. |
| Mamba2.ForwardTestSeedsWindows | CountMamba/model_mamba2.py:124-125 | After `forward_test`, channel `c`'s stored window is the last `d_conv` of channel `c`'s conv inputs, zero-padded on the left. |
| Mamba2.ForwardStage | CountMamba/model_mamba2.py:172-206 | It fails with a missing-index error when the layer has no index, and otherwise with an input-width error when the timestep is not `d_model` wide. On success the timestep is `d_model` wide, the layer's key is present, its pair keeps its shapes, and no other layer's entry changes. |
| Mamba2.ForwardStageShiftsWindows | CountMamba/model_mamba2.py:185-186 | After `forward_stage`, every stored window keeps `d_conv` entries, is the window `_get_states_from_cache` returned moved one place left, and ends with the channel's new conv input. On a layer's first call that is the fresh zero window. |
| Mamba2.ConvOutputsSnoc | CountMamba/model_mamba2.py:187-189 | The bulk convolution over one more timestep is the old bulk rows followed by the row the streaming step computes from the shifted windows. |
| Mamba2.ForwardEvaluate | CountMamba/model_mamba2.py:163-170 | The start position is the input length, so the step loop runs zero times and the result is `forward_test` on the whole input. Without inference parameters (the default `None`) it fails: with the missing-index error when the layer has no index, else with a missing-parameters error. |
| Mamba2.PrimeThenStep | CountMamba/model_mamba2.py:111-206 | If the kernel computes the sequential scan and `d_conv >= 2`, then `forward_test(us)` followed by `forward_stage(u)` gives `forward_test(us + [u])`. The outputs are those of the prime with the step's row appended, and the cache is the step's cache. |
| PyNum.Trunc | defense_npz/wtfpad/main.py:71 | `int(x)` rounds toward zero: for `x >= 0` it is the largest integer not above `x`, and for `x < 0` the smallest integer not below `x`. |
| TraceRows.DecodeRow | defense_npz/wtfpad/main.py:71-73 | A row fails with division by zero iff `-1 < length < 1`. Otherwise the packet keeps the timestamp, has direction `+1` iff `length > 0` (`-1` otherwise) and size `|int(length)| >= 1`, and `direction * size == int(length)`. |
| TraceRows.Used | defense_npz/wtfpad/main.py:66-69 | The number of rows before the first `(0, 0)` row: none of them is that row, and the row at that position, if any, is. |
| TraceRows.DecodeRowwise | defense_npz/wtfpad/main.py:64-73 | Decoding succeeds iff every row before the terminator decodes, and then packet `i` is row `i` decoded. Rows with only one zero field are not the terminator: they decode, or fail with division by zero when `-1 < length < 1`. Division by zero is the only failure. |
| TraceRows.DecodeStopsAtSentinel | defense_npz/wtfpad/main.py:68-69 | Rows after the first `(0, 0)` row are never read. |
| TraceRows.EncodeDecodeRow | defense_npz/wtfpad/main.py:80-81 | Writing a decoded-shape packet as `direction * length` and decoding it again gives back the same packet. |
| TraceRows.DecodeEncodeRow | defense_npz/wtfpad/main.py:71-81 | Re-encoding a decoded row gives the row with its length truncated toward zero. |
| TraceRows.WriteBack | defense_npz/wtfpad/main.py:79-84 | The loop fails with an index error iff the output has no rows and the simulated trace is not empty. Otherwise row `i` holds packet `i` for the first `min(len(simulated), capacity)` rows, and the rest stay as they were. |
| TraceRows.WriteThenDecode | defense_npz/wtfpad/main.py:79-84 | Writing fitting packets into a fresh zero row and decoding it gives back the first `min(len(simulated), capacity)` packets. |
| NpzDefense.DefendAll | defense_npz/wtfpad/main.py:60-93 | The loop runs over `zip(X, y)`, so only the first `min(len(X), len(y))` traces are read. The run succeeds iff each of them decodes and fits its output row. Output row `k`, latency `k` and bandwidth `k` then come from trace `k` and the `k`-th simulation, because `count` starts at -1 and is incremented once per trace. The output matrix keeps the shape of `X`, and the rows the loop never reaches stay zero. |
| NpzDefense.DefendedRowDecodes | defense_npz/wtfpad/main.py:76-84 | When the simulated trace fits its row and its packets have decoded shape, the defended row decodes to exactly the simulated trace. |
| NpzDefense.MedianInputs | defense_npz/wtfpad/main.py:97-98 | The values the medians are taken over are all strictly positive. |
| Overheads.PositivesKeepPositive | defense/wtfpad/main.py:76-77 | The filter keeps every positive overhead as often as it occurs, drops every other, and keeps the order. |
| TraceFiles.Basename | defense/wtfpad/main.py:60 | The basename is the longest suffix without `/`: it has no `/`, and the character before it, if any, is `/`. |
| TraceFiles.PartitionIsExact | defense/wtfpad/main.py:53-59 | Closed-world files are exactly the globbed files whose basename contains `-`, and open-world files exactly the others. Each list keeps glob order. Closed-world then open-world processes every globbed file exactly as often as it was globbed. |
| TraceFiles.ProcessingOrder | defense/wtfpad/main.py:59 | Every closed-world file comes before every open-world file. |
| TraceFiles.Join | defense/wtfpad/main.py:65 | `os.path.join` ends with the name, and starts with the directory unless the name is absolute. |
| TraceFiles.DumpKeepsBasename | defense/wtfpad/main.py:60-65 | The dumped file has the basename of the trace it came from. |
| TraceFiles.DistinctBasenamesDoNotCollide | defense/wtfpad/main.py:65 | Traces with different basenames are dumped to different paths. |
| PaddingConfig.LoadConfig | defense/wtfpad/main.py:115-119 | The load fails iff the chosen section or `normal_rcv` is missing, naming the first missing one. Otherwise the merged key set is the union of both sections. |
| PaddingConfig.Merge | defense_npz/wtfpad/main.py:137-140 | The merged keys are the union. Every `normal_rcv` key carries its `normal_rcv` value, and a key only in the chosen section keeps its section value. |
| PaddingConfig.NormalRcvWins | defense/wtfpad/main.py:119 | Shared keys take `normal_rcv`'s value whatever section was chosen. Keys only in the chosen section keep its value. |
| PaddingConfig.CoveredChoiceHasNoEffect | defense/wtfpad/main.py:116-119 | A chosen section whose keys all appear in `normal_rcv` yields exactly the `normal_rcv` configuration. |
| PaddingConfig.MergeIsIdempotent | defense_npz/wtfpad/main.py:140 | Merging `normal_rcv` in a second time changes nothing. |
| PaddingConfig.MergeIntended | defense/wtfpad/main.py:118 | The merge the comment describes: the keys are the union, every option of the chosen section keeps its value, and `normal_rcv` supplies only the options the chosen section lacks. |
| PaddingConfig.MergesAgreeWithoutOverlap | defense/wtfpad/main.py:118-119 | When the two sections share no option, the merge as written and the intended merge coincide. |
| PaddingConfig.MergeOverridesChoice | defense/wtfpad/main.py:118-119 | For any two sections and any option both set, the merge as written gives the `normal_rcv` value and the intended merge gives the chosen value. |
| PaddingConfig.MergeOverridesChoiceWitness | defense/wtfpad/main.py:118-119 | One concrete pair of sections: `option` set to `chosen` and to `default` merges to `default` as written and to `chosen` as intended, so the two values do differ. |
| PaddingConfig.LoadConfigIntended | defense/wtfpad/main.py:115-119 | The corrected load fails exactly when the load as written fails, with the same error, and otherwise has the same option names. |
| PaddingConfig.ChosenOptionsWin | defense/wtfpad/main.py:118 | With the intended merge, every option of the chosen section keeps its value and `normal_rcv` supplies only the others. |

## Left out

- `forward` / `forward_train` and the fused kernel `mamba_split_conv1d_scan_combined` (CountMamba/model_mamba2.py:64-86, 159-161): the kernel's source is foreign code and not part of this model.
- `mamba_chunk_scan_combined` is a function-valued parameter. Its agreement with `SelectiveScan.SequentialScan` is the hypothesis `Mamba2.KernelIsSequential`, never a proved fact. Chunked-versus-sequential equivalence is not modelled.
- `nn.Linear`, `RMSNormGated`, SiLU, `exp` and `softplus` are uninterpreted function-valued parameters. The only facts assumed of `exp`/`softplus` are those in `SelectiveScan.Admissible`.
- Parameter initialisation (random `dt`, clamp, inverse softplus, `A` uniform in `[1, 1.1]`, `D = 1`): floating point plus randomness. The model takes any weights of the right shapes.
- Floating point: every value is an exact `real`. float32 rounding, `NaN`, `-0.0` and the float32 storage of the written timestamps are not modelled.
- Device, dtype and batch handling: batch is fixed at 1.
- Mamba2.ForwardTest: on a layer's first call, any failure after the lookup leaves the fresh zero entry stored in the source (CountMamba/model_mamba2.py:106). That includes an input-width error from `in_proj` and a split-size error from `torch.split`. On any call, not only the first, a failure in the bulk path comes after the seeded window has been copied into the layer's stored window (CountMamba/model_mamba2.py:124-125). So the stored window is already overwritten. The bulk path fails on `d_conv == 1` with a non-empty input (a convolution-length error), or on a divisibility or shape error. The model returns only the error and drops that half-updated cache.
- Mamba2.ForwardStage: on a layer's first call, any failure after the lookup leaves the fresh entry stored in the source. A failure after the window shift also leaves the stored window rolled in place with the new input written into it. That happens on a head split error (CountMamba/model_mamba2.py:197) or a state of the wrong shape. The model returns only the error and drops that half-updated cache.
- Mamba2.ForwardTest: the layer's previously stored pair only matters through its shape, since the source overwrites it in place.
- `AdaptiveSimulator.simulate` is the parameter `NpzDefense.Simulator`, given the trace number so that a stateful or random simulator may differ per call. `oh.bandwidth_ovhd`/`oh.latency_ovhd` are parameters too. `pparser.parse`/`dump` are not part of this model: the file driver models which paths are read and where each result is dumped, not the file contents.
- `np.median` itself: only the lists handed to it are modelled.
- All I/O: `np.load`, `open_memmap`, `np.savez`, `os.remove`, `glob`, `mkdir`, the timestamped output directory, argparse, configparser file reading and option-name lower-casing, logging and tqdm. The label array `y` only bounds the loop, through its length. Its values are saved unchanged and are not modelled.
- Glob order is whatever the file system returns: the model takes the globbed list as given.
- `NpzDefense.DefendAll` uses the capacity of each trace's own input row. For a numpy matrix every row has the same capacity, `X.shape[1]`.
- An argparse rejection of an unknown `--config` choice and the `KeyError` for a missing section are both modelled as `MissingSection`.

## Findings

| source | as written | input that shows it | evidently intended | confidence | as-written member | corrected member |
|---|---|---|---|---|---|---|
| defense/wtfpad/main.py:118-119 | `dict(config, **normal_rcv)`: every `normal_rcv` option overrides the chosen section's option | a chosen section and `normal_rcv` that both set `option`, to `chosen` and to `default`: the merged value is `default` | "use default values if not specified": the chosen option stands and `normal_rcv` fills only missing options | medium, not executed | PaddingConfig.MergeOverridesChoice | PaddingConfig.ChosenOptionsWin |
| defense_npz/wtfpad/main.py:139-140 | the same merge in the npz driver | the same two sections | the same | medium, not executed | PaddingConfig.MergeOverridesChoiceWitness | PaddingConfig.MergeIntended |
