/**
 * The Mamba2 layer at inference time with batch size 1: `forward_test`
 * primes the cache on a whole sequence (bulk convolution, then the chunked
 * scan kernel), `forward_stage` advances it by one timestep (streaming
 * convolution window, then one SSM step), and `forward_evaluate` chains the
 * two.
 *
 * The linear projections, the gated RMS norm, the activation and the chunked
 * scan kernel are library code and enter as function values (`Externals`);
 * `exp` and `softplus` enter through `Transcendentals`.
 */
module Mamba2 {
  import opened Results
  import opened Seqs
  import opened CausalConv
  import opened SelectiveScan
  import opened Mamba2Shapes
  import opened Mamba2Cache

  /**
   * The learned parameters: the depthwise kernel (`conv_dim` rows of `d_conv`
   * taps, the `d 1 w -> d w` layout) and its bias, and per head `A_log`,
   * `dt_bias` and `D`.
   */
  datatype Weights = Weights(convWeight: seq<seq<real>>, convBias: seq<real>, aLog: seq<real>, dtBias: seq<real>, d: seq<real>)

  /** The library functions the layer calls. */
  datatype Externals = Externals(
    inProj: seq<real> -> seq<real>,
    norm: (seq<real>, seq<real>) -> seq<real>,
    outProj: seq<real> -> seq<real>,
    act: real -> real,
    chunkScan: ScanArgs -> ScanOut)

  /** One layer: its hyper-parameters, parameters, library functions and `layer_idx`. */
  datatype Layer = Layer(dims: Dims, w: Weights, ext: Externals, f: Transcendentals, layerIdx: Option<int>)

  /** The shapes `__init__` gives the parameters. */
  predicate LayerFits(l: Layer) {
    && WellFormed(l.dims)
    && ConvFits(l.w.convWeight, l.dims)
    && |l.w.convBias| == ConvDim(l.dims)
    && |l.w.aLog| == NHeads(l.dims) && |l.w.dtBias| == NHeads(l.dims) && |l.w.d| == NHeads(l.dims)
  }

  /** `in_proj` applied to one timestep. */
  function Project(l: Layer, u: seq<real>): seq<real> {
    l.ext.inProj(u)
  }

  /** `self.norm(y, z)`: the RMS norm of `y` gated by `z`. */
  function Gate(l: Layer, y: seq<real>, z: seq<real>): seq<real> {
    l.ext.norm(y, z)
  }

  function OutProject(l: Layer, y: seq<real>): seq<real> {
    l.ext.outProj(y)
  }

  /** `mamba_chunk_scan_combined`, started from a zero state. */
  function Kernel(l: Layer, a: ScanArgs): ScanOut {
    l.ext.chunkScan(a)
  }

  /** The per-head constants: `A = -exp(A_log)`, `dt_bias` and `D`. */
  function HeadParamsOf(l: Layer): (hp: HeadParams)
    requires LayerFits(l)
    ensures HeadParamsFit(hp, SsmShape(l.dims))
    ensures forall h :: 0 <= h < |hp.a| ==> hp.a[h] == DecayRate(l.f, l.w.aLog[h])
  {
    HeadParams(seq(NHeads(l.dims), h requires 0 <= h < NHeads(l.dims) => DecayRate(l.f, l.w.aLog[h])), l.w.dtBias, l.w.d)
  }

  /** Under the usual facts about `exp`, every head's decay rate `A` is negative. */
  lemma DecayRatesNegative(l: Layer)
    requires LayerFits(l) && Admissible(l.f)
    ensures forall h :: 0 <= h < |HeadParamsOf(l).a| ==> HeadParamsOf(l).a[h] < 0.0
  {
    var hp := HeadParamsOf(l);
    forall h | 0 <= h < |hp.a|
      ensures hp.a[h] < 0.0
    {
      DecayRateNegative(l.f, l.w.aLog[h]);
    }
  }

  /** One output row: the heads flattened, normed with gate `z`, then `out_proj`. */
  function Emit(l: Layer, y: Heads, z: seq<real>): seq<real> {
    OutProject(l, Gate(l, Flatten(y), z))
  }

  /** One timestep's scan inputs from its projection and its convolution output row. */
  function StepInOf(l: Layer, p: Projection, row: seq<real>): (inp: StepIn)
    requires LayerFits(l) && ProjectionFits(p, l.dims) && |row| == ConvDim(l.dims)
    requires DInner(l.dims) % l.dims.headdim == 0
    ensures StepInFits(inp, SsmShape(l.dims))
    ensures Flatten(inp.x) + inp.b + inp.c == row && inp.dt == p.dt
  {
    var parts := SplitConv(l.dims, row);
    HeadsCoverInner(l.dims);
    FlattenChunk(parts.x, l.dims.headdim, NHeads(l.dims));
    StepIn(Chunk(parts.x, l.dims.headdim, NHeads(l.dims)), p.dt, parts.b, parts.c)
  }

  // ---------------------------------------------------------------------------
  // forward_test: priming on a whole sequence
  // ---------------------------------------------------------------------------

  predicate AllFit(ps: seq<Projection>, d: Dims)
    requires d.headdim > 0
  {
    forall t :: 0 <= t < |ps| ==> ProjectionFits(ps[t], d)
  }

  /** `in_proj` and the five-way split on every timestep. */
  function ProjectAll(l: Layer, us: seq<seq<real>>): (r: Result<seq<Projection>, LayerError>)
    requires LayerFits(l)
    ensures r.Ok? <==> forall t :: 0 <= t < |us| ==> SplitProjection(l.dims, Project(l, us[t])).Ok?
    ensures r.Ok? ==> |r.value| == |us| && AllFit(r.value, l.dims)
    ensures r.Ok? ==> forall t :: 0 <= t < |us| ==> r.value[t] == SplitProjection(l.dims, Project(l, us[t])).value
    ensures r.Err? ==> r.error == SplitSizeMismatch
    decreases |us|
  {
    if |us| == 0 then Ok([])
    else
      var n := |us| - 1;
      var front := ProjectAll(l, us[..n]);
      if front.Err? then
        ProjectAllFront(l, us, n);
        Err(front.error)
      else
        var p :- SplitProjection(l.dims, Project(l, us[n]));
        ProjectAllStep(l, us, front.value, p);
        Ok(front.value + [p])
  }

  /** When every timestep splits, so does every timestep of a front. */
  lemma ProjectAllFront(l: Layer, us: seq<seq<real>>, n: nat)
    requires LayerFits(l) && n < |us|
    ensures (forall t :: 0 <= t < |us| ==> SplitProjection(l.dims, Project(l, us[t])).Ok?) ==>
            forall t :: 0 <= t < n ==> SplitProjection(l.dims, Project(l, us[..n][t])).Ok?
  {
    assert forall t :: 0 <= t < n ==> us[..n][t] == us[t];
  }

  /** The projections of the front extended by the projection of the last timestep. */
  lemma ProjectAllStep(l: Layer, us: seq<seq<real>>, ps: seq<Projection>, p: Projection)
    requires LayerFits(l) && |us| > 0 && |ps| == |us| - 1 && AllFit(ps, l.dims)
    requires forall t :: 0 <= t < |ps| ==> SplitProjection(l.dims, Project(l, us[..|ps|][t])).Ok?
    requires forall t :: 0 <= t < |ps| ==> ps[t] == SplitProjection(l.dims, Project(l, us[..|ps|][t])).value
    requires SplitProjection(l.dims, Project(l, us[|ps|])) == Ok(p)
    ensures AllFit(ps + [p], l.dims)
    ensures forall t :: 0 <= t < |us| ==> SplitProjection(l.dims, Project(l, us[t])).Ok?
    ensures forall t :: 0 <= t < |us| ==> (ps + [p])[t] == SplitProjection(l.dims, Project(l, us[t])).value
  {
    AllFitSnoc(ps, p, l.dims);
    forall t | 0 <= t < |us|
      ensures SplitProjection(l.dims, Project(l, us[t])).Ok?
      ensures (ps + [p])[t] == SplitProjection(l.dims, Project(l, us[t])).value
    {
      if t < |ps| {
        assert us[..|ps|][t] == us[t];
      }
    }
  }

  /** The inputs of convolution channel `c` over time. */
  function Channel(ps: seq<Projection>, d: Dims, c: nat): (xs: seq<real>)
    requires d.headdim > 0 && AllFit(ps, d) && c < ConvDim(d)
    ensures |xs| == |ps|
  {
    seq(|ps|, t requires 0 <= t < |ps| => ps[t].xBC[c])
  }

  /** The windows `forward_test` stores: channel by channel, the last `d_conv` inputs, zero padded on the left. */
  function SeedConv(l: Layer, ps: seq<Projection>): (conv: seq<seq<real>>)
    requires LayerFits(l) && AllFit(ps, l.dims)
    ensures ConvFits(conv, l.dims)
  {
    seq(ConvDim(l.dims), c requires 0 <= c < ConvDim(l.dims) => SeedWindow(Channel(ps, l.dims, c), l.dims.dConv))
  }

  /** Channel `c` through `conv1d`, the `[:-(d_conv - 1)]` slice and the activation. */
  function ChannelOut(l: Layer, ps: seq<Projection>, c: nat): seq<real>
    requires LayerFits(l) && AllFit(ps, l.dims) && c < ConvDim(l.dims)
  {
    BulkConv(Channel(ps, l.dims, c), l.w.convWeight[c], l.w.convBias[c], l.ext.act)
  }

  /** The bulk convolution output, time major. With `d_conv == 1` it is empty, so only empty input is allowed then. */
  function ConvOutputs(l: Layer, ps: seq<Projection>): (r: seq<seq<real>>)
    requires LayerFits(l) && AllFit(ps, l.dims)
    requires l.dims.dConv >= 2 || |ps| == 0
    ensures |r| == |ps| && forall t :: 0 <= t < |r| ==> |r[t]| == ConvDim(l.dims)
  {
    seq(|ps|, t requires 0 <= t < |ps| =>
      seq(ConvDim(l.dims), c requires 0 <= c < ConvDim(l.dims) => ChannelOut(l, ps, c)[t]))
  }

  /** The scan inputs of every timestep. */
  function Steps(l: Layer, ps: seq<Projection>, convs: seq<seq<real>>): (r: seq<StepIn>)
    requires LayerFits(l) && AllFit(ps, l.dims) && DInner(l.dims) % l.dims.headdim == 0
    requires |convs| == |ps| && forall t :: 0 <= t < |convs| ==> |convs[t]| == ConvDim(l.dims)
    ensures |r| == |ps|
  {
    seq(|ps|, t requires 0 <= t < |ps| => StepInOf(l, ps[t], convs[t]))
  }

  /** Timestep-wise inputs gathered into the kernel's arguments. */
  function FromSteps(steps: seq<StepIn>, hp: HeadParams): (a: ScanArgs)
    ensures Aligned(a) && |a.x| == |steps|
    ensures forall t :: 0 <= t < |steps| ==> StepAt(a, t) == steps[t]
  {
    ScanArgs(seq(|steps|, t requires 0 <= t < |steps| => steps[t].x),
             seq(|steps|, t requires 0 <= t < |steps| => steps[t].dt),
             seq(|steps|, t requires 0 <= t < |steps| => steps[t].b),
             seq(|steps|, t requires 0 <= t < |steps| => steps[t].c),
             hp)
  }

  /** The output rows of every timestep. */
  function Emits(l: Layer, ys: seq<Heads>, ps: seq<Projection>): (r: seq<seq<real>>)
    requires |ys| == |ps|
    ensures |r| == |ps|
  {
    seq(|ps|, t requires 0 <= t < |ps| => Emit(l, ys[t], ps[t].z))
  }

  /** The arguments `forward_test` hands the scan kernel: bulk convolution, split, head layout, per-head constants. */
  function ArgsOf(l: Layer, ps: seq<Projection>): (a: ScanArgs)
    requires LayerFits(l) && AllFit(ps, l.dims) && DInner(l.dims) % l.dims.headdim == 0
    requires l.dims.dConv >= 2 || |ps| == 0
    ensures ArgsFit(a, SsmShape(l.dims)) && |a.x| == |ps| && a.hp == HeadParamsOf(l)
  {
    var convs := ConvOutputs(l, ps);
    StepsFit(l, ps, convs);
    FromSteps(Steps(l, ps, convs), HeadParamsOf(l))
  }

  /** What a prime or a step computes for the layer: the output rows and the layer's new window and state. */
  datatype Outcome = Outcome(outs: seq<seq<real>>, states: LayerState)

  /**
   * `forward_test` once the layer's stored pair `st` is looked up and the
   * timesteps are projected: the stored pair is only overwritten, so it
   * matters only through its shape.
   */
  function PrimeOn(l: Layer, st: LayerState, ps: seq<Projection>): (r: Result<Outcome, LayerError>)
    requires LayerFits(l) && AllFit(ps, l.dims)
    ensures r.Ok? ==> |r.value.outs| == |ps| && LayerStateFits(r.value.states, l.dims)
    ensures r.Ok? ==> l.dims.dConv >= 2 || |ps| == 0
  {
    var d := l.dims;
    if !ConvFits(st.conv, d) then Err(StateShapeMismatch)
    else if DInner(d) % d.headdim != 0 then Err(HeadSplitMismatch)
    else if d.dConv < 2 && |ps| > 0 then Err(ConvLengthMismatch)
    else
      var so := Kernel(l, ArgsOf(l, ps));
      if |so.y| != |ps| || !StateFits(so.final, SsmShape(d)) || !StateFits(st.ssm, SsmShape(d)) then
        Err(StateShapeMismatch)
      else
        Ok(Outcome(Emits(l, so.y, ps), LayerState(SeedConv(l, ps), so.final)))
  }

  /** The timesteps `nn.Linear(d_model, ...)` accepts: every one `d_model` wide. */
  predicate RowsFit(us: seq<seq<real>>, d: Dims) {
    forall t :: 0 <= t < |us| ==> |us[t]| == d.dModel
  }

  /** The outputs of a call and the cache it leaves. */
  datatype Primed = Primed(outs: seq<seq<real>>, cache: Cache)

  /**
   * `forward_test` on the timesteps `us`: look up (or create) the layer's
   * entry, check the input width, project and split every timestep, store the seeded windows, run
   * the bulk convolution and the scan kernel, store the kernel's final
   * state, and emit one row per timestep.
   */
  function ForwardTest(l: Layer, cache: Cache, us: seq<seq<real>>): (r: Result<Primed, LayerError>)
    requires LayerFits(l)
    ensures l.layerIdx.None? ==> r == Err(MissingLayerIndex)
    ensures l.layerIdx.Some? && !RowsFit(us, l.dims) ==> r == Err(InputWidthMismatch)
    ensures r.Ok? ==> l.layerIdx.Some? && RowsFit(us, l.dims) && |r.value.outs| == |us|
    ensures r.Ok? ==> l.dims.dConv >= 2 || |us| == 0
    ensures r.Ok? ==> r.value.cache.Keys == cache.Keys + {l.layerIdx.value}
    ensures r.Ok? ==> LayerStateFits(r.value.cache[l.layerIdx.value], l.dims)
    ensures r.Ok? ==> forall j :: j in cache && j != l.layerIdx.value ==> r.value.cache[j] == cache[j]
  {
    var look :- GetStates(cache, l.layerIdx, l.dims);
    if !RowsFit(us, l.dims) then Err(InputWidthMismatch)
    else
      var ps :- ProjectAll(l, us);
      var res :- PrimeOn(l, look.states, ps);
      Ok(Primed(res.outs, look.cache[l.layerIdx.value := res.states]))
  }

  /** A successful prime stores the seeded windows. */
  lemma PrimeOnStoresSeed(l: Layer, st: LayerState, ps: seq<Projection>)
    requires LayerFits(l) && AllFit(ps, l.dims) && PrimeOn(l, st, ps).Ok?
    ensures PrimeOn(l, st, ps).value.states.conv == SeedConv(l, ps)
  {
  }

  /** The conv inputs of channel `c` over time, read from the projected timesteps. */
  lemma ProjectedChannel(l: Layer, us: seq<seq<real>>, c: nat)
    requires LayerFits(l) && ProjectAll(l, us).Ok? && c < ConvDim(l.dims)
    ensures forall t :: 0 <= t < |us| ==> SplitProjection(l.dims, Project(l, us[t])).Ok?
    ensures Channel(ProjectAll(l, us).value, l.dims, c)
         == seq(|us|, t requires 0 <= t < |us| => SplitProjection(l.dims, Project(l, us[t])).value.xBC[c])
  {
  }

  /**
   * After priming, every channel's stored window is the last `d_conv` conv
   * inputs of that channel, with zeros in front when there were fewer.
   */
  lemma ForwardTestSeedsWindows(l: Layer, cache: Cache, us: seq<seq<real>>, c: nat)
    requires LayerFits(l) && ForwardTest(l, cache, us).Ok? && c < ConvDim(l.dims)
    ensures forall t :: 0 <= t < |us| ==> SplitProjection(l.dims, Project(l, us[t])).Ok?
    ensures ForwardTest(l, cache, us).value.cache[l.layerIdx.value].conv[c]
         == Tail(seq(|us|, t requires 0 <= t < |us| => SplitProjection(l.dims, Project(l, us[t])).value.xBC[c]),
                 |us| - 1, l.dims.dConv)
  {
    ForwardTestValue(l, cache, us);
    var look := GetStates(cache, l.layerIdx, l.dims).value;
    var ps := ProjectAll(l, us).value;
    PrimeOnStoresSeed(l, look.states, ps);
    ProjectedChannel(l, us, c);
  }

  // ---------------------------------------------------------------------------
  // forward_stage: one streaming timestep
  // ---------------------------------------------------------------------------

  /** Every channel's window rolled left with the channel's new input written at the end. */
  function ShiftAll(conv: seq<seq<real>>, xs: seq<real>, d: Dims): (r: seq<seq<real>>)
    requires ConvFits(conv, d) && |xs| == ConvDim(d) && d.dConv >= 1
    ensures ConvFits(r, d)
  {
    seq(ConvDim(d), c requires 0 <= c < ConvDim(d) => ShiftIn(conv[c], xs[c]))
  }

  /** The streaming convolution output: per channel, `act(bias + sum_k weight[k] * window[k])`. */
  function ConvRow(l: Layer, conv: seq<seq<real>>): (row: seq<real>)
    requires LayerFits(l) && ConvFits(conv, l.dims)
    ensures |row| == ConvDim(l.dims)
  {
    seq(ConvDim(l.dims), c requires 0 <= c < ConvDim(l.dims) => Fire(l.ext.act, Respond(l.w.convWeight[c], l.w.convBias[c], conv[c])))
  }

  /**
   * `forward_stage` once the layer's stored pair `st` is looked up and the
   * timestep is projected: shift the conv input into the windows, convolve,
   * advance the SSM state by one step and emit one row.
   */
  function StepOn(l: Layer, st: LayerState, p: Projection): (r: Result<Outcome, LayerError>)
    requires LayerFits(l) && ProjectionFits(p, l.dims)
    ensures r.Ok? ==> |r.value.outs| == 1 && LayerStateFits(r.value.states, l.dims)
  {
    var d := l.dims;
    if !ConvFits(st.conv, d) then Err(StateShapeMismatch)
    else
      var window := ShiftAll(st.conv, p.xBC, d);
      var row := ConvRow(l, window);
      if DInner(d) % d.headdim != 0 then Err(HeadSplitMismatch)
      else if !StateFits(st.ssm, SsmShape(d)) then Err(StateShapeMismatch)
      else
        var step := SsmStep(l.f, HeadParamsOf(l), st.ssm, StepInOf(l, p, row), SsmShape(d));
        Ok(Outcome([Emit(l, step.y, p.z)], LayerState(window, step.state)))
  }

  /** The output row of one step and the cache it leaves. */
  datatype Stepped = Stepped(out: seq<real>, cache: Cache)

  /**
   * `forward_stage` on one timestep `u`: look up (or create) the layer's
   * entry, check the input width, project and split the timestep, step, and
   * store the new pair.
   */
  function ForwardStage(l: Layer, cache: Cache, u: seq<real>): (r: Result<Stepped, LayerError>)
    requires LayerFits(l)
    ensures l.layerIdx.None? ==> r == Err(MissingLayerIndex)
    ensures l.layerIdx.Some? && |u| != l.dims.dModel ==> r == Err(InputWidthMismatch)
    ensures r.Ok? ==> l.layerIdx.Some? && |u| == l.dims.dModel && r.value.cache.Keys == cache.Keys + {l.layerIdx.value}
    ensures r.Ok? ==> LayerStateFits(r.value.cache[l.layerIdx.value], l.dims)
    ensures r.Ok? ==> forall j :: j in cache && j != l.layerIdx.value ==> r.value.cache[j] == cache[j]
  {
    var look :- GetStates(cache, l.layerIdx, l.dims);
    if |u| != l.dims.dModel then Err(InputWidthMismatch)
    else
      var p :- SplitProjection(l.dims, Project(l, u));
      var res :- StepOn(l, look.states, p);
      Ok(Stepped(res.outs[0], look.cache[l.layerIdx.value := res.states]))
  }

  /**
   * A step moves every stored window one place left and writes the
   * channel's new conv input at the end. The window it starts from is the
   * one the lookup returns: the stored one, or zeros on a layer's first call.
   */
  lemma ForwardStageShiftsWindows(l: Layer, cache: Cache, u: seq<real>, c: nat)
    requires LayerFits(l) && ForwardStage(l, cache, u).Ok? && c < ConvDim(l.dims)
    ensures l.layerIdx.Some? && SplitProjection(l.dims, Project(l, u)).Ok?
    ensures var before := GetStates(cache, l.layerIdx, l.dims).value.states.conv[c];
            var after := ForwardStage(l, cache, u).value.cache[l.layerIdx.value].conv[c];
            && |before| == |after| == l.dims.dConv
            && (forall i :: 0 <= i < l.dims.dConv - 1 ==> after[i] == before[i + 1])
            && after[l.dims.dConv - 1] == SplitProjection(l.dims, Project(l, u)).value.xBC[c]
  {
  }

  // ---------------------------------------------------------------------------
  // forward_evaluate
  // ---------------------------------------------------------------------------

  /** `for i in range(start, len(us)): out = forward_stage(us[i])`; each step's output replaces the last. */
  function StageFrom(l: Layer, us: seq<seq<real>>, i: nat, acc: Primed): Result<Primed, LayerError>
    requires LayerFits(l) && i <= |us|
    decreases |us| - i
  {
    if i == |us| then Ok(acc)
    else
      var s :- ForwardStage(l, acc.cache, us[i]);
      StageFrom(l, us, i + 1, Primed([s.out], s.cache))
  }

  /**
   * `forward_evaluate`: the start position is the whole input length, so the
   * prime covers every timestep and the stepping loop runs zero times; the
   * result is exactly `forward_test` on the whole input. Without inference
   * parameters (the default `None`) the cache lookup fails, after the check
   * of `layer_idx`.
   */
  function ForwardEvaluate(l: Layer, params: Option<Cache>, us: seq<seq<real>>): (r: Result<Primed, LayerError>)
    requires LayerFits(l)
    ensures params.Some? ==> r == ForwardTest(l, params.value, us)
    ensures params.None? && l.layerIdx.None? ==> r == Err(MissingLayerIndex)
    ensures params.None? && l.layerIdx.Some? ==> r == Err(MissingInferenceParams)
  {
    if params.None? then
      if l.layerIdx.None? then Err(MissingLayerIndex) else Err(MissingInferenceParams)
    else
      var start := |us|;
      assert us[..start] == us;
      var primed :- ForwardTest(l, params.value, us[..start]);
      StageFrom(l, us, start, primed)
  }

  // ---------------------------------------------------------------------------
  // Priming then stepping equals priming on the longer sequence
  // ---------------------------------------------------------------------------

  /**
   * The hypothesis that the chunked kernel computes what the step rule
   * folded from a zero state computes. The kernel's source is not part of
   * this model, so this is assumed by the theorem below, never proved.
   */
  ghost predicate KernelIsSequential(l: Layer)
    requires LayerFits(l)
  {
    forall a :: ArgsFit(a, SsmShape(l.dims)) ==>
      Kernel(l, a) == SequentialScan(l.f, a, ZeroState(SsmShape(l.dims)), SsmShape(l.dims))
  }

  /** Scan arguments built from fitting timesteps fit the layer's state shape. */
  lemma StepsFit(l: Layer, ps: seq<Projection>, convs: seq<seq<real>>)
    requires LayerFits(l) && AllFit(ps, l.dims) && DInner(l.dims) % l.dims.headdim == 0
    requires |convs| == |ps| && forall t :: 0 <= t < |convs| ==> |convs[t]| == ConvDim(l.dims)
    ensures ArgsFit(FromSteps(Steps(l, ps, convs), HeadParamsOf(l)), SsmShape(l.dims))
  {
    var steps := Steps(l, ps, convs);
    var a := FromSteps(steps, HeadParamsOf(l));
    forall t | 0 <= t < |a.x|
      ensures StepInFits(StepAt(a, t), SsmShape(l.dims))
    {
      assert StepAt(a, t) == StepInOf(l, ps[t], convs[t]);
    }
  }

  lemma ProjectAllSnoc(l: Layer, us: seq<seq<real>>, u: seq<real>)
    requires LayerFits(l) && ProjectAll(l, us).Ok? && SplitProjection(l.dims, Project(l, u)).Ok?
    ensures ProjectAll(l, us + [u]) == Ok(ProjectAll(l, us).value + [SplitProjection(l.dims, Project(l, u)).value])
  {
    assert (us + [u])[..|us|] == us;
  }

  lemma AllFitSnoc(ps: seq<Projection>, p: Projection, d: Dims)
    requires d.headdim > 0 && AllFit(ps, d) && ProjectionFits(p, d)
    ensures AllFit(ps + [p], d)
  {
    forall t | 0 <= t < |ps + [p]|
      ensures ProjectionFits((ps + [p])[t], d)
    {
      if t < |ps| {
        assert (ps + [p])[t] == ps[t];
      }
    }
  }

  lemma ChannelSnoc(ps: seq<Projection>, p: Projection, d: Dims, c: nat)
    requires d.headdim > 0 && AllFit(ps, d) && ProjectionFits(p, d) && c < ConvDim(d)
    ensures AllFit(ps + [p], d)
    ensures Channel(ps + [p], d, c) == Channel(ps, d, c) + [p.xBC[c]]
  {
    AllFitSnoc(ps, p, d);
  }

  /** The windows primed on one more timestep are the primed windows with that timestep shifted in. */
  lemma SeedConvSnoc(l: Layer, ps: seq<Projection>, p: Projection)
    requires LayerFits(l) && AllFit(ps, l.dims) && ProjectionFits(p, l.dims)
    ensures AllFit(ps + [p], l.dims)
    ensures SeedConv(l, ps + [p]) == ShiftAll(SeedConv(l, ps), p.xBC, l.dims)
  {
    var d := l.dims;
    AllFitSnoc(ps, p, d);
    var lhs := SeedConv(l, ps + [p]);
    var rhs := ShiftAll(SeedConv(l, ps), p.xBC, d);
    forall c | 0 <= c < ConvDim(d)
      ensures lhs[c] == rhs[c]
    {
      ChannelSnoc(ps, p, d, c);
      ShiftInSeed(Channel(ps, d, c), p.xBC[c], d.dConv);
    }
  }

  /** A later timestep does not change an earlier bulk output of a channel. */
  lemma ChannelOutEarlier(l: Layer, ps: seq<Projection>, p: Projection, c: nat, t: nat)
    requires LayerFits(l) && l.dims.dConv >= 2 && AllFit(ps, l.dims) && ProjectionFits(p, l.dims)
    requires c < ConvDim(l.dims) && t < |ps|
    ensures AllFit(ps + [p], l.dims)
    ensures ChannelOut(l, ps + [p], c)[t] == ChannelOut(l, ps, c)[t]
  {
    ChannelSnoc(ps, p, l.dims, c);
    BulkIsCausal(Channel(ps, l.dims, c), [p.xBC[c]], l.w.convWeight[c], l.w.convBias[c], l.ext.act, t);
  }

  /** The bulk output of a channel at the newest timestep reads the window primed up to it. */
  lemma ChannelOutNewest(l: Layer, ps: seq<Projection>, p: Projection, c: nat)
    requires LayerFits(l) && l.dims.dConv >= 2 && AllFit(ps, l.dims) && ProjectionFits(p, l.dims)
    requires c < ConvDim(l.dims)
    ensures AllFit(ps + [p], l.dims)
    ensures ChannelOut(l, ps + [p], c)[|ps|] == ConvRow(l, SeedConv(l, ps + [p]))[c]
  {
    var d := l.dims;
    ChannelSnoc(ps, p, d, c);
    var xs := Channel(ps, d, c);
    BulkAtNewest(xs, [p.xBC[c]], l.w.convWeight[c], l.w.convBias[c], l.ext.act);
    assert xs + [[p.xBC[c]][0]] == Channel(ps + [p], d, c);
  }

  /** The bulk convolution on one more timestep: the old rows, then the row the streaming path computes. */
  lemma ConvOutputsSnoc(l: Layer, ps: seq<Projection>, p: Projection)
    requires LayerFits(l) && l.dims.dConv >= 2 && AllFit(ps, l.dims) && ProjectionFits(p, l.dims)
    ensures AllFit(ps + [p], l.dims)
    ensures ConvOutputs(l, ps + [p]) == ConvOutputs(l, ps) + [ConvRow(l, SeedConv(l, ps + [p]))]
  {
    var d := l.dims;
    AllFitSnoc(ps, p, d);
    var lhs := ConvOutputs(l, ps + [p]);
    var rhs := ConvOutputs(l, ps) + [ConvRow(l, SeedConv(l, ps + [p]))];
    forall t | 0 <= t < |lhs|
      ensures lhs[t] == rhs[t]
    {
      forall c | 0 <= c < ConvDim(d)
        ensures lhs[t][c] == rhs[t][c]
      {
        if t < |ps| {
          ChannelOutEarlier(l, ps, p, c, t);
        } else {
          ChannelOutNewest(l, ps, p, c);
        }
      }
    }
  }

  lemma StepsSnoc(l: Layer, ps: seq<Projection>, p: Projection, convs: seq<seq<real>>, row: seq<real>)
    requires LayerFits(l) && AllFit(ps, l.dims) && ProjectionFits(p, l.dims) && DInner(l.dims) % l.dims.headdim == 0
    requires |convs| == |ps| && forall t :: 0 <= t < |convs| ==> |convs[t]| == ConvDim(l.dims)
    requires |row| == ConvDim(l.dims)
    ensures AllFit(ps + [p], l.dims)
    ensures Steps(l, ps + [p], convs + [row]) == Steps(l, ps, convs) + [StepInOf(l, p, row)]
  {
    AllFitSnoc(ps, p, l.dims);
    var lhs := Steps(l, ps + [p], convs + [row]);
    var rhs := Steps(l, ps, convs) + [StepInOf(l, p, row)];
    forall t | 0 <= t < |lhs|
      ensures lhs[t] == rhs[t]
    {
      if t < |ps| {
        assert (ps + [p])[t] == ps[t] && (convs + [row])[t] == convs[t];
      }
    }
  }

  lemma FromStepsSnoc(steps: seq<StepIn>, s: StepIn, hp: HeadParams)
    ensures FromSteps(steps + [s], hp) == Append(FromSteps(steps, hp), s)
  {
    var lhs := FromSteps(steps + [s], hp);
    var rhs := Append(FromSteps(steps, hp), s);
    assert lhs.x == rhs.x && lhs.dt == rhs.dt && lhs.b == rhs.b && lhs.c == rhs.c;
  }

  /** The kernel arguments for one more timestep: the old ones with the streaming step's inputs appended. */
  lemma ArgsOfSnoc(l: Layer, ps: seq<Projection>, p: Projection)
    requires LayerFits(l) && l.dims.dConv >= 2 && AllFit(ps, l.dims) && ProjectionFits(p, l.dims)
    requires DInner(l.dims) % l.dims.headdim == 0
    ensures AllFit(ps + [p], l.dims)
    ensures ConvFits(SeedConv(l, ps), l.dims)
    ensures ArgsOf(l, ps + [p]) == Append(ArgsOf(l, ps), StepInOf(l, p, ConvRow(l, ShiftAll(SeedConv(l, ps), p.xBC, l.dims))))
  {
    var d := l.dims;
    AllFitSnoc(ps, p, d);
    var convs := ConvOutputs(l, ps);
    var row := ConvRow(l, ShiftAll(SeedConv(l, ps), p.xBC, d));
    assert ConvOutputs(l, ps + [p]) == convs + [row] by {
      ConvOutputsSnoc(l, ps, p);
      SeedConvSnoc(l, ps, p);
    }
    StepsSnoc(l, ps, p, convs, row);
    FromStepsSnoc(Steps(l, ps, convs), StepInOf(l, p, row), HeadParamsOf(l));
  }

  lemma EmitsSnoc(l: Layer, ys: seq<Heads>, y: Heads, ps: seq<Projection>, p: Projection)
    requires |ys| == |ps|
    ensures Emits(l, ys + [y], ps + [p]) == Emits(l, ys, ps) + [Emit(l, y, p.z)]
  {
  }

  /** What a successful prime computes, once the kernel is the sequential scan. */
  lemma PrimeOnValue(l: Layer, st: LayerState, ps: seq<Projection>)
    requires LayerFits(l) && KernelIsSequential(l) && AllFit(ps, l.dims) && PrimeOn(l, st, ps).Ok?
    ensures DInner(l.dims) % l.dims.headdim == 0 && ConvFits(st.conv, l.dims) && StateFits(st.ssm, SsmShape(l.dims))
    ensures var shape := SsmShape(l.dims);
            var so := SequentialScan(l.f, ArgsOf(l, ps), ZeroState(shape), shape);
            PrimeOn(l, st, ps).value == Outcome(Emits(l, so.y, ps), LayerState(SeedConv(l, ps), so.final))
  {
  }

  /**
   * The core of `PrimeThenStep`, without the cache: priming on `ps` and
   * stepping the resulting pair on `p` is priming on `ps + [p]`.
   */
  lemma PrimeOnThenStepOn(l: Layer, st: LayerState, ps: seq<Projection>, p: Projection)
    requires LayerFits(l) && KernelIsSequential(l) && l.dims.dConv >= 2
    requires AllFit(ps, l.dims) && ProjectionFits(p, l.dims)
    requires PrimeOn(l, st, ps).Ok? && StepOn(l, PrimeOn(l, st, ps).value.states, p).Ok?
    ensures AllFit(ps + [p], l.dims)
    ensures var primed := PrimeOn(l, st, ps).value;
            var stepped := StepOn(l, primed.states, p).value;
            PrimeOn(l, st, ps + [p]) == Ok(Outcome(primed.outs + stepped.outs, stepped.states))
  {
    var d := l.dims;
    var shape := SsmShape(d);
    var hp := HeadParamsOf(l);
    AllFitSnoc(ps, p, d);
    PrimeOnValue(l, st, ps);
    var a := ArgsOf(l, ps);
    var so := SequentialScan(l.f, a, ZeroState(shape), shape);
    var window := ShiftAll(SeedConv(l, ps), p.xBC, d);
    var inp := StepInOf(l, p, ConvRow(l, window));
    var step := SsmStep(l.f, hp, so.final, inp, shape);
    assert StepOn(l, PrimeOn(l, st, ps).value.states, p) == Ok(Outcome([Emit(l, step.y, p.z)], LayerState(window, step.state)));
    assert ArgsOf(l, ps + [p]) == Append(a, inp) by {
      ArgsOfSnoc(l, ps, p);
    }
    assert Kernel(l, ArgsOf(l, ps + [p])) == ScanOut(so.y + [step.y], step.state) by {
      ScanExtends(l.f, a, inp, ZeroState(shape), shape);
    }
    assert SeedConv(l, ps + [p]) == window by {
      SeedConvSnoc(l, ps, p);
    }
    EmitsSnoc(l, so.y, step.y, ps, p);
  }

  /** A successful `forward_test` is the prime of the projected timesteps, stored under the layer's index. */
  lemma ForwardTestValue(l: Layer, cache: Cache, us: seq<seq<real>>)
    requires LayerFits(l) && ForwardTest(l, cache, us).Ok?
    ensures l.layerIdx.Some? && RowsFit(us, l.dims) && ProjectAll(l, us).Ok?
    ensures var look := GetStates(cache, l.layerIdx, l.dims).value;
            var res := PrimeOn(l, look.states, ProjectAll(l, us).value);
            && res.Ok?
            && ForwardTest(l, cache, us).value == Primed(res.value.outs, look.cache[l.layerIdx.value := res.value.states])
  {
  }

  /** A successful `forward_stage` is the step of the projected timestep, stored under the layer's index. */
  lemma ForwardStageValue(l: Layer, cache: Cache, u: seq<real>)
    requires LayerFits(l) && ForwardStage(l, cache, u).Ok?
    ensures l.layerIdx.Some? && |u| == l.dims.dModel && SplitProjection(l.dims, Project(l, u)).Ok?
    ensures var look := GetStates(cache, l.layerIdx, l.dims).value;
            var res := StepOn(l, look.states, SplitProjection(l.dims, Project(l, u)).value);
            && res.Ok?
            && ForwardStage(l, cache, u).value == Stepped(res.value.outs[0], look.cache[l.layerIdx.value := res.value.states])
  {
  }

  lemma RowsFitSnoc(us: seq<seq<real>>, u: seq<real>, d: Dims)
    requires RowsFit(us, d) && |u| == d.dModel
    ensures RowsFit(us + [u], d)
  {
    assert forall t :: 0 <= t < |us| ==> (us + [u])[t] == us[t];
  }

  /** The converse of `ForwardTestValue`: a successful lookup, projection and prime make a successful `forward_test`. */
  lemma ForwardTestFrom(l: Layer, cache: Cache, us: seq<seq<real>>, ps: seq<Projection>, res: Outcome)
    requires LayerFits(l) && l.layerIdx.Some? && RowsFit(us, l.dims) && ProjectAll(l, us) == Ok(ps)
    requires PrimeOn(l, GetStates(cache, l.layerIdx, l.dims).value.states, ps) == Ok(res)
    ensures ForwardTest(l, cache, us) == Ok(Primed(res.outs, GetStates(cache, l.layerIdx, l.dims).value.cache[l.layerIdx.value := res.states]))
  {
  }

  /** `PrimeThenStep` in terms of the pieces the two calls compute. */
  lemma PrimeThenStepPieces(l: Layer, cache: Cache, us: seq<seq<real>>, u: seq<real>,
                            look: Lookup, ps: seq<Projection>, res: Outcome, p: Projection, step: Outcome)
    requires LayerFits(l) && KernelIsSequential(l) && l.dims.dConv >= 2 && l.layerIdx.Some?
    requires GetStates(cache, l.layerIdx, l.dims) == Ok(look)
    requires RowsFit(us, l.dims) && |u| == l.dims.dModel
    requires ProjectAll(l, us) == Ok(ps) && SplitProjection(l.dims, Project(l, u)) == Ok(p)
    requires PrimeOn(l, look.states, ps) == Ok(res) && StepOn(l, res.states, p) == Ok(step)
    ensures ForwardTest(l, cache, us + [u])
         == Ok(Primed(res.outs + [step.outs[0]], look.cache[l.layerIdx.value := res.states][l.layerIdx.value := step.states]))
  {
    ProjectAllSnoc(l, us, u);
    RowsFitSnoc(us, u, l.dims);
    PrimeOnThenStepOn(l, look.states, ps, p);
    ForwardTestFrom(l, cache, us + [u], ps + [p], Outcome(res.outs + step.outs, step.states));
    Singleton(step.outs);
    OverwriteTwice(look.cache, l.layerIdx.value, res.states, step.states);
  }

  /**
   * Priming on `us` and then stepping on `u` gives what priming on `us + [u]`
   * gives: the same output rows, the step's row last, and the same cache
   * (the same windows and the same SSM state). It holds when the kernel
   * computes the sequential scan and the kernel is at least two wide.
   */
  lemma PrimeThenStep(l: Layer, cache: Cache, us: seq<seq<real>>, u: seq<real>)
    requires LayerFits(l) && KernelIsSequential(l) && l.dims.dConv >= 2
    requires ForwardTest(l, cache, us).Ok?
    requires ForwardStage(l, ForwardTest(l, cache, us).value.cache, u).Ok?
    ensures var primed := ForwardTest(l, cache, us).value;
            var stepped := ForwardStage(l, primed.cache, u).value;
            ForwardTest(l, cache, us + [u]) == Ok(Primed(primed.outs + [stepped.out], stepped.cache))
  {
    var k := l.layerIdx.value;
    var primed := ForwardTest(l, cache, us).value;
    var stepped := ForwardStage(l, primed.cache, u).value;
    ForwardTestValue(l, cache, us);
    ForwardStageValue(l, primed.cache, u);
    var look := GetStates(cache, l.layerIdx, l.dims).value;
    var res := PrimeOn(l, look.states, ProjectAll(l, us).value).value;
    var look2 := GetStates(primed.cache, l.layerIdx, l.dims).value;
    assert look2.states == res.states && look2.cache == primed.cache;
    var step := StepOn(l, res.states, SplitProjection(l.dims, Project(l, u)).value).value;
    PrimeThenStepPieces(l, cache, us, u, look, ProjectAll(l, us).value, res, SplitProjection(l.dims, Project(l, u)).value, step);
  }
}
