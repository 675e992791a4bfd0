/**
 * The selective state-space recurrence of the Mamba2 layer: the per-head
 * decay, the single-step state update and readout of `forward_stage`, and a
 * sequential reference scan defined as a left fold of that step.
 *
 * The scalar functions `exp` and `softplus` are not computed: they are
 * carried as function values, and the facts the model relies on are
 * collected in `Admissible`.
 */
module SelectiveScan {
  import opened Seqs

  /** The two transcendental functions the layer applies. */
  datatype Transcendentals = Transcendentals(exp: real -> real, softplus: real -> real)

  /** What is assumed of them: `exp` is positive, strictly increasing with `exp(0) = 1`, and `softplus` is positive. */
  ghost predicate Admissible(f: Transcendentals) {
    && (forall v :: f.exp(v) > 0.0)
    && (forall v :: f.softplus(v) > 0.0)
    && (forall u, v :: u < v ==> f.exp(u) < f.exp(v))
    && f.exp(0.0) == 1.0
  }

  /** The per-head decay rate `A = -exp(A_log)`. */
  function DecayRate(f: Transcendentals, aLog: real): real {
    -f.exp(aLog)
  }

  /** The per-head step size `dt = softplus(dt_raw + dt_bias)`. */
  function StepSize(f: Transcendentals, dtRaw: real, dtBias: real): real {
    f.softplus(dtRaw + dtBias)
  }

  /** The per-head decay factor `dA = exp(dt * A)`. */
  function Decay(f: Transcendentals, dt: real, a: real): real {
    f.exp(dt * a)
  }

  /** The decay rate is strictly negative whatever `A_log` is. */
  lemma DecayRateNegative(f: Transcendentals, aLog: real)
    requires Admissible(f)
    ensures DecayRate(f, aLog) < 0.0
  {
  }

  /** A positive step size times a negative rate gives a decay factor strictly between 0 and 1. */
  lemma DecayBelowOne(f: Transcendentals, dt: real, a: real)
    requires Admissible(f) && dt > 0.0 && a < 0.0
    ensures 0.0 < Decay(f, dt, a) < 1.0
  {
    assert dt * a < 0.0;
    assert f.exp(dt * a) < f.exp(0.0);
  }

  /** The decay factor the layer computes from `A_log` and a raw `dt` lies strictly between 0 and 1. */
  lemma DecayInUnitInterval(f: Transcendentals, aLog: real, dtRaw: real, dtBias: real)
    requires Admissible(f)
    ensures 0.0 < Decay(f, StepSize(f, dtRaw, dtBias), DecayRate(f, aLog)) < 1.0
  {
    DecayBelowOne(f, StepSize(f, dtRaw, dtBias), DecayRate(f, aLog));
  }

  /** The sizes of the recurrent state: heads, head dimension and state dimension. */
  datatype Shape = Shape(heads: nat, headdim: nat, dState: nat)

  /** One value per head and head-dimension entry. */
  type Heads = seq<seq<real>>

  /** The recurrent state, indexed by head, head-dimension entry and state entry. */
  type State = seq<seq<seq<real>>>

  predicate HeadsFit(x: Heads, s: Shape) {
    |x| == s.heads && forall h :: 0 <= h < |x| ==> |x[h]| == s.headdim
  }

  predicate MatrixFits(m: seq<seq<real>>, rows: nat, cols: nat) {
    |m| == rows && forall p :: 0 <= p < |m| ==> |m[p]| == cols
  }

  predicate StateFits(st: State, s: Shape) {
    |st| == s.heads && forall h :: 0 <= h < |st| ==> MatrixFits(st[h], s.headdim, s.dState)
  }

  /** The all-zero state a fresh cache entry holds. */
  function ZeroState(s: Shape): (z: State)
    ensures StateFits(z, s)
    ensures forall h, p, n :: 0 <= h < s.heads && 0 <= p < s.headdim && 0 <= n < s.dState ==> z[h][p][n] == 0.0
  {
    seq(s.heads, _ => seq(s.headdim, _ => Zeros(s.dState)))
  }

  /** The per-head constants of a layer: the decay rate `A`, `dt_bias` and the skip coefficient `D`. */
  datatype HeadParams = HeadParams(a: seq<real>, dtBias: seq<real>, d: seq<real>)

  predicate HeadParamsFit(hp: HeadParams, s: Shape) {
    |hp.a| == s.heads && |hp.dtBias| == s.heads && |hp.d| == s.heads
  }

  /** One timestep's inputs: `x` split into heads, the raw `dt` per head, and `B`, `C` shared by all heads. */
  datatype StepIn = StepIn(x: Heads, dt: seq<real>, b: seq<real>, c: seq<real>)

  predicate StepInFits(inp: StepIn, s: Shape) {
    HeadsFit(inp.x, s) && |inp.dt| == s.heads && |inp.b| == s.dState && |inp.c| == s.dState
  }

  datatype StepOut = StepOut(state: State, y: Heads)

  /** What one timestep adds to a state entry: `dt * B[n] * x[p]`. */
  function Inflow(dt: real, b: real, x: real): real {
    dt * b * x
  }

  /** One state entry advanced by one timestep: decayed by `dA`, then the inflow added. */
  function Advance(v: real, dA: real, inflow: real): real {
    v * dA + inflow
  }

  /** One head's state update `state[p][n] * dA + dt * B[n] * x[p]`. */
  function UpdateHead(sh: seq<seq<real>>, dA: real, dt: real, b: seq<real>, x: seq<real>): (r: seq<seq<real>>)
    requires MatrixFits(sh, |x|, |b|)
    ensures MatrixFits(r, |x|, |b|)
  {
    seq(|x|, p requires 0 <= p < |x| => seq(|b|, n requires 0 <= n < |b| => Advance(sh[p][n], dA, Inflow(dt, b[n], x[p]))))
  }

  /** One head's readout `sum_n state[p][n] * C[n] + D * x[p]`. */
  function ReadHead(sh: seq<seq<real>>, c: seq<real>, d: real, x: seq<real>): (r: seq<real>)
    requires MatrixFits(sh, |x|, |c|)
    ensures |r| == |x|
  {
    seq(|x|, p requires 0 <= p < |x| => Dot(sh[p], c) + d * x[p])
  }

  /** The SSM step of `forward_stage`: every head decays and accumulates, then reads out through the updated state. */
  function SsmStep(f: Transcendentals, hp: HeadParams, st: State, inp: StepIn, s: Shape): (r: StepOut)
    requires HeadParamsFit(hp, s) && StateFits(st, s) && StepInFits(inp, s)
    ensures StateFits(r.state, s) && HeadsFit(r.y, s)
  {
    var next := seq(s.heads, h requires 0 <= h < s.heads =>
      var dt := StepSize(f, inp.dt[h], hp.dtBias[h]);
      UpdateHead(st[h], Decay(f, dt, hp.a[h]), dt, inp.b, inp.x[h]));
    var y := seq(s.heads, h requires 0 <= h < s.heads => ReadHead(next[h], inp.c, hp.d[h], inp.x[h]));
    StepOut(next, y)
  }

  /** The update and readout rule entry by entry; the readout uses the updated state. */
  lemma SsmStepEntry(f: Transcendentals, hp: HeadParams, st: State, inp: StepIn, s: Shape, h: nat, p: nat, n: nat)
    requires HeadParamsFit(hp, s) && StateFits(st, s) && StepInFits(inp, s)
    requires h < s.heads && p < s.headdim && n < s.dState
    ensures var r := SsmStep(f, hp, st, inp, s);
            var dt := StepSize(f, inp.dt[h], hp.dtBias[h]);
            && r.state[h][p][n] == Advance(st[h][p][n], Decay(f, dt, hp.a[h]), Inflow(dt, inp.b[n], inp.x[h][p]))
            && r.y[h][p] == Dot(r.state[h][p], inp.c) + hp.d[h] * inp.x[h][p]
  {
    var r := SsmStep(f, hp, st, inp, s);
    var dt := StepSize(f, inp.dt[h], hp.dtBias[h]);
    var head := UpdateHead(st[h], Decay(f, dt, hp.a[h]), dt, inp.b, inp.x[h]);
    assert r.state[h] == head;
    assert head[p][n] == Advance(st[h][p][n], Decay(f, dt, hp.a[h]), Inflow(dt, inp.b[n], inp.x[h][p]));
    assert r.y[h] == ReadHead(head, inp.c, hp.d[h], inp.x[h]);
  }

  /** Heads do not interact: head `h` of the result depends only on head `h` of the state and of `x` and `dt`, and on the shared `B` and `C`. */
  lemma HeadsAreIndependent(f: Transcendentals, hp: HeadParams, st1: State, inp1: StepIn, st2: State, inp2: StepIn, s: Shape, h: nat)
    requires HeadParamsFit(hp, s) && StateFits(st1, s) && StepInFits(inp1, s) && StateFits(st2, s) && StepInFits(inp2, s)
    requires h < s.heads
    requires st1[h] == st2[h] && inp1.x[h] == inp2.x[h] && inp1.dt[h] == inp2.dt[h]
    requires inp1.b == inp2.b && inp1.c == inp2.c
    ensures SsmStep(f, hp, st1, inp1, s).state[h] == SsmStep(f, hp, st2, inp2, s).state[h]
    ensures SsmStep(f, hp, st1, inp1, s).y[h] == SsmStep(f, hp, st2, inp2, s).y[h]
  {
  }

  /** The inputs of a whole-sequence scan, one entry per timestep, with the layer's per-head constants. */
  datatype ScanArgs = ScanArgs(x: seq<Heads>, dt: seq<seq<real>>, b: seq<seq<real>>, c: seq<seq<real>>, hp: HeadParams)

  /** The per-timestep outputs of a scan and the state after its last step. */
  datatype ScanOut = ScanOut(y: seq<Heads>, final: State)

  predicate Aligned(a: ScanArgs) {
    |a.dt| == |a.x| && |a.b| == |a.x| && |a.c| == |a.x|
  }

  function StepAt(a: ScanArgs, t: nat): StepIn
    requires Aligned(a) && t < |a.x|
  {
    StepIn(a.x[t], a.dt[t], a.b[t], a.c[t])
  }

  predicate ArgsFit(a: ScanArgs, s: Shape) {
    Aligned(a) && HeadParamsFit(a.hp, s) && forall t :: 0 <= t < |a.x| ==> StepInFits(StepAt(a, t), s)
  }

  /** The first `n` timesteps. */
  function Prefix(a: ScanArgs, n: nat): (r: ScanArgs)
    requires Aligned(a) && n <= |a.x|
    ensures Aligned(r) && |r.x| == n
  {
    ScanArgs(a.x[..n], a.dt[..n], a.b[..n], a.c[..n], a.hp)
  }

  lemma PrefixFits(a: ScanArgs, n: nat, s: Shape)
    requires ArgsFit(a, s) && n <= |a.x|
    ensures ArgsFit(Prefix(a, n), s)
  {
    var r := Prefix(a, n);
    forall t | 0 <= t < n
      ensures StepInFits(StepAt(r, t), s)
    {
      assert StepAt(r, t) == StepAt(a, t);
    }
  }

  /** One more timestep at the end. */
  function Append(a: ScanArgs, inp: StepIn): (r: ScanArgs)
    requires Aligned(a)
    ensures Aligned(r) && |r.x| == |a.x| + 1
  {
    ScanArgs(a.x + [inp.x], a.dt + [inp.dt], a.b + [inp.b], a.c + [inp.c], a.hp)
  }

  /**
   * The sequential reference scan: the step rule folded over the timesteps
   * from `init`. It is a reference definition only; the chunked kernel the
   * layer calls in bulk mode is not part of this model.
   */
  function SequentialScan(f: Transcendentals, a: ScanArgs, init: State, s: Shape): (r: ScanOut)
    requires ArgsFit(a, s) && StateFits(init, s)
    ensures |r.y| == |a.x| && StateFits(r.final, s)
    decreases |a.x|
  {
    if |a.x| == 0 then ScanOut([], init)
    else
      var n := |a.x| - 1;
      PrefixFits(a, n, s);
      var prev := SequentialScan(f, Prefix(a, n), init, s);
      var step := SsmStep(f, a.hp, prev.final, StepAt(a, n), s);
      ScanOut(prev.y + [step.y], step.state)
  }

  /** Scanning one more timestep is one step from the state the shorter scan ends in. */
  lemma ScanExtends(f: Transcendentals, a: ScanArgs, inp: StepIn, init: State, s: Shape)
    requires ArgsFit(a, s) && StepInFits(inp, s) && StateFits(init, s)
    ensures ArgsFit(Append(a, inp), s)
    ensures var prev := SequentialScan(f, a, init, s);
            var step := SsmStep(f, a.hp, prev.final, inp, s);
            SequentialScan(f, Append(a, inp), init, s) == ScanOut(prev.y + [step.y], step.state)
  {
    var longer := Append(a, inp);
    forall t | 0 <= t < |longer.x|
      ensures StepInFits(StepAt(longer, t), s)
    {
      if t < |a.x| {
        assert StepAt(longer, t) == StepAt(a, t);
      } else {
        assert StepAt(longer, t) == inp;
      }
    }
    assert Prefix(longer, |a.x|) == a;
    assert StepAt(longer, |a.x|) == inp;
  }

  /** Two scans over the same layer, one after the other. */
  function Concat(a: ScanArgs, b: ScanArgs): (r: ScanArgs)
    requires Aligned(a) && Aligned(b)
    ensures Aligned(r) && |r.x| == |a.x| + |b.x|
  {
    ScanArgs(a.x + b.x, a.dt + b.dt, a.b + b.b, a.c + b.c, a.hp)
  }

  lemma ConcatFits(a: ScanArgs, b: ScanArgs, s: Shape)
    requires ArgsFit(a, s) && ArgsFit(b, s) && b.hp == a.hp
    ensures ArgsFit(Concat(a, b), s)
  {
    var r := Concat(a, b);
    forall t | 0 <= t < |r.x|
      ensures StepInFits(StepAt(r, t), s)
    {
      if t < |a.x| {
        assert StepAt(r, t) == StepAt(a, t);
      } else {
        assert StepAt(r, t) == StepAt(b, t - |a.x|);
      }
    }
  }

  /** Dropping the last timestep of `b` and putting it back. */
  lemma ConcatPeelsLast(a: ScanArgs, b: ScanArgs)
    requires Aligned(a) && Aligned(b) && |b.x| > 0
    ensures Append(Prefix(b, |b.x| - 1), StepAt(b, |b.x| - 1)) == b
    ensures Append(Concat(a, Prefix(b, |b.x| - 1)), StepAt(b, |b.x| - 1)) == Concat(a, b)
  {
    var m := |b.x| - 1;
    assert b.x[..m] + [b.x[m]] == b.x;
    assert b.dt[..m] + [b.dt[m]] == b.dt;
    assert b.b[..m] + [b.b[m]] == b.b;
    assert b.c[..m] + [b.c[m]] == b.c;
  }

  /** One step of `ScanComposes`: given the claim for all but the last timestep of `b`, it holds for all of `b`. */
  lemma ScanComposesStep(f: Transcendentals, a: ScanArgs, b: ScanArgs, init: State, s: Shape)
    requires ArgsFit(a, s) && ArgsFit(b, s) && b.hp == a.hp && StateFits(init, s) && |b.x| > 0
    requires ArgsFit(Prefix(b, |b.x| - 1), s) && ArgsFit(Concat(a, Prefix(b, |b.x| - 1)), s) && ArgsFit(Concat(a, b), s)
    requires var first := SequentialScan(f, a, init, s);
             var mid := SequentialScan(f, Prefix(b, |b.x| - 1), first.final, s);
             SequentialScan(f, Concat(a, Prefix(b, |b.x| - 1)), init, s) == ScanOut(first.y + mid.y, mid.final)
    ensures var first := SequentialScan(f, a, init, s);
            var second := SequentialScan(f, b, first.final, s);
            SequentialScan(f, Concat(a, b), init, s) == ScanOut(first.y + second.y, second.final)
  {
    var m := |b.x| - 1;
    var shorter := Prefix(b, m);
    var last := StepAt(b, m);
    assert StepInFits(last, s);
    var first := SequentialScan(f, a, init, s);
    var mid := SequentialScan(f, shorter, first.final, s);
    var step := SsmStep(f, a.hp, mid.final, last, s);
    ConcatPeelsLast(a, b);
    assert SequentialScan(f, Concat(a, b), init, s) == ScanOut(first.y + mid.y + [step.y], step.state) by {
      ScanExtends(f, Concat(a, shorter), last, init, s);
    }
    assert SequentialScan(f, b, first.final, s) == ScanOut(mid.y + [step.y], step.state) by {
      ScanExtends(f, shorter, last, first.final, s);
    }
    AppendAssoc(first.y, mid.y, [step.y]);
  }

  /**
   * Scanning `a` then `b` in one go is scanning `a`, then scanning `b` from
   * the state `a` ends in: the state a streaming session carries is all it
   * needs to continue.
   */
  lemma {:induction false} ScanComposes(f: Transcendentals, a: ScanArgs, b: ScanArgs, init: State, s: Shape)
    requires ArgsFit(a, s) && ArgsFit(b, s) && b.hp == a.hp && StateFits(init, s)
    ensures ArgsFit(Concat(a, b), s)
    ensures var first := SequentialScan(f, a, init, s);
            var second := SequentialScan(f, b, first.final, s);
            SequentialScan(f, Concat(a, b), init, s) == ScanOut(first.y + second.y, second.final)
    decreases |b.x|
  {
    ConcatFits(a, b, s);
    if |b.x| == 0 {
      assert Concat(a, b) == a;
      assert SequentialScan(f, a, init, s).y + [] == SequentialScan(f, a, init, s).y;
    } else {
      var shorter := Prefix(b, |b.x| - 1);
      PrefixFits(b, |b.x| - 1, s);
      ConcatFits(a, shorter, s);
      ScanComposes(f, a, shorter, init, s);
      ScanComposesStep(f, a, b, init, s);
    }
  }

  /** One state entry folded over time: `v := v * decay_t + input_t`, starting from `v0`. */
  function Recur(v0: real, decays: seq<real>, inputs: seq<real>): real
    requires |decays| == |inputs|
    decreases |decays|
  {
    if |decays| == 0 then v0
    else
      var n := |decays| - 1;
      Advance(Recur(v0, decays[..n], inputs[..n]), decays[n], inputs[n])
  }

  /** The magnitude of a real (`PyNum.Abs` is Python's `abs` on integers). */
  function Abs(v: real): real {
    if v < 0.0 then -v else v
  }

  /** The sum of the magnitudes. */
  function SumAbs(vs: seq<real>): real
    decreases |vs|
  {
    if |vs| == 0 then 0.0 else SumAbs(vs[..|vs| - 1]) + Abs(vs[|vs| - 1])
  }

  /** One step with a decay in `[0, 1]` adds at most the magnitude of its inflow to a bound on the entry. */
  lemma AdvanceBounded(v: real, dA: real, inflow: real, bound: real)
    requires Abs(v) <= bound && 0.0 <= dA <= 1.0
    ensures Abs(Advance(v, dA, inflow)) <= bound + Abs(inflow)
  {
    var w := v * dA;
    assert Abs(w) <= Abs(v) by {
      ScaleShrinks(v, dA);
    }
    assert Advance(v, dA, inflow) == w + inflow;
  }

  lemma ScaleShrinks(v: real, dA: real)
    requires 0.0 <= dA <= 1.0
    ensures Abs(v * dA) <= Abs(v)
  {
    if v < 0.0 {
      assert v * dA >= v;
    } else {
      assert v * dA <= v;
    }
  }

  /** With every decay in `[0, 1]` an entry never exceeds its initial magnitude plus the magnitudes of its inputs. */
  lemma {:induction false} RecurBounded(v0: real, decays: seq<real>, inputs: seq<real>)
    requires |decays| == |inputs|
    requires forall t :: 0 <= t < |decays| ==> 0.0 <= decays[t] <= 1.0
    ensures Abs(Recur(v0, decays, inputs)) <= Abs(v0) + SumAbs(inputs)
    decreases |decays|
  {
    if |decays| > 0 {
      var n := |decays| - 1;
      RecurBounded(v0, decays[..n], inputs[..n]);
      var r := Recur(v0, decays[..n], inputs[..n]);
      assert Recur(v0, decays, inputs) == Advance(r, decays[n], inputs[n]);
      assert SumAbs(inputs) == SumAbs(inputs[..n]) + Abs(inputs[n]);
      AdvanceBounded(r, decays[n], inputs[n], Abs(v0) + SumAbs(inputs[..n]));
    }
  }

  /** The decay factors head `h` applies over a scan. */
  function Decays(f: Transcendentals, a: ScanArgs, s: Shape, h: nat): (r: seq<real>)
    requires ArgsFit(a, s) && h < s.heads
    ensures |r| == |a.x|
  {
    seq(|a.x|, t requires 0 <= t < |a.x| =>
      assert StepInFits(StepAt(a, t), s);
      Decay(f, StepSize(f, a.dt[t][h], a.hp.dtBias[h]), a.hp.a[h]))
  }

  /** The input `dt * B[n] * x[h][p]` state entry `(h, p, n)` accumulates at each timestep. */
  function Inputs(f: Transcendentals, a: ScanArgs, s: Shape, h: nat, p: nat, n: nat): (r: seq<real>)
    requires ArgsFit(a, s) && h < s.heads && p < s.headdim && n < s.dState
    ensures |r| == |a.x|
  {
    seq(|a.x|, t requires 0 <= t < |a.x| =>
      assert StepInFits(StepAt(a, t), s);
      Inflow(StepSize(f, a.dt[t][h], a.hp.dtBias[h]), a.b[t][n], a.x[t][h][p]))
  }

  lemma DecaysOfPrefix(f: Transcendentals, a: ScanArgs, s: Shape, h: nat, m: nat)
    requires ArgsFit(a, s) && h < s.heads && m <= |a.x|
    ensures ArgsFit(Prefix(a, m), s)
    ensures Decays(f, Prefix(a, m), s, h) == Decays(f, a, s, h)[..m]
  {
    PrefixFits(a, m, s);
  }

  lemma InputsOfPrefix(f: Transcendentals, a: ScanArgs, s: Shape, h: nat, p: nat, n: nat, m: nat)
    requires ArgsFit(a, s) && h < s.heads && p < s.headdim && n < s.dState && m <= |a.x|
    ensures ArgsFit(Prefix(a, m), s)
    ensures Inputs(f, Prefix(a, m), s, h, p, n) == Inputs(f, a, s, h, p, n)[..m]
  {
    PrefixFits(a, m, s);
    var r := Prefix(a, m);
    forall t | 0 <= t < m
      ensures Inputs(f, r, s, h, p, n)[t] == Inputs(f, a, s, h, p, n)[t]
    {
      assert StepInFits(StepAt(a, t), s);
    }
  }

  /** One step of `ScanEntryRecurs`: given the claim for all but the last timestep, it holds for the whole scan. */
  lemma ScanEntryRecursStep(f: Transcendentals, a: ScanArgs, init: State, s: Shape, h: nat, p: nat, n: nat)
    requires ArgsFit(a, s) && StateFits(init, s) && |a.x| > 0
    requires h < s.heads && p < s.headdim && n < s.dState
    requires ArgsFit(Prefix(a, |a.x| - 1), s)
    requires var shorter := Prefix(a, |a.x| - 1);
             SequentialScan(f, shorter, init, s).final[h][p][n]
               == Recur(init[h][p][n], Decays(f, shorter, s, h), Inputs(f, shorter, s, h, p, n))
    ensures SequentialScan(f, a, init, s).final[h][p][n]
         == Recur(init[h][p][n], Decays(f, a, s, h), Inputs(f, a, s, h, p, n))
  {
    var m := |a.x| - 1;
    var v0 := init[h][p][n];
    var ds := Decays(f, a, s, h);
    var us := Inputs(f, a, s, h, p, n);
    var inp := StepAt(a, m);
    assert StepInFits(inp, s);
    var prev := SequentialScan(f, Prefix(a, m), init, s);
    var step := SsmStep(f, a.hp, prev.final, inp, s);
    var r := prev.final[h][p][n];
    assert r == Recur(v0, ds[..m], us[..m]) by {
      DecaysOfPrefix(f, a, s, h, m);
      InputsOfPrefix(f, a, s, h, p, n, m);
    }
    var dt := StepSize(f, inp.dt[h], a.hp.dtBias[h]);
    var dA := Decay(f, dt, a.hp.a[h]);
    var inflow := Inflow(dt, inp.b[n], inp.x[h][p]);
    assert ds[m] == dA && us[m] == inflow;
    assert step.state[h][p][n] == Advance(r, dA, inflow) by {
      SsmStepEntry(f, a.hp, prev.final, inp, s, h, p, n);
    }
    assert SequentialScan(f, a, init, s).final == step.state by {
      PrefixFits(a, m, s);
    }
  }

  /** Every state entry of the reference scan follows the scalar recurrence with its head's decays and its own inputs. */
  lemma {:induction false} ScanEntryRecurs(f: Transcendentals, a: ScanArgs, init: State, s: Shape, h: nat, p: nat, n: nat)
    requires ArgsFit(a, s) && StateFits(init, s)
    requires h < s.heads && p < s.headdim && n < s.dState
    ensures SequentialScan(f, a, init, s).final[h][p][n]
         == Recur(init[h][p][n], Decays(f, a, s, h), Inputs(f, a, s, h, p, n))
    decreases |a.x|
  {
    if |a.x| > 0 {
      PrefixFits(a, |a.x| - 1, s);
      ScanEntryRecurs(f, Prefix(a, |a.x| - 1), init, s, h, p, n);
      ScanEntryRecursStep(f, a, init, s, h, p, n);
    }
  }

  /** Under admissible `exp` and `softplus`, and negative decay rates as `-exp(A_log)` always is, no state entry grows beyond its start plus the magnitudes of its inputs. */
  lemma ScanStaysBounded(f: Transcendentals, a: ScanArgs, init: State, s: Shape, h: nat, p: nat, n: nat)
    requires Admissible(f)
    requires ArgsFit(a, s) && StateFits(init, s)
    requires forall i :: 0 <= i < |a.hp.a| ==> a.hp.a[i] < 0.0
    requires h < s.heads && p < s.headdim && n < s.dState
    ensures Abs(SequentialScan(f, a, init, s).final[h][p][n])
         <= Abs(init[h][p][n]) + SumAbs(Inputs(f, a, s, h, p, n))
  {
    var ds := Decays(f, a, s, h);
    forall t | 0 <= t < |ds|
      ensures 0.0 <= ds[t] <= 1.0
    {
      assert StepInFits(StepAt(a, t), s);
      DecayBelowOne(f, StepSize(f, a.dt[t][h], a.hp.dtBias[h]), a.hp.a[h]);
    }
    ScanEntryRecurs(f, a, init, s, h, p, n);
    RecurBounded(init[h][p][n], ds, Inputs(f, a, s, h, p, n));
  }

  function Max(x: real, y: real): real {
    if x < y then y else x
  }

  /** An entry of magnitude at most `m` scaled by a decay in `[0, cap]` has magnitude at most `cap * m`. */
  lemma ScaledBelow(v: real, dA: real, cap: real, m: real)
    requires Abs(v) <= m && 0.0 <= dA <= cap
    ensures Abs(v * dA) <= cap * m
  {
    assert Abs(v * dA) == Abs(v) * dA;
    assert Abs(v) * dA <= m * dA;
    assert m * dA <= m * cap;
  }

  lemma ProductNonNegative(x: real, y: real)
    requires 0.0 <= x && 0.0 <= y
    ensures 0.0 <= x * y
  {
  }

  /** A bound at least `bound / (1 - cap)` leaves room for an input of magnitude `bound` after decaying by `cap`. */
  lemma RoomForInput(cap: real, bound: real, m: real)
    requires 0.0 <= cap < 1.0 && 0.0 <= bound && bound / (1.0 - cap) <= m
    ensures bound <= (1.0 - cap) * m
  {
    var c := 1.0 - cap;
    var q := bound / c;
    var gap := m - q;
    assert c * q == bound;
    assert c * m == c * q + c * gap;
    ProductNonNegative(c, gap);
  }

  /** One step keeps an entry within `m` when the decay is at most `cap` and `m` leaves room for the input. */
  lemma AdvanceStaysBelow(v: real, dA: real, inflow: real, cap: real, bound: real, m: real)
    requires Abs(v) <= m && 0.0 <= dA <= cap < 1.0
    requires Abs(inflow) <= bound && bound <= (1.0 - cap) * m
    ensures Abs(Advance(v, dA, inflow)) <= m
  {
    ScaledBelow(v, dA, cap, m);
    assert (1.0 - cap) * m == m - cap * m;
    assert Advance(v, dA, inflow) == v * dA + inflow;
  }

  /**
   * With every decay at most `cap < 1` and every input at most `bound` in
   * magnitude, an entry never exceeds the larger of its initial magnitude and
   * the fixed point `bound / (1 - cap)`, however many steps are taken.
   */
  lemma {:induction false} RecurStaysBelow(v0: real, decays: seq<real>, inputs: seq<real>, cap: real, bound: real)
    requires |decays| == |inputs|
    requires 0.0 <= cap < 1.0 && 0.0 <= bound
    requires forall t :: 0 <= t < |decays| ==> 0.0 <= decays[t] <= cap
    requires forall t :: 0 <= t < |inputs| ==> Abs(inputs[t]) <= bound
    ensures Abs(Recur(v0, decays, inputs)) <= Max(Abs(v0), bound / (1.0 - cap))
    decreases |decays|
  {
    if |decays| > 0 {
      var n := |decays| - 1;
      var m := Max(Abs(v0), bound / (1.0 - cap));
      RecurStaysBelow(v0, decays[..n], inputs[..n], cap, bound);
      var r := Recur(v0, decays[..n], inputs[..n]);
      assert Recur(v0, decays, inputs) == Advance(r, decays[n], inputs[n]);
      RoomForInput(cap, bound, m);
      AdvanceStaysBelow(r, decays[n], inputs[n], cap, bound, m);
    }
  }

  /**
   * Under repeated steps with the same raw `dt` on head `h` and inputs of
   * bounded magnitude (in particular the same `dt`, `B` and `x` at every
   * step), a state entry stays within the larger of its initial magnitude and
   * `bound / (1 - dA)`, whatever the number of steps: the decay `dA` is
   * strictly below one.
   */
  lemma ScanStaysBoundedUnderSteadyInput(f: Transcendentals, a: ScanArgs, init: State, s: Shape,
                                    h: nat, p: nat, n: nat, dtRaw: real, bound: real)
    requires Admissible(f)
    requires ArgsFit(a, s) && StateFits(init, s)
    requires h < s.heads && p < s.headdim && n < s.dState
    requires a.hp.a[h] < 0.0
    requires forall t :: 0 <= t < |a.dt| ==> h < |a.dt[t]| && a.dt[t][h] == dtRaw
    requires 0.0 <= bound && forall t :: 0 <= t < |a.x| ==> Abs(Inputs(f, a, s, h, p, n)[t]) <= bound
    ensures var dA := Decay(f, StepSize(f, dtRaw, a.hp.dtBias[h]), a.hp.a[h]);
            && 0.0 < dA < 1.0
            && Abs(SequentialScan(f, a, init, s).final[h][p][n]) <= Max(Abs(init[h][p][n]), bound / (1.0 - dA))
  {
    var dA := Decay(f, StepSize(f, dtRaw, a.hp.dtBias[h]), a.hp.a[h]);
    DecayBelowOne(f, StepSize(f, dtRaw, a.hp.dtBias[h]), a.hp.a[h]);
    var ds := Decays(f, a, s, h);
    forall t | 0 <= t < |ds|
      ensures 0.0 <= ds[t] <= dA
    {
      assert StepInFits(StepAt(a, t), s);
      assert ds[t] == dA;
    }
    ScanEntryRecurs(f, a, init, s, h, p, n);
    RecurStaysBelow(init[h][p][n], ds, Inputs(f, a, s, h, p, n), dA, bound);
  }
}
