/**
 * The depthwise causal convolution in front of the Mamba2 scan: the bulk
 * `nn.Conv1d` path used when a whole sequence is known, the streaming path
 * that keeps a window of the last `d_conv` inputs per channel, and the proof
 * that the two agree.
 *
 * A channel's inputs over time are a `seq<real>`; `k` is the kernel width
 * `d_conv`. Weights and bias belong to one channel (the convolution has
 * `groups == conv_dim`, so channels never mix).
 */
module CausalConv {
  import opened Seqs

  /** The input at time `j`, with zeros before time 0 and after the last input. */
  function At(xs: seq<real>, j: int): real {
    if 0 <= j < |xs| then xs[j] else 0.0
  }

  /** The `k` inputs ending at time `t` inclusive, oldest first. */
  function Tail(xs: seq<real>, t: int, k: nat): (r: seq<real>)
    ensures |r| == k
  {
    seq(k, i => At(xs, t - k + 1 + i))
  }

  /** Entry `i` of the window ending at `t` is the input at time `t - k + 1 + i`. */
  lemma TailAt(xs: seq<real>, t: int, k: nat, i: nat)
    requires i < k
    ensures Tail(xs, t, k)[i] == At(xs, t - k + 1 + i)
  {
  }

  /** Inputs after time `t` do not change the window ending at `t`. */
  lemma TailIsCausal(xs: seq<real>, more: seq<real>, t: int, k: nat)
    requires t < |xs|
    ensures Tail(xs + more, t, k) == Tail(xs, t, k)
  {
    forall i | 0 <= i < k
      ensures Tail(xs + more, t, k)[i] == Tail(xs, t, k)[i]
    {
      TailAt(xs + more, t, k, i);
      TailAt(xs, t, k, i);
    }
  }

  /**
   * The window stored when priming on `xs`: `F.pad(xs, (k - |xs|, 0))`,
   * a left pad with zeros when there are fewer than `k` inputs and a crop
   * from the left otherwise. It is exactly the last `k` inputs.
   */
  function SeedWindow(xs: seq<real>, k: nat): (w: seq<real>)
    ensures w == Tail(xs, |xs| - 1, k)
  {
    var w := if |xs| >= k then xs[|xs| - k..] else Zeros(k - |xs|) + xs;
    assert forall i | 0 <= i < k :: w[i] == Tail(xs, |xs| - 1, k)[i] by {
      forall i | 0 <= i < k
        ensures w[i] == Tail(xs, |xs| - 1, k)[i]
      {
        TailAt(xs, |xs| - 1, k, i);
      }
    }
    w
  }

  /** `torch.roll(window, shifts=-1)`: every entry moves one place left, the first wraps to the end. */
  function RollLeft(window: seq<real>): seq<real>
    requires |window| >= 1
  {
    window[1..] + [window[0]]
  }

  /** The streaming window update: roll left, then overwrite the last entry with the new input. */
  function ShiftIn(window: seq<real>, x: real): (r: seq<real>)
    requires |window| >= 1
    ensures |r| == |window|
    ensures forall i :: 0 <= i < |window| - 1 ==> r[i] == window[i + 1]
    ensures r[|window| - 1] == x
  {
    RollLeft(window)[|window| - 1 := x]
  }

  /** Shifting a new input into a primed window gives the window primed on the longer history. */
  lemma ShiftInSeed(xs: seq<real>, x: real, k: nat)
    requires k >= 1
    ensures ShiftIn(SeedWindow(xs, k), x) == SeedWindow(xs + [x], k)
  {
    var lhs := ShiftIn(SeedWindow(xs, k), x);
    var rhs := SeedWindow(xs + [x], k);
    forall i | 0 <= i < k
      ensures lhs[i] == rhs[i]
    {
      TailAt(xs + [x], |xs|, k, i);
      if i < k - 1 {
        TailAt(xs, |xs| - 1, k, i + 1);
      }
    }
  }

  /** The kernel response `bias + sum_k weight[k] * window[k]` of one channel to one window. */
  function Respond(weight: seq<real>, bias: real, window: seq<real>): real
    requires |window| == |weight|
  {
    bias + Dot(weight, window)
  }

  /** `F.conv1d`'s input padding: `k - 1` zeros on each side. */
  function Padded(xs: seq<real>, k: nat): (r: seq<real>)
    requires k >= 1
    ensures |r| == |xs| + 2 * (k - 1)
  {
    Zeros(k - 1) + xs + Zeros(k - 1)
  }

  /** The `k` padded inputs output `t` reads are the window of the last `k` inputs up to `t`, zeros before time 0. */
  lemma PaddedWindow(xs: seq<real>, k: nat, t: nat)
    requires k >= 1 && t < |xs| + k - 1
    ensures Padded(xs, k)[t..t + k] == Tail(xs, t, k)
  {
    var w := Padded(xs, k)[t..t + k];
    forall i | 0 <= i < k
      ensures w[i] == Tail(xs, t, k)[i]
    {
      TailAt(xs, t, k, i);
    }
  }

  /**
   * `nn.Conv1d` on one channel with `padding = k - 1` on both sides
   * (cross-correlation, no kernel flip): `|xs| + k - 1` outputs, output `t`
   * reading the padded inputs `t .. t + k - 1`.
   */
  function ConvFull(xs: seq<real>, weight: seq<real>, bias: real): (r: seq<real>)
    requires |weight| >= 1
    ensures |r| == |xs| + |weight| - 1
  {
    var k := |weight|;
    var padded := Padded(xs, k);
    seq(|xs| + k - 1, t requires 0 <= t < |xs| + k - 1 => Respond(weight, bias, padded[t..t + k]))
  }

  /** Output `t` of the full convolution is the kernel response to the `k` inputs ending at `t`, zeros outside the input. */
  lemma ConvFullAt(xs: seq<real>, weight: seq<real>, bias: real, t: nat)
    requires |weight| >= 1 && t < |xs| + |weight| - 1
    ensures ConvFull(xs, weight, bias)[t] == Respond(weight, bias, Tail(xs, t, |weight|))
  {
    var k := |weight|;
    var full := ConvFull(xs, weight, bias);
    var w := Padded(xs, k)[t..t + k];
    assert full[t] == Respond(weight, bias, w);
    PaddedWindow(xs, k, t);
  }

  /** The activation applied to one value. */
  function Fire(act: real -> real, v: real): real {
    act(v)
  }

  /**
   * The bulk path of `forward_test` for one channel: the full convolution,
   * the trailing `k - 1` outputs dropped with `[:-(k - 1)]`, then the
   * activation. For `k == 1` the slice `[:-0]` is empty.
   */
  function BulkConv(xs: seq<real>, weight: seq<real>, bias: real, act: real -> real): (r: seq<real>)
    requires |weight| >= 1
    ensures |weight| == 1 ==> r == []
    ensures |weight| >= 2 ==> |r| == |xs|
  {
    Activate(DropLastPy(ConvFull(xs, weight, bias), |weight| - 1), act)
  }

  /** For `k >= 2` bulk output `t` is the activated kernel response to the last `k` inputs up to `t`. */
  lemma BulkConvAt(xs: seq<real>, weight: seq<real>, bias: real, act: real -> real, t: nat)
    requires |weight| >= 2 && t < |xs|
    ensures BulkConv(xs, weight, bias, act)[t] == Fire(act, Respond(weight, bias, Tail(xs, t, |weight|)))
  {
    var full := ConvFull(xs, weight, bias);
    assert BulkConv(xs, weight, bias, act)[t] == Fire(act, full[t]);
    ConvFullAt(xs, weight, bias, t);
  }

  /** The bulk output at time `t` does not depend on inputs after `t`. */
  lemma BulkIsCausal(xs: seq<real>, more: seq<real>, weight: seq<real>, bias: real, act: real -> real, t: nat)
    requires |weight| >= 2 && t < |xs|
    ensures BulkConv(xs + more, weight, bias, act)[t] == BulkConv(xs, weight, bias, act)[t]
  {
    BulkConvAt(xs + more, weight, bias, act, t);
    BulkConvAt(xs, weight, bias, act, t);
    TailIsCausal(xs, more, t, |weight|);
  }

  /** The activation applied to every entry. */
  function Activate(s: seq<real>, act: real -> real): (r: seq<real>)
    ensures |r| == |s|
    ensures forall t :: 0 <= t < |s| ==> r[t] == Fire(act, s[t])
  {
    seq(|s|, t requires 0 <= t < |s| => Fire(act, s[t]))
  }

  /** The outputs of a streaming run and the window it leaves behind. */
  datatype Streamed = Streamed(outs: seq<real>, window: seq<real>)

  /**
   * Streaming steps of `forward_stage` for one channel: each new input is
   * shifted into the window and the output is the activated
   * `bias + sum_k weight[k] * window[k]` over the updated window.
   */
  function Stream(window: seq<real>, xs: seq<real>, weight: seq<real>, bias: real, act: real -> real): (r: Streamed)
    requires |window| == |weight| >= 1
    ensures |r.outs| == |xs|
    ensures |r.window| == |weight|
    decreases |xs|
  {
    if |xs| == 0 then Streamed([], window)
    else
      var next := ShiftIn(window, xs[0]);
      var rest := Stream(next, xs[1..], weight, bias, act);
      Streamed([Fire(act, Respond(weight, bias, next))] + rest.outs, rest.window)
  }

  /** One step of `StreamMatchesBulk`: given the claim for the history extended by the first input, it holds for the shorter history. */
  lemma StreamMatchesBulkStep(prefix: seq<real>, xs: seq<real>, weight: seq<real>, bias: real, act: real -> real)
    requires |weight| >= 2 && |xs| >= 1
    requires var longer := prefix + [xs[0]];
             var later := Stream(SeedWindow(longer, |weight|), xs[1..], weight, bias, act);
             && later.outs == BulkConv(longer + xs[1..], weight, bias, act)[|longer|..]
             && later.window == SeedWindow(longer + xs[1..], |weight|)
    ensures Stream(SeedWindow(prefix, |weight|), xs, weight, bias, act).outs
         == BulkConv(prefix + xs, weight, bias, act)[|prefix|..]
    ensures Stream(SeedWindow(prefix, |weight|), xs, weight, bias, act).window
         == SeedWindow(prefix + xs, |weight|)
  {
    var k := |weight|;
    var longer := prefix + [xs[0]];
    MoveFirst(prefix, xs);
    var next := ShiftIn(SeedWindow(prefix, k), xs[0]);
    assert next == SeedWindow(longer, k) by {
      ShiftInSeed(prefix, xs[0], k);
    }
    var bulk := BulkConv(prefix + xs, weight, bias, act);
    assert bulk[|prefix|] == Fire(act, Respond(weight, bias, next)) by {
      BulkAtNewest(prefix, xs, weight, bias, act);
    }
    SliceFrom(bulk, |prefix|);
  }

  /**
   * Streaming after priming agrees with the bulk convolution: priming on
   * `prefix` and then streaming `xs` yields, at every step, the bulk output
   * of `prefix + xs` at the same position, and leaves the window that
   * priming on `prefix + xs` would have stored.
   */
  lemma {:induction false} StreamMatchesBulk(prefix: seq<real>, xs: seq<real>, weight: seq<real>, bias: real, act: real -> real)
    requires |weight| >= 2
    ensures Stream(SeedWindow(prefix, |weight|), xs, weight, bias, act).outs
         == BulkConv(prefix + xs, weight, bias, act)[|prefix|..]
    ensures Stream(SeedWindow(prefix, |weight|), xs, weight, bias, act).window
         == SeedWindow(prefix + xs, |weight|)
    decreases |xs|
  {
    if |xs| == 0 {
      assert prefix + xs == prefix;
    } else {
      StreamMatchesBulk(prefix + [xs[0]], xs[1..], weight, bias, act);
      StreamMatchesBulkStep(prefix, xs, weight, bias, act);
    }
  }

  /** The window ending at the first streamed input is the window primed on the prefix plus that input. */
  lemma TailAtNewest(prefix: seq<real>, xs: seq<real>, k: nat)
    requires |xs| >= 1
    ensures Tail(prefix + xs, |prefix|, k) == SeedWindow(prefix + [xs[0]], k)
  {
    MoveFirst(prefix, xs);
    TailIsCausal(prefix + [xs[0]], xs[1..], |prefix|, k);
  }

  /** The bulk output at the first streamed input reads the window primed on the prefix plus that input. */
  lemma BulkAtNewest(prefix: seq<real>, xs: seq<real>, weight: seq<real>, bias: real, act: real -> real)
    requires |weight| >= 2 && |xs| >= 1
    ensures BulkConv(prefix + xs, weight, bias, act)[|prefix|]
         == Fire(act, Respond(weight, bias, SeedWindow(prefix + [xs[0]], |weight|)))
  {
    BulkConvAt(prefix + xs, weight, bias, act, |prefix|);
    TailAtNewest(prefix, xs, |weight|);
  }
}
