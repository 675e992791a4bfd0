/**
 * Width bookkeeping of the Mamba2 layer: the sizes `__init__` derives from
 * its hyper-parameters, the five-way split of the input projection, the
 * three-way split of the convolution output, and the `(h p)` head layout.
 */
module Mamba2Shapes {
  import opened Results
  import opened Seqs
  import opened PyNum
  import opened SelectiveScan

  /** The hyper-parameters of one layer. */
  datatype Dims = Dims(dModel: nat, dState: nat, dConv: nat, expand: nat, headdim: nat)

  /**
   * The hyper-parameters a layer can be built with: `headdim` is positive,
   * since `nheads = d_inner // headdim` divides by it, and the convolution
   * kernel is at least one wide.
   */
  predicate WellFormed(d: Dims) {
    d.headdim > 0 && d.dConv >= 1
  }

  function DInner(d: Dims): nat {
    d.expand * d.dModel
  }

  /** `d_inner // headdim`; on naturals Dafny's `/` rounds down like Python's `//`. */
  function NHeads(d: Dims): nat
    requires d.headdim > 0
  {
    DInner(d) / d.headdim
  }

  /** The output width of `in_proj`: `2 * d_inner + 2 * d_state + nheads`. */
  function InProjWidth(d: Dims): nat
    requires d.headdim > 0
  {
    2 * DInner(d) + 2 * d.dState + NHeads(d)
  }

  /** The number of convolution channels: `d_inner + 2 * d_state`. */
  function ConvDim(d: Dims): nat {
    DInner(d) + 2 * d.dState
  }

  /** The sizes of the recurrent state: `nheads x headdim x d_state`. */
  function SsmShape(d: Dims): Shape
    requires d.headdim > 0
  {
    Shape(NHeads(d), d.headdim, d.dState)
  }

  /** The ways the layer's shape checks fail. */
  datatype LayerError =
    | MissingLayerIndex     // `assert self.layer_idx is not None`
    | SplitSizeMismatch     // `torch.split` sizes negative or not summing to the width
    | HeadSplitMismatch     // `rearrange(x, "(h p)")` with `d_inner` not a multiple of `headdim`
    | ConvLengthMismatch    // the convolution output and `dt` disagree on the sequence length
    | StateShapeMismatch    // a stored or returned state of the wrong shape
    | InputWidthMismatch    // `nn.Linear(d_model, ...)` given a row that is not `d_model` wide
    | MissingInferenceParams // `inference_params` is `None`: reading its memory dict raises

  /** The five pieces of one projected row. */
  datatype Projection = Projection(z0: seq<real>, x0: seq<real>, z: seq<real>, xBC: seq<real>, dt: seq<real>)

  /** The pieces have the widths the layer reads: `z` and `x` of `d_inner`, `xBC` of `conv_dim`, `dt` of `nheads`. */
  predicate ProjectionFits(p: Projection, d: Dims)
    requires d.headdim > 0
  {
    |p.z0| == |p.x0| && |p.z| == DInner(d) && |p.xBC| == ConvDim(d) && |p.dt| == NHeads(d)
  }

  /** The pieces laid end to end again. */
  function JoinProjection(p: Projection): seq<real> {
    p.z0 + p.x0 + p.z + p.xBC + p.dt
  }

  /**
   * `torch.split(zxbcdt, [d_mlp, d_mlp, d_inner, d_inner + 2 * d_state, nheads])`
   * with `d_mlp = (width - 2 * d_inner - 2 * d_state - nheads) // 2`. The split
   * fails when a size is negative or the sizes do not add up to the width.
   */
  function SplitProjection(d: Dims, row: seq<real>): (r: Result<Projection, LayerError>)
    requires d.headdim > 0
    ensures r.Ok? <==> |row| >= InProjWidth(d) && (|row| - InProjWidth(d)) % 2 == 0
    ensures r.Err? ==> r.error == SplitSizeMismatch
    ensures r.Ok? ==> ProjectionFits(r.value, d) && JoinProjection(r.value) == row
  {
    var mlp := FloorDiv(|row| - 2 * DInner(d) - 2 * d.dState - NHeads(d), 2);
    if mlp < 0 || 2 * mlp + InProjWidth(d) != |row| then Err(SplitSizeMismatch)
    else
      var a := mlp;
      var b := a + mlp;
      var c := b + DInner(d);
      var e := c + ConvDim(d);
      var p := Projection(row[..a], row[a..b], row[b..c], row[c..e], row[e..]);
      assert JoinProjection(p) == row by {
        assert row == row[..a] + row[a..b] + row[b..c] + row[c..e] + row[e..];
      }
      Ok(p)
  }

  /** For the width `in_proj` actually produces, `d_mlp` is 0 and the split succeeds with empty `z0` and `x0`. */
  lemma SplitAtProjectionWidth(d: Dims, row: seq<real>)
    requires d.headdim > 0 && |row| == InProjWidth(d)
    ensures SplitProjection(d, row).Ok?
    ensures SplitProjection(d, row).value.z0 == [] && SplitProjection(d, row).value.x0 == []
  {
  }

  /** Joining fitting pieces and splitting again gives back the same pieces. */
  lemma SplitJoinProjection(d: Dims, p: Projection)
    requires d.headdim > 0 && ProjectionFits(p, d)
    ensures SplitProjection(d, JoinProjection(p)) == Ok(p)
  {
    SliceFive(p.z0, p.x0, p.z, p.xBC, p.dt);
  }

  /** The three pieces of one convolution output row. */
  datatype ConvParts = ConvParts(x: seq<real>, b: seq<real>, c: seq<real>)

  /** `torch.split(xBC, [d_inner, d_state, d_state])`; the sizes add up to `conv_dim`, so the split never fails. */
  function SplitConv(d: Dims, row: seq<real>): (r: ConvParts)
    requires |row| == ConvDim(d)
    ensures |r.x| == DInner(d) && |r.b| == d.dState && |r.c| == d.dState
    ensures r.x + r.b + r.c == row
  {
    var a := DInner(d);
    var b := a + d.dState;
    assert row == row[..a] + row[a..b] + row[b..];
    ConvParts(row[..a], row[a..b], row[b..])
  }

  /** Splitting the concatenation of fitting pieces gives back the pieces. */
  lemma SplitJoinConv(d: Dims, parts: ConvParts)
    requires |parts.x| == DInner(d) && |parts.b| == d.dState && |parts.c| == d.dState
    ensures SplitConv(d, parts.x + parts.b + parts.c) == parts
  {
    var row := parts.x + parts.b + parts.c;
    assert row[..DInner(d)] == parts.x;
    assert row[DInner(d)..DInner(d) + d.dState] == parts.b;
    assert row[DInner(d) + d.dState..] == parts.c;
  }

  /** `count * width` less one block of `width`. */
  lemma OneBlockLess(count: nat, width: nat)
    requires count > 0
    ensures count * width >= width && count * width - width == (count - 1) * width
  {
  }

  /** `rearrange(x, "(h p) -> h p", p=width)` with `count` heads: consecutive blocks of `width` entries. */
  function Chunk(x: seq<real>, width: nat, count: nat): (r: Heads)
    requires |x| == count * width
    ensures |r| == count
    ensures forall h :: 0 <= h < |r| ==> |r[h]| == width
    decreases count
  {
    if count == 0 then []
    else
      OneBlockLess(count, width);
      [x[..width]] + Chunk(x[width..], width, count - 1)
  }

  /** `rearrange(y, "h p -> (h p)")`: the heads laid end to end. */
  function Flatten(hs: Heads): (r: seq<real>)
    decreases |hs|
  {
    if |hs| == 0 then [] else hs[0] + Flatten(hs[1..])
  }

  /** Flattening the heads of `x` gives back `x`. */
  lemma {:induction false} FlattenChunk(x: seq<real>, width: nat, count: nat)
    requires |x| == count * width
    ensures Flatten(Chunk(x, width, count)) == x
    decreases count
  {
    if count > 0 {
      OneBlockLess(count, width);
      FlattenChunk(x[width..], width, count - 1);
      var hs := Chunk(x, width, count);
      assert hs[1..] == Chunk(x[width..], width, count - 1);
      assert x == x[..width] + x[width..];
    }
  }

  /** Cutting flattened heads of equal width gives back the heads. */
  lemma {:induction false} ChunkFlatten(hs: Heads, width: nat)
    requires forall h :: 0 <= h < |hs| ==> |hs[h]| == width
    ensures |Flatten(hs)| == |hs| * width
    ensures Chunk(Flatten(hs), width, |hs|) == hs
    decreases |hs|
  {
    if |hs| > 0 {
      ChunkFlatten(hs[1..], width);
      OneBlockLess(|hs|, width);
      var x := Flatten(hs);
      assert x == hs[0] + Flatten(hs[1..]);
      assert x[..width] == hs[0];
      assert x[width..] == Flatten(hs[1..]);
      assert hs == [hs[0]] + hs[1..];
    }
  }

  /** When `headdim` divides `d_inner`, `d_inner` is exactly `nheads` blocks of `headdim`. */
  lemma HeadsCoverInner(d: Dims)
    requires d.headdim > 0 && DInner(d) % d.headdim == 0
    ensures DInner(d) == NHeads(d) * d.headdim
  {
  }

}
