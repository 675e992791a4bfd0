/**
 * The inference cache of the Mamba2 layers: a map from layer index to the
 * pair (convolution window, SSM state), filled on first use.
 */
module Mamba2Cache {
  import opened Results
  import opened Seqs
  import opened SelectiveScan
  import opened Mamba2Shapes

  /**
   * What one layer keeps between calls: the convolution window, channel
   * major (`conv_dim` rows of `d_conv` entries, the `(b d w)` layout after the
   * transpose), and the SSM state (`nheads x headdim x d_state`).
   */
  datatype LayerState = LayerState(conv: seq<seq<real>>, ssm: State)

  /** `inference_params.key_value_memory_dict`, keyed by layer index. */
  type Cache = map<int, LayerState>

  predicate ConvFits(conv: seq<seq<real>>, d: Dims) {
    MatrixFits(conv, ConvDim(d), d.dConv)
  }

  predicate LayerStateFits(ls: LayerState, d: Dims)
    requires d.headdim > 0
  {
    ConvFits(ls.conv, d) && StateFits(ls.ssm, SsmShape(d))
  }

  /** The pair a fresh entry holds: a zero window and a zero state. */
  function ZeroLayerState(d: Dims): (ls: LayerState)
    requires d.headdim > 0
    ensures LayerStateFits(ls, d)
  {
    LayerState(seq(ConvDim(d), _ => Zeros(d.dConv)), ZeroState(SsmShape(d)))
  }

  /** The states a layer works on, and the cache after the lookup. */
  datatype Lookup = Lookup(states: LayerState, cache: Cache)

  /**
   * `_get_states_from_cache`: a missing layer index fails the assertion; a
   * layer seen for the first time gets a zero entry, which is stored; a
   * layer seen before gets its stored pair back.
   */
  function GetStates(cache: Cache, layerIdx: Option<int>, d: Dims): (r: Result<Lookup, LayerError>)
    requires d.headdim > 0
    ensures r.Err? <==> layerIdx.None?
    ensures r.Err? ==> r.error == MissingLayerIndex
    ensures r.Ok? ==> layerIdx.value in r.value.cache && r.value.cache[layerIdx.value] == r.value.states
    ensures r.Ok? ==> r.value.cache.Keys == cache.Keys + {layerIdx.value}
    ensures r.Ok? && layerIdx.value in cache ==> r.value.states == cache[layerIdx.value]
  {
    if layerIdx.None? then Err(MissingLayerIndex)
    else
      var k := layerIdx.value;
      if k !in cache then
        var zero := ZeroLayerState(d);
        Ok(Lookup(zero, cache[k := zero]))
      else
        Ok(Lookup(cache[k], cache))
  }

  /** The first lookup of a layer stores and returns zeros of the layer's shapes. */
  lemma FirstLookupIsZero(cache: Cache, k: int, d: Dims)
    requires d.headdim > 0 && k !in cache
    ensures GetStates(cache, Some(k), d).Ok?
    ensures var look := GetStates(cache, Some(k), d).value;
            && LayerStateFits(look.states, d)
            && (forall c, w :: 0 <= c < ConvDim(d) && 0 <= w < d.dConv ==> look.states.conv[c][w] == 0.0)
            && look.states.ssm == ZeroState(SsmShape(d))
            && look.cache == cache[k := look.states]
  {
  }

  /** A lookup never touches another layer's entry. */
  lemma LookupKeepsOtherLayers(cache: Cache, k: int, d: Dims, j: int)
    requires d.headdim > 0 && j != k && j in cache
    ensures GetStates(cache, Some(k), d).Ok?
    ensures GetStates(cache, Some(k), d).value.cache[j] == cache[j]
  {
  }

  /** A second lookup returns the pair the first one returned and leaves the cache as it was. */
  lemma LookupIsIdempotent(cache: Cache, k: int, d: Dims)
    requires d.headdim > 0
    ensures GetStates(cache, Some(k), d).Ok?
    ensures var first := GetStates(cache, Some(k), d).value;
            GetStates(first.cache, Some(k), d) == Ok(first)
  {
  }
}
