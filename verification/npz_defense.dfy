/**
 * The npz driver of the padding defense: every trace of the dataset matrix
 * that `zip` pairs with a label is decoded, simulated and written back into
 * row `k` of an output matrix of the same shape, and its overheads are
 * collected.
 */
module NpzDefense {
  import opened Results
  import opened TraceRows
  import opened Overheads

  /**
   * `wtfpad.simulate`, given the number of the call so that a simulator with
   * internal state or randomness may answer differently on every trace.
   */
  type Simulator = (nat, seq<Packet>) -> seq<Packet>

  /** An overhead measure of a simulated trace against its original. */
  type Overhead = (seq<Packet>, seq<Packet>) -> real

  function Simulate(simulate: Simulator, k: nat, trace: seq<Packet>): seq<Packet> {
    simulate(k, trace)
  }

  function Measure(overhead: Overhead, simulated: seq<Packet>, trace: seq<Packet>): real {
    overhead(simulated, trace)
  }

  /** What one run leaves behind: the defended matrix and both overhead lists. */
  datatype Defended = Defended(keys: seq<seq<Row>>, latencies: seq<real>, bandwidths: seq<real>)

  /** Trace `k` goes through: it decodes, and its simulation fits its output row. */
  predicate TraceGoesThrough(x: seq<seq<Row>>, simulate: Simulator, k: nat)
    requires k < |x|
  {
    Decode(x[k]).Ok? && !(|x[k]| == 0 && |Simulate(simulate, k, Decode(x[k]).value)| > 0)
  }

  /** The output row of trace `k`: its simulation written into a fresh row of the same capacity. */
  function DefendedRow(x: seq<seq<Row>>, simulate: Simulator, k: nat): seq<Row>
    requires k < |x| && Decode(x[k]).Ok?
  {
    Written(ZeroRows(|x[k]|), Simulate(simulate, k, Decode(x[k]).value))
  }

  /**
   * Trace `k` went through and left its traces in `d`: the defended row, and
   * the two overheads of its simulation against the decoded original.
   */
  predicate Recorded(x: seq<seq<Row>>, simulate: Simulator, latency: Overhead, bandwidth: Overhead, d: Defended, k: nat)
    requires k < |x| && k < |d.keys| && k < |d.latencies| && k < |d.bandwidths|
  {
    && TraceGoesThrough(x, simulate, k)
    && d.keys[k] == DefendedRow(x, simulate, k)
    && var trace := Decode(x[k]).value;
       var simulated := Simulate(simulate, k, trace);
       && d.latencies[k] == Measure(latency, simulated, trace)
       && d.bandwidths[k] == Measure(bandwidth, simulated, trace)
  }

  /** What is recorded for trace `k` stays recorded when later traces are appended. */
  lemma RecordedExtends(x: seq<seq<Row>>, simulate: Simulator, latency: Overhead, bandwidth: Overhead, d: Defended, e: Defended, k: nat)
    requires k < |x| && k < |d.keys| && k < |d.latencies| && k < |d.bandwidths|
    requires k < |e.keys| && k < |e.latencies| && k < |e.bandwidths|
    requires e.keys[k] == d.keys[k] && e.latencies[k] == d.latencies[k] && e.bandwidths[k] == d.bandwidths[k]
    requires Recorded(x, simulate, latency, bandwidth, d, k)
    ensures Recorded(x, simulate, latency, bandwidth, e, k)
  {
  }

  /** The number of pairs `zip(X, y)` yields: it stops at the shorter of the two. */
  function Zipped(x: seq<seq<Row>>, y: seq<int>): (n: nat)
    ensures n <= |x| && n <= |y|
    ensures n == |x| || n == |y|
  {
    if |x| <= |y| then |x| else |y|
  }

  /** The rows of the output matrix from row `n` on, as `open_memmap` creates them: all zero. */
  function Untouched(x: seq<seq<Row>>, n: nat): (rows: seq<seq<Row>>)
    requires n <= |x|
    ensures |rows| == |x| - n
    ensures forall j :: 0 <= j < |rows| ==> rows[j] == ZeroRows(|x[n + j]|)
  {
    seq(|x| - n, j requires 0 <= j < |x| - n => ZeroRows(|x[n + j]|))
  }

  /**
   * The loop of `main` over `zip(X, y)`: `count` starts at -1 and is
   * incremented once per trace, so trace `k` is written to output row `k`.
   * The loop stops after the shorter of `X` and `y`, and the rows it never
   * reaches stay zero. The run stops at the first trace that raises.
   */
  method DefendAll(x: seq<seq<Row>>, y: seq<int>, simulate: Simulator, latency: Overhead, bandwidth: Overhead)
    returns (r: Result<Defended, TraceError>)
    ensures r.Ok? <==> forall k :: 0 <= k < Zipped(x, y) ==> TraceGoesThrough(x, simulate, k)
    ensures r.Ok? ==> |r.value.keys| == |x|
    ensures r.Ok? ==> |r.value.latencies| == Zipped(x, y) && |r.value.bandwidths| == Zipped(x, y)
    ensures r.Ok? ==> forall k :: 0 <= k < Zipped(x, y) ==> Recorded(x, simulate, latency, bandwidth, r.value, k)
    ensures r.Ok? ==> forall k :: Zipped(x, y) <= k < |x| ==> r.value.keys[k] == ZeroRows(|x[k]|)
  {
    var n := Zipped(x, y);
    var keys: seq<seq<Row>> := [];
    var latencies: seq<real> := [];
    var bandwidths: seq<real> := [];
    var count := -1;
    while count + 1 < n
      invariant -1 <= count < n
      invariant |keys| == |latencies| == |bandwidths| == count + 1
      invariant forall k :: 0 <= k <= count ==> Recorded(x, simulate, latency, bandwidth, Defended(keys, latencies, bandwidths), k)
    {
      count := count + 1;
      var decoded := Decode(x[count]);
      if decoded.Err? {
        assert !TraceGoesThrough(x, simulate, count);
        return Err(decoded.error);
      }
      var trace := decoded.value;
      var simulated := Simulate(simulate, count, trace);
      var row := WriteBack(ZeroRows(|x[count]|), simulated);
      if row.Err? {
        assert !TraceGoesThrough(x, simulate, count);
        return Err(row.error);
      }
      var before := Defended(keys, latencies, bandwidths);
      keys := keys + [row.value];
      bandwidths := bandwidths + [Measure(bandwidth, simulated, trace)];
      latencies := latencies + [Measure(latency, simulated, trace)];
      forall k | 0 <= k < count
        ensures Recorded(x, simulate, latency, bandwidth, Defended(keys, latencies, bandwidths), k)
      {
        RecordedExtends(x, simulate, latency, bandwidth, before, Defended(keys, latencies, bandwidths), k);
      }
    }
    var walked := Defended(keys, latencies, bandwidths);
    var d := Defended(keys + Untouched(x, n), latencies, bandwidths);
    forall k | 0 <= k < n
      ensures TraceGoesThrough(x, simulate, k)
      ensures Recorded(x, simulate, latency, bandwidth, d, k)
    {
      assert Recorded(x, simulate, latency, bandwidth, walked, k);
      RecordedExtends(x, simulate, latency, bandwidth, walked, d, k);
    }
    forall k | n <= k < |x|
      ensures d.keys[k] == ZeroRows(|x[k]|)
    {
      assert d.keys[k] == Untouched(x, n)[k - n];
    }
    return Ok(d);
  }

  /** The values the two medians are taken over. */
  function MedianInputs(d: Defended): (r: (seq<real>, seq<real>))
    ensures forall i :: 0 <= i < |r.0| ==> r.0[i] > 0.0
    ensures forall i :: 0 <= i < |r.1| ==> r.1[i] > 0.0
  {
    (Positives(d.latencies), Positives(d.bandwidths))
  }

  /**
   * A trace of fitting packets whose simulation also fits and has room in
   * its row decodes from the defended matrix to exactly the simulated trace.
   */
  lemma DefendedRowDecodes(x: seq<seq<Row>>, simulate: Simulator, k: nat)
    requires k < |x| && Decode(x[k]).Ok?
    requires var simulated := Simulate(simulate, k, Decode(x[k]).value);
             && |simulated| <= |x[k]|
             && forall i :: 0 <= i < |simulated| ==> PacketFits(simulated[i])
    ensures Decode(DefendedRow(x, simulate, k)) == Ok(Simulate(simulate, k, Decode(x[k]).value))
  {
    var simulated := Simulate(simulate, k, Decode(x[k]).value);
    WriteThenDecode(|x[k]|, simulated);
    assert simulated[..|simulated|] == simulated;
  }
}
