/**
 * The padded trace matrix of the npz dataset: one row per packet holding
 * (timestamp, signed length), zero rows after the last packet. Decoding turns
 * the rows before the first all-zero row into packets; write-back stores a
 * simulated trace into a zero-filled row of the same capacity.
 */
module TraceRows {
  import opened Results
  import opened Seqs
  import opened PyNum

  /** One row of the matrix: `p[i, 0]` and `p[i, 1]`. */
  datatype Row = Row(timestamp: real, length: real)

  /** A packet of the trace parser: time, direction (+1 or -1) and size. */
  datatype Packet = Packet(timestamp: real, direction: int, length: int)

  /** The ways decoding and write-back fail. */
  datatype TraceError =
    | ZeroDivision   // `int(length) // abs(int(length))` with `int(length) == 0`
    | IndexOutOfRange  // writing row 0 of an output with no rows

  /** The terminator: timestamp and length both zero. */
  predicate IsSentinel(row: Row) {
    row.timestamp == 0.0 && row.length == 0.0
  }

  /** A packet as the decoder produces it: a direction of +1 or -1 and a positive size. */
  predicate PacketFits(p: Packet) {
    (p.direction == 1 || p.direction == -1) && p.length >= 1
  }

  /** One row that is not the terminator, turned into a packet. */
  function DecodeRow(row: Row): (r: Result<Packet, TraceError>)
    ensures r.Err? <==> -1.0 < row.length < 1.0
    ensures r.Err? ==> r.error == ZeroDivision
    ensures r.Ok? ==> PacketFits(r.value) && r.value.timestamp == row.timestamp
    ensures r.Ok? ==> r.value.direction * r.value.length == Trunc(row.length)
    ensures r.Ok? ==> (r.value.direction == 1 <==> row.length > 0.0)
  {
    var n := Trunc(row.length);
    TruncIsZero(row.length);
    if n == 0 then Err(ZeroDivision)
    else
      FloorDivByAbs(n);
      Ok(Packet(row.timestamp, FloorDiv(n, Abs(n)), Abs(n)))
  }

  /** The number of rows before the first terminator, or all of them when there is none. */
  function Used(rows: seq<Row>): (n: nat)
    ensures n <= |rows|
    ensures forall i :: 0 <= i < n ==> !IsSentinel(rows[i])
    ensures n < |rows| ==> IsSentinel(rows[n])
    decreases |rows|
  {
    if |rows| == 0 || IsSentinel(rows[0]) then 0 else 1 + Used(rows[1..])
  }

  /**
   * The parse loop over one trace: rows are decoded in order up to the first
   * terminator; the first row whose length truncates to zero raises.
   */
  function Decode(rows: seq<Row>): (r: Result<seq<Packet>, TraceError>)
    decreases |rows|
  {
    if |rows| == 0 || IsSentinel(rows[0]) then Ok([])
    else
      var p :- DecodeRow(rows[0]);
      var ps :- Decode(rows[1..]);
      Ok([p] + ps)
  }

  /**
   * Decoding succeeds exactly when every row before the terminator has a
   * length of magnitude at least one, and then packet `i` is row `i` decoded.
   */
  lemma {:induction false} DecodeRowwise(rows: seq<Row>)
    ensures Decode(rows).Ok? <==> forall i :: 0 <= i < Used(rows) ==> DecodeRow(rows[i]).Ok?
    ensures Decode(rows).Err? ==> Decode(rows).error == ZeroDivision
    ensures Decode(rows).Ok? ==> |Decode(rows).value| == Used(rows)
    ensures Decode(rows).Ok? ==> forall i :: 0 <= i < Used(rows) ==> Decode(rows).value[i] == DecodeRow(rows[i]).value
    decreases |rows|
  {
    if |rows| > 0 && !IsSentinel(rows[0]) {
      DecodeRowwise(rows[1..]);
      assert forall i :: 1 <= i < Used(rows) ==> rows[1..][i - 1] == rows[i];
    }
  }

  /** Rows after the first terminator are never read. */
  lemma {:induction false} DecodeStopsAtSentinel(rows: seq<Row>, more: seq<Row>, k: nat)
    requires k < |rows| && IsSentinel(rows[k])
    ensures Decode(rows + more) == Decode(rows[..k])
    decreases k
  {
    if k > 0 && !IsSentinel(rows[0]) {
      assert (rows + more)[1..] == rows[1..] + more;
      assert rows[..k][1..] == rows[1..][..k - 1];
      DecodeStopsAtSentinel(rows[1..], more, k - 1);
    }
  }

  /** A decoded packet written back: `direction * length`, with the timestamp copied. */
  function EncodeRow(p: Packet): (row: Row)
    ensures row.timestamp == p.timestamp
    ensures PacketFits(p) ==> !IsSentinel(row)
  {
    Row(p.timestamp, (p.direction * p.length) as real)
  }

  /** Encoding a decoded packet and decoding it again gives the packet back. */
  lemma EncodeDecodeRow(p: Packet)
    requires PacketFits(p)
    ensures DecodeRow(EncodeRow(p)) == Ok(p)
  {
    var n := p.direction * p.length;
    assert Trunc(n as real) == n;
    FloorDivByAbs(n);
  }

  /** Every decoded packet encodes to the row it came from, up to the fraction `int` drops. */
  lemma DecodeEncodeRow(row: Row)
    requires DecodeRow(row).Ok?
    ensures EncodeRow(DecodeRow(row).value) == Row(row.timestamp, Trunc(row.length) as real)
  {
  }

  /** An output row as `open_memmap` creates it: `capacity` zero rows. */
  function ZeroRows(capacity: nat): (rows: seq<Row>)
    ensures |rows| == capacity
    ensures forall i :: 0 <= i < capacity ==> IsSentinel(rows[i])
  {
    seq(capacity, _ => Row(0.0, 0.0))
  }

  /**
   * The rows a write-back produces: the first `min(|sim|, capacity)` packets
   * encoded, the rest of `slot` as it was.
   */
  function Written(slot: seq<Row>, sim: seq<Packet>): (rows: seq<Row>)
    ensures |rows| == |slot|
  {
    var m := if |sim| < |slot| then |sim| else |slot|;
    seq(m, i requires 0 <= i < m => EncodeRow(sim[i])) + slot[m..]
  }

  /**
   * The write-back loop: packet `i` goes to row `i` until the last row of the
   * output has been written. An output with no rows raises on the first
   * packet.
   */
  method WriteBack(slot: seq<Row>, sim: seq<Packet>) returns (r: Result<seq<Row>, TraceError>)
    ensures r.Err? <==> |slot| == 0 && |sim| > 0
    ensures r.Err? ==> r.error == IndexOutOfRange
    ensures r.Ok? ==> |r.value| == |slot|
    ensures r.Ok? ==> forall i :: 0 <= i < |slot| && i < |sim| ==> r.value[i] == EncodeRow(sim[i])
    ensures r.Ok? ==> forall i :: |sim| <= i < |slot| ==> r.value[i] == slot[i]
    ensures r.Ok? ==> r.value == Written(slot, sim)
  {
    var rows := slot;
    var i := 0;
    while i < |sim|
      invariant 0 <= i <= |sim|
      invariant |rows| == |slot|
      invariant i > 0 ==> i < |slot|
      invariant forall j :: 0 <= j < i ==> rows[j] == EncodeRow(sim[j])
      invariant forall j :: i <= j < |slot| ==> rows[j] == slot[j]
    {
      if i >= |rows| {
        return Err(IndexOutOfRange);
      }
      rows := rows[i := EncodeRow(sim[i])];
      if i == |slot| - 1 {
        return Ok(rows);
      }
      i := i + 1;
    }
    return Ok(rows);
  }

  /**
   * Writing fitting packets into a fresh output row and decoding it gives back
   * the packets that fit: all of them when the row has room to spare, else the
   * first `capacity`.
   */
  lemma WriteThenDecode(capacity: nat, sim: seq<Packet>)
    requires forall i :: 0 <= i < |sim| ==> PacketFits(sim[i])
    ensures var m := if |sim| < capacity then |sim| else capacity;
            Decode(Written(ZeroRows(capacity), sim)) == Ok(sim[..m])
  {
    var rows := Written(ZeroRows(capacity), sim);
    var m := if |sim| < capacity then |sim| else capacity;
    assert Used(rows) == m by {
      UsedIs(rows, m);
    }
    DecodeRowwise(rows);
    forall i | 0 <= i < m
      ensures DecodeRow(rows[i]) == Ok(sim[i])
    {
      EncodeDecodeRow(sim[i]);
    }
    assert Decode(rows).Ok?;
    assert Decode(rows).value == sim[..m];
  }

  /** `Used` is `m` when the first `m` rows are packets and row `m`, if any, is the terminator. */
  lemma {:induction false} UsedIs(rows: seq<Row>, m: nat)
    requires m <= |rows|
    requires forall i :: 0 <= i < m ==> !IsSentinel(rows[i])
    requires m < |rows| ==> IsSentinel(rows[m])
    ensures Used(rows) == m
    decreases m
  {
    if m > 0 {
      UsedIs(rows[1..], m - 1);
    }
  }
}
