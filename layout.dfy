// The record layout of Network::dump_states and Network::load_states
// (src/network.cc).
//
// A dump is a flat sequence of records: first one bias record per unit of
// every layer, layer by layer; then one weight record per (upper unit j,
// lower unit k) of every connection, connection by connection, row by row.
// The rows from 500 on of connection 1 (whose upper layer is the labeled
// layer 2, so those rows are its label block) are neither written nor read.
// Loading is positional: the value of the record at each slot's position
// is taken, and its tag and indices are not compared with the slot. On a
// dump every position holds a record of its slot's kind. A record of the
// other kind would shift every later token read of the text stream; the
// model does not follow that case and takes the record's value instead.
//
// The text encoding of a record is not modelled: a record is a value of the
// datatype below, so a dump is a sequence of records.

module Persistence {

  const LayerCount: nat := 4
  const ConnectionCount: nat := 3

  /** Unit count of layer i of the fixed topology: 784, 500, 510, 2000. */
  function LayerSize(i: nat): nat
    requires i < LayerCount
  {
    if i == 0 then 784 else if i == 1 then 500 else if i == 2 then 510 else 2000
  }

  /** Whether row j of connection c is dumped and loaded: connection 1 skips its rows from 500 on. */
  predicate Emitted(c: nat, j: nat)
  {
    c != 1 || j < 500
  }

  datatype Record =
    | BiasRecord(layer: nat, unit: nat, value: real)
    | WeightRecord(conn: nat, row: nat, col: nat, value: real)

  /**
   * Every bias and weight of the network: biases[i][j] is the bias of unit j
   * of layer i, weights[c][j][k] the weight of connection c between upper
   * unit j and lower unit k.
   */
  datatype Params = Params(biases: seq<seq<real>>, weights: seq<seq<seq<real>>>)

  /** The shape the topology gives the parameters: full layer sizes, rows = upper units, columns = lower units. */
  predicate Shaped(p: Params)
  {
    && |p.biases| == LayerCount
    && (forall i :: 0 <= i < LayerCount ==> |p.biases[i]| == LayerSize(i))
    && |p.weights| == ConnectionCount
    && (forall c :: 0 <= c < ConnectionCount ==> |p.weights[c]| == LayerSize(c + 1))
    && (forall c, j :: 0 <= c < ConnectionCount && 0 <= j < LayerSize(c + 1) ==> |p.weights[c][j]| == LayerSize(c))
  }

  // ---------------------------------------------------------------------------
  // Positions
  // ---------------------------------------------------------------------------

  /** Number of bias records of the layers below layer i. */
  function BiasStart(i: nat): nat
    requires i <= LayerCount
  {
    if i == 0 then 0 else BiasStart(i - 1) + LayerSize(i - 1)
  }

  /** Number of weight records row j of connection c contributes. */
  function RowLength(c: nat, j: nat): nat
    requires c < ConnectionCount
  {
    if Emitted(c, j) then LayerSize(c) else 0
  }

  /** Number of rows of connection c that are dumped. */
  function EmittedRows(c: nat): nat
    requires c < ConnectionCount
  {
    if c == 1 then 500 else LayerSize(c + 1)
  }

  /** Number of dumped rows of connection c below row j. */
  function RowsBelow(c: nat, j: nat): nat
    requires c < ConnectionCount
  {
    if j <= EmittedRows(c) then j else EmittedRows(c)
  }

  /** Number of weight records of the rows of connection c below row j: a full lower layer per dumped row. */
  function RowOffset(c: nat, j: nat): nat
    requires c < ConnectionCount
  {
    RowsBelow(c, j) * LayerSize(c)
  }

  /** Number of weight records of the connections below connection c. */
  function WeightStart(c: nat): nat
    requires c <= ConnectionCount
  {
    if c == 0 then 0 else WeightStart(c - 1) + RowOffset(c - 1, LayerSize(c))
  }

  /** Number of records before the first weight record of connection c. */
  function ConnStart(c: nat): nat
    requires c <= ConnectionCount
  {
    BiasStart(LayerCount) + WeightStart(c)
  }

  /** Number of records of a whole dump; RecordCountValue shows it is ConnStart(ConnectionCount). */
  function RecordCount(): nat
  {
    1665794
  }

  lemma MulStep(m: int, w: int)
    ensures (m + 1) * w == m * w + w
  {
  }

  lemma MulMono(m: nat, m': nat, w: nat)
    requires m <= m'
    ensures m * w <= m' * w
  {
  }

  /** The offsets grow row by row: row j adds its own records, RowLength(c, j), to those below it. */
  lemma RowOffsetStep(c: nat, j: nat)
    requires c < ConnectionCount && j < LayerSize(c + 1)
    ensures RowOffset(c, 0) == 0
    ensures RowOffset(c, j + 1) == RowOffset(c, j) + RowLength(c, j)
  {
    if Emitted(c, j) {
      MulStep(RowsBelow(c, j), LayerSize(c));
    }
  }

  /** The bias block holds 3794 records and a whole dump 1665794. */
  lemma RecordCountValue()
    ensures BiasStart(LayerCount) == 3794
    ensures ConnStart(1) == 395794 && ConnStart(2) == 645794
    ensures ConnStart(ConnectionCount) == RecordCount()
  {
  }

  lemma RowOffsetMono(c: nat, j: nat, j': nat)
    requires c < ConnectionCount && j <= j'
    ensures RowOffset(c, j) <= RowOffset(c, j')
  {
    MulMono(RowsBelow(c, j), RowsBelow(c, j'), LayerSize(c));
  }

  lemma {:induction false} BiasStartMono(i: nat, i': nat)
    requires i <= i' <= LayerCount
    ensures BiasStart(i) <= BiasStart(i')
    decreases i' - i
  {
    if i < i' {
      BiasStartMono(i, i' - 1);
    }
  }

  lemma {:induction false} ConnStartMono(c: nat, c': nat)
    requires c <= c' <= ConnectionCount
    ensures WeightStart(c) <= WeightStart(c')
    ensures ConnStart(c) <= ConnStart(c')
    decreases c' - c
  {
    if c < c' {
      ConnStartMono(c, c' - 1);
    }
  }

  /** Every connection starts within the dump, and the last one ends where the dump ends. */
  lemma WithinDump(c: nat)
    requires c <= ConnectionCount
    ensures ConnStart(c) <= RecordCount()
    ensures c == ConnectionCount ==> ConnStart(c) == RecordCount()
  {
    ConnStartMono(c, ConnectionCount);
    RecordCountValue();
  }

  /** A slot of the dump: one bias or one weight. */
  datatype Slot =
    | BiasSlot(layer: nat, unit: nat)
    | WeightSlot(conn: nat, row: nat, col: nat)

  /** The slots that exist and are dumped. */
  predicate ValidSlot(s: Slot)
  {
    match s
    case BiasSlot(i, j) => i < LayerCount && j < LayerSize(i)
    case WeightSlot(c, j, k) => c < ConnectionCount && j < LayerSize(c + 1) && Emitted(c, j) && k < LayerSize(c)
  }

  /** The order dump_states writes slots in: biases before weights, each lexicographically. */
  predicate Precedes(s: Slot, t: Slot)
  {
    match (s, t)
    case (BiasSlot(i, j), BiasSlot(i', j')) => i < i' || (i == i' && j < j')
    case (BiasSlot(_, _), WeightSlot(_, _, _)) => true
    case (WeightSlot(_, _, _), BiasSlot(_, _)) => false
    case (WeightSlot(c, j, k), WeightSlot(c', j', k')) =>
      c < c' || (c == c' && (j < j' || (j == j' && k < k')))
  }

  /** The index of a slot's record in a dump. */
  function Position(s: Slot): (n: nat)
    requires ValidSlot(s)
    ensures n < RecordCount()
  {
    match s
    case BiasSlot(i, j) =>
      BiasStartMono(i + 1, LayerCount);
      WithinDump(0);
      BiasStart(i) + j
    case WeightSlot(c, j, k) =>
      RowOffsetStep(c, j);
      RowOffsetMono(c, j + 1, LayerSize(c + 1));
      WithinDump(c + 1);
      ConnStart(c) + RowOffset(c, j) + k
  }

  lemma BiasPositionsIncrease(i: nat, j: nat, i': nat, j': nat)
    requires ValidSlot(BiasSlot(i, j)) && ValidSlot(BiasSlot(i', j'))
    requires i < i' || (i == i' && j < j')
    ensures Position(BiasSlot(i, j)) < Position(BiasSlot(i', j'))
  {
    if i < i' {
      BiasStartMono(i + 1, i');
    }
  }

  lemma BiasesBeforeWeights(i: nat, j: nat, c: nat, r: nat, k: nat)
    requires ValidSlot(BiasSlot(i, j)) && ValidSlot(WeightSlot(c, r, k))
    ensures Position(BiasSlot(i, j)) < Position(WeightSlot(c, r, k))
  {
    BiasStartMono(i + 1, LayerCount);
    ConnStartMono(0, c);
  }

  lemma WeightPositionsIncrease(c: nat, j: nat, k: nat, c': nat, j': nat, k': nat)
    requires ValidSlot(WeightSlot(c, j, k)) && ValidSlot(WeightSlot(c', j', k'))
    requires c < c' || (c == c' && (j < j' || (j == j' && k < k')))
    ensures Position(WeightSlot(c, j, k)) < Position(WeightSlot(c', j', k'))
  {
    RowOffsetStep(c, j);
    if c < c' {
      RowOffsetMono(c, j + 1, LayerSize(c + 1));
      ConnStartMono(c + 1, c');
    } else if j < j' {
      RowOffsetMono(c, j + 1, j');
    }
  }

  /** Positions increase along the write order. */
  lemma PositionIncreases(s: Slot, t: Slot)
    requires ValidSlot(s) && ValidSlot(t) && Precedes(s, t)
    ensures Position(s) < Position(t)
  {
    match (s, t)
    case (BiasSlot(i, j), BiasSlot(i', j')) =>
      BiasPositionsIncrease(i, j, i', j');
    case (BiasSlot(i, j), WeightSlot(c, r, k)) =>
      BiasesBeforeWeights(i, j, c, r, k);
    case (WeightSlot(c, j, k), WeightSlot(c', j', k')) =>
      WeightPositionsIncrease(c, j, k, c', j', k');
  }

  /** Positions follow the write order, so distinct slots have distinct positions. */
  lemma PositionOrder(s: Slot, t: Slot)
    requires ValidSlot(s) && ValidSlot(t)
    ensures Precedes(s, t) <==> Position(s) < Position(t)
    ensures s == t <==> Position(s) == Position(t)
  {
    if Precedes(s, t) {
      PositionIncreases(s, t);
    } else if Precedes(t, s) {
      PositionIncreases(t, s);
    } else {
      assert s == t;
    }
  }

  /** The bias slot at position n, searching the layers from layer i up. */
  function BiasSlotFrom(n: nat, i: nat): (s: Slot)
    requires i < LayerCount && BiasStart(i) <= n < BiasStart(LayerCount)
    ensures ValidSlot(s) && s.BiasSlot? && Position(s) == n
    decreases LayerCount - i
  {
    if n < BiasStart(i + 1) then BiasSlot(i, n - BiasStart(i)) else BiasSlotFrom(n, i + 1)
  }

  /** The weight slot at offset `off` into connection c, searching its rows from row j up. */
  function RowSlotFrom(c: nat, off: nat, j: nat): (s: Slot)
    requires c < ConnectionCount && j < LayerSize(c + 1)
    requires RowOffset(c, j) <= off < RowOffset(c, LayerSize(c + 1))
    ensures ValidSlot(s) && s.WeightSlot? && s.conn == c && Position(s) == ConnStart(c) + off
    decreases LayerSize(c + 1) - j
  {
    RowOffsetStep(c, j);
    if off < RowOffset(c, j + 1) then WeightSlot(c, j, off - RowOffset(c, j))
    else RowSlotFrom(c, off, j + 1)
  }

  /** The weight slot at position n, searching the connections from connection c up. */
  function WeightSlotFrom(n: nat, c: nat): (s: Slot)
    requires c < ConnectionCount && ConnStart(c) <= n < RecordCount()
    ensures ValidSlot(s) && s.WeightSlot? && Position(s) == n
    decreases ConnectionCount - c
  {
    if n < ConnStart(c + 1) then RowSlotFrom(c, n - ConnStart(c), 0)
    else WithinDump(c + 1); WeightSlotFrom(n, c + 1)
  }

  /** Every position of a dump belongs to a slot. */
  function SlotAt(n: nat): (s: Slot)
    requires n < RecordCount()
    ensures ValidSlot(s) && Position(s) == n
  {
    if n < BiasStart(LayerCount) then BiasSlotFrom(n, 0) else WeightSlotFrom(n, 0)
  }

  /** The weights of a dumped row lie next to each other, from the row's first record on. */
  lemma RowPositions(c: nat, j: nat)
    requires c < ConnectionCount && j < LayerSize(c + 1)
    ensures forall k :: 0 <= k < LayerSize(c) && Emitted(c, j) ==>
              Position(WeightSlot(c, j, k)) == ConnStart(c) + RowOffset(c, j) + k
  {
  }

  // ---------------------------------------------------------------------------
  // Dump
  // ---------------------------------------------------------------------------

  /** The bias records of layer i, unit by unit. */
  function BiasRow(p: Params, i: nat): (r: seq<Record>)
    requires Shaped(p) && i < LayerCount
    ensures |r| == LayerSize(i)
  {
    seq(LayerSize(i), j requires 0 <= j < LayerSize(i) => BiasRecord(i, j, p.biases[i][j]))
  }

  /** The bias records of the layers below layer i. */
  function BiasRecords(p: Params, i: nat): (r: seq<Record>)
    requires Shaped(p) && i <= LayerCount
  {
    if i == 0 then [] else BiasRecords(p, i - 1) + BiasRow(p, i - 1)
  }

  /** The weight records of row j of connection c, column by column; none for a skipped row. */
  function WeightRow(p: Params, c: nat, j: nat): (r: seq<Record>)
    requires Shaped(p) && c < ConnectionCount && j < LayerSize(c + 1)
    ensures |r| == RowLength(c, j)
  {
    if Emitted(c, j) then
      seq(LayerSize(c), k requires 0 <= k < LayerSize(c) => WeightRecord(c, j, k, p.weights[c][j][k]))
    else
      []
  }

  /** The weight records of the rows of connection c below row j. */
  function ConnRecords(p: Params, c: nat, j: nat): (r: seq<Record>)
    requires Shaped(p) && c < ConnectionCount && j <= LayerSize(c + 1)
  {
    if j == 0 then [] else ConnRecords(p, c, j - 1) + WeightRow(p, c, j - 1)
  }

  /** The weight records of the connections below connection c. */
  function WeightRecords(p: Params, c: nat): (r: seq<Record>)
    requires Shaped(p) && c <= ConnectionCount
  {
    if c == 0 then [] else WeightRecords(p, c - 1) + ConnRecords(p, c - 1, LayerSize(c))
  }

  /** Everything dump_states writes, in order. */
  function DumpRecords(p: Params): (r: seq<Record>)
    requires Shaped(p)
  {
    BiasRecords(p, LayerCount) + WeightRecords(p, ConnectionCount)
  }

  /** The record a slot holds in the dump of p. */
  function RecordOf(p: Params, s: Slot): Record
    requires Shaped(p) && ValidSlot(s)
  {
    match s
    case BiasSlot(i, j) => BiasRecord(i, j, p.biases[i][j])
    case WeightSlot(c, j, k) => WeightRecord(c, j, k, p.weights[c][j][k])
  }

  lemma {:induction false} BiasRecordsAt(p: Params, n: nat, i: nat, j: nat)
    requires Shaped(p) && n <= LayerCount && i < n && j < LayerSize(i)
    ensures |BiasRecords(p, n)| == BiasStart(n)
    ensures BiasStart(i) + j < BiasStart(n)
    ensures BiasRecords(p, n)[BiasStart(i) + j] == BiasRecord(i, j, p.biases[i][j])
  {
    BiasRecordsLength(p, n - 1);
    if i < n - 1 {
      BiasRecordsAt(p, n - 1, i, j);
    }
  }

  lemma {:induction false} BiasRecordsLength(p: Params, n: nat)
    requires Shaped(p) && n <= LayerCount
    ensures |BiasRecords(p, n)| == BiasStart(n)
  {
    if n > 0 {
      BiasRecordsLength(p, n - 1);
    }
  }

  lemma {:induction false} ConnRecordsLength(p: Params, c: nat, n: nat)
    requires Shaped(p) && c < ConnectionCount && n <= LayerSize(c + 1)
    ensures |ConnRecords(p, c, n)| == RowOffset(c, n)
  {
    if n > 0 {
      ConnRecordsLength(p, c, n - 1);
      RowOffsetStep(c, n - 1);
    }
  }

  lemma {:induction false} ConnRecordsAt(p: Params, c: nat, n: nat, j: nat, k: nat)
    requires Shaped(p) && c < ConnectionCount && n <= LayerSize(c + 1)
    requires j < n && Emitted(c, j) && k < LayerSize(c)
    ensures RowOffset(c, j) + k < |ConnRecords(p, c, n)|
    ensures ConnRecords(p, c, n)[RowOffset(c, j) + k] == WeightRecord(c, j, k, p.weights[c][j][k])
  {
    ConnRecordsLength(p, c, n - 1);
    ConnRecordsLength(p, c, n);
    if j < n - 1 {
      ConnRecordsAt(p, c, n - 1, j, k);
    }
  }

  lemma {:induction false} WeightRecordsLength(p: Params, n: nat)
    requires Shaped(p) && n <= ConnectionCount
    ensures |WeightRecords(p, n)| == WeightStart(n)
  {
    if n > 0 {
      WeightRecordsLength(p, n - 1);
      ConnRecordsLength(p, n - 1, LayerSize(n));
    }
  }

  lemma {:induction false} WeightRecordsAt(p: Params, n: nat, c: nat, j: nat, k: nat)
    requires Shaped(p) && n <= ConnectionCount && c < n
    requires j < LayerSize(c + 1) && Emitted(c, j) && k < LayerSize(c)
    ensures WeightStart(c) + RowOffset(c, j) + k < |WeightRecords(p, n)|
    ensures WeightRecords(p, n)[WeightStart(c) + RowOffset(c, j) + k] == WeightRecord(c, j, k, p.weights[c][j][k])
  {
    var front := WeightRecords(p, n - 1);
    var last := ConnRecords(p, n - 1, LayerSize(n));
    assert WeightRecords(p, n) == front + last;
    WeightRecordsLength(p, n - 1);
    if c < n - 1 {
      WeightRecordsAt(p, n - 1, c, j, k);
    } else {
      ConnRecordsAt(p, c, LayerSize(c + 1), j, k);
    }
  }

  lemma DumpLength(p: Params)
    requires Shaped(p)
    ensures |DumpRecords(p)| == RecordCount()
  {
    BiasRecordsLength(p, LayerCount);
    WeightRecordsLength(p, ConnectionCount);
    RecordCountValue();
  }

  lemma DumpAtBias(p: Params, i: nat, j: nat)
    requires Shaped(p) && ValidSlot(BiasSlot(i, j))
    ensures |DumpRecords(p)| == RecordCount()
    ensures DumpRecords(p)[Position(BiasSlot(i, j))] == BiasRecord(i, j, p.biases[i][j])
  {
    DumpLength(p);
    BiasRecordsAt(p, LayerCount, i, j);
    assert DumpRecords(p) == BiasRecords(p, LayerCount) + WeightRecords(p, ConnectionCount);
  }

  lemma DumpAtWeight(p: Params, c: nat, j: nat, k: nat)
    requires Shaped(p) && ValidSlot(WeightSlot(c, j, k))
    ensures |DumpRecords(p)| == RecordCount()
    ensures DumpRecords(p)[Position(WeightSlot(c, j, k))] == WeightRecord(c, j, k, p.weights[c][j][k])
  {
    DumpLength(p);
    BiasRecordsLength(p, LayerCount);
    WeightRecordsAt(p, ConnectionCount, c, j, k);
    assert DumpRecords(p) == BiasRecords(p, LayerCount) + WeightRecords(p, ConnectionCount);
  }

  /** A dump holds RecordCount() records, the record of every slot at that slot's position. */
  lemma DumpAt(p: Params, s: Slot)
    requires Shaped(p) && ValidSlot(s)
    ensures |DumpRecords(p)| == RecordCount()
    ensures DumpRecords(p)[Position(s)] == RecordOf(p, s)
  {
    match s
    case BiasSlot(i, j) => DumpAtBias(p, i, j);
    case WeightSlot(c, j, k) => DumpAtWeight(p, c, j, k);
  }

  // ---------------------------------------------------------------------------
  // Load
  // ---------------------------------------------------------------------------

  /**
   * What load_states leaves behind when it reads `recs` over `prior`: every
   * bias and every dumped weight takes the value of the record at its slot's
   * position; the skipped rows keep their prior weights.
   */
  function LoadRecords(prior: Params, recs: seq<Record>): (p: Params)
    requires Shaped(prior) && |recs| >= RecordCount()
    ensures Shaped(p)
  {
    Params(LoadedBiases(recs), LoadedWeights(prior, recs))
  }

  /** The biases load_states reads: the value of the record at each bias slot's position. */
  function LoadedBiases(recs: seq<Record>): (b: seq<seq<real>>)
    requires |recs| >= RecordCount()
    ensures |b| == LayerCount && forall i :: 0 <= i < LayerCount ==> |b[i]| == LayerSize(i)
  {
    seq(LayerCount, i requires 0 <= i < LayerCount =>
      seq(LayerSize(i), j requires 0 <= j < LayerSize(i) => recs[Position(BiasSlot(i, j))].value))
  }

  /** The weights of connection c after load_states: read for a dumped row, kept for a skipped one. */
  function LoadedConnection(prior: Params, recs: seq<Record>, c: nat): (w: seq<seq<real>>)
    requires Shaped(prior) && |recs| >= RecordCount() && c < ConnectionCount
    ensures |w| == LayerSize(c + 1) && forall j :: 0 <= j < LayerSize(c + 1) ==> |w[j]| == LayerSize(c)
  {
    seq(LayerSize(c + 1), j requires 0 <= j < LayerSize(c + 1) =>
      seq(LayerSize(c), k requires 0 <= k < LayerSize(c) =>
        if Emitted(c, j) then recs[Position(WeightSlot(c, j, k))].value else prior.weights[c][j][k]))
  }

  function LoadedWeights(prior: Params, recs: seq<Record>): (w: seq<seq<seq<real>>>)
    requires Shaped(prior) && |recs| >= RecordCount()
    ensures |w| == ConnectionCount
    ensures forall c :: 0 <= c < ConnectionCount ==> w[c] == LoadedConnection(prior, recs, c)
  {
    seq(ConnectionCount, c requires 0 <= c < ConnectionCount => LoadedConnection(prior, recs, c))
  }

  /** What load_states leaves in the weights depends on the prior state only through its weights. */
  lemma LoadedWeightsKeep(prior: Params, prior': Params, recs: seq<Record>)
    requires Shaped(prior) && Shaped(prior') && prior.weights == prior'.weights && |recs| >= RecordCount()
    ensures LoadedWeights(prior, recs) == LoadedWeights(prior', recs)
  {
    forall c | 0 <= c < ConnectionCount
      ensures LoadedConnection(prior, recs, c) == LoadedConnection(prior', recs, c)
    {
    }
  }

  lemma LoadDumpBiases(p: Params)
    requires Shaped(p)
    ensures |DumpRecords(p)| == RecordCount()
    ensures LoadedBiases(DumpRecords(p)) == p.biases
  {
    DumpLength(p);
    var b := LoadedBiases(DumpRecords(p));
    forall i | 0 <= i < LayerCount
      ensures b[i] == p.biases[i]
    {
      forall j | 0 <= j < LayerSize(i)
        ensures b[i][j] == p.biases[i][j]
      {
        DumpAtBias(p, i, j);
      }
    }
  }

  lemma LoadDumpWeight(prior: Params, p: Params, c: nat, j: nat, k: nat)
    requires Shaped(prior) && Shaped(p)
    requires c < ConnectionCount && j < LayerSize(c + 1) && k < LayerSize(c)
    ensures |DumpRecords(p)| == RecordCount()
    ensures LoadedConnection(prior, DumpRecords(p), c)[j][k]
         == if Emitted(c, j) then p.weights[c][j][k] else prior.weights[c][j][k]
  {
    DumpLength(p);
    if Emitted(c, j) {
      DumpAtWeight(p, c, j, k);
    }
  }

  /**
   * Loading a dump restores every bias and every dumped weight; the weights
   * of the skipped rows are those held before the load.
   */
  lemma LoadDump(prior: Params, p: Params)
    requires Shaped(prior) && Shaped(p)
    ensures |DumpRecords(p)| == RecordCount()
    ensures LoadRecords(prior, DumpRecords(p)).biases == p.biases
    ensures forall c, j, k :: 0 <= c < ConnectionCount && 0 <= j < LayerSize(c + 1) && 0 <= k < LayerSize(c) ==>
              LoadRecords(prior, DumpRecords(p)).weights[c][j][k]
                == if Emitted(c, j) then p.weights[c][j][k] else prior.weights[c][j][k]
  {
    LoadDumpBiases(p);
    forall c, j, k | 0 <= c < ConnectionCount && 0 <= j < LayerSize(c + 1) && 0 <= k < LayerSize(c)
      ensures LoadRecords(prior, DumpRecords(p)).weights[c][j][k]
           == if Emitted(c, j) then p.weights[c][j][k] else prior.weights[c][j][k]
    {
      LoadDumpWeight(prior, p, c, j, k);
    }
  }

  /** A dump taken after loading a dump is the same dump. */
  lemma DumpLoadDump(prior: Params, p: Params)
    requires Shaped(prior) && Shaped(p)
    ensures |DumpRecords(p)| == RecordCount()
    ensures DumpRecords(LoadRecords(prior, DumpRecords(p))) == DumpRecords(p)
  {
    DumpLength(p);
    var q := LoadRecords(prior, DumpRecords(p));
    DumpLength(q);
    forall n | 0 <= n < RecordCount()
      ensures DumpRecords(q)[n] == DumpRecords(p)[n]
    {
      var s := SlotAt(n);
      DumpAt(p, s);
      DumpAt(q, s);
      match s
      case BiasSlot(i, j) =>
        LoadDumpBiases(p);
      case WeightSlot(c, j, k) =>
        LoadDumpWeight(prior, p, c, j, k);
    }
  }
}
