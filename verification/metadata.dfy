/** Attention metadata of a flattened batch (minivllm/model_executor/attention.py). */
module Metadata {
  import opened Protocol
  import opened Arith
  import opened KVCache
  import opened WorkerSide
  import opened PagedDecode

  datatype AttentionMetadata = AttentionMetadata(
    positions: seq<nat>,
    slotMapping: seq<Slot>,
    queryStartLoc: seq<nat>,
    seqLens: seq<nat>,
    blockTables: seq<seq<int>>,
    requestIndices: seq<nat>,
    isDecode: seq<bool>,
    activeMask: seq<bool>)

  /** Request k repeated once for each of its tokens, for the first n requests. */
  function RequestIndices(starts: seq<nat>, n: nat): seq<nat>
    requires n < |starts| && Sorted(starts)
  {
    if n == 0 then [] else RequestIndices(starts, n - 1) + seq(starts[n] - starts[n - 1], _ => n - 1)
  }

  /** Width of the padded tables: the given one, or the batch's own when none (zero) is given. */
  function TableWidth(b: GPUInputBatch, maxBlocks: nat): nat
    requires b.blockTables != []
  {
    if maxBlocks == 0 then |b.blockTables[0]| else maxBlocks
  }

  /** `AttentionMetadata.from_batch`; `None` is its ValueError. */
  function FromBatch(b: GPUInputBatch, maxBlocks: nat): Option<AttentionMetadata>
    requires Shaped(b, |b.requestIds|) && b.requestIds != []
  {
    var width := TableWidth(b, maxBlocks);
    if width < |b.blockTables[0]| then None
    else Some(AttentionMetadata(
      b.positions, b.slotMapping, b.queryStartLoc, b.seqLens,
      seq(|b.blockTables|, k requires 0 <= k < |b.blockTables| => PadTable(b.blockTables[k], width)),
      RequestIndices(b.queryStartLoc, |b.requestIds|),
      b.isDecode,
      seq(|b.inputIds|, _ => true)))
  }

  /** Token j belongs to request k. */
  predicate Within(starts: seq<nat>, k: nat, j: nat)
    requires k + 1 < |starts|
  {
    starts[k] <= j < starts[k + 1]
  }

  /** `request_indices` inverts `query_start_loc`. */
  lemma {:induction false} IndicesInvert(starts: seq<nat>, n: nat, j: nat)
    requires n < |starts| && Sorted(starts) && starts[0] == 0 && j < starts[n]
    ensures |RequestIndices(starts, n)| == starts[n]
    ensures RequestIndices(starts, n)[j] < n
    ensures forall k :: 0 <= k < n ==> (RequestIndices(starts, n)[j] == k <==> Within(starts, k, j))
  {
    IndicesLength(starts, n);
    IndicesLength(starts, n - 1);
    var last := n - 1;
    if j < starts[last] {
      IndicesInvert(starts, last, j);
    } else {
      assert RequestIndices(starts, n)[j] == last;
      assert forall k :: 0 <= k < last ==> !Within(starts, k, j);
    }
  }

  lemma {:induction false} IndicesLength(starts: seq<nat>, n: nat)
    requires n < |starts| && Sorted(starts) && starts[0] == 0
    ensures |RequestIndices(starts, n)| == starts[n]
  {
    if n > 0 { IndicesLength(starts, n - 1); }
  }

  /** Token positions of one request: consecutive from its start position. */
  ghost predicate PositionsOk(positions: seq<nat>, start: nat, end: nat, first: nat) {
    start <= end <= |positions| && forall j :: start <= j < end ==> positions[j] == first + (j - start)
  }

  /** A padded table addresses the item's context by the item's own blocks. */
  ghost predicate TableAgrees(sh: Shape, table: seq<int>, item: WorkerItem)
    requires sh.blockSize > 0
  {
    var n := CeilDiv(item.seqLen, sh.blockSize);
    n <= |table| && n <= |item.blockTable| && TableOk(sh, table, item.seqLen) && forall j :: 0 <= j < n ==>
      table[j] == item.blockTable[j]
  }

  /** What the kernels may rely on in request k's row of the metadata. */
  ghost predicate RowOk(md: AttentionMetadata, k: nat, item: WorkerItem, sh: Shape)
    requires sh.blockSize > 0
  {
    && k + 1 < |md.queryStartLoc| && k < |md.seqLens| && k < |md.blockTables| && k < |md.isDecode|
    && md.queryStartLoc[k + 1] == md.queryStartLoc[k] + |item.tokenIds|
    && md.seqLens[k] == item.seqLen == item.startPos + |item.tokenIds|
    && PositionsOk(md.positions, md.queryStartLoc[k], md.queryStartLoc[k + 1], item.startPos)
    && TableAgrees(sh, md.blockTables[k], item)
    && md.isDecode[k] == (|item.tokenIds| == 1 && item.generatedCount > 0)
  }

  ghost predicate MetadataOk(md: AttentionMetadata, items: seq<WorkerItem>, sh: Shape)
    requires sh.blockSize > 0
  {
    && |md.queryStartLoc| == |items| + 1 && Sorted(md.queryStartLoc) && md.queryStartLoc[0] == 0
    && |md.seqLens| == |md.blockTables| == |md.isDecode| == |items|
    && md.queryStartLoc[|items|] == |md.positions| == |md.slotMapping| == |md.activeMask|
    && md.requestIndices == RequestIndices(md.queryStartLoc, |items|)
    && (forall j :: 0 <= j < |md.activeMask| ==> md.activeMask[j])
    && forall k :: 0 <= k < |items| ==> items[k].tokenIds != [] && RowOk(md, k, items[k], sh)
  }

  /** Blocks that the items' tables name are physical. */
  ghost predicate TablesPhysical(items: seq<WorkerItem>, sh: Shape) {
    forall k, j :: 0 <= k < |items| && 0 <= j < |items[k].blockTable| ==> items[k].blockTable[j] < sh.blocks
  }

  lemma {:induction false} FlattenTables(items: seq<WorkerItem>, blockSize: nat, k: nat)
    requires blockSize > 0 && AllAccepted(items, blockSize) && k < |items|
    ensures k < |Flatten(items, blockSize).blockTables|
    ensures ItemAccepted(items[k], blockSize)
    ensures Flatten(items, blockSize).blockTables[k] == items[k].blockTable[..CeilDiv(items[k].seqLen, blockSize)]
    ensures |Flatten(items, blockSize).blockTables[k]| == CeilDiv(items[k].seqLen, blockSize)
  {
    hide CeilDiv;
    var front := items[..|items| - 1];
    FlattenShape(front, blockSize);
    if k < |front| { FlattenTables(front, blockSize, k); }
  }

  lemma {:induction false} WidthBounds(tables: seq<seq<int>>, k: nat)
    requires k < |tables|
    ensures |tables[k]| <= MaxWidth(tables)
  {
    if k < |tables| - 1 { WidthBounds(tables[..|tables| - 1], k); }
  }

  lemma {:induction false} WidthLeast(tables: seq<seq<int>>, width: nat)
    requires forall k :: 0 <= k < |tables| ==> |tables[k]| <= width
    ensures MaxWidth(tables) <= width
  {
    if tables != [] { WidthLeast(tables[..|tables| - 1], width); }
  }

  /** Padding brings every table to the width of the widest one, and fills up with -1. */
  lemma PaddedTables(tables: seq<seq<int>>, k: nat)
    requires k < |tables|
    ensures var padded := PadTables(tables);
      && |padded| == |tables| && |padded[k]| == MaxWidth(tables) && |tables[k]| <= |padded[k]|
      && padded[k][..|tables[k]|] == tables[k]
      && (forall j :: |tables[k]| <= j < |padded[k]| ==> padded[k][j] == -1)
      && exists w :: 0 <= w < |tables| && |tables[w]| == MaxWidth(tables)
  {
    WidthBounds(tables, k);
    WidthAttained(tables);
  }

  lemma {:induction false} WidthAttained(tables: seq<seq<int>>)
    requires tables != []
    ensures exists w :: 0 <= w < |tables| && |tables[w]| == MaxWidth(tables)
  {
    var front, last := tables[..|tables| - 1], |tables| - 1;
    if front == [] || |tables[last]| > MaxWidth(front) {
      assert |tables[last]| == MaxWidth(tables);
    } else {
      WidthAttained(front);
      var w :| 0 <= w < |front| && |front[w]| == MaxWidth(front);
      assert tables[w] == front[w];
    }
  }

  lemma PaddedTable(table: seq<int>, inner: nat, outer: nat, n: nat)
    requires n == |table| <= inner <= outer
    ensures |PadTable(PadTable(table, inner), outer)| == outer
    ensures forall j :: 0 <= j < n ==> PadTable(PadTable(table, inner), outer)[j] == table[j]
  {}

  lemma PositionsFlattened(items: seq<WorkerItem>, blockSize: nat, k: nat)
    requires blockSize > 0 && AllAccepted(items, blockSize) && k < |items|
    ensures var flat, item := Flatten(items, blockSize), items[k];
      && k + 1 < |flat.queryStartLoc| && k < |flat.seqLens| && k < |flat.isDecode|
      && flat.queryStartLoc[k + 1] == flat.queryStartLoc[k] + |item.tokenIds|
      && flat.seqLens[k] == item.seqLen == item.startPos + |item.tokenIds|
      && flat.isDecode[k] == (|item.tokenIds| == 1 && item.generatedCount > 0)
      && PositionsOk(flat.positions, flat.queryStartLoc[k], flat.queryStartLoc[k + 1], item.startPos)
  {
    hide CeilDiv, Flatten, SlotsOf, Covers;
    FlattenSegment(items, blockSize, k);
    var flat, item := Flatten(items, blockSize), items[k];
    var q, q' := flat.queryStartLoc[k], flat.queryStartLoc[k + 1];
    forall j | q <= j < q' ensures flat.positions[j] == item.startPos + (j - q) {
      assert flat.positions[q..q'][j - q] == flat.positions[j];
    }
  }

  lemma TableFlattened(sh: Shape, item: WorkerItem, inner: nat, outer: nat)
    requires sh.blockSize > 0 && ItemAccepted(item, sh.blockSize)
    requires forall j :: 0 <= j < |item.blockTable| ==> item.blockTable[j] < sh.blocks
    requires CeilDiv(item.seqLen, sh.blockSize) <= inner <= outer
    ensures TableAgrees(sh, PadTable(PadTable(item.blockTable[..CeilDiv(item.seqLen, sh.blockSize)], inner), outer),
      item)
  {
    hide CeilDiv, PadTable;
    var n := CeilDiv(item.seqLen, sh.blockSize);
    PaddedTable(item.blockTable[..n], inner, outer, n);
  }

  lemma RowFromBatch(items: seq<WorkerItem>, sh: Shape, width: nat, md: AttentionMetadata, k: nat)
    requires sh.blockSize > 0 && items != [] && AllAccepted(items, sh.blockSize) && TablesPhysical(items, sh)
    requires k < |items|
    requires var flat := Flatten(items, sh.blockSize);
      && Shaped(flat, |items|) && width >= MaxWidth(flat.blockTables)
      && md.positions == flat.positions && md.queryStartLoc == flat.queryStartLoc && md.seqLens == flat.seqLens
      && md.isDecode == flat.isDecode && |md.blockTables| == |items|
      && md.blockTables[k] == PadTable(PadTable(flat.blockTables[k], MaxWidth(flat.blockTables)), width)
    ensures RowOk(md, k, items[k], sh)
  {
    hide CeilDiv, Flatten, PadTable, MaxWidth, Covers, PositionsOk, TableAgrees, ItemAccepted;
    PositionsFlattened(items, sh.blockSize, k);
    FlattenTables(items, sh.blockSize, k);
    WidthBounds(Flatten(items, sh.blockSize).blockTables, k);
    TableFlattened(sh, items[k], MaxWidth(Flatten(items, sh.blockSize).blockTables), width);
  }

  /** Metadata of any accepted batch exists exactly when no width is configured or the configured one
      holds its widest table. */
  lemma MetadataFromBatch(items: seq<WorkerItem>, sh: Shape, maxBlocks: nat)
    requires sh.blockSize > 0 && items != [] && AllAccepted(items, sh.blockSize) && TablesPhysical(items, sh)
    ensures var b := FromWorkerBatch(items, sh.blockSize).value;
      && Shaped(b, |b.requestIds|) && |b.requestIds| == |items|
      && (FromBatch(b, maxBlocks).Some? <==> maxBlocks == 0 || forall k :: 0 <= k < |items| ==>
            CeilDiv(items[k].seqLen, sh.blockSize) <= maxBlocks)
      && (FromBatch(b, maxBlocks).Some? ==> MetadataOk(FromBatch(b, maxBlocks).value, items, sh))
  {
    hide CeilDiv, Flatten, RowOk, MaxWidth, SlotsOf;
    var flat := Flatten(items, sh.blockSize);
    FlattenShape(items, sh.blockSize);
    var b := FromWorkerBatch(items, sh.blockSize).value;
    var tables := flat.blockTables;
    forall k | 0 <= k < |items| ensures |tables[k]| == CeilDiv(items[k].seqLen, sh.blockSize) {
      FlattenTables(items, sh.blockSize, k);
    }
    PaddedWidth(tables);
    if maxBlocks == 0 || (forall k :: 0 <= k < |items| ==> CeilDiv(items[k].seqLen, sh.blockSize) <= maxBlocks) {
      if maxBlocks != 0 { WidthLeast(tables, maxBlocks); }
      var md := FromBatch(b, maxBlocks).value;
      forall k | 0 <= k < |items| ensures RowOk(md, k, items[k], sh) {
        RowFromBatch(items, sh, TableWidth(b, maxBlocks), md, k);
      }
    } else {
      var k :| 0 <= k < |items| && CeilDiv(items[k].seqLen, sh.blockSize) > maxBlocks;
      WidthBounds(tables, k);
    }
  }

  lemma PaddedWidth(tables: seq<seq<int>>)
    requires tables != []
    ensures |PadTables(tables)| == |tables| && |PadTables(tables)[0]| == MaxWidth(tables)
  {
    WidthBounds(tables, 0);
  }
}
