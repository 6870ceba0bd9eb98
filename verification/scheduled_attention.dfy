/** Attention of a scheduled batch end to end: the kernels read a position at the slot that the
    scheduler gave it, so each row attends to what was cached for its own request and to the K/V of
    its own chunk, and to nothing else. */
module ScheduledAttention {
  import opened Protocol
  import opened Arith
  import opened KVCache
  import opened Scheduling
  import opened WorkerSide
  import opened Isolation
  import opened Planning
  import opened RealSums
  import opened Softmax
  import opened Attention
  import opened PagedDecode
  import opened Metadata
  import opened CacheAppend
  import opened KernelSplit
  import opened ScheduledKernels
  import PagedValidation

  /** The slot that the kernels compute for position p of request k is the one in the Worker's context
      mapping, which is the one that the scheduler's block table gives. */
  lemma ContextSlot(sh: Shape, items: seq<WorkerItem>, md: AttentionMetadata, k: nat, p: nat)
    requires sh.blockSize > 0 && AllAccepted(items, sh.blockSize) && MetadataOk(md, items, sh)
    requires k < |items| && p < items[k].seqLen
    ensures var b := Flatten(items, sh.blockSize);
      && k < |b.contextStartLoc| && b.contextStartLoc[k] + p < |b.contextSlotMapping|
      && TableOk(sh, md.blockTables[k], items[k].seqLen) && p / sh.blockSize < |items[k].blockTable|
      && PhysicalSlot(sh, md.blockTables[k], items[k].seqLen, p) == b.contextSlotMapping[b.contextStartLoc[k] + p]
      && PhysicalSlot(sh, md.blockTables[k], items[k].seqLen, p) == SlotAt(items[k].blockTable, sh.blockSize, p)
  {
    hide Flatten, RequestIndices, PositionsOk, CeilDiv, SlotAt, TableOk;
    var b, item := Flatten(items, sh.blockSize), items[k];
    FlattenSegment(items, sh.blockSize, k);
    PositionInBlocks(p, item.seqLen, sh.blockSize);
    assert RowOk(md, k, item, sh);
    SameSlot(sh, md.blockTables[k], item, p);
    var c, c' := b.contextStartLoc[k], b.contextStartLoc[k + 1];
    assert b.contextSlotMapping[c + p] == b.contextSlotMapping[c..c'][p];
  }

  lemma SameSlot(sh: Shape, table: seq<int>, item: WorkerItem, p: nat)
    requires sh.blockSize > 0 && TableAgrees(sh, table, item) && p < item.seqLen
    ensures p / sh.blockSize < |item.blockTable|
    ensures PhysicalSlot(sh, table, item.seqLen, p) == SlotAt(item.blockTable, sh.blockSize, p)
  {
    hide CeilDiv;
    PositionInBlocks(p, item.seqLen, sh.blockSize);
  }

  // ------------------------------------------------------------ what a context holds

  /** Head g of position p of request k: cached before the batch, or one of the chunk's own rows. */
  ghost function ContextVec(sh: Shape, before: seq<real>, input: seq<real>, item: WorkerItem, first: nat, g: nat,
                            p: nat): (v: seq<real>)
    requires InContext(sh, before, input, item, first) && g < sh.kvHeads && p < item.seqLen
    ensures |v| == sh.headDim
  {
    PositionInBlocks(p, item.seqLen, sh.blockSize);
    BlockInRange(sh, item, p);
    if p < item.startPos then CacheVec(sh, before, SlotAt(item.blockTable, sh.blockSize, p), g)
    else InputVec(sh, input, sh.batch, first + (p - item.startPos), g)
  }

  /** The item's blocks are physical, and its tokens are rows first, first + 1, ... of the input. */
  ghost predicate InContext(sh: Shape, before: seq<real>, input: seq<real>, item: WorkerItem, first: nat) {
    && sh.blockSize > 0 && ItemAccepted(item, sh.blockSize)
    && (forall j :: 0 <= j < |item.blockTable| ==> item.blockTable[j] < sh.blocks)
    && first + |item.tokenIds| <= sh.batch
    && IsMatrix(before, CacheRows(sh), sh.headDim) && IsMatrix(input, sh.batch * sh.kvHeads, sh.headDim)
  }

  lemma BlockInRange(sh: Shape, item: WorkerItem, p: nat)
    requires sh.blockSize > 0 && p / sh.blockSize < |item.blockTable|
    requires forall j :: 0 <= j < |item.blockTable| ==> item.blockTable[j] < sh.blocks
    ensures 0 <= SlotAt(item.blockTable, sh.blockSize, p) < CacheSlots(sh)
  {
    DivMonotone(0, p, sh.blockSize);
    SlotInRange(item.blockTable[p / sh.blockSize], p % sh.blockSize, sh.blocks, sh.blockSize);
  }

  /** The first n positions of the context, head by head. */
  ghost function ContextHeads(sh: Shape, before: seq<real>, input: seq<real>, item: WorkerItem, first: nat,
                              n: nat): (heads: seq<seq<seq<real>>>)
    requires InContext(sh, before, input, item, first) && n <= item.seqLen
    ensures |heads| == sh.kvHeads
    ensures forall g :: 0 <= g < |heads| ==> |heads[g]| == n && AllWide(heads[g], sh.headDim)
  {
    seq(sh.kvHeads, g requires 0 <= g < sh.kvHeads => HeadContext(sh, before, input, item, first, g, n))
  }

  ghost function HeadContext(sh: Shape, before: seq<real>, input: seq<real>, item: WorkerItem, first: nat, g: nat,
                             n: nat): (vs: seq<seq<real>>)
    requires InContext(sh, before, input, item, first) && g < sh.kvHeads && n <= item.seqLen
    ensures |vs| == n && AllWide(vs, sh.headDim)
  {
    seq(n, p requires 0 <= p < n => ContextVec(sh, before, input, item, first, g, p))
  }

  // ------------------------------------------------------------ after the append

  /** No token of the batch is written to a slot of an already computed position. */
  lemma ComputedKept(cfg: Config, s: Sched, items: seq<WorkerItem>, k: nat, p: nat)
    requires SchedInv(cfg, s, items) && AllAccepted(items, cfg.blockSize) && k < |items| && p < items[k].startPos
    requires p / cfg.blockSize < |items[k].blockTable|
    ensures SlotAt(items[k].blockTable, cfg.blockSize, p) !in Flatten(items, cfg.blockSize).slotMapping
  {
    hide IdsOk, PoolOk, TablesOk, RequestsOk, ItemFor, SizesOk, Flatten, ItemAccepted, SlotAt;
    var slots, x := Flatten(items, cfg.blockSize).slotMapping, SlotAt(items[k].blockTable, cfg.blockSize, p);
    ItemSlots(cfg, s, items, k);
    forall j | 0 <= j < |slots| ensures slots[j] != x {
      var l, o := Locate(items, cfg.blockSize, j);
      ItemSlots(cfg, s, items, l);
      if slots[j] == x {
        SlotDetermines(cfg, s, items[k].id, p, items[l].id, items[l].startPos + o, x);
      }
    }
  }

  ghost predicate BatchCache(cfg: Config, s: Sched, items: seq<WorkerItem>, sh: Shape) {
    && SchedInv(cfg, s, items) && items != [] && ShapeFor(cfg, sh) && AllAccepted(items, cfg.blockSize)
    && sh.batch == |Flatten(items, cfg.blockSize).inputIds|
  }

  /** What the append of a scheduled batch needs and leaves. */
  ghost predicate BatchAppended(cfg: Config, items: seq<WorkerItem>, sh: Shape, input: seq<real>, before: seq<real>,
                                after: seq<real>)
    requires AllAccepted(items, cfg.blockSize)
  {
    var slots := Flatten(items, cfg.blockSize).slotMapping;
    && |slots| == sh.batch && (forall j :: 0 <= j < |slots| ==> slots[j] >= 0)
    && AppendArgs(sh, slots, AllActive(|slots|)) && IsMatrix(input, |slots| * sh.kvHeads, sh.headDim)
    && IsMatrix(before, CacheRows(sh), sh.headDim) && IsMatrix(after, CacheRows(sh), sh.headDim)
    && Appended(sh, slots, AllActive(|slots|), input, before, after)
  }

  /** Item k's rows lie at its start location, and its blocks are physical. */
  ghost predicate Placed(b: GPUInputBatch, item: WorkerItem, k: nat, sh: Shape, input: seq<real>, before: seq<real>) {
    && sh.blockSize > 0 && ItemAccepted(item, sh.blockSize) && Segment(b, k, item, sh.blockSize)
    && InContext(sh, before, input, item, b.queryStartLoc[k])
  }

  lemma ItemContext(items: seq<WorkerItem>, sh: Shape, input: seq<real>, before: seq<real>, k: nat)
    requires sh.blockSize > 0 && AllAccepted(items, sh.blockSize) && TablesPhysical(items, sh) && k < |items|
    requires sh.batch == |Flatten(items, sh.blockSize).inputIds|
    requires IsMatrix(before, CacheRows(sh), sh.headDim) && IsMatrix(input, sh.batch * sh.kvHeads, sh.headDim)
    ensures Placed(Flatten(items, sh.blockSize), items[k], k, sh, input, before)
  {
    hide Flatten, Covers, SlotsOf, CacheRows, IsMatrix;
    FlattenShape(items, sh.blockSize);
    FlattenSegment(items, sh.blockSize, k);
  }

  /** After the append the slot of position p holds the chunk's own row, or what it held before. */
  lemma AppendedContext(cfg: Config, s: Sched, items: seq<WorkerItem>, sh: Shape, input: seq<real>, before: seq<real>,
                        after: seq<real>, k: nat, p: nat, g: nat)
    requires AllAccepted(items, cfg.blockSize) && BatchCache(cfg, s, items, sh)
    requires k < |items| && p < items[k].seqLen && g < sh.kvHeads
    requires BatchAppended(cfg, items, sh, input, before, after)
    ensures var first := Flatten(items, cfg.blockSize).queryStartLoc;
      && k < |first| && InContext(sh, before, input, items[k], first[k]) && p / sh.blockSize < |items[k].blockTable|
      && 0 <= SlotAt(items[k].blockTable, sh.blockSize, p) < CacheSlots(sh)
      && CacheVec(sh, after, SlotAt(items[k].blockTable, sh.blockSize, p), g)
         == ContextVec(sh, before, input, items[k], first[k], g, p)
  {
    hide SchedInv, Flatten, ShapeOk, CacheRows, IsMatrix, CacheVec, InputVec, SlotAt, CeilDiv;
    var b, item := Flatten(items, cfg.blockSize), items[k];
    ScheduledTables(cfg, s, items, sh);
    ItemContext(items, sh, input, before, k);
    PositionInBlocks(p, item.seqLen, cfg.blockSize);
    BlockInRange(sh, item, p);
    var slot := SlotAt(item.blockTable, cfg.blockSize, p);
    if p < item.startPos {
      ComputedKept(cfg, s, items, k, p);
      assert !WritesSlot(b.slotMapping, AllActive(|b.slotMapping|), slot);
    } else {
      var i := p - item.startPos;
      ItemSlotIs(cfg, s, items, k, i);
      var q := b.queryStartLoc[k];
      assert b.slotMapping[q..b.queryStartLoc[k + 1]][i] == b.slotMapping[q + i] == slot;
      assert AllActive(|b.slotMapping|)[q + i];
    }
  }

  lemma ItemSlotIs(cfg: Config, s: Sched, items: seq<WorkerItem>, k: nat, i: nat)
    requires SchedInv(cfg, s, items) && k < |items| && i < |items[k].tokenIds|
    ensures i < |items[k].slotMapping| && (items[k].startPos + i) / cfg.blockSize < |items[k].blockTable|
    ensures items[k].slotMapping[i] == SlotAt(items[k].blockTable, cfg.blockSize, items[k].startPos + i)
  {
    hide IdsOk, CacheOk, RequestsOk, SizesOk, ItemsOk, SlotAt;
    ItemSlots(cfg, s, items, k);
    assert SlotOfPosition(cfg, s, items[k].id, items[k].startPos + i, items[k].slotMapping[i]);
  }

  /** Read through request k's padded table, the first n positions are its context. */
  lemma PagedContext(cfg: Config, s: Sched, items: seq<WorkerItem>, sh: Shape, md: AttentionMetadata, input: seq<real>,
                     before: seq<real>, after: seq<real>, k: nat, n: nat, g: nat)
    requires AllAccepted(items, cfg.blockSize) && BatchCache(cfg, s, items, sh)
    requires k < |items| && n <= items[k].seqLen && g < sh.kvHeads
    requires BatchAppended(cfg, items, sh, input, before, after) && MetadataOk(md, items, sh)
    ensures var first := Flatten(items, cfg.blockSize).queryStartLoc;
      && k < |first| && InContext(sh, before, input, items[k], first[k]) && TableOk(sh, md.blockTables[k], n)
      && Paged(sh, after, md.blockTables[k], n, g) == HeadContext(sh, before, input, items[k], first[k], g, n)
  {
    hide SchedInv, Flatten, ShapeOk, CacheRows, IsMatrix, ContextVec, SlotAt, CeilDiv, Appended, AppendArgs;
    hide RequestIndices, TableOk, PhysicalSlot, Vec;
    ScheduledTables(cfg, s, items, sh);
    ItemContext(items, sh, input, before, k);
    assert RowOk(md, k, items[k], sh);
    ShorterTable(sh, md.blockTables[k], items[k].seqLen, n);
    forall p | 0 <= p < n
      ensures Paged(sh, after, md.blockTables[k], n, g)[p]
        == ContextVec(sh, before, input, items[k], Flatten(items, cfg.blockSize).queryStartLoc[k], g, p)
    {
      ContextSlot(sh, items, md, k, p);
      SameLength(sh, md.blockTables[k], items[k].seqLen, n, p);
      AppendedContext(cfg, s, items, sh, input, before, after, k, p, g);
    }
  }

  lemma SameLength(sh: Shape, table: seq<int>, len: nat, n: nat, p: nat)
    requires sh.blockSize > 0 && TableOk(sh, table, len) && TableOk(sh, table, n) && p < n <= len
    ensures PhysicalSlot(sh, table, n, p) == PhysicalSlot(sh, table, len, p)
  {}

  // ------------------------------------------------------------ the layer

  /** Token i of request k attends with its query row to positions 0 .. startPos + i of its own request. */
  ghost function CausalRow(exp: RealFn, sh: Shape, query: seq<real>, kBefore: seq<real>, key: seq<real>,
                           vBefore: seq<real>, value: seq<real>, scale: real, item: WorkerItem, first: nat, i: nat,
                           h: nat): (r: seq<real>)
    requires ShapeOk(sh) && IsMatrix(query, QueryRows(sh), sh.headDim) && i < |item.tokenIds| && h < sh.queryHeads
    requires InContext(sh, kBefore, key, item, first) && InContext(sh, vBefore, value, item, first)
    ensures |r| == sh.headDim
  {
    QueryRowInRange(sh, first + i, h);
    var n := item.startPos + i + 1;
    AttentionRow(exp, Vec(query, QueryRows(sh), sh.headDim, Cell(first + i, h, sh.queryHeads)),
                 HeadOf(sh, ContextHeads(sh, kBefore, key, item, first, n), n, h),
                 HeadOf(sh, ContextHeads(sh, vBefore, value, item, first, n), n, h), scale)
  }

  /** Token i of item k is row first + i of the batch, at position startPos + i of request k. */
  lemma TokenOf(sh: Shape, items: seq<WorkerItem>, md: AttentionMetadata, k: nat, i: nat)
    requires ShapeOk(sh) && MetadataOk(md, items, sh) && k < |items| && i < |items[k].tokenIds|
    ensures k < |md.queryStartLoc|
    ensures var j := md.queryStartLoc[k] + i;
      && j < |md.positions| == |md.requestIndices| && TokenOk(sh, md, j) && md.requestIndices[j] == k
      && md.positions[j] == items[k].startPos + i && md.activeMask[j]
  {
    hide TableAgrees, RequestIndices, TableOk;
    assert RowOk(md, k, items[k], sh);
    var j := md.queryStartLoc[k] + i;
    assert md.queryStartLoc[k + 1] <= md.queryStartLoc[|items|];
    TokenFacts(sh, md, items, j);
    IndicesInvert(md.queryStartLoc, |items|, j);
    assert Within(md.queryStartLoc, k, j);
  }

  ghost predicate CellIs(out: seq<Option<real>>, index: nat, x: real) { index < |out| && out[index] == Some(x) }

  ghost predicate BatchRow(exp: RealFn, sh: Shape, query: seq<real>, kBefore: seq<real>, key: seq<real>,
                           vBefore: seq<real>, value: seq<real>, scale: real, item: WorkerItem, first: nat, i: nat,
                           h: nat, out: seq<Option<real>>)
    requires ShapeOk(sh) && IsMatrix(query, QueryRows(sh), sh.headDim) && i < |item.tokenIds| && h < sh.queryHeads
  {
    && InContext(sh, kBefore, key, item, first) && InContext(sh, vBefore, value, item, first)
    && forall d :: 0 <= d < sh.headDim ==>
         CellIs(out, PagedValidation.OutIndex(sh, first + i, h, d),
                CausalRow(exp, sh, query, kBefore, key, vBefore, value, scale, item, first, i, h)[d])
  }

  /** Row (first + i, h) of the kernels is the causal row of token i of the item, in dimension d. */
  ghost predicate KernelRow(exp: RealFn, sh: Shape, md: AttentionMetadata, query: seq<real>, kBefore: seq<real>,
                            key: seq<real>, kAfter: seq<real>, vBefore: seq<real>, value: seq<real>, vAfter: seq<real>,
                            scale: real, item: WorkerItem, first: nat, i: nat, h: nat, d: nat)
    requires Inputs(sh, query, kAfter, vAfter) && i < |item.tokenIds| && h < sh.queryHeads && d < sh.headDim
    requires first + i < sh.batch && TokenOk(sh, md, first + i)
  {
    && InContext(sh, kBefore, key, item, first) && InContext(sh, vBefore, value, item, first)
    && CustomRow(exp, sh, md, query, kAfter, vAfter, scale, first + i, h)[d]
       == Some(CausalRow(exp, sh, query, kBefore, key, vBefore, value, scale, item, first, i, h)[d])
  }

  /** Both reads of one row, through the request's table, are its context. */
  ghost predicate BothContexts(sh: Shape, table: seq<int>, kBefore: seq<real>, key: seq<real>, kAfter: seq<real>,
                               vBefore: seq<real>, value: seq<real>, vAfter: seq<real>, item: WorkerItem, first: nat,
                               n: nat, g: nat)
  {
    && InContext(sh, kBefore, key, item, first) && InContext(sh, vBefore, value, item, first)
    && g < sh.kvHeads && n <= item.seqLen && TableOk(sh, table, n)
    && IsMatrix(kAfter, CacheRows(sh), sh.headDim) && IsMatrix(vAfter, CacheRows(sh), sh.headDim)
    && Paged(sh, kAfter, table, n, g) == HeadContext(sh, kBefore, key, item, first, g, n)
    && Paged(sh, vAfter, table, n, g) == HeadContext(sh, vBefore, value, item, first, g, n)
  }

  lemma RowIsCausal(exp: RealFn, sh: Shape, md: AttentionMetadata, query: seq<real>, kBefore: seq<real>,
                    key: seq<real>, kAfter: seq<real>, vBefore: seq<real>, value: seq<real>, vAfter: seq<real>,
                    scale: real, item: WorkerItem, first: nat, i: nat, h: nat, d: nat)
    requires Inputs(sh, query, kAfter, vAfter) && i < |item.tokenIds| && h < sh.queryHeads && d < sh.headDim
    requires first + i < sh.batch && TokenOk(sh, md, first + i) && md.positions[first + i] == item.startPos + i
    requires BothContexts(sh, md.blockTables[md.requestIndices[first + i]], kBefore, key, kAfter, vBefore, value,
      vAfter,
                          item, first, item.startPos + i + 1, KvHead(sh, h))
    ensures KernelRow(exp, sh, md, query, kBefore, key, kAfter, vBefore, value, vAfter, scale, item, first, i, h, d)
  {
    hide CacheRows, QueryRows, TableOk, Vec, Paged, HeadContext, KvHead, Repeated, Attend, Scores, Column, Cell;
    hide InContext, ShapeOk, IsMatrix;
    var n := item.startPos + i + 1;
    HeadRepeated(sh, ContextHeads(sh, kBefore, key, item, first, n), h);
    HeadRepeated(sh, ContextHeads(sh, vBefore, value, item, first, n), h);
  }

  /** All rows of a launch whose cells are the tensor reference's. */
  ghost predicate ReferenceOutput(exp: RealFn, sh: Shape, md: AttentionMetadata, query: seq<real>, k: seq<real>,
                                  v: seq<real>, scale: real, out: seq<Option<real>>)
    requires Launch(sh, md) && Inputs(sh, query, k, v)
  {
    forall j, h, d :: 0 <= j < sh.batch && 0 <= h < sh.queryHeads && 0 <= d < sh.headDim ==>
      TorchCell(exp, sh, md, query, k, v, scale, out, j, h, d)
  }

  /** One row of a scheduled batch's output. */
  lemma OutputRow(exp: RealFn, cfg: Config, s: Sched, items: seq<WorkerItem>, sh: Shape, md: AttentionMetadata,
                  query: seq<real>, kBefore: seq<real>, key: seq<real>, kAfter: seq<real>, vBefore: seq<real>,
                  value: seq<real>, vAfter: seq<real>, scale: real, out: seq<Option<real>>, k: nat, i: nat, h: nat)
    requires AllAccepted(items, cfg.blockSize) && BatchCache(cfg, s, items, sh) && MetadataOk(md, items, sh)
    requires k < |items| && i < |items[k].tokenIds| && h < sh.queryHeads
    requires BatchAppended(cfg, items, sh, key, kBefore, kAfter)
    requires BatchAppended(cfg, items, sh, value, vBefore, vAfter)
    requires md.queryStartLoc == Flatten(items, cfg.blockSize).queryStartLoc && sh.batch == |md.positions|
    requires Launch(sh, md) && Inputs(sh, query, kAfter, vAfter)
    requires ReferenceOutput(exp, sh, md, query, kAfter, vAfter, scale, out)
    ensures k < |md.queryStartLoc|
    ensures BatchRow(exp, sh, query, kBefore, key, vBefore, value, scale, items[k], md.queryStartLoc[k], i, h, out)
  {
    hide SchedInv, Flatten, CacheRows, QueryRows, IsMatrix, CeilDiv, Appended, AppendArgs, TokenOk, CausalRow, TorchRow;
    hide CustomRow, TableOk, HeadContext, Paged, KvHead, Launch, MetadataOk, RowOk, Cell, InContext;
    TokenOf(sh, items, md, k, i);
    var first, n, g := md.queryStartLoc[k], items[k].startPos + i + 1, KvHead(sh, h);
    PagedContext(cfg, s, items, sh, md, key, kBefore, kAfter, k, n, g);
    PagedContext(cfg, s, items, sh, md, value, vBefore, vAfter, k, n, g);
    var j := first + i;
    forall d | 0 <= d < sh.headDim
      ensures CellIs(out, PagedValidation.OutIndex(sh, j, h, d),
        CausalRow(exp, sh, query, kBefore, key, vBefore, value, scale, items[k], first, i, h)[d])
    {
      RowIsCausal(exp, sh, md, query, kBefore, key, kAfter, vBefore, value, vAfter, scale, items[k], first, i, h, d);
      CustomIsTorch(exp, sh, md, query, kAfter, vAfter, scale, j, h, d);
      assert TorchCell(exp, sh, md, query, kAfter, vAfter, scale, out, j, h, d);
    }
  }

  /** What an executed batch is made of: the flattened batch and its metadata. */
  ghost predicate Prepared(cfg: Config, items: seq<WorkerItem>, b: GPUInputBatch, md: AttentionMetadata) {
    && FromWorkerBatch(items, cfg.blockSize) == Some(b)
    && Shaped(b, |b.requestIds|) && b.requestIds != [] && FromBatch(b, MetadataWidth(cfg)) == Some(md)
  }

  ghost predicate Ready(cfg: Config, s: Sched, items: seq<WorkerItem>, b: GPUInputBatch, md: AttentionMetadata,
                        sh: Shape)
  {
    && SchedInv(cfg, s, items) && items != [] && ShapeFor(cfg, sh) && Prepared(cfg, items, b, md)
    && sh.batch == |b.inputIds|
  }

  /** Every row of the batch's output. */
  ghost predicate BatchOutput(exp: RealFn, sh: Shape, query: seq<real>, kBefore: seq<real>, key: seq<real>,
                              vBefore: seq<real>, value: seq<real>, scale: real, items: seq<WorkerItem>,
                              starts: seq<nat>, out: seq<Option<real>>)
  {
    && ShapeOk(sh) && IsMatrix(query, QueryRows(sh), sh.headDim) && |starts| == |items| + 1
    && forall k, i, h :: 0 <= k < |items| && 0 <= i < |items[k].tokenIds| && 0 <= h < sh.queryHeads ==>
         BatchRow(exp, sh, query, kBefore, key, vBefore, value, scale, items[k], starts[k], i, h, out)
  }

  lemma PreparedFacts(cfg: Config, items: seq<WorkerItem>, b: GPUInputBatch, md: AttentionMetadata)
    requires Prepared(cfg, items, b, md)
    ensures AllAccepted(items, cfg.blockSize)
    ensures var flat := Flatten(items, cfg.blockSize);
      && md.slotMapping == flat.slotMapping == b.slotMapping && md.queryStartLoc == flat.queryStartLoc
      && md.positions == b.positions && |b.inputIds| == |flat.inputIds| == |md.positions|
      && |md.slotMapping| == |md.positions| && md.activeMask == AllActive(|md.positions|)
  {
    hide Flatten, Sorted, RequestIndices, PadTable, MaxWidth;
  }

  /** One attention layer on a scheduled batch, whatever the caches hold otherwise: each token attends to
      what was cached for the earlier positions of its own request and to its own chunk up to itself. */
  method ForwardScheduled(exp: RealFn, cfg: Config, ghost s: Sched, ghost items: seq<WorkerItem>,
                          ghost b: GPUInputBatch, sh: Shape, md: AttentionMetadata, query: seq<real>, key: seq<real>,
                          value: seq<real>, kCache: array<real>, vCache: array<real>, threads: nat, scale: real)
    returns (out: array<Option<real>>)
    requires IsExp(exp) && IsPow2(threads) && sh.headDim <= threads && kCache != vCache
    requires IsMatrix(query, QueryRows(sh), sh.headDim)
    requires IsMatrix(key, sh.batch * sh.kvHeads, sh.headDim) && IsMatrix(value, sh.batch * sh.kvHeads, sh.headDim)
    requires kCache.Length == vCache.Length == CacheRows(sh) * sh.headDim && Ready(cfg, s, items, b, md, sh)
    modifies kCache, vCache
    ensures fresh(out)
    ensures BatchOutput(exp, sh, query, old(kCache[..]), key, old(vCache[..]), value, scale, items, md.queryStartLoc,
                        out[..])
  {
    hide IsExp, IsPow2, SchedInv, FromWorkerBatch, FromBatch, CacheRows, QueryRows, MetadataOk, Flatten, AppendArgs;
    hide Appended, Launch, TorchCell, BatchRow, ItemAccepted, ShapeOk;
    ghost var kBefore, vBefore := kCache[..], vCache[..];
    PreparedFacts(cfg, items, b, md);
    ScheduledLaunch(cfg, s, items, sh);
    assert sh.(batch := |b.inputIds|) == sh;
    out := Forward(exp, sh, md, query, key, value, kCache, vCache, threads, scale);
    assert ReferenceOutput(exp, sh, md, query, kCache[..], vCache[..], scale, out[..]);
    LaunchedStarts(md, items, sh);
    forall k, i, h | 0 <= k < |items| && 0 <= i < |items[k].tokenIds| && 0 <= h < sh.queryHeads
      ensures BatchRow(exp, sh, query, kBefore, key, vBefore, value, scale, items[k], md.queryStartLoc[k], i, h,
        out[..])
    {
      OutputRow(exp, cfg, s, items, sh, md, query, kBefore, key, kCache[..], vBefore, value, vCache[..], scale, out[..],
                k, i, h);
    }
  }

  lemma LaunchedStarts(md: AttentionMetadata, items: seq<WorkerItem>, sh: Shape)
    requires sh.blockSize > 0 && MetadataOk(md, items, sh)
    ensures |md.queryStartLoc| == |items| + 1
  {}
}
