/** Every batch the scheduler emits meets the preconditions of the kernels. */
module ScheduledKernels {
  import opened Protocol
  import opened Arith
  import opened KVCache
  import opened Scheduling
  import opened WorkerSide
  import opened Planning
  import opened PagedDecode
  import opened Metadata
  import opened CacheAppend
  import opened KernelSplit
  import opened GraphPadding
  import opened GraphAgreement

  /** A model's cache for the configuration: physical slots plus one scratch slot per request. */
  predicate ShapeFor(cfg: Config, sh: Shape) {
    ShapeOk(sh) && sh.blockSize == cfg.blockSize && sh.blocks == cfg.numGpuBlocks && sh.scratch == cfg.maxNumSeqs
  }

  /** `max_blocks` of the Llama runner and `graph_max_blocks` of the C runtime. */
  function MetadataWidth(cfg: Config): (w: nat)
    ensures w > 0
  {
    CeilDivLeast(cfg.maxModelLen, cfg.blockSize);
    CeilDiv(cfg.maxModelLen, cfg.blockSize)
  }

  lemma ScheduledTables(cfg: Config, s: Sched, items: seq<WorkerItem>, sh: Shape)
    requires SchedInv(cfg, s, items) && ShapeFor(cfg, sh)
    ensures TablesPhysical(items, sh)
  {
    hide CeilDiv, IdsOk, RequestsOk, SizesOk, ShapeOk;
    forall k, j | 0 <= k < |items| && 0 <= j < |items[k].blockTable| ensures items[k].blockTable[j] < sh.blocks {
      var table := s.cache.tables[items[k].id];
      assert ItemFor(cfg, s.running[items[k].id], table, items[k]);
      assert table[j] in s.cache.pool.used;
    }
  }

  /** Eager execution: metadata exists, every row can be launched, and K/V goes to distinct physical slots. */
  lemma ScheduledLaunch(cfg: Config, s: Sched, items: seq<WorkerItem>, sh: Shape)
    requires SchedInv(cfg, s, items) && items != [] && ShapeFor(cfg, sh)
    ensures FromWorkerBatch(items, cfg.blockSize).Some?
    ensures var b := FromWorkerBatch(items, cfg.blockSize).value;
      && Shaped(b, |b.requestIds|) && |b.requestIds| == |items| && Distinct(b.slotMapping)
      && (forall i :: 0 <= i < |b.slotMapping| ==> 0 <= b.slotMapping[i] < sh.blocks * sh.blockSize)
      && FromBatch(b, MetadataWidth(cfg)).Some?
      && var md := FromBatch(b, MetadataWidth(cfg)).value;
      && MetadataOk(md, items, sh)
      && Launch(sh.(batch := |b.inputIds|), md)
      && AppendArgs(sh, b.slotMapping, md.activeMask)
  {
    hide CeilDiv, CacheOk, IdsOk, RequestsOk, SizesOk, ItemsOk, RowOk, Flatten, TokenOk, RequestIndices;
    BatchGuards(cfg, s, items);
    BatchSlotsDistinct(cfg, s, items);
    ScheduledTables(cfg, s, items, sh);
    MetadataFromBatch(items, sh, MetadataWidth(cfg));
    var b := FromWorkerBatch(items, cfg.blockSize).value;
    var md := FromBatch(b, MetadataWidth(cfg)).value;
    EagerRebatch(sh, md, items, |b.inputIds|);
    ScheduledSlots(cfg, s, items);
  }

  lemma EagerRebatch(sh: Shape, md: AttentionMetadata, items: seq<WorkerItem>, n: nat)
    requires ShapeOk(sh) && MetadataOk(md, items, sh) && n == |md.positions|
    ensures Launch(sh.(batch := n), md)
  {
    hide CeilDiv, PositionsOk, RequestIndices, Launch;
    var sh' := sh.(batch := n);
    forall k | 0 <= k < |items| ensures RowOk(md, k, items[k], sh') {
      assert RowOk(md, k, items[k], sh);
    }
    EagerLaunch(sh', md, items);
  }

  lemma ScheduledSlots(cfg: Config, s: Sched, items: seq<WorkerItem>)
    requires SchedInv(cfg, s, items) && AllAccepted(items, cfg.blockSize)
    ensures var slots := Flatten(items, cfg.blockSize).slotMapping;
      forall i :: 0 <= i < |slots| ==> 0 <= slots[i] < cfg.numGpuBlocks * cfg.blockSize
  {
    hide IdsOk, CacheOk, RequestsOk, SizesOk, ItemsOk, Flatten, ItemAccepted;
    var slots := Flatten(items, cfg.blockSize).slotMapping;
    forall i | 0 <= i < |slots| ensures 0 <= slots[i] < cfg.numGpuBlocks * cfg.blockSize {
      var k, o := Locate(items, cfg.blockSize, i);
      SlotPhysical(cfg, s, items, k, o);
    }
  }

  lemma FlattenedBatchOk(items: seq<WorkerItem>, blockSize: nat)
    requires blockSize > 0 && items != [] && AllAccepted(items, blockSize)
    ensures BatchOk(FromWorkerBatch(items, blockSize).value)
  {
    hide Flatten, SlotsOf, CeilDiv, MaxWidth, ItemAccepted;
    var flat, b := Flatten(items, blockSize), FromWorkerBatch(items, blockSize).value;
    FlattenShape(items, blockSize);
    forall k | 0 <= k < |flat.blockTables|
      ensures |b.blockTables[k]| == MaxWidth(flat.blockTables)
    {
      WidthBounds(flat.blockTables, k);
    }
    forall k | 0 <= k < |b.isDecode| && b.isDecode[k] ensures b.queryStartLoc[k + 1] == b.queryStartLoc[k] + 1 {
      FlattenSegment(items, blockSize, k);
    }
  }

  lemma NarrowTables(items: seq<WorkerItem>, blockSize: nat, width: nat)
    requires blockSize > 0 && items != [] && AllAccepted(items, blockSize)
    requires forall k :: 0 <= k < |items| ==> CeilDiv(items[k].seqLen, blockSize) <= width
    ensures var tables := FromWorkerBatch(items, blockSize).value.blockTables;
      forall k :: 0 <= k < |tables| ==> |tables[k]| <= width
  {
    hide CeilDiv, Flatten, MaxWidth, ItemAccepted;
    var tables := Flatten(items, blockSize).blockTables;
    FlattenShape(items, blockSize);
    forall k | 0 <= k < |tables| ensures |tables[k]| <= width && |tables[k]| <= MaxWidth(tables) {
      FlattenTables(items, blockSize, k);
      WidthBounds(tables, k);
    }
    WidthLeast(tables, width);
  }

  /** Graph execution of a scheduled uniform decode batch, at any capture size that the runner accepts. */
  lemma ScheduledReplay(cfg: Config, s: Sched, items: seq<WorkerItem>, sh: Shape, size: nat)
    requires SchedInv(cfg, s, items) && items != [] && ShapeFor(cfg, sh) && |items| <= size <= cfg.maxNumSeqs
    requires FromWorkerBatch(items, cfg.blockSize).Some? && UniformDecode(FromWorkerBatch(items, cfg.blockSize).value)
    ensures exists md :: Replay(sh, items, FromWorkerBatch(items, cfg.blockSize).value, md, size, MetadataWidth(cfg))
    ensures var b := FromWorkerBatch(items, cfg.blockSize).value;
      && |b.inputIds| == |b.positions| == |b.slotMapping| == |b.seqLens| == |b.blockTables| == |b.requestIds| == |items|
      && (forall k :: 0 <= k < |b.blockTables| ==> |b.blockTables[k]| <= MetadataWidth(cfg))
      && var g := GraphMetadata(b, size, MetadataWidth(cfg), sh.blocks * sh.blockSize);
      && Launch(sh.(batch := size), g)
      && |g.slotMapping| == size && Distinct(g.slotMapping)
      && (forall k :: 0 <= k < size ==> 0 <= g.slotMapping[k] < CacheSlots(sh))
      && (forall k :: 0 <= k < size ==> (g.slotMapping[k] < cfg.numGpuBlocks * cfg.blockSize <==> k < |items|))
  {
    hide SchedInv, CeilDiv, Launch, AppendArgs, MetadataOk, FromWorkerBatch, FromBatch, AllAccepted;
    BatchGuards(cfg, s, items);
    ScheduledLaunch(cfg, s, items, sh);
    FlattenedBatchOk(items, cfg.blockSize);
    NarrowTables(items, cfg.blockSize, MetadataWidth(cfg));
    var b := FromWorkerBatch(items, cfg.blockSize).value;
    var md := FromBatch(b, MetadataWidth(cfg)).value;
    UniformStarts(b, 0);
    assert Replay(sh, items, b, md, size, MetadataWidth(cfg));
    GraphLaunch(sh, items, b, md, size, MetadataWidth(cfg), sh.blocks * sh.blockSize);
    GraphSlots(sh, items, b, md, size, MetadataWidth(cfg));
  }

  /** The C runtime of the configuration. */
  function RuntimeFor(cfg: Config): Runtime {
    Runtime(cfg.maxNumSeqs, MetadataWidth(cfg), cfg.numGpuBlocks * cfg.blockSize)
  }

  /** A scheduled uniform decode batch passes the C runtime's guard at any capture size up to
      max_num_seqs, and its slots are distinct and physical, so padding keeps all slots distinct. */
  lemma ScheduledPadding(cfg: Config, s: Sched, items: seq<WorkerItem>, sh: Shape, size: nat)
    requires SchedInv(cfg, s, items) && items != [] && ShapeFor(cfg, sh) && |items| <= size <= cfg.maxNumSeqs
    requires FromWorkerBatch(items, cfg.blockSize).Some? && UniformDecode(FromWorkerBatch(items, cfg.blockSize).value)
    ensures var b := FromWorkerBatch(items, cfg.blockSize).value;
      && |b.inputIds| == |b.slotMapping| == |b.seqLens| == |b.blockTables| == |b.requestIds| == |items|
      && (forall k :: 0 <= k < |b.blockTables| ==> |b.blockTables[k]| == |b.blockTables[0]|)
      && GraphGuard(RuntimeFor(cfg), |b.requestIds|, size, |b.blockTables[0]|)
      && Distinct(b.slotMapping)
      && forall k :: 0 <= k < |b.slotMapping| ==> 0 <= b.slotMapping[k] < RuntimeFor(cfg).physical
  {
    hide SchedInv, CeilDiv, Launch, AppendArgs, MetadataOk, FromWorkerBatch, FromBatch, AllAccepted;
    BatchGuards(cfg, s, items);
    ScheduledLaunch(cfg, s, items, sh);
    FlattenedBatchOk(items, cfg.blockSize);
    NarrowTables(items, cfg.blockSize, MetadataWidth(cfg));
    var b := FromWorkerBatch(items, cfg.blockSize).value;
    UniformStarts(b, 0);
    BatchTable(items, cfg.blockSize, b, 0);
  }
}
