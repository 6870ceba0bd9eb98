/** A padded graph replay means the same as eager execution on live rows, and its padding touches
    only scratch slots. */
module GraphAgreement {
  import opened Protocol
  import opened Arith
  import opened Softmax
  import opened Attention
  import opened PagedDecode
  import opened WorkerSide
  import opened Metadata
  import opened CacheAppend
  import opened KernelSplit
  import opened GraphPadding

  /** A uniform decode batch of `items`, its eager metadata, and a capture size that holds it. */
  ghost predicate Replay(sh: Shape, items: seq<WorkerItem>, b: GPUInputBatch, md: AttentionMetadata, size: nat,
                         maxBlocks: nat) {
    && ShapeOk(sh) && items != [] && AllAccepted(items, sh.blockSize)
    && FromWorkerBatch(items, sh.blockSize) == Some(b)
    && BatchOk(b) && UniformDecode(b) && |b.requestIds| == |b.inputIds| == |items| <= size
    && |b.positions| == |b.slotMapping| == |b.seqLens| == |b.blockTables| == |items|
    && (forall k :: 0 <= k < |items| ==> |b.blockTables[k]| <= maxBlocks)
    && maxBlocks > 0 && FromBatch(b, maxBlocks) == Some(md) && MetadataOk(md, items, sh)
  }

  /** Eager tables are padded with -1, graph tables with 0; the entries in use are the same. */
  ghost predicate SameTable(sh: Shape, table: seq<int>, table': seq<int>, len: nat)
    requires sh.blockSize > 0
  {
    var n := CeilDiv(len, sh.blockSize);
    n <= |table| && n <= |table'| && forall j :: 0 <= j < n ==> table[j] == table'[j]
  }

  lemma SameTableOk(sh: Shape, table: seq<int>, table': seq<int>, len: nat)
    requires sh.blockSize > 0 && TableOk(sh, table, len) && SameTable(sh, table, table', len)
    ensures TableOk(sh, table', len)
  {}

  /** Live row k of the graph state reads what eager row k reads. */
  lemma LiveRow(sh: Shape, items: seq<WorkerItem>, b: GPUInputBatch, md: AttentionMetadata, size: nat, maxBlocks: nat,
                physical: nat, k: nat)
    requires Replay(sh, items, b, md, size, maxBlocks) && k < |items|
    ensures |md.requestIndices| == |md.positions| == |items| && md.requestIndices[k] == k && TokenOk(sh, md, k)
    ensures var g := GraphMetadata(b, size, maxBlocks, physical);
      && g.positions[k] == md.positions[k] && g.seqLens[k] == md.seqLens[k] && g.slotMapping[k] == md.slotMapping[k]
      && g.activeMask[k] && md.activeMask[k] && g.isDecode[k] && md.isDecode[k]
      && md.positions[k] + 1 == md.seqLens[k]
      && SameTable(sh, md.blockTables[k], g.blockTables[k], md.seqLens[k])
  {
    hide RowOk, TableOk, CeilDiv, RequestIndices, FromWorkerBatch, AllAccepted, Sorted;
    UniformStarts(b, k);
    UniformStarts(b, k + 1);
    TokenFacts(sh, md, items, k);
    IndicesInvert(md.queryStartLoc, |items|, k);
    assert Within(md.queryStartLoc, k, k);
    assert b.isDecode[k];
    LiveTable(sh, items, b, md, size, maxBlocks, physical, k);
  }

  lemma LiveTable(sh: Shape, items: seq<WorkerItem>, b: GPUInputBatch, md: AttentionMetadata, size: nat, maxBlocks: nat,
                  physical: nat, k: nat)
    requires Replay(sh, items, b, md, size, maxBlocks) && k < |items|
    ensures SameTable(sh, md.blockTables[k], GraphMetadata(b, size, maxBlocks, physical).blockTables[k], md.seqLens[k])
  {
    hide CeilDiv, RequestIndices, MaxWidth, Flatten, AllAccepted, Shaped, PositionsOk;
    assert RowOk(md, k, items[k], sh);
    var table := b.blockTables[k];
    var g := GraphMetadata(b, size, maxBlocks, physical).blockTables[k];
    assert g == Rest(table, maxBlocks, 0);
    assert md.blockTables[k] == PadTable(table, maxBlocks);
    BatchTable(items, sh.blockSize, b, k);
    assert |table| >= CeilDiv(items[k].seqLen, sh.blockSize);
  }

  lemma BatchTable(items: seq<WorkerItem>, blockSize: nat, b: GPUInputBatch, k: nat)
    requires blockSize > 0 && k < |items| && FromWorkerBatch(items, blockSize) == Some(b)
    ensures k < |b.blockTables| && |b.blockTables[k]| >= CeilDiv(items[k].seqLen, blockSize)
  {
    hide CeilDiv, Flatten, MaxWidth, AllAccepted;
    FlattenTables(items, blockSize, k);
  }

  /** The padded state can be launched, whatever was in the tensors before. */
  lemma GraphLaunch(sh: Shape, items: seq<WorkerItem>, b: GPUInputBatch, md: AttentionMetadata, size: nat,
                    maxBlocks: nat, physical: nat)
    requires Replay(sh, items, b, md, size, maxBlocks)
    ensures Launch(sh.(batch := size), GraphMetadata(b, size, maxBlocks, physical))
  {
    hide Replay, SameTable, TableOk;
    ReplayShape(sh, items, b, md, size, maxBlocks);
    var sh', g := sh.(batch := size), GraphMetadata(b, size, maxBlocks, physical);
    forall j | 0 <= j < size && g.activeMask[j] ensures TokenOk(sh', g, j) {
      LiveRow(sh, items, b, md, size, maxBlocks, physical, j);
      LiveTables(sh, items, b, md, size, maxBlocks, physical, j);
      assert Within(g.queryStartLoc, j, j);
    }
  }

  lemma ReplayShape(sh: Shape, items: seq<WorkerItem>, b: GPUInputBatch, md: AttentionMetadata, size: nat,
                    maxBlocks: nat)
    requires Replay(sh, items, b, md, size, maxBlocks)
    ensures ShapeOk(sh)
    ensures |b.requestIds| == |b.inputIds| == |b.positions| == |b.slotMapping| == |b.seqLens| == |b.blockTables|
      == |items| <= size
    ensures forall k :: 0 <= k < |b.blockTables| ==> |b.blockTables[k]| <= maxBlocks
  {}

  lemma LiveTables(sh: Shape, items: seq<WorkerItem>, b: GPUInputBatch, md: AttentionMetadata, size: nat,
                   maxBlocks: nat, physical: nat, k: nat)
    requires Replay(sh, items, b, md, size, maxBlocks) && k < |items|
    ensures var g, sh' := GraphMetadata(b, size, maxBlocks, physical), sh.(batch := size);
      TableOk(sh', g.blockTables[k], g.seqLens[k]) && TableOk(sh', g.blockTables[k], g.positions[k] + 1)
  {
    hide CeilDiv, Replay, RequestIndices;
    ReplayShape(sh, items, b, md, size, maxBlocks);
    LiveRow(sh, items, b, md, size, maxBlocks, physical, k);
    SameTableOk(sh, md.blockTables[k], GraphMetadata(b, size, maxBlocks, physical).blockTables[k], md.seqLens[k]);
  }

  /** All slots of the padded state are distinct; padding rows use scratch slots beyond the physical cache. */
  lemma GraphSlots(sh: Shape, items: seq<WorkerItem>, b: GPUInputBatch, md: AttentionMetadata, size: nat,
                   maxBlocks: nat)
    requires Replay(sh, items, b, md, size, maxBlocks) && size <= sh.scratch
    requires Distinct(b.slotMapping)
    requires forall k :: 0 <= k < |b.slotMapping| ==> 0 <= b.slotMapping[k] < sh.blocks * sh.blockSize
    ensures var g := GraphMetadata(b, size, maxBlocks, sh.blocks * sh.blockSize);
      && |g.slotMapping| == size && Distinct(g.slotMapping)
      && (forall k :: 0 <= k < size ==> 0 <= g.slotMapping[k] < CacheSlots(sh))
      && (forall k :: |items| <= k < size ==> g.slotMapping[k] >= sh.blocks * sh.blockSize)
      && AppendArgs(sh.(batch := size), g.slotMapping, g.activeMask)
  {
    hide MetadataOk, FromWorkerBatch, FromBatch, AllAccepted, BatchOk;
  }

  lemma SamePaged(sh: Shape, sh': Shape, cache: seq<real>, table: seq<int>, table': seq<int>, len: nat, head: nat)
    requires sh.blockSize > 0 && sh' == sh.(batch := sh'.batch) && head < sh.kvHeads
    requires IsMatrix(cache, CacheRows(sh), sh.headDim)
    requires TableOk(sh, table, len) && TableOk(sh', table', len) && SameTable(sh, table, table', len)
    ensures Paged(sh, cache, table, len, head) == Paged(sh', cache, table', len, head)
  {
    hide CeilDiv, Vec, IsMatrix, Cell, CacheRows, CacheSlots;
    assert CacheRows(sh) == CacheRows(sh') by { SameRows(sh, sh'); }
    forall p | 0 <= p < len ensures KvRow(sh, table, len, p, head) == KvRow(sh', table', len, p, head) {
      PositionInBlocks(p, len, sh.blockSize);
    }
  }

  lemma SameRows(sh: Shape, sh': Shape)
    requires sh' == sh.(batch := sh'.batch)
    ensures CacheRows(sh) == CacheRows(sh') && sh.blockSize == sh'.blockSize && sh.blocks == sh'.blocks
    ensures sh.kvHeads == sh'.kvHeads && sh.headDim == sh'.headDim
  {}

  /** Row (j, h) means the same under both metadata. */
  ghost predicate SameRow(exp: RealFn, sh: Shape, md: AttentionMetadata, query: seq<real>, sh': Shape,
                          md': AttentionMetadata, query': seq<real>, k: seq<real>, v: seq<real>, scale: real, j: nat,
                          h: nat)
    requires Inputs(sh, query, k, v) && Inputs(sh', query', k, v) && j < sh.batch && j < sh'.batch && h < sh.queryHeads
    requires h < sh'.queryHeads
  {
    && TokenOk(sh, md, j) && TokenOk(sh', md', j)
    && CustomRow(exp, sh', md', query', k, v, scale, j, h) == CustomRow(exp, sh, md, query, k, v, scale, j, h)
  }

  lemma RowsAgree(exp: RealFn, sh: Shape, md: AttentionMetadata, query: seq<real>, sh': Shape, md': AttentionMetadata,
                  query': seq<real>, k: seq<real>, v: seq<real>, scale: real, j: nat, h: nat)
    requires Inputs(sh, query, k, v) && Inputs(sh', query', k, v) && sh' == sh.(batch := sh'.batch)
    requires j < sh.batch <= sh'.batch && h < sh.queryHeads
    requires |query| <= |query'| && query'[..|query|] == query
    requires TokenOk(sh, md, j) && TokenOk(sh', md', j) && md.requestIndices[j] == j == md'.requestIndices[j]
    requires md.positions[j] == md'.positions[j]
    requires SameTable(sh, md.blockTables[j], md'.blockTables[j], md.positions[j] + 1)
    ensures SameRow(exp, sh, md, query, sh', md', query', k, v, scale, j, h)
  {
    hide TableOk, CacheRows, IsMatrix, Paged, DecodeRow, SameTable, KvHead, Vec, QueryRows, Cell;
    var len := md.positions[j] + 1;
    SameHead(sh, sh', h);
    SamePaged(sh, sh', k, md.blockTables[j], md'.blockTables[j], len, KvHead(sh, h));
    SamePaged(sh, sh', v, md.blockTables[j], md'.blockTables[j], len, KvHead(sh, h));
    SameQuery(sh, sh', query, query', j, h);
  }

  /** Live rows of a replay and of eager execution are the same rows. */
  lemma ReplayIsEager(exp: RealFn, sh: Shape, items: seq<WorkerItem>, b: GPUInputBatch, md: AttentionMetadata,
                      size: nat, maxBlocks: nat, physical: nat, g: AttentionMetadata, query: seq<real>,
                      query': seq<real>, k: seq<real>, v: seq<real>, scale: real, j: nat, h: nat)
    requires Replay(sh, items, b, md, size, maxBlocks) && sh.batch == |items| && j < |items| && h < sh.queryHeads
    requires g == GraphMetadata(b, size, maxBlocks, physical)
    requires Inputs(sh, query, k, v) && Inputs(sh.(batch := size), query', k, v) && |query| <= |query'|
    requires query'[..|query|] == query
    ensures SameRow(exp, sh, md, query, sh.(batch := size), g, query', k, v, scale, j, h)
  {
    hide Replay, TableOk, SameTable, SameRow, Inputs;
    ReplayShape(sh, items, b, md, size, maxBlocks);
    LiveRow(sh, items, b, md, size, maxBlocks, physical, j);
    GraphLaunch(sh, items, b, md, size, maxBlocks, physical);
    assert TokenOk(sh.(batch := size), g, j);
    RowsAgree(exp, sh, md, query, sh.(batch := size), g, query', k, v, scale, j, h);
  }

  lemma SameHead(sh: Shape, sh': Shape, h: nat)
    requires ShapeOk(sh) && sh' == sh.(batch := sh'.batch) && h < sh.queryHeads
    ensures KvHead(sh, h) == KvHead(sh', h)
  {}

  lemma SameQuery(sh: Shape, sh': Shape, query: seq<real>, query': seq<real>, j: nat, h: nat)
    requires sh' == sh.(batch := sh'.batch) && j < sh.batch <= sh'.batch && h < sh.queryHeads
    requires IsMatrix(query, QueryRows(sh), sh.headDim) && IsMatrix(query', QueryRows(sh'), sh.headDim)
    requires |query| <= |query'| && query'[..|query|] == query
    ensures Cell(j, h, sh.queryHeads) < QueryRows(sh) && Cell(j, h, sh.queryHeads) < QueryRows(sh')
    ensures Vec(query, QueryRows(sh), sh.headDim, Cell(j, h, sh.queryHeads))
      == Vec(query', QueryRows(sh'), sh.headDim, Cell(j, h, sh.queryHeads))
  {
    hide IsMatrix, QueryRows, Cell;
    QueryRowInRange(sh, j, h);
    QueryRowInRange(sh', j, h);
    var row := Cell(j, h, sh.queryHeads);
    var q, q' := Vec(query, QueryRows(sh), sh.headDim, row), Vec(query', QueryRows(sh'), sh.headDim, row);
    forall d | 0 <= d < sh.headDim ensures q[d] == q'[d] {
      assert query'[Cell(row, d, sh.headDim)] == query'[..|query|][Cell(row, d, sh.headDim)];
    }
  }

  // ------------------------------------------------------------------------- caches

  lemma SamePrefixVec(a: seq<real>, a': seq<real>, rows: nat, rows': nat, width: nat, row: nat)
    requires IsMatrix(a, rows, width) && IsMatrix(a', rows', width) && row < rows && row < rows'
    requires |a| <= |a'| && a'[..|a|] == a
    ensures Vec(a, rows, width, row) == Vec(a', rows', width, row)
  {
    hide IsMatrix, Cell;
    var v, v' := Vec(a, rows, width, row), Vec(a', rows', width, row);
    forall d | 0 <= d < width ensures v[d] == v'[d] {
      assert a'[Cell(row, d, width)] == a'[..|a|][Cell(row, d, width)];
    }
  }

  /** Two appends of the same tokens, one of them followed by inactive padding. */
  ghost predicate PaddedAppend(sh: Shape, slots: seq<nat>, active: seq<bool>, input: seq<real>,
                               sh': Shape, slots': seq<nat>, active': seq<bool>, input': seq<real>)
  {
    && sh' == sh.(batch := sh'.batch) && |slots| <= |slots'| && slots'[..|slots|] == slots
    && |active| == |slots| && |active'| == |slots'|
    && (forall i :: 0 <= i < |active| ==> active[i])
    && (forall i :: 0 <= i < |active'| ==> (active'[i] <==> i < |slots|))
    && AppendArgs(sh, slots, active) && AppendArgs(sh', slots', active')
    && IsMatrix(input, |slots| * sh.kvHeads, sh.headDim) && IsMatrix(input', |slots'| * sh.kvHeads, sh.headDim)
    && |input| <= |input'| && input'[..|input|] == input
  }

  lemma SameTargets(sh: Shape, slots: seq<nat>, active: seq<bool>, input: seq<real>,
                    sh': Shape, slots': seq<nat>, active': seq<bool>, input': seq<real>, slot: nat)
    requires PaddedAppend(sh, slots, active, input, sh', slots', active', input')
    ensures WritesSlot(slots', active', slot) <==> WritesSlot(slots, active, slot)
  {
    hide AppendArgs, IsMatrix;
    forall i | 0 <= i < |slots|
      ensures slots'[i] == slots[i] && active'[i] && active[i]
    {
      assert slots'[..|slots|][i] == slots[i];
    }
  }

  lemma SameSlotVec(sh: Shape, slots: seq<nat>, active: seq<bool>, input: seq<real>,
                    sh': Shape, slots': seq<nat>, active': seq<bool>, input': seq<real>,
                    before: seq<real>, after: seq<real>, after': seq<real>, slot: nat, h: nat)
    requires PaddedAppend(sh, slots, active, input, sh', slots', active', input') && slot < CacheSlots(sh)
    requires h < sh.kvHeads
    requires |before| == |after| == |after'| == CacheRows(sh) * sh.headDim == CacheRows(sh') * sh.headDim
    requires Appended(sh, slots, active, input, before, after) && Appended(sh', slots', active', input', before, after')
    ensures CacheVec(sh, after, slot, h) == CacheVec(sh', after', slot, h)
  {
    hide Vec, Cell, AppendArgs, CacheRows;
    SameTargets(sh, slots, active, input, sh', slots', active', input', slot);
    if WritesSlot(slots, active, slot) {
      var i :| 0 <= i < |slots| && active[i] && slots[i] == slot;
      assert slots'[i] == slots'[..|slots|][i] && active'[i];
      CellInRange(i, h, |slots|, sh.kvHeads);
      CellInRange(i, h, |slots'|, sh.kvHeads);
      SamePrefixVec(input, input', |slots| * sh.kvHeads, |slots'| * sh.kvHeads, sh.headDim, DenseRow(sh, i, h));
      assert InputVec(sh, input, |slots|, i, h) == InputVec(sh', input', |slots'|, i, h);
    } else {
      SameCacheVec(sh, sh', before, slot, h);
    }
  }

  lemma SameCacheVec(sh: Shape, sh': Shape, cache: seq<real>, slot: nat, h: nat)
    requires sh' == sh.(batch := sh'.batch) && slot < CacheSlots(sh) && h < sh.kvHeads
    requires IsMatrix(cache, CacheRows(sh), sh.headDim) && IsMatrix(cache, CacheRows(sh'), sh'.headDim)
    ensures CacheVec(sh, cache, slot, h) == CacheVec(sh', cache, slot, h)
  {
    hide Vec;
  }

  /** Padding an append with inactive tokens does not change the cache it leaves. */
  lemma SameCache(sh: Shape, slots: seq<nat>, active: seq<bool>, input: seq<real>,
                  sh': Shape, slots': seq<nat>, active': seq<bool>, input': seq<real>,
                  before: seq<real>, after: seq<real>, after': seq<real>)
    requires PaddedAppend(sh, slots, active, input, sh', slots', active', input')
    requires |before| == |after| == |after'| == CacheRows(sh) * sh.headDim == CacheRows(sh') * sh.headDim
    requires Appended(sh, slots, active, input, before, after) && Appended(sh', slots', active', input', before, after')
    ensures after == after'
  {
    hide PaddedAppend, Appended, Vec;
    assert sh' == sh.(batch := sh'.batch) by { SameShape(sh, slots, active, input, sh', slots', active', input'); }
    forall c | 0 <= c < |after| ensures after[c] == after'[c] {
      CellOf(c, CacheRows(sh), sh.headDim);
      var row, d := c / sh.headDim, c % sh.headDim;
      CellOf(row, CacheSlots(sh), sh.kvHeads);
      var slot, h := row / sh.kvHeads, row % sh.kvHeads;
      SameSlotVec(sh, slots, active, input, sh', slots', active', input', before, after, after', slot, h);
      assert CacheVec(sh, after, slot, h)[d] == after[Cell(row, d, sh.headDim)];
      assert CacheVec(sh', after', slot, h)[d] == after'[Cell(row, d, sh.headDim)];
    }
  }

  lemma SameShape(sh: Shape, slots: seq<nat>, active: seq<bool>, input: seq<real>,
                  sh': Shape, slots': seq<nat>, active': seq<bool>, input': seq<real>)
    requires PaddedAppend(sh, slots, active, input, sh', slots', active', input')
    ensures sh' == sh.(batch := sh'.batch)
  {}

  /** K/V inputs of one layer in both executions: the graph's rows extend the eager ones. */
  predicate ExtendsInput(sh: Shape, n: nat, size: nat, input: seq<real>, input': seq<real>) {
    && IsMatrix(input, n * sh.kvHeads, sh.headDim) && IsMatrix(input', size * sh.kvHeads, sh.headDim)
    && |input| <= |input'| && input'[..|input|] == input
  }

  /** A replay's append is the eager append followed by inactive padding. */
  lemma ReplayPads(sh: Shape, items: seq<WorkerItem>, b: GPUInputBatch, md: AttentionMetadata, size: nat,
                   maxBlocks: nat, g: AttentionMetadata, input: seq<real>, input': seq<real>)
    requires Replay(sh, items, b, md, size, maxBlocks) && size <= sh.scratch
    requires Distinct(b.slotMapping)
    requires forall k :: 0 <= k < |b.slotMapping| ==> 0 <= b.slotMapping[k] < sh.blocks * sh.blockSize
    requires g == GraphMetadata(b, size, maxBlocks, sh.blocks * sh.blockSize)
    requires ExtendsInput(sh, |items|, size, input, input')
    ensures |md.activeMask| == |b.slotMapping| == |items| && |g.slotMapping| == |g.activeMask| == size
    ensures forall k :: 0 <= k < size ==> g.slotMapping[k] >= 0
    ensures PaddedAppend(sh, b.slotMapping, md.activeMask, input, sh.(batch := size), g.slotMapping, g.activeMask,
      input')
  {
    hide FromWorkerBatch, FromBatch, AllAccepted, BatchOk, RowOk, RequestIndices, IsMatrix;
    GraphSlots(sh, items, b, md, size, maxBlocks);
    LiveRow(sh, items, b, md, size, maxBlocks, sh.blocks * sh.blockSize, 0);
    assert g.slotMapping[..|items|] == b.slotMapping;
  }

  /** One replayed layer equals the eager layer: the same caches, and the same live rows. */
  lemma LayerAgrees(exp: RealFn, sh: Shape, items: seq<WorkerItem>, b: GPUInputBatch, md: AttentionMetadata, size: nat,
                    maxBlocks: nat, g: AttentionMetadata, query: seq<real>, query': seq<real>, key: seq<real>,
                    key': seq<real>, value: seq<real>, value': seq<real>, k: seq<real>, v: seq<real>, kEager: seq<real>,
                    vEager: seq<real>, kGraph: seq<real>, vGraph: seq<real>, scale: real, j: nat, h: nat)
    requires Replay(sh, items, b, md, size, maxBlocks) && sh.batch == |items| && size <= sh.scratch && j < |items|
    requires h < sh.queryHeads
    requires Distinct(b.slotMapping)
    requires forall i :: 0 <= i < |b.slotMapping| ==> 0 <= b.slotMapping[i] < sh.blocks * sh.blockSize
    requires g == GraphMetadata(b, size, maxBlocks, sh.blocks * sh.blockSize)
    requires Inputs(sh, query, kEager, vEager) && Inputs(sh.(batch := size), query', kGraph, vGraph)
    requires |query| <= |query'| && query'[..|query|] == query
    requires ExtendsInput(sh, |items|, size, key, key') && ExtendsInput(sh, |items|, size, value, value')
    requires |k| == |v| == CacheRows(sh) * sh.headDim
    requires BothAppended(sh, b.slotMapping, md.activeMask, key, value, k, v, kEager, vEager)
    requires BothAppended(sh.(batch := size), g.slotMapping, g.activeMask, key', value', k, v, kGraph, vGraph)
    ensures kGraph == kEager && vGraph == vEager
    ensures SameRow(exp, sh, md, query, sh.(batch := size), g, query', kEager, vEager, scale, j, h)
  {
    hide Replay, Appended, PaddedAppend, SameRow, GraphMetadata, ExtendsInput;
    var sh' := sh.(batch := size);
    SameRows(sh, sh');
    ReplayPads(sh, items, b, md, size, maxBlocks, g, key, key');
    ReplayPads(sh, items, b, md, size, maxBlocks, g, value, value');
    SameCache(sh, b.slotMapping, md.activeMask, key, sh', g.slotMapping, g.activeMask, key', k, kEager, kGraph);
    SameCache(sh, b.slotMapping, md.activeMask, value, sh', g.slotMapping, g.activeMask, value', v, vEager, vGraph);
    ReplayIsEager(exp, sh, items, b, md, size, maxBlocks, sh.blocks * sh.blockSize, g, query, query', kEager, vEager,
      scale, j, h);
  }

  /** K and V after an append of the active tokens to their slots. */
  ghost predicate BothAppended(sh: Shape, slots: seq<Slot>, active: seq<bool>, key: seq<real>, value: seq<real>,
                               k: seq<real>, v: seq<real>, k': seq<real>, v': seq<real>)
  {
    && (forall i :: 0 <= i < |slots| ==> slots[i] >= 0) && AppendArgs(sh, slots, active)
    && IsMatrix(key, |slots| * sh.kvHeads, sh.headDim) && IsMatrix(value, |slots| * sh.kvHeads, sh.headDim)
    && IsMatrix(k, CacheRows(sh), sh.headDim) && IsMatrix(k', CacheRows(sh), sh.headDim)
    && IsMatrix(v, CacheRows(sh), sh.headDim) && IsMatrix(v', CacheRows(sh), sh.headDim)
    && Appended(sh, slots, active, key, k, k') && Appended(sh, slots, active, value, v, v')
  }
}
