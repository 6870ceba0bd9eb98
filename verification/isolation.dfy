/** KV isolation: what the slot-indexed store holds for each request, and what one
    model execution on a scheduler-built batch reads and writes. */
module Isolation {
  import opened Protocol
  import opened Arith
  import opened KVCache
  import opened Scheduling
  import opened WorkerSide

  /** The store holds value `p` of `values` at the slot the table gives it. */
  ghost predicate HeldAt(store: Store, blockSize: nat, values: seq<Value>, table: seq<Block>, p: nat)
    requires blockSize > 0 && p < |values|
  {
    p / blockSize < |table| && SlotAt(table, blockSize, p) in store && store[SlotAt(table, blockSize, p)] == values[p]
  }

  /** The store holds the first `upto` of `values`. */
  ghost predicate Holds(store: Store, blockSize: nat, values: seq<Value>, table: seq<Block>, upto: nat)
    requires blockSize > 0
  {
    upto <= |values| && forall p: nat | p < upto :: HeldAt(store, blockSize, values, table, p)
  }

  /** The values that request `id` has on its own. */
  ghost function ValuesOf(m: Model, s: Sched, id: RequestId): (values: seq<Value>)
    requires id in s.running
    ensures |values| == |All(s.running[id])|
  {
    Dense(m, All(s.running[id]))
  }

  ghost predicate RequestHeld(cfg: Config, m: Model, s: Sched, store: Store, id: RequestId, upto: nat) {
    id in s.running && id in s.cache.tables &&
    Holds(store, cfg.blockSize, ValuesOf(m, s, id), s.cache.tables[id], upto)
  }

  /** The values of every running request's computed tokens are in the store, and so are those of the
      items already written. */
  ghost predicate StoreOk(cfg: Config, m: Model, s: Sched, store: Store, written: seq<WorkerItem>) {
    && (forall id <- s.running :: RequestHeld(cfg, m, s, store, id, s.running[id].computed))
    && (forall k :: 0 <= k < |written| ==> RequestHeld(cfg, m, s, store, written[k].id, written[k].seqLen))
  }

  /** `store'` differs from `store` at most on the slots of the batch. */
  ghost predicate WritesOnly(store: Store, store': Store, items: seq<WorkerItem>) {
    forall x: Slot :: (forall k :: 0 <= k < |items| ==> x !in items[k].slotMapping) && x in store ==>
      x in store' && store'[x] == store[x]
  }

  // ------------------------------------------------------------- one item's slots

  /** Slot `x` belongs to position `p` of request `id`. */
  ghost predicate SlotOfPosition(cfg: Config, s: Sched, id: RequestId, p: nat, x: Slot) {
    id in s.cache.tables && p / cfg.blockSize < |s.cache.tables[id]|
      && x == SlotAt(s.cache.tables[id], cfg.blockSize, p)
  }

  lemma ItemSlots(cfg: Config, s: Sched, items: seq<WorkerItem>, k: nat)
    requires ItemsOk(cfg, s, items) && k < |items|
    ensures items[k].id in s.running && items[k].id in s.cache.tables
    ensures items[k].startPos == s.running[items[k].id].computed
    ensures items[k].seqLen == items[k].startPos + |items[k].tokenIds|
    ensures items[k].seqLen <= |All(s.running[items[k].id])|
    ensures |items[k].slotMapping| == |items[k].tokenIds| > 0
    ensures items[k].tokenIds == All(s.running[items[k].id])[items[k].startPos..items[k].seqLen]
    ensures items[k].blockTable == s.cache.tables[items[k].id]
    ensures Covers(items[k].blockTable, cfg.blockSize, items[k].seqLen)
    ensures forall i :: 0 <= i < |items[k].slotMapping| ==>
      SlotOfPosition(cfg, s, items[k].id, items[k].startPos + i, items[k].slotMapping[i])
  {
    hide CeilDiv;
    var item := items[k];
    assert ItemFor(cfg, s.running[item.id], s.cache.tables[item.id], item);
    forall i | 0 <= i < |item.slotMapping|
      ensures SlotOfPosition(cfg, s, item.id, item.startPos + i, item.slotMapping[i])
    {
      PositionInBlocks(item.startPos + i, item.seqLen, cfg.blockSize);
    }
  }

  lemma SlotDetermines(cfg: Config, s: Sched, a: RequestId, p: nat, b: RequestId, q: nat, x: Slot)
    requires TablesOk(s.cache) && SlotOfPosition(cfg, s, a, p, x) && SlotOfPosition(cfg, s, b, q, x)
    ensures a == b && p == q
  {
    hide TablesOk, SlotAt;
    SlotsDisjoint(s.cache, cfg.blockSize, a, p, b, q);
  }

  /** A held position that lies outside an item's chunk is not among the item's slots. */
  lemma OutsideChunk(cfg: Config, s: Sched, items: seq<WorkerItem>, k: nat, id: RequestId, p: nat, x: Slot)
    requires TablesOk(s.cache) && ItemsOk(cfg, s, items) && k < |items|
    requires SlotOfPosition(cfg, s, id, p, x) && (id != items[k].id || p < items[k].startPos)
    ensures x !in items[k].slotMapping
  {
    hide TablesOk, ItemsOk, SlotOfPosition;
    ItemSlots(cfg, s, items, k);
    forall i | 0 <= i < |items[k].slotMapping| ensures items[k].slotMapping[i] != x {
      if items[k].slotMapping[i] == x {
        SlotDetermines(cfg, s, id, p, items[k].id, items[k].startPos + i, x);
      }
    }
  }

  // ------------------------------------------------------------------ writing

  /** The store after item k's chunk is written. */
  ghost function WriteItem(m: Model, store: Store, item: WorkerItem, blockSize: nat): Store
    requires blockSize > 0 && ItemAccepted(item, blockSize)
  {
    AppendKv(m, store, item.tokenIds, item.slotMapping, ItemContexts(item, blockSize))
  }

  /** A held position outside item k's chunk survives the writing of item k. */
  lemma KeepOne(cfg: Config, m: Model, s: Sched, store: Store, items: seq<WorkerItem>, k: nat, id: RequestId, p: nat)
    requires TablesOk(s.cache) && ItemsOk(cfg, s, items) && k < |items| && ItemAccepted(items[k], cfg.blockSize)
    requires id in s.running && id in s.cache.tables && p < |All(s.running[id])|
    requires HeldAt(store, cfg.blockSize, ValuesOf(m, s, id), s.cache.tables[id], p)
    requires id != items[k].id || p < items[k].startPos
    ensures HeldAt(WriteItem(m, store, items[k], cfg.blockSize), cfg.blockSize, ValuesOf(m, s, id), s.cache.tables[id],
      p)
  {
    hide TablesOk, ItemsOk, AppendKv, SlotAt, Dense, ItemContexts;
    var x := SlotAt(s.cache.tables[id], cfg.blockSize, p);
    OutsideChunk(cfg, s, items, k, id, p, x);
    AppendFrame(m, store, items[k].tokenIds, items[k].slotMapping, ItemContexts(items[k], cfg.blockSize), x);
  }

  /** Writing item k leaves every other held range, and its own computed prefix, in place. */
  lemma WriteKeeps(cfg: Config, m: Model, s: Sched, store: Store, items: seq<WorkerItem>, k: nat, id: RequestId,
                   upto: nat)
    requires TablesOk(s.cache) && ItemsOk(cfg, s, items) && k < |items| && ItemAccepted(items[k], cfg.blockSize)
    requires RequestHeld(cfg, m, s, store, id, upto) && (id != items[k].id || upto <= items[k].startPos)
    ensures RequestHeld(cfg, m, s, WriteItem(m, store, items[k], cfg.blockSize), id, upto)
  {
    hide TablesOk, ItemsOk, WriteItem, HeldAt, ItemAccepted;
    var store' := WriteItem(m, store, items[k], cfg.blockSize);
    forall p: nat | p < upto ensures HeldAt(store', cfg.blockSize, ValuesOf(m, s, id), s.cache.tables[id], p) {
      KeepOne(cfg, m, s, store, items, k, id, p);
    }
  }

  /** Reading the slots of the first n positions of a held range gives their values. */
  lemma LookHeld(store: Store, blockSize: nat, values: seq<Value>, table: seq<Block>, n: nat)
    requires blockSize > 0 && Holds(store, blockSize, values, table, n) && Covers(table, blockSize, n)
    ensures Look(store, SlotsOf(table, blockSize, 0, n)) == Present(values[..n])
  {
    hide SlotAt, CeilDiv;
    var slots := SlotsOf(table, blockSize, 0, n);
    forall p | 0 <= p < n ensures Look(store, slots)[p] == Present(values[..n])[p] {
      assert HeldAt(store, blockSize, values, table, p);
    }
  }

  /** The store while item k's chunk is written: its first i tokens are in place. */
  ghost function WritePart(m: Model, store: Store, item: WorkerItem, blockSize: nat, i: nat): Store
    requires blockSize > 0 && ItemAccepted(item, blockSize) && i <= |item.tokenIds|
  {
    AppendKv(m, store, item.tokenIds[..i], item.slotMapping[..i], ItemContexts(item, blockSize)[..i])
  }

  lemma WritePartStep(m: Model, store: Store, item: WorkerItem, blockSize: nat, i: nat)
    requires blockSize > 0 && ItemAccepted(item, blockSize) && i < |item.tokenIds|
    ensures WritePart(m, store, item, blockSize, i + 1)
      == WritePart(m, store, item, blockSize, i)[item.slotMapping[i] :=
      m.embed(item.tokenIds[i], Look(WritePart(m, store, item, blockSize, i), ItemContexts(item, blockSize)[i]))]
  {
    hide Look, Covers, SlotsOf, CeilDiv;
    var contexts := ItemContexts(item, blockSize);
    assert item.tokenIds[..i + 1][..i] == item.tokenIds[..i] && item.slotMapping[..i + 1][..i] == item.slotMapping[..i];
    assert contexts[..i + 1][..i] == contexts[..i];
  }

  /** Writing one more token of a chunk at its own slot extends what is held by its value. */
  lemma ExtendOne(cfg: Config, m: Model, s: Sched, store: Store, id: RequestId, p: nat, x: Slot, value: Value)
    requires TablesOk(s.cache) && RequestHeld(cfg, m, s, store, id, p) && p < |All(s.running[id])|
    requires SlotOfPosition(cfg, s, id, p, x) && value == ValuesOf(m, s, id)[p]
    ensures RequestHeld(cfg, m, s, store[x := value], id, p + 1)
  {
    hide TablesOk, SlotAt, Dense;
    var values, table, store' := ValuesOf(m, s, id), s.cache.tables[id], store[x := value];
    forall q: nat | q < p + 1 ensures HeldAt(store', cfg.blockSize, values, table, q) {
      if q < p {
        assert HeldAt(store, cfg.blockSize, values, table, q);
        if SlotAt(table, cfg.blockSize, q) == x { SlotDetermines(cfg, s, id, q, id, p, x); }
      }
    }
  }

  /** Token i of item k's chunk gets the value it has on its own. */
  lemma ValueWritten(cfg: Config, m: Model, s: Sched, store: Store, items: seq<WorkerItem>, k: nat, i: nat)
    requires ItemsOk(cfg, s, items) && k < |items| && ItemAccepted(items[k], cfg.blockSize) && i < |items[k].tokenIds|
    requires RequestHeld(cfg, m, s, store, items[k].id, items[k].startPos + i)
    ensures items[k].startPos + i < |All(s.running[items[k].id])|
    ensures m.embed(items[k].tokenIds[i], Look(store, ItemContexts(items[k], cfg.blockSize)[i]))
      == ValuesOf(m, s, items[k].id)[items[k].startPos + i]
  {
    hide ItemsOk, Holds, Look, Present, Dense, SlotAt, SlotOfPosition, CeilDiv;
    var item, p := items[k], items[k].startPos + i;
    ItemSlots(cfg, s, items, k);
    var all := All(s.running[item.id]);
    PrefixSlots(item.blockTable, cfg.blockSize, item.seqLen, p);
    LookHeld(store, cfg.blockSize, Dense(m, all), item.blockTable, p);
    DenseAt(m, all, p);
    assert item.tokenIds[i] == all[p];
  }

  lemma {:induction false} ChunkHeld(cfg: Config, m: Model, s: Sched, store: Store, items: seq<WorkerItem>, k: nat,
                                     i: nat)
    requires TablesOk(s.cache) && ItemsOk(cfg, s, items) && k < |items| && ItemAccepted(items[k], cfg.blockSize)
    requires i <= |items[k].tokenIds| && RequestHeld(cfg, m, s, store, items[k].id, items[k].startPos)
    ensures RequestHeld(cfg, m, s, WritePart(m, store, items[k], cfg.blockSize, i), items[k].id, items[k].startPos + i)
  {
    hide TablesOk, ItemsOk, RequestHeld, WritePart, ItemContexts, Look;
    var item := items[k];
    if i == 0 {
      WriteNothing(m, store, item, cfg.blockSize);
    } else {
      ChunkHeld(cfg, m, s, store, items, k, i - 1);
      var store1, p := WritePart(m, store, item, cfg.blockSize, i - 1), item.startPos + i - 1;
      WritePartStep(m, store, item, cfg.blockSize, i - 1);
      HeldRunning(cfg, m, s, store1, item.id, p);
      ValueWritten(cfg, m, s, store1, items, k, i - 1);
      ItemSlots(cfg, s, items, k);
      ExtendOne(cfg, m, s, store1, item.id, p, item.slotMapping[i - 1], ValuesOf(m, s, item.id)[p]);
    }
  }

  lemma HeldRunning(cfg: Config, m: Model, s: Sched, store: Store, id: RequestId, upto: nat)
    requires RequestHeld(cfg, m, s, store, id, upto)
    ensures id in s.running && id in s.cache.tables && upto <= |All(s.running[id])|
  {}

  lemma WriteNothing(m: Model, store: Store, item: WorkerItem, blockSize: nat)
    requires blockSize > 0 && ItemAccepted(item, blockSize)
    ensures WritePart(m, store, item, blockSize, 0) == store
  {
    hide Covers, SlotsOf;
  }

  /** Writing item k makes its request held up to the item's sequence length. */
  lemma WriteExtends(cfg: Config, m: Model, s: Sched, store: Store, items: seq<WorkerItem>, k: nat)
    requires TablesOk(s.cache) && ItemsOk(cfg, s, items) && k < |items| && ItemAccepted(items[k], cfg.blockSize)
    requires RequestHeld(cfg, m, s, store, items[k].id, items[k].startPos)
    ensures RequestHeld(cfg, m, s, WriteItem(m, store, items[k], cfg.blockSize), items[k].id, items[k].seqLen)
  {
    hide TablesOk, ItemsOk, RequestHeld, ItemContexts, AppendKv;
    var item := items[k];
    ChunkHeld(cfg, m, s, store, items, k, |item.tokenIds|);
    assert item.tokenIds[..|item.tokenIds|] == item.tokenIds && item.slotMapping[..|item.tokenIds|] == item.slotMapping;
    assert ItemContexts(item, cfg.blockSize)[..|item.tokenIds|] == ItemContexts(item, cfg.blockSize);
  }

  ghost function WriteItems(m: Model, store: Store, items: seq<WorkerItem>, blockSize: nat): Store
    requires blockSize > 0 && AllAccepted(items, blockSize)
  {
    if items == [] then store
    else WriteItem(m, WriteItems(m, store, items[..|items| - 1], blockSize), items[|items| - 1], blockSize)
  }

  lemma {:induction false} FlattenWrites(m: Model, store: Store, items: seq<WorkerItem>, blockSize: nat)
    requires blockSize > 0 && AllAccepted(items, blockSize)
    ensures Shaped(Flatten(items, blockSize), |items|) && |Flatten(items, blockSize).requestIds| == |items|
    ensures AppendBatch(m, store, Flatten(items, blockSize)) == WriteItems(m, store, items, blockSize)
  {
    hide Covers, Shaped, AppendKv, TokenContexts, RequestContexts, ItemContexts;
    FlattenShape(items, blockSize);
    ShapedIds(Flatten(items, blockSize), |items|);
    if items == [] {
      AppendNothing(m, store);
      NoContexts(EmptyBatch);
    } else {
      var front, last := items[..|items| - 1], items[|items| - 1];
      FlattenWrites(m, store, front, blockSize);
      var b := Flatten(front, blockSize);
      FlattenStep(b, |front|, last, blockSize);
      AppendConcat(m, store, b.inputIds, b.slotMapping, TokenContexts(b, |front|), last.tokenIds, last.slotMapping,
        ItemContexts(last, blockSize));
    }
  }

  lemma ShapedIds(b: GPUInputBatch, n: nat)
    requires Shaped(b, n)
    ensures |b.requestIds| == n && |b.inputIds| == |b.slotMapping| == b.queryStartLoc[n]
  {}

  lemma NoContexts(b: GPUInputBatch)
    requires Shaped(b, 0) && |b.requestIds| == 0
    ensures TokenContexts(b, 0) == []
  {}

  /** Flattening one more item appends its tokens' contexts. */
  lemma FlattenStep(b: GPUInputBatch, n: nat, last: WorkerItem, blockSize: nat)
    requires blockSize > 0 && ItemAccepted(last, blockSize) && |b.requestIds| == n && Shaped(b, n)
    ensures Shaped(Extend(b, last, blockSize), n + 1) && |Extend(b, last, blockSize).requestIds| == n + 1
    ensures TokenContexts(Extend(b, last, blockSize), n + 1) == TokenContexts(b, n) + ItemContexts(last, blockSize)
  {
    hide RequestContexts, ItemContexts, Covers, SlotsOf;
    ExtendKeepsAll(b, n, n, last, blockSize);
    ExtendAddsContexts(b, n, last, blockSize);
  }

  lemma AppendNothing(m: Model, store: Store)
    ensures AppendKv(m, store, [], [], []) == store
  {}

  lemma {:induction false} WriteItemsOk(cfg: Config, m: Model, s: Sched, store: Store, items: seq<WorkerItem>, n: nat)
    requires TablesOk(s.cache) && ItemsOk(cfg, s, items) && n <= |items| && StoreOk(cfg, m, s, store, [])
    requires AllAccepted(items, cfg.blockSize) && AllAccepted(items[..n], cfg.blockSize)
    ensures forall id <- s.running ::
      RequestHeld(cfg, m, s, WriteItems(m, store, items[..n], cfg.blockSize), id, s.running[id].computed)
    ensures forall k :: 0 <= k < n ==>
      RequestHeld(cfg, m, s, WriteItems(m, store, items[..n], cfg.blockSize), items[k].id, items[k].seqLen)
  {
    hide TablesOk, RequestHeld, WriteItem, ItemFor, ItemAccepted;
    if n == 0 {
      assert items[..0] == [];
    } else {
      assert items[..n][..n - 1] == items[..n - 1];
      WriteItemsOk(cfg, m, s, store, items, n - 1);
      var store1, store2 := WriteItems(m, store, items[..n - 1], cfg.blockSize),
        WriteItems(m, store, items[..n], cfg.blockSize);
      assert store2 == WriteItem(m, store1, items[n - 1], cfg.blockSize);
      ItemSlots(cfg, s, items, n - 1);
      WriteExtends(cfg, m, s, store1, items, n - 1);
      forall k | 0 <= k < n - 1 ensures RequestHeld(cfg, m, s, store2, items[k].id, items[k].seqLen) {
        WriteKeeps(cfg, m, s, store1, items, n - 1, items[k].id, items[k].seqLen);
      }
      forall id | id in s.running ensures RequestHeld(cfg, m, s, store2, id, s.running[id].computed) {
        WriteKeeps(cfg, m, s, store1, items, n - 1, id, s.running[id].computed);
      }
    }
  }

  /** A computed position survives any write confined to the batch's slots. */
  lemma SpareOne(cfg: Config, m: Model, s: Sched, store: Store, store': Store, items: seq<WorkerItem>, id: RequestId,
                 p: nat)
    requires TablesOk(s.cache) && ItemsOk(cfg, s, items) && WritesOnly(store, store', items)
    requires id in s.running && id in s.cache.tables && p < s.running[id].computed && p < |All(s.running[id])|
    requires HeldAt(store, cfg.blockSize, ValuesOf(m, s, id), s.cache.tables[id], p)
    ensures HeldAt(store', cfg.blockSize, ValuesOf(m, s, id), s.cache.tables[id], p)
  {
    hide TablesOk, ItemsOk, SlotAt;
    var x := SlotAt(s.cache.tables[id], cfg.blockSize, p);
    forall k | 0 <= k < |items| ensures x !in items[k].slotMapping {
      ItemSlots(cfg, s, items, k);
      OutsideChunk(cfg, s, items, k, id, p, x);
    }
  }

  /** Even an arbitrary partial write of the batch spares every computed token, the failing
      requests' own included. */
  lemma PartialWriteOk(cfg: Config, m: Model, s: Sched, store: Store, store': Store, items: seq<WorkerItem>)
    requires TablesOk(s.cache) && ItemsOk(cfg, s, items) && StoreOk(cfg, m, s, store, [])
    requires WritesOnly(store, store', items)
    ensures StoreOk(cfg, m, s, store', [])
  {
    hide TablesOk, ItemsOk, HeldAt, WritesOnly;
    forall id | id in s.running ensures RequestHeld(cfg, m, s, store', id, s.running[id].computed) {
      assert RequestHeld(cfg, m, s, store, id, s.running[id].computed);
      forall p: nat | p < s.running[id].computed
        ensures HeldAt(store', cfg.blockSize, ValuesOf(m, s, id), s.cache.tables[id], p)
      {
        SpareOne(cfg, m, s, store, store', items, id, p);
      }
    }
  }

  // ------------------------------------------------------------------ reading

  /** Every batch the scheduler emits passes the checks of `from_worker_batch`. */
  lemma BatchAccepted(cfg: Config, s: Sched, items: seq<WorkerItem>)
    requires ItemsOk(cfg, s, items)
    ensures AllAccepted(items, cfg.blockSize)
  {
    hide ItemsOk, SlotOfPosition, Covers;
    forall k | 0 <= k < |items| ensures ItemAccepted(items[k], cfg.blockSize) { ItemSlots(cfg, s, items, k); }
  }

  /** Each entry of the flattened context mapping is some item's position. */
  lemma {:induction false} ContextMember(items: seq<WorkerItem>, blockSize: nat, i: nat) returns (k: nat, p: nat)
    requires blockSize > 0 && AllAccepted(items, blockSize) && i < |Flatten(items, blockSize).contextSlotMapping|
    ensures k < |items| && p < items[k].seqLen && p / blockSize < |items[k].blockTable|
    ensures Flatten(items, blockSize).contextSlotMapping[i] == SlotAt(items[k].blockTable, blockSize, p)
  {
    hide SlotAt, CeilDiv;
    var front, last := items[..|items| - 1], items[|items| - 1];
    var n := |Flatten(front, blockSize).contextSlotMapping|;
    if i < n {
      k, p := ContextMember(front, blockSize, i);
    } else {
      k, p := |items| - 1, i - n;
      PositionInBlocks(p, last.seqLen, blockSize);
      assert Flatten(items, blockSize).contextSlotMapping[i] == SlotsOf(last.blockTable, blockSize, 0, last.seqLen)[p];
    }
  }

  ghost predicate AllHeld(cfg: Config, m: Model, s: Sched, store: Store, items: seq<WorkerItem>) {
    forall k :: 0 <= k < |items| ==> RequestHeld(cfg, m, s, store, items[k].id, items[k].seqLen)
  }

  /** No kernel read misses: the whole flattened context is in the store. */
  lemma ContextPresent(cfg: Config, m: Model, s: Sched, store: Store, items: seq<WorkerItem>)
    requires ItemsOk(cfg, s, items) && AllAccepted(items, cfg.blockSize) && AllHeld(cfg, m, s, store, items)
    ensures Readable(Flatten(items, cfg.blockSize), store)
  {
    hide ItemsOk, SlotOfPosition, Covers, Flatten, AllAccepted;
    var b := Flatten(items, cfg.blockSize);
    FlattenShape(items, cfg.blockSize);
    forall i | 0 <= i < |b.contextSlotMapping| ensures b.contextSlotMapping[i] in store {
      var k, p := ContextMember(items, cfg.blockSize, i);
      ItemSlots(cfg, s, items, k);
      assert RequestHeld(cfg, m, s, store, items[k].id, items[k].seqLen);
      assert HeldAt(store, cfg.blockSize, ValuesOf(m, s, items[k].id), s.cache.tables[items[k].id], p);
    }
  }

  /** Gathering through request k's context slots yields its values, once they are held. */
  lemma GatherHeld(cfg: Config, m: Model, s: Sched, store: Store, items: seq<WorkerItem>, k: nat)
    requires ItemsOk(cfg, s, items) && AllAccepted(items, cfg.blockSize) && AllHeld(cfg, m, s, store, items)
    requires k < |items|
    requires Readable(Flatten(items, cfg.blockSize), store)
    ensures var b := Flatten(items, cfg.blockSize);
      && Segment(b, k, items[k], cfg.blockSize)
      && items[k].id in s.running
      && items[k].seqLen <= |All(s.running[items[k].id])|
      && Gather(store, ContextSlots(b, k)) == ValuesOf(m, s, items[k].id)[..items[k].seqLen]
  {
    hide ItemsOk, Flatten, Readable, CeilDiv, SlotOfPosition, SlotAt;
    var b, item := Flatten(items, cfg.blockSize), items[k];
    FlattenSegment(items, cfg.blockSize, k);
    ReadableSlice(b, store, k);
    ItemSlots(cfg, s, items, k);
    var slots := ContextSlots(b, k);
    assert slots == SlotsOf(item.blockTable, cfg.blockSize, 0, item.seqLen);
    assert RequestHeld(cfg, m, s, store, item.id, item.seqLen);
    forall p | 0 <= p < item.seqLen ensures slots[p] in store && store[slots[p]] == ValuesOf(m, s, item.id)[p] {
      PositionInBlocks(p, item.seqLen, cfg.blockSize);
      assert slots[p] == SlotAt(item.blockTable, cfg.blockSize, p);
      assert HeldAt(store, cfg.blockSize, ValuesOf(m, s, item.id), s.cache.tables[item.id], p);
    }
  }

  /** The flattened append puts the values of every item's tokens in place. */
  lemma AppendHolds(cfg: Config, m: Model, s: Sched, store: Store, items: seq<WorkerItem>)
    requires SchedInv(cfg, s, items) && StoreOk(cfg, m, s, store, [])
    ensures AllAccepted(items, cfg.blockSize)
    ensures var b := Flatten(items, cfg.blockSize);
      && Shaped(b, |b.requestIds|)
      && StoreOk(cfg, m, s, AppendBatch(m, store, b), items)
      && AllHeld(cfg, m, s, AppendBatch(m, store, b), items)
  {
    hide IdsOk, TablesOk, RequestsOk, ItemFor, SizesOk, AllAccepted, Flatten, AppendBatch, WriteItems, RequestHeld;
    hide PoolOk;
    BatchAccepted(cfg, s, items);
    FlattenWrites(m, store, items, cfg.blockSize);
    assert items[..|items|] == items;
    WriteItemsOk(cfg, m, s, store, items, |items|);
  }

  lemma AcceptedAt(items: seq<WorkerItem>, blockSize: nat, k: nat)
    requires blockSize > 0 && AllAccepted(items, blockSize) && k < |items|
    ensures ItemAccepted(items[k], blockSize)
  {}

  /** Request k's context, read back through its slots, is `values`. */
  ghost predicate ContextIs(b: GPUInputBatch, store: Store, k: nat, values: seq<Value>) {
    Readable(b, store) && k < |b.requestIds| && Gather(store, ContextSlots(b, k)) == values
  }

  /** Read-after-append: for every batch the scheduler emits, gathering through request k's context
      slots after the append yields exactly the values that its tokens, up to the item's sequence
      length, have on their own. */
  lemma ReadBack(cfg: Config, m: Model, s: Sched, store: Store, items: seq<WorkerItem>, k: nat)
    requires SchedInv(cfg, s, items) && StoreOk(cfg, m, s, store, []) && k < |items|
    ensures AllAccepted(items, cfg.blockSize) && items[k].id in s.running
    ensures var b := Flatten(items, cfg.blockSize);
      && Shaped(b, |b.requestIds|) && ItemAccepted(items[k], cfg.blockSize) && Segment(b, k, items[k], cfg.blockSize)
      && items[k].seqLen <= |All(s.running[items[k].id])|
      && ContextIs(b, AppendBatch(m, store, b), k, Dense(m, All(s.running[items[k].id])[..items[k].seqLen]))
  {
    hide IdsOk, CacheOk, RequestsOk, SizesOk, ItemFor, AllAccepted, Flatten, AppendBatch, AllHeld, StoreOk, Readable;
    hide Dense;
    AppendHolds(cfg, m, s, store, items);
    var b := Flatten(items, cfg.blockSize);
    ContextPresent(cfg, m, s, AppendBatch(m, store, b), items);
    GatherHeld(cfg, m, s, AppendBatch(m, store, b), items, k);
    AcceptedAt(items, cfg.blockSize, k);
    DensePrefix(m, All(s.running[items[k].id]), items[k].seqLen);
  }

  /** The slots an item writes are the tail of its context slots, from its start position on. */
  lemma WrittenTail(cfg: Config, s: Sched, items: seq<WorkerItem>, k: nat)
    requires ItemsOk(cfg, s, items) && k < |items|
    ensures items[k].startPos <= items[k].seqLen && Covers(items[k].blockTable, cfg.blockSize, items[k].seqLen)
    ensures SlotsOf(items[k].blockTable, cfg.blockSize, 0, items[k].seqLen)[items[k].startPos..] == items[k].slotMapping
  {
    hide ItemsOk, Covers;
    ItemSlots(cfg, s, items, k);
    var item := items[k];
    var slots := SlotsOf(item.blockTable, cfg.blockSize, 0, item.seqLen);
    forall i | 0 <= i < |item.slotMapping| ensures slots[item.startPos + i] == item.slotMapping[i] {
      assert SlotOfPosition(cfg, s, item.id, item.startPos + i, item.slotMapping[i]);
    }
  }

  lemma ReadableSlice(b: GPUInputBatch, store: Store, k: nat)
    requires Readable(b, store) && k < |b.requestIds|
    ensures k + 1 < |b.contextStartLoc| && b.contextStartLoc[k] <= b.contextStartLoc[k + 1] <= |b.contextSlotMapping|
    ensures forall i :: 0 <= i < |ContextSlots(b, k)| ==> ContextSlots(b, k)[i] in store
  {}

  // ----------------------------------------------------------------- sampling

  ghost function QueryOf(b: GPUInputBatch, store: Store, k: nat): Query
    requires Readable(b, store) && k < |b.requestIds|
  {
    ReadableSlice(b, store, k);
    Query(b.requestIds[k], Gather(store, ContextSlots(b, k)), b.generatedCounts[k], b.temperatures[k])
  }

  lemma {:induction false} SampleFromEffect(m: Model, b: GPUInputBatch, store: Store, k: nat,
                                            sampled: map<RequestId, Token>)
    requires Readable(b, store) && k <= |b.requestIds| && Distinct(b.requestIds)
    ensures var out := SampleFrom(m, b, store, k, sampled);
      && (forall id :: id in sampled && id !in b.requestIds[k..] ==> id in out && out[id] == sampled[id])
      && (forall id :: id in out && id !in b.requestIds[k..] ==> id in sampled)
      && (forall j :: k <= j < |b.requestIds| && b.sampleIndices[j] >= 0 ==>
            b.requestIds[j] in out && out[b.requestIds[j]] == m.sample(QueryOf(b, store, j)))
      && (forall j :: k <= j < |b.requestIds| && b.sampleIndices[j] < 0 && b.requestIds[j] !in sampled ==>
            b.requestIds[j] !in out)
    decreases |b.requestIds| - k
  {
    hide Gather, ContextSlots;
    if k < |b.requestIds| {
      var ids := b.requestIds;
      assert ids[k..] == [ids[k]] + ids[k + 1..];
      assert forall j :: k < j < |ids| ==> ids[j] in ids[k + 1..];
      assert ids[k] !in ids[k + 1..];
      SampleFromEffect(m, b, store, k + 1,
        if b.sampleIndices[k] < 0 then sampled else sampled[ids[k] := m.sample(QueryOf(b, store, k))]);
    }
  }

  /** The token an undisturbed sequential run would sample next. */
  ghost function NextToken(m: Model, req: EngineRequest, output: seq<Token>): Token {
    m.sample(Query(req.id, Dense(m, req.prompt + output), |output|, req.params.temperature))
  }

  /** Exactly the items that reach the end of their request's tokens are sampled, each from the
      values of its own dense token sequence. */
  ghost predicate SampledOk(m: Model, s: Sched, items: seq<WorkerItem>, sampled: map<RequestId, Token>) {
    forall k :: 0 <= k < |items| ==>
      && items[k].id in s.running
      && (items[k].id in sampled <==> items[k].seqLen == |All(s.running[items[k].id])|)
      && (items[k].id in sampled ==>
            sampled[items[k].id] == NextToken(m, s.running[items[k].id].req, s.running[items[k].id].output))
  }

  lemma ItemFields(cfg: Config, s: Sched, items: seq<WorkerItem>, k: nat)
    requires ItemsOk(cfg, s, items) && IdsOk(s) && k < |items|
    ensures items[k].id in s.running
    ensures var r := s.running[items[k].id];
      && r.req.id == items[k].id
      && items[k].generatedCount == |r.output| && items[k].temperature == r.req.params.temperature
      && items[k].shouldSample == (items[k].seqLen == |All(r)|)
  {
    hide CeilDiv;
    assert ItemFor(cfg, s.running[items[k].id], s.cache.tables[items[k].id], items[k]);
  }

  lemma FlattenIds(items: seq<WorkerItem>, blockSize: nat)
    requires blockSize > 0 && AllAccepted(items, blockSize)
    requires forall i, j :: 0 <= i < j < |items| ==> items[i].id != items[j].id
    ensures Distinct(Flatten(items, blockSize).requestIds)
  {
    hide Flatten, ItemAccepted;
    FlattenShape(items, blockSize);
    var ids := Flatten(items, blockSize).requestIds;
    forall k | 0 <= k < |items| ensures ids[k] == items[k].id { FlattenSegment(items, blockSize, k); }
  }

  lemma SamplesRight(cfg: Config, m: Model, s: Sched, store: Store, items: seq<WorkerItem>)
    requires IdsOk(s) && ItemsOk(cfg, s, items) && AllAccepted(items, cfg.blockSize) && AllHeld(cfg, m, s, store, items)
    requires Readable(Flatten(items, cfg.blockSize), store)
    ensures SampledOk(m, s, items, SampleFrom(m, Flatten(items, cfg.blockSize), store, 0, map[]))
  {
    hide IdsOk, AllAccepted, AllHeld, Readable, Flatten, SampleFrom, ItemFor, ContextSlots, Gather;
    var b := Flatten(items, cfg.blockSize);
    FlattenIds(items, cfg.blockSize);
    FlattenShape(items, cfg.blockSize);
    SampleFromEffect(m, b, store, 0, map[]);
    var sampled := SampleFrom(m, b, store, 0, map[]);
    forall k | 0 <= k < |items|
      ensures items[k].id in s.running
      ensures items[k].id in sampled <==> items[k].seqLen == |All(s.running[items[k].id])|
      ensures items[k].id in sampled ==>
        sampled[items[k].id] == NextToken(m, s.running[items[k].id].req, s.running[items[k].id].output)
    {
      SampleOfItem(cfg, m, s, store, items, k, sampled);
    }
  }

  lemma SampleOfItem(cfg: Config, m: Model, s: Sched, store: Store, items: seq<WorkerItem>, k: nat,
                     sampled: map<RequestId, Token>)
    requires IdsOk(s) && ItemsOk(cfg, s, items) && AllAccepted(items, cfg.blockSize) && AllHeld(cfg, m, s, store, items)
    requires Readable(Flatten(items, cfg.blockSize), store) && k < |items|
    requires var b := Flatten(items, cfg.blockSize);
      && Shaped(b, |items|)
      && (b.sampleIndices[k] >= 0 ==>
            b.requestIds[k] in sampled && sampled[b.requestIds[k]] == m.sample(QueryOf(b, store, k)))
      && (b.sampleIndices[k] < 0 ==> b.requestIds[k] !in sampled)
    ensures items[k].id in s.running
    ensures items[k].id in sampled <==> items[k].seqLen == |All(s.running[items[k].id])|
    ensures items[k].id in sampled ==>
      sampled[items[k].id] == NextToken(m, s.running[items[k].id].req, s.running[items[k].id].output)
  {
    hide IdsOk, AllHeld, Readable, Flatten, ItemsOk, ContextSlots, Gather, SlotsOf;
    GatherHeld(cfg, m, s, store, items, k);
    ItemFields(cfg, s, items, k);
    ItemSlots(cfg, s, items, k);
    var r, values := s.running[items[k].id], ValuesOf(m, s, items[k].id);
    assert values[..|values|] == values;
  }

  // ------------------------------------------------------- one model execution

  datatype WorkerResult =
    | Sampled(store: Store, tokens: map<RequestId, Token>, metrics: BatchMetrics)
    | Failed(store: Store)

  ghost function MetricsOf(cfg: Config, batchId: nat, b: GPUInputBatch): BatchMetrics
    requires Shaped(b, |b.requestIds|)
  {
    BatchMetrics(batchId, cfg.rank, |b.requestIds|, |b.inputIds|, |b.inputIds| - DecodeTokens(b), DecodeTokens(b))
  }

  /** One Worker turn on a batch: flatten, append, read the contexts, sample.  Any exception
      on the way is reported as a failure. */
  ghost function Execute(cfg: Config, m: Model, store: Store, batchId: nat, items: seq<WorkerItem>): WorkerResult {
    if items == [] || !AllAccepted(items, cfg.blockSize) then Failed(store)
    else
      FlattenWrites(m, store, items, cfg.blockSize);
      var b := Flatten(items, cfg.blockSize);
      var store' := AppendBatch(m, store, b);
      if !Readable(b, store') then Failed(store')
      else Sampled(store', SampleFrom(m, b, store', 0, map[]), MetricsOf(cfg, batchId, b))
  }

  /** On a scheduler-built batch the Worker succeeds, writes every chunk, and samples for each
      finished prefix exactly the token of the sequential run. */
  lemma ExecuteOk(cfg: Config, m: Model, s: Sched, store: Store, batchId: nat, items: seq<WorkerItem>)
    requires SchedInv(cfg, s, items) && StoreOk(cfg, m, s, store, []) && items != []
    ensures var r := Execute(cfg, m, store, batchId, items);
      r.Sampled? && StoreOk(cfg, m, s, r.store, items) && SampledOk(m, s, items, r.tokens)
  {
    hide IdsOk, TablesOk, RequestsOk, ItemFor, SizesOk, AllAccepted, Flatten, AppendBatch, SampleFrom, WriteItems;
    hide Readable, RequestHeld, MetricsOf, PoolOk;
    AppendHolds(cfg, m, s, store, items);
    FlattenWrites(m, store, items, cfg.blockSize);
    var b := Flatten(items, cfg.blockSize);
    var store' := AppendBatch(m, store, b);
    ContextPresent(cfg, m, s, store', items);
    SamplesRight(cfg, m, s, store', items);
  }
}
