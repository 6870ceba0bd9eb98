/** K/V append kernels: thread `linear` copies one K and one V element into the cache
    (kernels/paged_kv_cache/paged_kv_cache.cu, runtime/torch_attention_cuda.cu). */
module CacheAppend {
  import opened Protocol
  import opened Arith
  import opened Attention
  import opened PagedDecode

  /** Token i's head h in a dense [tokens, kv_heads, head_dim] input. */
  function DenseRow(sh: Shape, i: nat, h: nat): nat { Cell(i, h, sh.kvHeads) }

  /** Head h of a cache slot. */
  function SlotRow(sh: Shape, slot: nat, h: nat): nat { Cell(slot, h, sh.kvHeads) }

  function Source(sh: Shape, i: nat, h: nat, d: nat): nat { Cell(DenseRow(sh, i, h), d, sh.headDim) }

  function Elements(sh: Shape): nat { sh.kvHeads * sh.headDim }

  lemma HeadCell(sh: Shape, slot: nat, within: nat)
    requires within < Elements(sh)
    ensures sh.headDim > 0 && 0 <= within / sh.headDim < sh.kvHeads && 0 <= within % sh.headDim < sh.headDim
    ensures Cell(SlotRow(sh, slot, within / sh.headDim), within % sh.headDim, sh.headDim)
      == Cell(slot, within, Elements(sh))
  {
    CellOf(within, sh.kvHeads, sh.headDim);
    var h := within / sh.headDim;
    assert (slot * sh.kvHeads + h) * sh.headDim == slot * (sh.kvHeads * sh.headDim) + h * sh.headDim;
  }

  /** Token, head and dimension of a thread's linear index. */
  lemma ThreadElement(sh: Shape, total: nat, linear: nat)
    requires linear < total * Elements(sh)
    ensures Elements(sh) > 0 && sh.headDim > 0
    ensures var i, within := linear / Elements(sh), linear % Elements(sh);
      && 0 <= i < total && 0 <= within < Elements(sh)
      && 0 <= within / sh.headDim < sh.kvHeads && 0 <= within % sh.headDim < sh.headDim
      && Source(sh, i, within / sh.headDim, within % sh.headDim) == linear
  {
    CellOf(linear, total, Elements(sh));
    HeadCell(sh, linear / Elements(sh), linear % Elements(sh));
  }

  lemma InputShape(sh: Shape, n: nat)
    ensures n * sh.kvHeads * sh.headDim == n * Elements(sh)
  {}

  /** Active tokens go to distinct slots of the cache. */
  ghost predicate AppendArgs(sh: Shape, slots: seq<nat>, active: seq<bool>) {
    && |active| == |slots|
    && (forall i :: 0 <= i < |slots| && active[i] ==> slots[i] < CacheSlots(sh))
    && forall i, j :: 0 <= i < j < |slots| && active[i] && active[j] ==> slots[i] != slots[j]
  }

  predicate ActiveThread(sh: Shape, active: seq<bool>, linear: nat) {
    linear < |active| * Elements(sh) && Elements(sh) > 0 && 0 <= linear / Elements(sh) < |active|
      && active[linear / Elements(sh)]
  }

  /** The cell that thread `linear` writes. */
  function ThreadTarget(sh: Shape, slots: seq<nat>, active: seq<bool>, linear: nat): (cell: nat)
    requires AppendArgs(sh, slots, active) && ActiveThread(sh, active, linear)
    ensures cell < CacheRows(sh) * sh.headDim
  {
    ThreadElement(sh, |slots|, linear);
    var slot := slots[linear / Elements(sh)];
    CellInRange(slot, linear % Elements(sh), CacheSlots(sh), Elements(sh));
    InputShape(sh, CacheSlots(sh));
    Cell(slot, linear % Elements(sh), Elements(sh))
  }

  /** No two threads write the same cell. */
  lemma ThreadsDisjoint(sh: Shape, slots: seq<nat>, active: seq<bool>, linear: nat, linear': nat)
    requires AppendArgs(sh, slots, active) && ActiveThread(sh, active, linear) && ActiveThread(sh, active, linear')
    requires ThreadTarget(sh, slots, active, linear) == ThreadTarget(sh, slots, active, linear')
    ensures linear == linear'
  {
    hide Cell, Source;
    var n := Elements(sh);
    ThreadElement(sh, |slots|, linear);
    ThreadElement(sh, |slots|, linear');
    CellUnique(slots[linear / n], linear % n, slots[linear' / n], linear' % n, n);
    DivModDetermine(linear, linear', n);
  }

  ghost predicate WrittenCell(sh: Shape, slots: seq<nat>, active: seq<bool>, done: nat, c: nat)
    requires AppendArgs(sh, slots, active)
  {
    exists e :: 0 <= e < done && ActiveThread(sh, active, e) && ThreadTarget(sh, slots, active, e) == c
  }

  /** Threads 0..done have stored their elements, and nothing else changed. */
  ghost predicate Stored(sh: Shape, slots: seq<nat>, active: seq<bool>, input: seq<real>, before: seq<real>,
                         cache: seq<real>, done: nat)
    requires AppendArgs(sh, slots, active)
    requires done <= |input| == |slots| * Elements(sh) && |before| == |cache| == CacheRows(sh) * sh.headDim
  {
    && (forall e :: 0 <= e < done && ActiveThread(sh, active, e) ==>
          cache[ThreadTarget(sh, slots, active, e)] == input[e])
    && forall c :: 0 <= c < |cache| && !WrittenCell(sh, slots, active, done, c) ==> cache[c] == before[c]
  }

  lemma StoreElement(sh: Shape, slots: seq<nat>, active: seq<bool>, input: seq<real>, before: seq<real>,
                     cache: seq<real>, cache': seq<real>, linear: nat)
    requires AppendArgs(sh, slots, active) && linear < |input|
    requires |input| == |slots| * Elements(sh) && |before| == |cache| == CacheRows(sh) * sh.headDim
    requires cache'
      == if ActiveThread(sh, active, linear) then cache[ThreadTarget(sh, slots, active, linear) := input[linear]]
      else cache
    requires Stored(sh, slots, active, input, before, cache, linear)
    ensures Stored(sh, slots, active, input, before, cache', linear + 1)
  {
    hide ThreadTarget, AppendArgs, CacheRows, ActiveThread, Elements;
    if ActiveThread(sh, active, linear) {
      var cell := ThreadTarget(sh, slots, active, linear);
      forall e | 0 <= e < linear + 1 && ActiveThread(sh, active, e)
        ensures cache'[ThreadTarget(sh, slots, active, e)] == input[e]
      {
        if e < linear && ThreadTarget(sh, slots, active, e) == cell {
          ThreadsDisjoint(sh, slots, active, e, linear);
        }
      }
    }
  }

  lemma StoredNothing(sh: Shape, slots: seq<nat>, active: seq<bool>, input: seq<real>, before: seq<real>)
    requires AppendArgs(sh, slots, active)
    requires |input| == |slots| * Elements(sh) && |before| == CacheRows(sh) * sh.headDim
    ensures Stored(sh, slots, active, input, before, before, 0)
  {}

  // ------------------------------------------------------------------------ row by row

  ghost predicate WritesSlot(slots: seq<nat>, active: seq<bool>, slot: nat)
    requires |slots| == |active|
  {
    exists i :: 0 <= i < |slots| && active[i] && slots[i] == slot
  }

  function CacheVec(sh: Shape, cache: seq<real>, slot: nat, h: nat): (v: seq<real>)
    requires IsMatrix(cache, CacheRows(sh), sh.headDim) && slot < CacheSlots(sh) && h < sh.kvHeads
    ensures |v| == sh.headDim
  {
    CellInRange(slot, h, CacheSlots(sh), sh.kvHeads);
    Vec(cache, CacheRows(sh), sh.headDim, SlotRow(sh, slot, h))
  }

  function InputVec(sh: Shape, input: seq<real>, n: nat, i: nat, h: nat): (v: seq<real>)
    requires IsMatrix(input, n * sh.kvHeads, sh.headDim) && i < n && h < sh.kvHeads
    ensures |v| == sh.headDim
  {
    CellInRange(i, h, n, sh.kvHeads);
    Vec(input, n * sh.kvHeads, sh.headDim, DenseRow(sh, i, h))
  }

  /** Caches are laid out as [slots, kv_heads, head_dim], inputs as [tokens, kv_heads, head_dim]. */
  lemma Layout(sh: Shape, cache: seq<real>, slot: nat, input: seq<real>, n: nat, i: nat, h: nat, d: nat)
    requires IsMatrix(cache, CacheRows(sh), sh.headDim) && slot < CacheSlots(sh)
    requires IsMatrix(input, n * sh.kvHeads, sh.headDim) && i < n && h < sh.kvHeads && d < sh.headDim
    ensures ElementIs(cache, slot * sh.kvHeads + h, sh.headDim, d, CacheVec(sh, cache, slot, h)[d])
    ensures ElementIs(input, i * sh.kvHeads + h, sh.headDim, d, InputVec(sh, input, n, i, h)[d])
  {
    hide CacheRows, CacheSlots, Vec, IsMatrix, ElementIs;
    RowsOfCache(sh);
    CellInRange(slot, h, CacheSlots(sh), sh.kvHeads);
    CellInRange(i, h, n, sh.kvHeads);
    RowElement(cache, CacheRows(sh), sh.headDim, SlotRow(sh, slot, h), d);
    RowElement(input, n * sh.kvHeads, sh.headDim, DenseRow(sh, i, h), d);
  }

  /** `x` is element d of the row-major row `row`. */
  ghost predicate ElementIs(a: seq<real>, row: nat, width: nat, d: nat, x: real) {
    row * width + d < |a| && x == a[row * width + d]
  }

  lemma RowElement(a: seq<real>, rows: nat, width: nat, row: nat, d: nat)
    requires IsMatrix(a, rows, width) && row < rows && d < width
    ensures ElementIs(a, row, width, d, Vec(a, rows, width, row)[d])
  {
    hide IsMatrix, Vec;
    VecAt(a, rows, width, row, d);
  }

  lemma RowsOfCache(sh: Shape) ensures CacheRows(sh) == CacheSlots(sh) * sh.kvHeads {}

  /** Every active token's heads are at its slot; every other slot is as before. */
  ghost predicate Appended(sh: Shape, slots: seq<nat>, active: seq<bool>, input: seq<real>, before: seq<real>,
                           cache: seq<real>)
    requires AppendArgs(sh, slots, active) && IsMatrix(input, |slots| * sh.kvHeads, sh.headDim)
    requires IsMatrix(before, CacheRows(sh), sh.headDim) && IsMatrix(cache, CacheRows(sh), sh.headDim)
  {
    && (forall i, h :: 0 <= i < |slots| && active[i] && 0 <= h < sh.kvHeads ==>
          CacheVec(sh, cache, slots[i], h) == InputVec(sh, input, |slots|, i, h))
    && (forall slot, h :: 0 <= slot < CacheSlots(sh) && !WritesSlot(slots, active, slot) && 0 <= h < sh.kvHeads ==>
          CacheVec(sh, cache, slot, h) == CacheVec(sh, before, slot, h))
  }

  /** Element (i, h, d) is stored by the thread whose linear index is its source. */
  lemma ThreadOf(sh: Shape, slots: seq<nat>, active: seq<bool>, i: nat, h: nat, d: nat)
    requires AppendArgs(sh, slots, active) && i < |slots| && active[i] && h < sh.kvHeads && d < sh.headDim
    ensures Source(sh, i, h, d) < |slots| * Elements(sh) && ActiveThread(sh, active, Source(sh, i, h, d))
    ensures ThreadTarget(sh, slots, active, Source(sh, i, h, d)) == Cell(SlotRow(sh, slots[i], h), d, sh.headDim)
  {
    hide Cell;
    assert |active| == |slots|;
    CellInRange(i, h, |slots|, sh.kvHeads);
    CellInRange(DenseRow(sh, i, h), d, |slots| * sh.kvHeads, sh.headDim);
    InputShape(sh, |slots|);
    var linear := Source(sh, i, h, d);
    ThreadElement(sh, |slots|, linear);
    var i', within := linear / Elements(sh), linear % Elements(sh);
    CellUnique(DenseRow(sh, i, h), d, DenseRow(sh, i', within / sh.headDim), within % sh.headDim, sh.headDim);
    CellUnique(i, h, i', within / sh.headDim, sh.kvHeads);
    HeadCell(sh, slots[i], within);
  }

  lemma StoredRow(sh: Shape, slots: seq<nat>, active: seq<bool>, input: seq<real>, before: seq<real>, cache: seq<real>,
                  i: nat, h: nat)
    requires AppendArgs(sh, slots, active) && i < |slots| && active[i] && h < sh.kvHeads
    requires |input| == |slots| * Elements(sh) && IsMatrix(input, |slots| * sh.kvHeads, sh.headDim)
    requires |before| == |cache| == CacheRows(sh) * sh.headDim
    requires Stored(sh, slots, active, input, before, cache, |input|)
    ensures CacheVec(sh, cache, slots[i], h) == InputVec(sh, input, |slots|, i, h)
  {
    hide ThreadTarget, CacheRows, Cell, Elements, ActiveThread;
    var stored, given := CacheVec(sh, cache, slots[i], h), InputVec(sh, input, |slots|, i, h);
    forall d | 0 <= d < sh.headDim ensures stored[d] == given[d] {
      ThreadOf(sh, slots, active, i, h, d);
    }
  }

  lemma NotATarget(sh: Shape, slots: seq<nat>, active: seq<bool>, slot: nat, h: nat, d: nat, e: nat)
    requires AppendArgs(sh, slots, active) && !WritesSlot(slots, active, slot)
    requires h < sh.kvHeads && d < sh.headDim && ActiveThread(sh, active, e)
    ensures ThreadTarget(sh, slots, active, e) != Cell(SlotRow(sh, slot, h), d, sh.headDim)
  {
    hide CacheRows, Cell;
    ThreadElement(sh, |slots|, e);
    var i, within := e / Elements(sh), e % Elements(sh);
    assert slots[i] != slot;
    HeadCell(sh, slots[i], within);
    CellUnique(SlotRow(sh, slots[i], within / sh.headDim), within % sh.headDim, SlotRow(sh, slot, h), d, sh.headDim);
    CellUnique(slots[i], within / sh.headDim, slot, h, sh.kvHeads);
  }

  lemma UntouchedRow(sh: Shape, slots: seq<nat>, active: seq<bool>, input: seq<real>, before: seq<real>,
                     cache: seq<real>, slot: nat, h: nat)
    requires AppendArgs(sh, slots, active) && slot < CacheSlots(sh) && h < sh.kvHeads
    requires !WritesSlot(slots, active, slot)
    requires |input| == |slots| * Elements(sh) && |before| == |cache| == CacheRows(sh) * sh.headDim
    requires Stored(sh, slots, active, input, before, cache, |input|)
    ensures CacheVec(sh, cache, slot, h) == CacheVec(sh, before, slot, h)
  {
    hide ThreadTarget, CacheRows, Cell, AppendArgs, ActiveThread, WritesSlot, Elements;
    var now, was := CacheVec(sh, cache, slot, h), CacheVec(sh, before, slot, h);
    forall d | 0 <= d < sh.headDim ensures now[d] == was[d] {
      forall e | 0 <= e < |input| && ActiveThread(sh, active, e)
        ensures ThreadTarget(sh, slots, active, e) != Cell(SlotRow(sh, slot, h), d, sh.headDim)
      {
        NotATarget(sh, slots, active, slot, h, d, e);
      }
      assert !WrittenCell(sh, slots, active, |input|, Cell(SlotRow(sh, slot, h), d, sh.headDim));
    }
  }

  lemma StoredAppended(sh: Shape, slots: seq<nat>, active: seq<bool>, input: seq<real>, before: seq<real>,
                       cache: seq<real>)
    requires AppendArgs(sh, slots, active)
    requires |input| == |slots| * Elements(sh) && IsMatrix(input, |slots| * sh.kvHeads, sh.headDim)
    requires |before| == |cache| == CacheRows(sh) * sh.headDim
    requires Stored(sh, slots, active, input, before, cache, |input|)
    ensures Appended(sh, slots, active, input, before, cache)
  {
    hide Stored, WritesSlot, CacheRows, CacheVec, InputVec;
    forall i, h | 0 <= i < |slots| && active[i] && 0 <= h < sh.kvHeads
      ensures CacheVec(sh, cache, slots[i], h) == InputVec(sh, input, |slots|, i, h)
    {
      StoredRow(sh, slots, active, input, before, cache, i, h);
    }
    forall slot, h | 0 <= slot < CacheSlots(sh) && !WritesSlot(slots, active, slot) && 0 <= h < sh.kvHeads
      ensures CacheVec(sh, cache, slot, h) == CacheVec(sh, before, slot, h)
    {
      UntouchedRow(sh, slots, active, input, before, cache, slot, h);
    }
  }

  /** append_kv_kernel of the Torch extension: the slot comes from the batch's slot mapping, and
      threads of inactive tokens return.  Threads write different cells, so their order does not matter. */
  method AppendBySlot(sh: Shape, slots: seq<nat>, active: seq<bool>, key: seq<real>, value: seq<real>,
                      kCache: array<real>, vCache: array<real>)
    requires AppendArgs(sh, slots, active) && kCache != vCache
    requires IsMatrix(key, |slots| * sh.kvHeads, sh.headDim) && IsMatrix(value, |slots| * sh.kvHeads, sh.headDim)
    requires kCache.Length == vCache.Length == CacheRows(sh) * sh.headDim
    modifies kCache, vCache
    ensures Appended(sh, slots, active, key, old(kCache[..]), kCache[..])
    ensures Appended(sh, slots, active, value, old(vCache[..]), vCache[..])
  {
    hide CacheRows, CacheSlots, Stored, Appended;
    InputShape(sh, |slots|);
    StoredNothing(sh, slots, active, key, kCache[..]);
    StoredNothing(sh, slots, active, value, vCache[..]);
    var perToken := Elements(sh);
    for linear := 0 to |slots| * perToken
      invariant Stored(sh, slots, active, key, old(kCache[..]), kCache[..], linear)
      invariant Stored(sh, slots, active, value, old(vCache[..]), vCache[..], linear)
    {
      ghost var k, v := kCache[..], vCache[..];
      CellOf(linear, |slots|, perToken);
      var token := linear / perToken;
      if active[token] {
        var cell := slots[token] * perToken + linear % perToken;
        assert cell == ThreadTarget(sh, slots, active, linear);
        kCache[cell] := key[linear];
        vCache[cell] := value[linear];
      }
      StoreElement(sh, slots, active, key, old(kCache[..]), k, kCache[..], linear);
      StoreElement(sh, slots, active, value, old(vCache[..]), v, vCache[..], linear);
    }
    StoredAppended(sh, slots, active, key, old(kCache[..]), kCache[..]);
    StoredAppended(sh, slots, active, value, old(vCache[..]), vCache[..]);
  }

  // --------------------------------------------------------------------- by block table

  /** No block appears twice among the entries in use. */
  ghost predicate NoRepeat(sh: Shape, table: seq<int>, len: nat)
    requires sh.blockSize > 0 && TableOk(sh, table, len)
  {
    forall i, j :: 0 <= i < j < CeilDiv(len, sh.blockSize) ==> table[i] != table[j]
  }

  ghost predicate Apart(sh: Shape, table: seq<int>, len: nat, table': seq<int>, len': nat)
    requires sh.blockSize > 0 && TableOk(sh, table, len) && TableOk(sh, table', len')
  {
    forall i, j :: 0 <= i < CeilDiv(len, sh.blockSize) && 0 <= j < CeilDiv(len', sh.blockSize) ==> table[i] != table'[j]
  }

  lemma PhysicalSlotUnique(sh: Shape, table: seq<int>, len: nat, p: nat, p': nat)
    requires sh.blockSize > 0 && TableOk(sh, table, len) && NoRepeat(sh, table, len) && p < len && p' < len
    requires PhysicalSlot(sh, table, len, p) == PhysicalSlot(sh, table, len, p')
    ensures p == p'
  {
    hide CeilDiv;
    PositionInBlocks(p, len, sh.blockSize);
    PositionInBlocks(p', len, sh.blockSize);
    SlotUnique(table[p / sh.blockSize], p % sh.blockSize, table[p' / sh.blockSize], p' % sh.blockSize, sh.blockSize);
    DivModDetermine(p, p', sh.blockSize);
  }

  lemma PhysicalSlotsApart(sh: Shape, table: seq<int>, len: nat, p: nat, table': seq<int>, len': nat, p': nat)
    requires sh.blockSize > 0 && TableOk(sh, table, len) && p < len && TableOk(sh, table', len') && p' < len'
    requires Apart(sh, table, len, table', len')
    ensures PhysicalSlot(sh, table, len, p) != PhysicalSlot(sh, table', len', p')
  {
    hide CeilDiv;
    PositionInBlocks(p, len, sh.blockSize);
    PositionInBlocks(p', len', sh.blockSize);
    SlotUnique(table[p / sh.blockSize], p % sh.blockSize, table'[p' / sh.blockSize], p' % sh.blockSize, sh.blockSize);
  }

  /** The slots of the given positions. */
  ghost function TableSlots(sh: Shape, table: seq<int>, len: nat, offsets: seq<nat>): (r: seq<nat>)
    requires sh.blockSize > 0 && TableOk(sh, table, len) && forall i :: 0 <= i < |offsets| ==> offsets[i] < len
    ensures |r| == |offsets|
  {
    seq(|offsets|, i requires 0 <= i < |offsets| => PhysicalSlot(sh, table, len, offsets[i]))
  }

  ghost function AllActive(n: nat): seq<bool> { seq(n, _ => true) }

  lemma TableArgs(sh: Shape, table: seq<int>, len: nat, offsets: seq<nat>)
    requires sh.blockSize > 0 && TableOk(sh, table, len) && NoRepeat(sh, table, len)
    requires Distinct(offsets) && forall i :: 0 <= i < |offsets| ==> offsets[i] < len
    ensures AppendArgs(sh, TableSlots(sh, table, len, offsets), AllActive(|offsets|))
  {
    hide TableOk, NoRepeat, PhysicalSlot;
    var slots := TableSlots(sh, table, len, offsets);
    forall i, j | 0 <= i < j < |slots| ensures slots[i] != slots[j] {
      if slots[i] == slots[j] { PhysicalSlotUnique(sh, table, len, offsets[i], offsets[j]); }
    }
  }

  /** append_kv_cache_kernel: the slot comes from the sequence's block table. */
  method AppendByTable(sh: Shape, table: seq<int>, len: nat, offsets: seq<nat>, key: seq<real>, value: seq<real>,
                       kCache: array<real>, vCache: array<real>)
    requires sh.blockSize > 0 && TableOk(sh, table, len) && NoRepeat(sh, table, len)
    requires Distinct(offsets) && forall i :: 0 <= i < |offsets| ==> offsets[i] < len
    requires AppendArgs(sh, TableSlots(sh, table, len, offsets), AllActive(|offsets|)) && kCache != vCache
    requires IsMatrix(key, |offsets| * sh.kvHeads, sh.headDim) && IsMatrix(value, |offsets| * sh.kvHeads, sh.headDim)
    requires kCache.Length == vCache.Length == CacheRows(sh) * sh.headDim
    modifies kCache, vCache
    ensures Appended(sh, TableSlots(sh, table, len, offsets), AllActive(|offsets|), key, old(kCache[..]), kCache[..])
    ensures Appended(sh, TableSlots(sh, table, len, offsets), AllActive(|offsets|), value, old(vCache[..]), vCache[..])
  {
    hide CacheRows, CacheSlots, Stored, Appended, AppendArgs, TableOk, NoRepeat;
    ghost var slots, active := TableSlots(sh, table, len, offsets), AllActive(|offsets|);
    InputShape(sh, |slots|);
    StoredNothing(sh, slots, active, key, kCache[..]);
    StoredNothing(sh, slots, active, value, vCache[..]);
    var perToken := Elements(sh);
    for linear := 0 to |offsets| * perToken
      invariant Stored(sh, slots, active, key, old(kCache[..]), kCache[..], linear)
      invariant Stored(sh, slots, active, value, old(vCache[..]), vCache[..], linear)
    {
      ghost var k, v := kCache[..], vCache[..];
      ThreadElement(sh, |offsets|, linear);
      var token, within := linear / perToken, linear % perToken;
      var slot := PhysicalSlot(sh, table, len, offsets[token]);
      HeadCell(sh, slot, within);
      var cell := (slot * sh.kvHeads + within / sh.headDim) * sh.headDim + within % sh.headDim;
      assert cell == ThreadTarget(sh, slots, active, linear);
      kCache[cell] := key[linear];
      vCache[cell] := value[linear];
      StoreElement(sh, slots, active, key, old(kCache[..]), k, kCache[..], linear);
      StoreElement(sh, slots, active, value, old(vCache[..]), v, vCache[..], linear);
    }
    StoredAppended(sh, slots, active, key, old(kCache[..]), kCache[..]);
    StoredAppended(sh, slots, active, value, old(vCache[..]), vCache[..]);
  }
}
