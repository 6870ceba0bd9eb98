/** Batch flattening (minivllm/worker/batch.py), the slot-indexed KV store
    (minivllm/worker/operator_runtime.py) and one model execution
    (minivllm/worker/model_runner.py), as functions. */
module WorkerSide {
  import opened Protocol
  import opened Arith
  import opened KVCache

  /** What each slot of the Worker's cache holds. */
  type Store = map<Slot, Value>

  datatype GPUInputBatch = GPUInputBatch(
    requestIds: seq<RequestId>,
    inputIds: seq<Token>,
    positions: seq<nat>,
    slotMapping: seq<Slot>,
    queryStartLoc: seq<nat>,
    seqLens: seq<nat>,
    blockTables: seq<seq<int>>,
    contextSlotMapping: seq<Slot>,
    contextStartLoc: seq<nat>,
    isDecode: seq<bool>,
    sampleIndices: seq<int>,
    generatedCounts: seq<nat>,
    temperatures: seq<real>)

  const EmptyBatch := GPUInputBatch([], [], [], [], [0], [], [], [], [0], [], [], [], [])

  /** The checks of `from_worker_batch` on one item. */
  predicate ItemAccepted(item: WorkerItem, blockSize: nat)
    requires blockSize > 0
  {
    && item.tokenIds != []
    && |item.tokenIds| == |item.slotMapping|
    && item.seqLen == item.startPos + |item.tokenIds|
    && Covers(item.blockTable, blockSize, item.seqLen)
  }

  function Span(start: nat, end: nat): seq<nat>
    requires start <= end
  {
    seq(end - start, i requires 0 <= i < end - start => start + i)
  }

  /** One round of the flattening loop; block tables are cut but not yet padded. */
  function Extend(b: GPUInputBatch, item: WorkerItem, blockSize: nat): GPUInputBatch
    requires blockSize > 0 && ItemAccepted(item, blockSize)
  {
    var inputIds := b.inputIds + item.tokenIds;
    var context := b.contextSlotMapping + SlotsOf(item.blockTable, blockSize, 0, item.seqLen);
    GPUInputBatch(
      b.requestIds + [item.id],
      inputIds,
      b.positions + Span(item.startPos, item.seqLen),
      b.slotMapping + item.slotMapping,
      b.queryStartLoc + [|inputIds|],
      b.seqLens + [item.seqLen],
      b.blockTables + [item.blockTable[..CeilDiv(item.seqLen, blockSize)]],
      context,
      b.contextStartLoc + [|context|],
      b.isDecode + [|item.tokenIds| == 1 && item.generatedCount > 0],
      b.sampleIndices + [if item.shouldSample then |inputIds| - 1 else -1],
      b.generatedCounts + [item.generatedCount],
      b.temperatures + [item.temperature])
  }

  predicate AllAccepted(items: seq<WorkerItem>, blockSize: nat)
    requires blockSize > 0
  {
    forall k :: 0 <= k < |items| ==> ItemAccepted(items[k], blockSize)
  }

  function Flatten(items: seq<WorkerItem>, blockSize: nat): GPUInputBatch
    requires blockSize > 0 && AllAccepted(items, blockSize)
  {
    if items == [] then EmptyBatch
    else Extend(Flatten(items[..|items| - 1], blockSize), items[|items| - 1], blockSize)
  }

  function MaxWidth(tables: seq<seq<int>>): nat {
    if tables == [] then 0
    else
      var w := MaxWidth(tables[..|tables| - 1]);
      if |tables[|tables| - 1]| > w then |tables[|tables| - 1]| else w
  }

  function PadTable(table: seq<int>, width: nat): seq<int> {
    table + seq(if width >= |table| then width - |table| else 0, _ => -1)
  }

  function PadTables(tables: seq<seq<int>>): seq<seq<int>> {
    seq(|tables|, k requires 0 <= k < |tables| => PadTable(tables[k], MaxWidth(tables)))
  }

  /** `from_worker_batch`; `None` is its ValueError. */
  function FromWorkerBatch(items: seq<WorkerItem>, blockSize: nat): Option<GPUInputBatch>
    requires blockSize > 0
  {
    if items == [] || !AllAccepted(items, blockSize) then None
    else
      var b := Flatten(items, blockSize);
      Some(b.(blockTables := PadTables(b.blockTables)))
  }

  /** The values that a request's tokens have on their own: each a function of its token and of the
      values before it. */
  function Dense(m: Model, tokens: seq<Token>): (values: seq<Value>)
    ensures |values| == |tokens|
  {
    if tokens == [] then []
    else
      var n := |tokens| - 1;
      var front := Dense(m, tokens[..n]);
      front + [m.embed(tokens[n], Present(front))]
  }

  function Present(values: seq<Value>): seq<Option<Value>> {
    seq(|values|, i requires 0 <= i < |values| => Some(values[i]))
  }

  /** Reading some slots; a slot never written reads as `None`. */
  function Look(kv: Store, slots: seq<Slot>): seq<Option<Value>> {
    seq(|slots|, i requires 0 <= i < |slots| => if slots[i] in kv then Some(kv[slots[i]]) else None)
  }

  /** Write the values of tokens to slots left to right, each from what its context slots then hold. */
  function AppendKv(m: Model, kv: Store, tokens: seq<Token>, slots: seq<Slot>, contexts: seq<seq<Slot>>): Store
    requires |tokens| == |slots| == |contexts|
  {
    if tokens == [] then kv
    else
      var n := |tokens| - 1;
      var front := AppendKv(m, kv, tokens[..n], slots[..n], contexts[..n]);
      front[slots[n] := m.embed(tokens[n], Look(front, contexts[n]))]
  }

  function Gather(kv: Store, slots: seq<Slot>): seq<Value>
    requires forall i :: 0 <= i < |slots| ==> slots[i] in kv
  {
    seq(|slots|, i requires 0 <= i < |slots| => kv[slots[i]])
  }

  /** Context slots of each of an item's tokens: the positions before it. */
  function ItemContexts(item: WorkerItem, blockSize: nat): (r: seq<seq<Slot>>)
    requires blockSize > 0 && ItemAccepted(item, blockSize)
    ensures |r| == |item.tokenIds|
  {
    seq(|item.tokenIds|, i requires 0 <= i < |item.tokenIds| =>
      CeilDivMonotone(item.startPos + i, item.seqLen, blockSize);
      SlotsOf(item.blockTable, blockSize, 0, item.startPos + i))
  }

  // ------------------------------------------------------------ flattened form

  /** Where item `k` lies inside the flattened batch. */
  ghost predicate Segment(b: GPUInputBatch, k: nat, item: WorkerItem, blockSize: nat)
    requires blockSize > 0 && ItemAccepted(item, blockSize)
  {
    && k < |b.requestIds| && k < |b.isDecode| && k < |b.sampleIndices| && k < |b.generatedCounts|
    && k < |b.temperatures| && k < |b.seqLens| && k + 1 < |b.queryStartLoc| && k + 1 < |b.contextStartLoc|
    && var q, q', c, c' := b.queryStartLoc[k], b.queryStartLoc[k + 1], b.contextStartLoc[k], b.contextStartLoc[k + 1];
    && q + |item.tokenIds| == q' <= |b.inputIds| && |b.inputIds| == |b.slotMapping| == |b.positions|
    && b.inputIds[q..q'] == item.tokenIds
    && b.slotMapping[q..q'] == item.slotMapping
    && b.positions[q..q'] == Span(item.startPos, item.seqLen)
    && c + item.seqLen == c' <= |b.contextSlotMapping|
    && b.contextSlotMapping[c..c'] == SlotsOf(item.blockTable, blockSize, 0, item.seqLen)
    && b.requestIds[k] == item.id && b.seqLens[k] == item.seqLen
    && b.isDecode[k] == (|item.tokenIds| == 1 && item.generatedCount > 0)
    && b.sampleIndices[k] == (if item.shouldSample then q' - 1 else -1)
    && b.generatedCounts[k] == item.generatedCount && b.temperatures[k] == item.temperature
  }

  ghost predicate Sorted(s: seq<nat>) { forall i, j :: 0 <= i <= j < |s| ==> s[i] <= s[j] }

  ghost predicate Shaped(b: GPUInputBatch, n: nat) {
    && |b.requestIds| == |b.isDecode| == |b.sampleIndices| == |b.generatedCounts| == n
    && |b.temperatures| == |b.seqLens| == |b.blockTables| == n
    && |b.queryStartLoc| == |b.contextStartLoc| == n + 1
    && b.queryStartLoc[0] == 0 && b.contextStartLoc[0] == 0
    && b.queryStartLoc[n] == |b.inputIds| == |b.slotMapping| == |b.positions|
    && b.contextStartLoc[n] == |b.contextSlotMapping|
    && Sorted(b.queryStartLoc) && Sorted(b.contextStartLoc)
  }

  lemma {:induction false} FlattenShape(items: seq<WorkerItem>, blockSize: nat)
    requires blockSize > 0 && AllAccepted(items, blockSize)
    ensures Shaped(Flatten(items, blockSize), |items|)
  {
    if items != [] {
      FlattenShape(items[..|items| - 1], blockSize);
    }
  }

  lemma ExtendKeepsSegment(b: GPUInputBatch, n: nat, k: nat, item: WorkerItem, last: WorkerItem, blockSize: nat)
    requires blockSize > 0 && ItemAccepted(item, blockSize) && ItemAccepted(last, blockSize)
    requires Shaped(b, n) && k < n && Segment(b, k, item, blockSize)
    ensures Segment(Extend(b, last, blockSize), k, item, blockSize)
  {
    hide Covers, SlotsOf, CeilDiv;
    var b' := Extend(b, last, blockSize);
    var q, q', c, c' := b.queryStartLoc[k], b.queryStartLoc[k + 1], b.contextStartLoc[k], b.contextStartLoc[k + 1];
    assert b'.inputIds[q..q'] == b.inputIds[q..q'];
    assert b'.slotMapping[q..q'] == b.slotMapping[q..q'];
    assert b'.positions[q..q'] == b.positions[q..q'];
    assert b'.contextSlotMapping[c..c'] == b.contextSlotMapping[c..c'];
  }

  lemma ExtendAddsSegment(b: GPUInputBatch, n: nat, last: WorkerItem, blockSize: nat)
    requires blockSize > 0 && ItemAccepted(last, blockSize) && Shaped(b, n)
    ensures Segment(Extend(b, last, blockSize), n, last, blockSize)
  {
    hide Covers, SlotAt, CeilDiv;
    var b' := Extend(b, last, blockSize);
    assert b'.inputIds[|b.inputIds|..] == last.tokenIds;
    assert b'.slotMapping[|b.inputIds|..] == last.slotMapping;
    assert b'.positions[|b.inputIds|..] == Span(last.startPos, last.seqLen);
    assert b'.contextSlotMapping[|b.contextSlotMapping|..] == SlotsOf(last.blockTable, blockSize, 0, last.seqLen);
  }

  /** The flattened arrays hold every item's data contiguously, between its start locations. */
  lemma {:induction false} FlattenSegment(items: seq<WorkerItem>, blockSize: nat, k: nat)
    requires blockSize > 0 && AllAccepted(items, blockSize) && k < |items|
    ensures Segment(Flatten(items, blockSize), k, items[k], blockSize)
  {
    hide Segment, Extend, ItemAccepted;
    var front := items[..|items| - 1];
    FlattenShape(front, blockSize);
    if k == |items| - 1 {
      ExtendAddsSegment(Flatten(front, blockSize), k, items[k], blockSize);
    } else {
      FlattenSegment(front, blockSize, k);
      ExtendKeepsSegment(Flatten(front, blockSize), |front|, k, items[k], items[|items| - 1], blockSize);
    }
  }

  // ------------------------------------------------------------ model execution

  /** The context slots of request `k` of the batch. */
  function ContextSlots(b: GPUInputBatch, k: nat): seq<Slot>
    requires k + 1 < |b.contextStartLoc| && b.contextStartLoc[k] <= b.contextStartLoc[k + 1] <= |b.contextSlotMapping|
  {
    b.contextSlotMapping[b.contextStartLoc[k]..b.contextStartLoc[k + 1]]
  }

  /** Context slots of each token of request `k`: the request's context up to the token's position. */
  function RequestContexts(b: GPUInputBatch, k: nat): (r: seq<seq<Slot>>)
    requires Shaped(b, |b.requestIds|) && k < |b.requestIds|
    ensures |r| == b.queryStartLoc[k + 1] - b.queryStartLoc[k]
  {
    var q, context := b.queryStartLoc[k], ContextSlots(b, k);
    seq(b.queryStartLoc[k + 1] - q, i requires 0 <= i < b.queryStartLoc[k + 1] - q =>
      assert b.queryStartLoc[k + 1] <= b.queryStartLoc[|b.requestIds|];
      if b.positions[q + i] <= |context| then context[..b.positions[q + i]] else context)
  }

  /** Context slots of the tokens of the first n requests. */
  function TokenContexts(b: GPUInputBatch, n: nat): (r: seq<seq<Slot>>)
    requires Shaped(b, |b.requestIds|) && n <= |b.requestIds|
    ensures |r| == b.queryStartLoc[n]
  {
    if n == 0 then [] else TokenContexts(b, n - 1) + RequestContexts(b, n - 1)
  }

  /** The Worker's cache after a batch's values are written. */
  function AppendBatch(m: Model, kv: Store, b: GPUInputBatch): Store
    requires Shaped(b, |b.requestIds|)
  {
    AppendKv(m, kv, b.inputIds, b.slotMapping, TokenContexts(b, |b.requestIds|))
  }

  /** Indexing the batch's per-request arrays is in bounds, and every context slot is in the store. */
  ghost predicate Readable(b: GPUInputBatch, kv: Store) {
    && Shaped(b, |b.requestIds|)
    && (forall i :: 0 <= i < |b.contextSlotMapping| ==> b.contextSlotMapping[i] in kv)
  }

  /** `_sample`: request k's token is whatever the model makes of the tokens read back through
      its context slots.  Requests with a negative sample index get none. */
  ghost function SampleFrom(m: Model, b: GPUInputBatch, kv: Store, k: nat,
                            sampled: map<RequestId, Token>): map<RequestId, Token>
    requires Readable(b, kv) && k <= |b.requestIds|
    decreases |b.requestIds| - k
  {
    if k == |b.requestIds| then sampled
    else if b.sampleIndices[k] < 0 then SampleFrom(m, b, kv, k + 1, sampled)
    else
      var q := Query(b.requestIds[k], Gather(kv, ContextSlots(b, k)), b.generatedCounts[k], b.temperatures[k]);
      SampleFrom(m, b, kv, k + 1, sampled[b.requestIds[k] := m.sample(q)])
  }

  function SumWhere(starts: seq<nat>, flags: seq<bool>): (n: int)
    requires |starts| == |flags| + 1
  {
    if flags == [] then 0
    else
      var n := |flags|;
      var width: int := starts[n] as int - starts[n - 1];
      SumWhere(starts[..n], flags[..n - 1]) + if flags[n - 1] then width else 0
  }

  /** `num_decode_tokens`. */
  function DecodeTokens(b: GPUInputBatch): int
    requires |b.queryStartLoc| == |b.isDecode| + 1
  {
    SumWhere(b.queryStartLoc, b.isDecode)
  }

  // ---------------------------------------------------------------- KV effects

  lemma {:induction false} AppendConcat(m: Model, kv: Store, t1: seq<Token>, s1: seq<Slot>, c1: seq<seq<Slot>>,
                                        t2: seq<Token>, s2: seq<Slot>, c2: seq<seq<Slot>>)
    requires |t1| == |s1| == |c1| && |t2| == |s2| == |c2|
    ensures AppendKv(m, kv, t1 + t2, s1 + s2, c1 + c2) == AppendKv(m, AppendKv(m, kv, t1, s1, c1), t2, s2, c2)
  {
    hide Look;
    if t2 == [] {
      assert t1 + t2 == t1 && s1 + s2 == s1 && c1 + c2 == c1;
    } else {
      var n := |t2| - 1;
      AppendConcat(m, kv, t1, s1, c1, t2[..n], s2[..n], c2[..n]);
      assert (t1 + t2)[..|t1| + n] == t1 + t2[..n];
      assert (s1 + s2)[..|s1| + n] == s1 + s2[..n];
      assert (c1 + c2)[..|c1| + n] == c1 + c2[..n];
    }
  }

  /** Slots outside the written ones keep their content; written slots are present. */
  lemma {:induction false} AppendFrame(m: Model, kv: Store, tokens: seq<Token>, slots: seq<Slot>,
                                       contexts: seq<seq<Slot>>, x: Slot)
    requires |tokens| == |slots| == |contexts|
    ensures x in AppendKv(m, kv, tokens, slots, contexts) <==> x in kv || x in slots
    ensures x in kv && x !in slots ==> AppendKv(m, kv, tokens, slots, contexts)[x] == kv[x]
  {
    hide Look;
    if tokens != [] {
      var n := |tokens| - 1;
      AppendFrame(m, kv, tokens[..n], slots[..n], contexts[..n], x);
      assert slots == slots[..n] + [slots[n]];
    }
  }

  /** With distinct slots every value can be read back: it is the one its token got when it was
      written, after the tokens before it. */
  lemma {:induction false} AppendRead(m: Model, kv: Store, tokens: seq<Token>, slots: seq<Slot>,
                                      contexts: seq<seq<Slot>>, i: nat)
    requires |tokens| == |slots| == |contexts| && Distinct(slots) && i < |slots|
    ensures slots[i] in AppendKv(m, kv, tokens, slots, contexts)
    ensures AppendKv(m, kv, tokens, slots, contexts)[slots[i]]
      == m.embed(tokens[i], Look(AppendKv(m, kv, tokens[..i], slots[..i], contexts[..i]), contexts[i]))
  {
    hide Look;
    var n := |tokens| - 1;
    if i < n {
      AppendRead(m, kv, tokens[..n], slots[..n], contexts[..n], i);
      assert tokens[..n][..i] == tokens[..i] && slots[..n][..i] == slots[..i] && contexts[..n][..i] == contexts[..i];
    }
  }

  /** Values depend on nothing after them. */
  lemma {:induction false} DensePrefix(m: Model, tokens: seq<Token>, n: nat)
    requires n <= |tokens|
    ensures Dense(m, tokens[..n]) == Dense(m, tokens)[..n]
  {
    if n == |tokens| {
      assert tokens[..n] == tokens;
    } else {
      var front := tokens[..|tokens| - 1];
      DensePrefix(m, front, n);
      assert front[..n] == tokens[..n];
    }
  }

  lemma DenseAt(m: Model, tokens: seq<Token>, p: nat)
    requires p < |tokens|
    ensures Dense(m, tokens)[p] == m.embed(tokens[p], Present(Dense(m, tokens)[..p]))
  {
    hide Present;
    DensePrefix(m, tokens, p);
    DensePrefix(m, tokens, p + 1);
    assert tokens[..p + 1][..p] == tokens[..p];
  }

  // ------------------------------------------------------------ contexts of a batch

  lemma ExtendKeepsContexts(b: GPUInputBatch, n: nat, k: nat, last: WorkerItem, blockSize: nat)
    requires blockSize > 0 && ItemAccepted(last, blockSize) && |b.requestIds| == n && Shaped(b, n) && k < n
    ensures Shaped(Extend(b, last, blockSize), n + 1)
    ensures RequestContexts(Extend(b, last, blockSize), k) == RequestContexts(b, k)
  {
    hide Covers, SlotAt, CeilDiv;
    var b' := Extend(b, last, blockSize);
    assert b.queryStartLoc[k + 1] <= b.queryStartLoc[n] && b.contextStartLoc[k + 1] <= b.contextStartLoc[n];
    assert ContextSlots(b', k) == ContextSlots(b, k);
  }

  lemma ExtendShaped(b: GPUInputBatch, n: nat, last: WorkerItem, blockSize: nat)
    requires blockSize > 0 && ItemAccepted(last, blockSize) && |b.requestIds| == n && Shaped(b, n)
    ensures Shaped(Extend(b, last, blockSize), n + 1) && |Extend(b, last, blockSize).requestIds| == n + 1
  {
    hide Covers, SlotAt, CeilDiv;
  }

  lemma {:induction false} ExtendKeepsAll(b: GPUInputBatch, n: nat, k: nat, last: WorkerItem, blockSize: nat)
    requires blockSize > 0 && ItemAccepted(last, blockSize) && |b.requestIds| == n && Shaped(b, n) && k <= n
    ensures Shaped(Extend(b, last, blockSize), n + 1)
    ensures TokenContexts(Extend(b, last, blockSize), k) == TokenContexts(b, k)
  {
    hide Shaped, Extend, ItemAccepted, RequestContexts;
    ExtendShaped(b, n, last, blockSize);
    if k > 0 {
      ExtendKeepsAll(b, n, k - 1, last, blockSize);
      ExtendKeepsContexts(b, n, k - 1, last, blockSize);
    }
  }

  lemma ExtendAddsContexts(b: GPUInputBatch, n: nat, last: WorkerItem, blockSize: nat)
    requires blockSize > 0 && ItemAccepted(last, blockSize) && |b.requestIds| == n && Shaped(b, n)
    ensures Shaped(Extend(b, last, blockSize), n + 1)
    ensures RequestContexts(Extend(b, last, blockSize), n) == ItemContexts(last, blockSize)
  {
    hide Covers, SlotAt, CeilDiv;
    var b' := Extend(b, last, blockSize);
    assert ContextSlots(b', n) == SlotsOf(last.blockTable, blockSize, 0, last.seqLen);
    forall i | 0 <= i < |last.tokenIds|
      ensures RequestContexts(b', n)[i] == ItemContexts(last, blockSize)[i]
    {
      assert b'.positions[b.queryStartLoc[n] + i] == last.startPos + i;
      PrefixSlots(last.blockTable, blockSize, last.seqLen, last.startPos + i);
    }
  }

  lemma PrefixSlots(table: seq<Block>, blockSize: nat, len: nat, n: nat)
    requires blockSize > 0 && Covers(table, blockSize, len) && n <= len
    ensures Covers(table, blockSize, n) && SlotsOf(table, blockSize, 0, len)[..n] == SlotsOf(table, blockSize, 0, n)
  {
    hide SlotAt, CeilDiv;
    CeilDivMonotone(n, len, blockSize);
  }

  /** The tokens' contexts do not depend on the padding of block tables. */
  lemma {:induction false} PaddingContexts(b: GPUInputBatch, tables: seq<seq<int>>, n: nat)
    requires Shaped(b, |b.requestIds|) && Shaped(b.(blockTables := tables), |b.requestIds|) && n <= |b.requestIds|
    ensures TokenContexts(b.(blockTables := tables), n) == TokenContexts(b, n)
  {
    hide Sorted;
    if n > 0 { PaddingContexts(b, tables, n - 1); }
  }
}
