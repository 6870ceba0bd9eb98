/** CUDA Graph execution of decode batches: the static state that a captured graph replays on
    (minivllm/model_executor/llama.py) and its padding against eager metadata. */
module GraphPadding {
  import opened Protocol
  import opened WorkerSide
  import opened Metadata
  import PagedValidation

  predicate UniformDecode(b: GPUInputBatch) { forall k :: 0 <= k < |b.isDecode| ==> b.isDecode[k] }

  /** Decode requests have one token and tables are padded to one width, as flattening guarantees. */
  ghost predicate BatchOk(b: GPUInputBatch) {
    && b.requestIds != [] && Shaped(b, |b.requestIds|)
    && (forall k :: 0 <= k < |b.blockTables| ==> |b.blockTables[k]| == |b.blockTables[0]|)
    && forall k :: 0 <= k < |b.isDecode| && b.isDecode[k] ==> b.queryStartLoc[k + 1] == b.queryStartLoc[k] + 1
  }

  /** In a uniform decode batch token k is request k. */
  lemma {:induction false} UniformStarts(b: GPUInputBatch, k: nat)
    requires BatchOk(b) && UniformDecode(b) && k < |b.queryStartLoc|
    ensures b.queryStartLoc[k] == k && |b.inputIds| == |b.requestIds|
  {
    if k == 0 {
      UniformCount(b, |b.requestIds|);
    } else {
      UniformStarts(b, k - 1);
      assert b.isDecode[k - 1];
    }
  }

  lemma {:induction false} UniformCount(b: GPUInputBatch, n: nat)
    requires BatchOk(b) && UniformDecode(b) && n < |b.queryStartLoc|
    ensures b.queryStartLoc[n] == n
  {
    if n > 0 {
      UniformCount(b, n - 1);
      assert b.isDecode[n - 1];
    }
  }

  function Rest<T>(live: seq<T>, size: nat, pad: T): (r: seq<T>)
    requires |live| <= size
    ensures |r| == size
  {
    live + seq(size - |live|, _ => pad)
  }

  function ScratchSlots(physical: nat, count: nat, size: nat): seq<int>
    requires count <= size
  {
    seq(size - count, i requires 0 <= i < size - count => physical + count + i)
  }

  /** The static metadata that a replay of the current batch reads. */
  function GraphMetadata(b: GPUInputBatch, size: nat, maxBlocks: nat, physical: nat): AttentionMetadata
    requires |b.requestIds| == |b.inputIds| == |b.positions| == |b.slotMapping| == |b.seqLens|
      == |b.blockTables| <= size
    requires forall k :: 0 <= k < |b.blockTables| ==> |b.blockTables[k]| <= maxBlocks
  {
    var count := |b.requestIds|;
    AttentionMetadata(
      Rest(b.positions, size, 0),
      b.slotMapping + ScratchSlots(physical, count, size),
      PagedValidation.Iota(size + 1),
      Rest(b.seqLens, size, 1),
      Rest(seq(count, k requires 0 <= k < count => Rest(b.blockTables[k], maxBlocks, 0)), size, Rest([], maxBlocks, 0)),
      PagedValidation.Iota(size),
      seq(size, _ => true),
      Rest(seq(count, _ => true), size, false))
  }

  /** Row by row: live rows are the batch's own, and a padding row is one inactive token of a request of
      its own at position 0, with an all-zero table and the scratch slot of its row. */
  lemma StaticRow(b: GPUInputBatch, size: nat, maxBlocks: nat, physical: nat, k: nat)
    requires |b.requestIds| == |b.inputIds| == |b.positions| == |b.slotMapping| == |b.seqLens|
      == |b.blockTables| <= size
    requires (forall j :: 0 <= j < |b.blockTables| ==> |b.blockTables[j]| <= maxBlocks) && k < size
    ensures var g := GraphMetadata(b, size, maxBlocks, physical);
      && |g.positions| == |g.slotMapping| == |g.seqLens| == |g.blockTables| == |g.activeMask| == size
      && |g.queryStartLoc| == size + 1 && g.queryStartLoc[k] == k && g.queryStartLoc[k + 1] == k + 1
      && |g.requestIndices| == |g.isDecode| == size && g.requestIndices[k] == k && g.isDecode[k]
      && |g.blockTables[k]| == maxBlocks && (g.activeMask[k] <==> k < |b.requestIds|)
      && if k < |b.requestIds| then
           && g.positions[k] == b.positions[k] && g.slotMapping[k] == b.slotMapping[k] && g.seqLens[k] == b.seqLens[k]
           && g.blockTables[k][..|b.blockTables[k]|] == b.blockTables[k]
         else
           && g.positions[k] == 0 && g.slotMapping[k] == physical + k && g.seqLens[k] == 1
           && forall j :: 0 <= j < maxBlocks ==> g.blockTables[k][j] == 0
  {}

  // --------------------------------------------------------------- tensors in place

  method Fill<T>(a: array<T>, x: T)
    modifies a
    ensures forall i :: 0 <= i < a.Length ==> a[i] == x
  {
    for i := 0 to a.Length
      invariant forall k :: 0 <= k < i ==> a[k] == x
    {
      a[i] := x;
    }
  }

  /** a[at:at + len(xs)].copy_(xs) */
  method CopyAt<T>(a: array<T>, at: nat, xs: seq<T>)
    requires at + |xs| <= a.Length
    modifies a
    ensures a[..] == old(a[..at]) + xs + old(a[at + |xs|..])
  {
    for i := 0 to |xs|
      invariant forall k :: 0 <= k < i ==> a[at + k] == xs[k]
      invariant forall k :: 0 <= k < at || at + i <= k < a.Length ==> a[k] == old(a[k])
    {
      a[at + i] := xs[i];
    }
    assert forall k :: at <= k < at + |xs| ==> a[k] == xs[k - at];
  }

  /** zero_()/fill_() followed by a copy into the first rows. */
  method Overwrite<T>(a: array<T>, live: seq<T>, pad: T)
    requires |live| <= a.Length
    modifies a
    ensures a[..] == Rest(live, a.Length, pad)
  {
    Fill(a, pad);
    CopyAt(a, 0, live);
  }

  datatype CopyResult = Refused | Torn | Copied

  /** `LlamaCUDAGraphState`: tensors allocated once and overwritten for every batch. */
  class GraphState {
    const captureSize: nat
    const maxBlocks: nat
    const inputIds: array<Token>
    const positions: array<nat>
    const metadataPositions: array<nat>
    const slotMapping: array<Slot>
    const seqLens: array<nat>
    const blockTables: array<seq<int>>
    const activeMask: array<bool>

    ghost predicate Valid() {
      && inputIds.Length == positions.Length == metadataPositions.Length == slotMapping.Length == captureSize
      && seqLens.Length == blockTables.Length == activeMask.Length == captureSize
      && inputIds != slotMapping && positions != metadataPositions && positions != seqLens
      && metadataPositions != seqLens
      && Separate(inputIds, positions) && Separate(inputIds, metadataPositions) && Separate(inputIds, seqLens)
      && Separate(slotMapping, positions) && Separate(slotMapping, metadataPositions) && Separate(slotMapping, seqLens)
    }

    /** Tensors of different element types are different tensors. */
    ghost predicate Separate(a: object, b: object) { a != b }

    /** The metadata that the captured kernels read; start locations, request indices and decode
        flags are set once at creation. */
    ghost function Current(): AttentionMetadata
      reads metadataPositions, slotMapping, seqLens, blockTables, activeMask
    {
      AttentionMetadata(metadataPositions[..], slotMapping[..], PagedValidation.Iota(captureSize + 1), seqLens[..],
        blockTables[..],
                        PagedValidation.Iota(captureSize), seq(captureSize, _ => true), activeMask[..])
    }

    /** Fresh static tensors; the slot mapping is left uninitialised. */
    constructor (size: nat, width: nat, garbage: seq<Slot>)
      requires |garbage| == size
      ensures Valid() && fresh(inputIds) && fresh(positions) && fresh(metadataPositions) && fresh(slotMapping)
      ensures fresh(seqLens) && fresh(blockTables) && fresh(activeMask) && captureSize == size && maxBlocks == width
      ensures forall i :: 0 <= i < size ==>
        inputIds[i] == 0 && positions[i] == metadataPositions[i] == 0 && slotMapping[i] == garbage[i]
      ensures forall i :: 0 <= i < size ==> seqLens[i] == 1 && blockTables[i] == Rest([], width, 0) && !activeMask[i]
    {
      captureSize, maxBlocks := size, width;
      inputIds := new Token[size](_ => 0);
      positions := new nat[size](_ => 0);
      metadataPositions := new nat[size](_ => 0);
      slotMapping := new Slot[size](i requires 0 <= i < size => garbage[i]);
      seqLens := new nat[size](_ => 1);
      blockTables := new seq<int>[size](_ => Rest([], width, 0));
      activeMask := new bool[size](_ => false);
    }

    /** Everything before the block tables are copied: neutral values, then the live rows. */
    method CopyRows(b: GPUInputBatch)
      requires Valid() && |b.inputIds| == |b.positions| == |b.slotMapping| == |b.seqLens| <= captureSize
      modifies inputIds, positions, metadataPositions, slotMapping, seqLens, blockTables, activeMask
      ensures inputIds[..] == Rest(b.inputIds, captureSize, 0) && positions[..] == Rest(b.positions, captureSize, 0)
      ensures metadataPositions[..] == Rest(b.positions, captureSize, 0)
      ensures seqLens[..] == Rest(b.seqLens, captureSize, 1)
      ensures slotMapping[..|b.slotMapping|] == b.slotMapping
      ensures forall i :: 0 <= i < captureSize ==> !activeMask[i]
    {
      hide Rest;
      Fill(blockTables, Rest([], maxBlocks, 0));
      Fill(activeMask, false);
      Overwrite(inputIds, b.inputIds, 0);
      Overwrite(positions, b.positions, 0);
      Overwrite(metadataPositions, b.positions, 0);
      CopyAt(slotMapping, 0, b.slotMapping);
      Overwrite(seqLens, b.seqLens, 1);
    }

    /** `_copy_decode_batch`.  `Refused` changes nothing; `Copied` leaves a state that is a function of
        the current batch alone; tables wider than the static tensor raise midway, and leave no row
        active. */
    method CopyDecodeBatch(b: GPUInputBatch, physical: nat) returns (r: CopyResult)
      requires Valid() && BatchOk(b)
      modifies inputIds, positions, metadataPositions, slotMapping, seqLens, blockTables, activeMask
      ensures r.Refused? <==> !UniformDecode(b) || |b.requestIds| > captureSize
      ensures r.Torn? <==> UniformDecode(b) && |b.requestIds| <= captureSize && |b.blockTables[0]| > maxBlocks
      ensures r.Refused? ==> unchanged(inputIds, positions, metadataPositions, slotMapping, seqLens, blockTables,
        activeMask)
      ensures r.Torn? ==> forall i :: 0 <= i < captureSize ==> !activeMask[i]
      ensures r.Copied? ==> |b.inputIds| == |b.requestIds| && forall k :: 0 <= k < |b.blockTables| ==>
        |b.blockTables[k]| <= maxBlocks
      ensures r.Copied? ==> Current() == GraphMetadata(b, captureSize, maxBlocks, physical)
      ensures r.Copied? ==> inputIds[..] == Rest(b.inputIds, captureSize, 0)
      ensures r.Copied? ==> positions[..] == Rest(b.positions, captureSize, 0)
    {
      hide Rest, Sorted;
      var count := |b.requestIds|;
      if !UniformDecode(b) || count > captureSize { return Refused; }
      UniformStarts(b, 0);
      CopyRows(b);
      if |b.blockTables[0]| > maxBlocks { return Torn; }
      Overwrite(blockTables, seq(count, k requires 0 <= k < count => Rest(b.blockTables[k], maxBlocks, 0)),
        Rest([], maxBlocks, 0));
      Overwrite(activeMask, seq(count, _ => true), false);
      CopyAt(slotMapping, count, ScratchSlots(physical, count, captureSize));
      assert slotMapping[..] == b.slotMapping + ScratchSlots(physical, count, captureSize);
      return Copied;
    }
  }

  /** `_create_graph_state`: refuses capture sizes beyond the scratch slots. */
  method CreateGraphState(size: nat, width: nat, maxNumSeqs: nat, garbage: seq<Slot>) returns (state: GraphState?)
    requires |garbage| == size
    ensures state == null <==> size > maxNumSeqs
    ensures state != null ==> fresh(state) && state.Valid() && state.captureSize == size && state.maxBlocks == width
    ensures state != null ==> forall i :: 0 <= i < size ==> !state.activeMask[i] && state.seqLens[i] == 1
  {
    if size > maxNumSeqs { return null; }
    state := new GraphState(size, width, garbage);
  }

  // -------------------------------------------------------------------------- C ABI

  /** Buffers of the C runtime's graphs: capacity, table width and physical cache size. */
  datatype Runtime = Runtime(capacity: nat, maxBlocks: nat, physical: nat)

  datatype PaddedBatch = PaddedBatch(tokens: seq<Token>, slots: seq<Slot>, seqLens: seq<nat>, tables: seq<seq<int>>)

  predicate GraphGuard(rt: Runtime, numRequests: int, captureSize: int, inputMaxBlocks: int) {
    0 < numRequests <= captureSize <= rt.capacity && 0 < inputMaxBlocks <= rt.maxBlocks
  }

  /** Host padding of `mvllm_execute_decode_graph`; status 50 refuses.  Padding rows repeat the last
      request but write to their own scratch slots. */
  method PadDecodeGraph(rt: Runtime, tokenIds: seq<Token>, slots: seq<Slot>, tables: seq<seq<int>>, seqLens: seq<nat>,
                        inputMaxBlocks: int, numRequests: int, captureSize: int)
    returns (status: int, padded: PaddedBatch)
    requires numRequests == |tokenIds| == |slots| == |tables| == |seqLens|
    requires forall k :: 0 <= k < |tables| ==> |tables[k]| == inputMaxBlocks
    ensures status == if GraphGuard(rt, numRequests, captureSize, inputMaxBlocks) then 0 else 50
    ensures status != 50 <==> 0 < numRequests && numRequests <= captureSize && captureSize <= rt.capacity
                              && 0 < inputMaxBlocks && inputMaxBlocks <= rt.maxBlocks
    ensures status == 0 ==>
      && |padded.tokens| == |padded.slots| == |padded.seqLens| == |padded.tables| == captureSize
      && padded.tokens[..numRequests] == tokenIds && padded.slots[..numRequests] == slots
      && padded.seqLens[..numRequests] == seqLens
      && (forall r :: 0 <= r < captureSize ==>
            |padded.tables[r]| == rt.maxBlocks && padded.tables[r][..inputMaxBlocks] == tables[Min(r, numRequests - 1)])
      && (forall r, j :: 0 <= r < captureSize && inputMaxBlocks <= j < rt.maxBlocks ==>
            j < |padded.tables[r]| && padded.tables[r][j] == -1)
      && (forall r :: 0 <= r < captureSize ==> padded.tokens[r] == tokenIds[Min(r, numRequests - 1)])
      && (forall r :: 0 <= r < captureSize ==> padded.seqLens[r] == seqLens[Min(r, numRequests - 1)])
      && (forall r :: numRequests <= r < captureSize ==> padded.slots[r] == rt.physical + r)
    ensures status == 0 && Distinct(slots) && (forall k :: 0 <= k < numRequests ==> slots[k] < rt.physical) ==>
      Distinct(padded.slots)
  {
    hide Distinct;
    padded := PaddedBatch([], [], [], []);
    if !GraphGuard(rt, numRequests, captureSize, inputMaxBlocks) { return 50, padded; }
    for request := 0 to captureSize
      invariant |padded.tokens| == |padded.slots| == |padded.seqLens| == |padded.tables| == request
      invariant forall r :: 0 <= r < request ==> padded.tokens[r] == tokenIds[Min(r, numRequests - 1)]
      invariant forall r :: 0 <= r < request ==>
        padded.slots[r] == if r < numRequests then slots[r] else rt.physical + r
      invariant forall r :: 0 <= r < request ==> padded.seqLens[r] == seqLens[Min(r, numRequests - 1)]
      invariant forall r :: 0 <= r < request ==>
        |padded.tables[r]| == rt.maxBlocks && padded.tables[r][..inputMaxBlocks] == tables[Min(r, numRequests - 1)]
      invariant forall r, j :: 0 <= r < request && inputMaxBlocks <= j < rt.maxBlocks ==>
        j < |padded.tables[r]| && padded.tables[r][j] == -1
    {
      var source := if request < numRequests then request else numRequests - 1;
      var row := Rest(tables[source], rt.maxBlocks, -1);
      assert row[..inputMaxBlocks] == tables[source];
      padded := PaddedBatch(
        padded.tokens + [tokenIds[source]],
        padded.slots + [if request < numRequests then slots[source] else rt.physical + request],
        padded.seqLens + [seqLens[source]],
        padded.tables + [row]);
    }
    assert padded.tokens[..numRequests] == tokenIds && padded.slots[..numRequests] == slots
      && padded.seqLens[..numRequests] == seqLens;
    PaddedDistinct(rt.physical, slots, padded.slots);
    return 0, padded;
  }

  /** Physical slots followed by each padding row's own scratch slot. */
  lemma PaddedDistinct(physical: nat, slots: seq<Slot>, padded: seq<Slot>)
    requires |slots| <= |padded|
    requires forall r :: 0 <= r < |padded| ==> padded[r] == if r < |slots| then slots[r] else physical + r
    ensures Distinct(slots) && (forall k :: 0 <= k < |slots| ==> slots[k] < physical) ==> Distinct(padded)
  {}
}
