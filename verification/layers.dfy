/** The decoder of the Llama runner (minivllm/model_executor/llama.py): layer after layer over a whole
    batch, each layer with its own cache.  On scheduled batches every row is the causal transformer
    of one request alone, and the caches hold the layers' shares of the engine's values. */
module Layers {
  import opened Protocol
  import opened Arith
  import opened KVCache
  import opened Scheduling
  import opened WorkerSide
  import opened Isolation

  /** A hidden state, or the key and value vectors of one layer. */
  type Vector = seq<real>

  /** The weights as functions of layer, hidden state and position.  `next` also gets what attention
      reads: the layer's vectors at all positions up to the token's own. */
  datatype Transformer = Transformer(
    layers: nat,
    width: nat,
    embed: Token -> Vector,
    kv: (nat, Vector, nat) -> Vector,
    next: (nat, Vector, nat, seq<Option<Vector>>) -> Vector)

  ghost predicate Wide(t: Transformer) {
    forall l: nat, h: Vector, p: nat :: |t.kv(l, h, p)| == t.width
  }

  // ------------------------------------------------------------ one request alone

  /** The causal transformer on a dense token sequence: the hidden state at position p before layer l. */
  ghost function Causal(t: Transformer, l: nat, tokens: seq<Token>, p: nat): Vector
    requires p < |tokens|
    decreases l, 1
  {
    if l == 0 then t.embed(tokens[p])
    else t.next(l - 1, Causal(t, l - 1, tokens, p), p, CausalContext(t, l - 1, tokens, p))
  }

  /** The vectors of layer l at positions 0 to p. */
  ghost function CausalContext(t: Transformer, l: nat, tokens: seq<Token>, p: nat): (r: seq<Option<Vector>>)
    requires p < |tokens|
    ensures |r| == p + 1
    decreases l, 2
  {
    seq(p + 1, q requires 0 <= q < p + 1 => Some(t.kv(l, Causal(t, l, tokens, q), q)))
  }

  // ------------------------------------------------------------ shares of a slot's value

  /** Layer l's part of what a slot holds. */
  function Share(t: Transformer, v: Value, l: nat): Vector {
    if (l + 1) * t.width <= |v| then v[l * t.width..(l + 1) * t.width] else []
  }

  function Shares(t: Transformer, read: seq<Option<Value>>, l: nat): (r: seq<Option<Vector>>)
    ensures |r| == |read|
  {
    seq(|read|, i requires 0 <= i < |read| => if read[i].Some? then Some(Share(t, read[i].value, l)) else None)
  }

  /** A token's hidden state before layer l, when its earlier positions read as `before`. */
  function Hidden(t: Transformer, l: nat, token: Token, before: seq<Option<Value>>): Vector {
    if l == 0 then t.embed(token)
    else
      var h := Hidden(t, l - 1, token, before);
      t.next(l - 1, h, |before|, Shares(t, before, l - 1) + [Some(t.kv(l - 1, h, |before|))])
  }

  /** The vectors of the first n layers. */
  function Stack(t: Transformer, n: nat, token: Token, before: seq<Option<Value>>): Value {
    if n == 0 then []
    else Stack(t, n - 1, token, before) + t.kv(n - 1, Hidden(t, n - 1, token, before), |before|)
  }

  /** A slot holds the vectors of all layers. */
  ghost predicate Layered(m: Model, t: Transformer) {
    && Wide(t)
    && forall token: Token, before: seq<Option<Value>> :: m.embed(token, before) == Stack(t, t.layers, token, before)
  }

  /** A model whose slots hold the vectors of all layers. */
  function WithLayers(base: Model, t: Transformer): (m: Model)
    ensures Wide(t) ==> Layered(m, t)
  {
    base.(embed := (token: Token, before: seq<Option<Value>>) => Stack(t, t.layers, token, before))
  }

  lemma {:induction false} ShareOfStack(t: Transformer, n: nat, token: Token, before: seq<Option<Value>>, l: nat)
    requires Wide(t) && l < n
    ensures Share(t, Stack(t, n, token, before), l) == t.kv(l, Hidden(t, l, token, before), |before|)
  {
    hide Hidden, Share;
    var front, last := Stack(t, n - 1, token, before), t.kv(n - 1, Hidden(t, n - 1, token, before), |before|);
    StackLength(t, n - 1, token, before);
    if l < n - 1 {
      ShareOfStack(t, n - 1, token, before, l);
      ShareBefore(t, front, last, n - 1, l);
    } else {
      ShareLast(t, front, last, l);
    }
  }

  lemma ShareBefore(t: Transformer, front: Value, last: Vector, n: nat, l: nat)
    requires |front| == n * t.width && l < n
    ensures Share(t, front + last, l) == Share(t, front, l)
  {
    ShareInside(t.width, l + 1, n);
    ShareInside(t.width, l, l + 1);
  }

  lemma ShareLast(t: Transformer, front: Value, last: Vector, l: nat)
    requires |front| == l * t.width && |last| == t.width
    ensures Share(t, front + last, l) == last
  {
    assert (l + 1) * t.width == l * t.width + t.width;
  }

  lemma {:induction false} StackLength(t: Transformer, n: nat, token: Token, before: seq<Option<Value>>)
    requires Wide(t)
    ensures |Stack(t, n, token, before)| == n * t.width
  {
    hide Hidden;
    if n > 0 {
      StackLength(t, n - 1, token, before);
      assert n * t.width == (n - 1) * t.width + t.width;
    }
  }

  lemma ShareInside(width: nat, a: nat, b: nat)
    requires a <= b
    ensures a * width <= b * width
  {}

  // ------------------------------------------------------------ dense values are causal

  /** A request's dense values are the causal transformer's vectors, layer by layer. */
  lemma {:induction false} DenseIsCausal(m: Model, t: Transformer, tokens: seq<Token>, l: nat, p: nat)
    requires Layered(m, t) && p < |tokens| && l <= t.layers
    ensures Hidden(t, l, tokens[p], Present(Dense(m, tokens)[..p])) == Causal(t, l, tokens, p)
    ensures l < t.layers ==> Share(t, Dense(m, tokens)[p], l) == t.kv(l, Causal(t, l, tokens, p), p)
    decreases l
  {
    hide Dense, Stack, Share, Wide;
    var before := Present(Dense(m, tokens)[..p]);
    if l > 0 {
      forall q | 0 <= q <= p
        ensures Share(t, Dense(m, tokens)[q], l - 1) == t.kv(l - 1, Causal(t, l - 1, tokens, q), q)
      {
        DenseIsCausal(m, t, tokens, l - 1, q);
      }
      DenseIsCausal(m, t, tokens, l - 1, p);
      var h := Causal(t, l - 1, tokens, p);
      assert Shares(t, before, l - 1) + [Some(t.kv(l - 1, h, p))] == CausalContext(t, l - 1, tokens, p);
    }
    if l < t.layers {
      DenseAt(m, tokens, p);
      ShareOfStack(t, t.layers, tokens[p], before, l);
    }
  }

  // ------------------------------------------------------------ the runner

  /** Layer l's cache holds its share of `store`. */
  ghost predicate Mirror(t: Transformer, cache: map<Slot, Vector>, l: nat, store: Store) {
    cache.Keys == store.Keys && forall x :: x in store ==> cache[x] == Share(t, store[x], l)
  }

  function LookVectors(cache: map<Slot, Vector>, slots: seq<Slot>): seq<Option<Vector>> {
    seq(|slots|, i requires 0 <= i < |slots| => if slots[i] in cache then Some(cache[slots[i]]) else None)
  }

  lemma LookMirror(t: Transformer, cache: map<Slot, Vector>, l: nat, store: Store, slots: seq<Slot>)
    requires Mirror(t, cache, l, store)
    ensures LookVectors(cache, slots) == Shares(t, Look(store, slots), l)
  {
    hide Share;
    forall i | 0 <= i < |slots|
      ensures LookVectors(cache, slots)[i] == Shares(t, Look(store, slots), l)[i]
    {
      var x := slots[i];
      assert x in cache <==> x in store by { assert x in cache.Keys <==> x in store.Keys; }
      if x in store {
        assert Look(store, slots)[i] == Some(store[x]);
        assert LookVectors(cache, slots)[i] == Some(cache[x]);
      }
    }
  }

  /** Token j of a batch has, at its slot, the value that its context slots give it now. */
  ghost predicate SettledAt(m: Model, store: Store, token: Token, slot: Slot, context: seq<Slot>) {
    slot in store && store[slot] == m.embed(token, Look(store, context))
  }

  /** `after` is `before` with every token of a batch settled, and nothing else changed. */
  ghost predicate Settled(m: Model, before: Store, after: Store, tokens: seq<Token>, positions: seq<nat>,
                          slots: seq<Slot>, contexts: seq<seq<Slot>>) {
    && |tokens| == |positions| == |slots| == |contexts|
    && (forall x :: x in after <==> x in before || x in slots)
    && (forall x :: x in before && x !in slots ==> after[x] == before[x])
    && (forall j :: 0 <= j < |tokens| ==> SettledAt(m, after, tokens[j], slots[j], contexts[j]))
    && (forall j :: 0 <= j < |tokens| ==> |contexts[j]| == positions[j])
  }

  /** The hidden states before layer l that `store` gives to a batch. */
  ghost predicate HiddenAre(t: Transformer, l: nat, hidden: seq<Vector>, tokens: seq<Token>, store: Store,
                            contexts: seq<seq<Slot>>) {
    && |hidden| == |tokens| == |contexts|
    && forall j :: 0 <= j < |hidden| ==> hidden[j] == Hidden(t, l, tokens[j], Look(store, contexts[j]))
  }

  /** Layer l's cache while the vectors of some slots have been written. */
  ghost predicate PartWritten(t: Transformer, cache: map<Slot, Vector>, l: nat, before: Store, after: Store,
                              written: seq<Slot>) {
    && (forall x :: x in cache <==> x in before || x in written)
    && (forall x :: x in before && x !in written ==> cache[x] == Share(t, before[x], l))
    && (forall x :: x in written ==> x in after && cache[x] == Share(t, after[x], l))
  }

  lemma WriteOne(m: Model, t: Transformer, cache: map<Slot, Vector>, l: nat, before: Store, after: Store,
                 written: seq<Slot>, token: Token, slot: Slot, context: seq<Slot>)
    requires PartWritten(t, cache, l, before, after, written) && Layered(m, t) && l < t.layers
    requires SettledAt(m, after, token, slot, context)
    ensures PartWritten(t, cache[slot := t.kv(l, Hidden(t, l, token, Look(after, context)), |context|)], l, before,
      after,
                        written + [slot])
  {
    hide Share, Layered, Look, Hidden;
    SettledShare(m, t, after, token, slot, context, l);
  }

  lemma AllWritten(m: Model, t: Transformer, cache: map<Slot, Vector>, l: nat, tokens: seq<Token>, positions: seq<nat>,
                   slots: seq<Slot>, contexts: seq<seq<Slot>>, before: Store, after: Store)
    requires PartWritten(t, cache, l, before, after, slots)
    requires Settled(m, before, after, tokens, positions, slots, contexts)
    ensures Mirror(t, cache, l, after)
  {
    hide Share, SettledAt;
    assert forall x :: x in cache.Keys <==> x in after.Keys;
  }

  class LlamaModel {
    const t: Transformer
    var caches: seq<map<Slot, Vector>>

    constructor (transformer: Transformer)
      ensures t == transformer && Mirrors(0, t.layers, map[])
    {
      t := transformer;
      caches := seq(transformer.layers, _ => map[]);
    }

    /** The caches hold the layers' shares of `store`, from layer `first` on to before layer `end`. */
    ghost predicate Mirrors(first: nat, end: nat, store: Store)
      reads this
    {
      |caches| == t.layers && forall l :: first <= l < end && l < t.layers ==> Mirror(t, caches[l], l, store)
    }

    /** The append of one layer's vectors, in batch order. */
    method AppendLayer(l: nat, hidden: seq<Vector>, positions: seq<nat>, slots: seq<Slot>, contexts: seq<seq<Slot>>,
                       ghost m: Model, ghost tokens: seq<Token>, ghost before: Store, ghost after: Store)
      requires Layered(m, t) && l < t.layers && |caches| == t.layers && Mirror(t, caches[l], l, before)
      requires Settled(m, before, after, tokens, positions, slots, contexts)
      requires HiddenAre(t, l, hidden, tokens, after, contexts)
      modifies this`caches
      ensures |caches| == t.layers && Mirror(t, caches[l], l, after)
      ensures forall i :: 0 <= i < t.layers && i != l ==> caches[i] == old(caches[i])
    {
      hide Share, Layered, Look, SettledAt, Hidden;
      var cache := caches[l];
      for j := 0 to |slots|
        invariant caches == old(caches) && PartWritten(t, cache, l, before, after, slots[..j])
      {
        WriteOne(m, t, cache, l, before, after, slots[..j], tokens[j], slots[j], contexts[j]);
        assert slots[..j + 1] == slots[..j] + [slots[j]];
        cache := cache[slots[j] := t.kv(l, hidden[j], positions[j])];
      }
      assert slots[..|slots|] == slots;
      AllWritten(m, t, cache, l, tokens, positions, slots, contexts, before, after);
      caches := caches[l := cache];
    }

    /** One decoder layer: append the batch's vectors, then attend. */
    method DecoderLayer(l: nat, hidden: seq<Vector>, positions: seq<nat>, slots: seq<Slot>, contexts: seq<seq<Slot>>,
                        ghost m: Model, ghost tokens: seq<Token>, ghost before: Store, ghost after: Store)
      returns (out: seq<Vector>)
      requires Layered(m, t) && l < t.layers && |caches| == t.layers && Mirror(t, caches[l], l, before)
      requires Settled(m, before, after, tokens, positions, slots, contexts)
      requires HiddenAre(t, l, hidden, tokens, after, contexts)
      modifies this`caches
      ensures |caches| == t.layers && Mirror(t, caches[l], l, after)
      ensures forall i :: 0 <= i < t.layers && i != l ==> caches[i] == old(caches[i])
      ensures HiddenAre(t, l + 1, out, tokens, after, contexts)
    {
      hide Share, Layered, Look, Mirror, SettledAt, Hidden;
      AppendLayer(l, hidden, positions, slots, contexts, m, tokens, before, after);
      var cache := caches[l];
      out := [];
      for j := 0 to |hidden|
        invariant |out| == j && |caches| == t.layers && Mirror(t, caches[l], l, after)
        invariant forall i :: 0 <= i < t.layers && i != l ==> caches[i] == old(caches[i])
        invariant forall i :: 0 <= i < j ==> out[i] == Hidden(t, l + 1, tokens[i], Look(after, contexts[i]))
      {
        LookOwn(m, t, cache, l, after, tokens[j], slots[j], contexts[j]);
        out := out + [t.next(l, hidden[j], positions[j], LookVectors(cache, contexts[j] + [slots[j]]))];
      }
    }

    /** `LlamaForCausalLM.forward` up to the final norm: if the caches held the layers' shares of a
        store, they hold those of the store with the whole batch settled. */
    method Forward(b: GPUInputBatch, ghost m: Model, ghost before: Store, ghost after: Store)
      returns (hidden: seq<Vector>)
      requires Layered(m, t) && Mirrors(0, t.layers, before) && Shaped(b, |b.requestIds|)
      requires Settled(m, before, after, b.inputIds, b.positions, b.slotMapping, TokenContexts(b, |b.requestIds|))
      modifies this`caches
      ensures Mirrors(0, t.layers, after)
      ensures HiddenAre(t, t.layers, hidden, b.inputIds, after, TokenContexts(b, |b.requestIds|))
    {
      hide Layered, Mirror, TokenContexts, Settled;
      var contexts := TokenContexts(b, |b.requestIds|);
      hidden := [];
      for j := 0 to |b.inputIds|
        invariant |hidden| == j && forall i :: 0 <= i < j ==> hidden[i] == t.embed(b.inputIds[i])
      {
        hidden := hidden + [t.embed(b.inputIds[j])];
      }
      for l := 0 to t.layers
        invariant Mirrors(0, l, after) && Mirrors(l, t.layers, before)
        invariant HiddenAre(t, l, hidden, b.inputIds, after, contexts)
      {
        hidden := DecoderLayer(l, hidden, b.positions, b.slotMapping, contexts, m, b.inputIds, before, after);
      }
    }

    /** `execute_model` on a scheduled batch: every layer's cache ends as that layer's share of the
        engine's store, and every row is the causal transformer of its request alone. */
    method ExecuteModel(b: GPUInputBatch, ghost m: Model, ghost cfg: Config, ghost s: Sched, ghost store: Store,
                        ghost items: seq<WorkerItem>) returns (hidden: seq<Vector>)
      requires SchedInv(cfg, s, items) && StoreOk(cfg, m, s, store, [])
      requires FromWorkerBatch(items, cfg.blockSize) == Some(b)
      requires Layered(m, t) && Mirrors(0, t.layers, store)
      modifies this`caches
      ensures AllAccepted(items, cfg.blockSize) && Shaped(Flatten(items, cfg.blockSize), |items|)
      ensures |b.requestIds| == |items|
      ensures Mirrors(0, t.layers, AppendBatch(m, store, Flatten(items, cfg.blockSize)))
      ensures forall k, i :: 0 <= k < |items| && 0 <= i < |items[k].tokenIds| ==>
        RowIsCausal(t, s, items, b, hidden, k, i)
    {
      hide SchedInv, StoreOk, Layered, Mirror, Flatten, AppendBatch, AllAccepted, Settled, TokenContexts, Causal;
      hide Hidden;
      ghost var flat := Flatten(items, cfg.blockSize);
      FlattenShape(items, cfg.blockSize);
      ScheduledSettles(cfg, m, s, store, items);
      PaddingContexts(flat, b.blockTables, |flat.requestIds|);
      hidden := Forward(b, m, store, AppendBatch(m, store, flat));
      forall k, i | 0 <= k < |items| && 0 <= i < |items[k].tokenIds|
        ensures RowIsCausal(t, s, items, b, hidden, k, i)
      {
        ScheduledRow(cfg, m, t, s, store, items, hidden, k, i);
      }
    }
  }

  /** The vectors that a settled token's hidden state gives are its share of its slot. */
  lemma SettledShare(m: Model, t: Transformer, store: Store, token: Token, slot: Slot, context: seq<Slot>, l: nat)
    requires Layered(m, t) && l < t.layers && SettledAt(m, store, token, slot, context)
    ensures Share(t, store[slot], l) == t.kv(l, Hidden(t, l, token, Look(store, context)), |context|)
  {
    hide Share, Hidden, Stack, Wide;
    ShareOfStack(t, t.layers, token, Look(store, context), l);
  }

  /** Reading up to its own slot, a token sees its context's shares and its own vectors. */
  lemma LookOwn(m: Model, t: Transformer, cache: map<Slot, Vector>, l: nat, store: Store, token: Token, slot: Slot,
                context: seq<Slot>)
    requires Layered(m, t) && l < t.layers && Mirror(t, cache, l, store) && SettledAt(m, store, token, slot, context)
    ensures t.next(l, Hidden(t, l, token, Look(store, context)), |context|, LookVectors(cache, context + [slot]))
      == Hidden(t, l + 1, token, Look(store, context))
  {
    hide Share, Stack, Wide;
    SettledShare(m, t, store, token, slot, context, l);
    LookMirror(t, cache, l, store, context);
    var h := Hidden(t, l, token, Look(store, context));
    assert LookVectors(cache, context + [slot]) == LookVectors(cache, context) + [Some(t.kv(l, h, |context|))];
  }

  // ------------------------------------------------------------ scheduled batches

  ghost predicate ItemSettled(m: Model, store: Store, item: WorkerItem, blockSize: nat)
    requires blockSize > 0 && ItemAccepted(item, blockSize)
  {
    forall i :: 0 <= i < |item.tokenIds| ==>
      && SettledAt(m, store, item.tokenIds[i], item.slotMapping[i], ItemContexts(item, blockSize)[i])
      && |ItemContexts(item, blockSize)[i]| == item.startPos + i
  }

  lemma HeldSettles(cfg: Config, m: Model, s: Sched, store: Store, items: seq<WorkerItem>, k: nat)
    requires ItemsOk(cfg, s, items) && k < |items| && ItemAccepted(items[k], cfg.blockSize)
    requires RequestHeld(cfg, m, s, store, items[k].id, items[k].seqLen)
    ensures ItemSettled(m, store, items[k], cfg.blockSize)
  {
    hide ItemsOk, Dense, Look, SlotAt, CeilDiv;
    var item := items[k];
    ItemSlots(cfg, s, items, k);
    forall i | 0 <= i < |item.tokenIds|
      ensures SettledAt(m, store, item.tokenIds[i], item.slotMapping[i], ItemContexts(item, cfg.blockSize)[i])
      ensures |ItemContexts(item, cfg.blockSize)[i]| == item.startPos + i
    {
      ValueWritten(cfg, m, s, store, items, k, i);
      assert HeldAt(store, cfg.blockSize, ValuesOf(m, s, item.id), s.cache.tables[item.id], item.startPos + i);
      assert SlotOfPosition(cfg, s, item.id, item.startPos + i, item.slotMapping[i]);
    }
  }

  ghost predicate BatchSettled(m: Model, store: Store, b: GPUInputBatch)
    requires Shaped(b, |b.requestIds|)
  {
    var contexts := TokenContexts(b, |b.requestIds|);
    forall j :: 0 <= j < |b.inputIds| ==>
      SettledAt(m, store, b.inputIds[j], b.slotMapping[j], contexts[j]) && |contexts[j]| == b.positions[j]
  }

  lemma ExtendSettles(m: Model, store: Store, b: GPUInputBatch, n: nat, last: WorkerItem, blockSize: nat)
    requires blockSize > 0 && ItemAccepted(last, blockSize) && |b.requestIds| == n && Shaped(b, n)
    requires BatchSettled(m, store, b) && ItemSettled(m, store, last, blockSize)
    ensures Shaped(Extend(b, last, blockSize), n + 1) && |Extend(b, last, blockSize).requestIds| == n + 1
    ensures BatchSettled(m, store, Extend(b, last, blockSize))
  {
    hide SettledAt, TokenContexts, ItemContexts, Covers, SlotsOf, CeilDiv, Sorted;
    FlattenStep(b, n, last, blockSize);
    var b' := Extend(b, last, blockSize);
    var contexts, contexts' := TokenContexts(b, n), TokenContexts(b', n + 1);
    forall j | 0 <= j < |b'.inputIds|
      ensures SettledAt(m, store, b'.inputIds[j], b'.slotMapping[j], contexts'[j])
      ensures |contexts'[j]| == b'.positions[j]
    {
      if j < |b.inputIds| {
        assert contexts'[j] == contexts[j];
      } else {
        assert contexts'[j] == ItemContexts(last, blockSize)[j - |b.inputIds|];
      }
    }
  }

  /** Settled items make a settled batch. */
  lemma {:induction false} FlatSettles(m: Model, store: Store, items: seq<WorkerItem>, blockSize: nat)
    requires blockSize > 0 && AllAccepted(items, blockSize)
    requires forall k :: 0 <= k < |items| ==> ItemSettled(m, store, items[k], blockSize)
    ensures var b := Flatten(items, blockSize);
      && Shaped(b, |items|) && |b.requestIds| == |items|
      && BatchSettled(m, store, b)
  {
    hide ItemSettled, Shaped, ItemAccepted, Extend;
    FlattenShape(items, blockSize);
    ShapedIds(Flatten(items, blockSize), |items|);
    if items != [] {
      var front, last := items[..|items| - 1], items[|items| - 1];
      FlatSettles(m, store, front, blockSize);
      ExtendSettles(m, store, Flatten(front, blockSize), |front|, last, blockSize);
    }
  }

  /** The engine's append settles every scheduled batch. */
  lemma ScheduledSettles(cfg: Config, m: Model, s: Sched, store: Store, items: seq<WorkerItem>)
    requires SchedInv(cfg, s, items) && StoreOk(cfg, m, s, store, [])
    ensures AllAccepted(items, cfg.blockSize)
    ensures var b := Flatten(items, cfg.blockSize);
      && Shaped(b, |b.requestIds|)
      && Settled(m, store, AppendBatch(m, store, b), b.inputIds, b.positions, b.slotMapping,
                 TokenContexts(b, |b.requestIds|))
  {
    hide IdsOk, CacheOk, RequestsOk, SizesOk, ItemFor, Flatten, AppendKv, StoreOk, RequestHeld, SettledAt, Sorted;
    hide TokenContexts, ItemSettled;
    AppendHolds(cfg, m, s, store, items);
    var b := Flatten(items, cfg.blockSize);
    var after := AppendBatch(m, store, b);
    forall k | 0 <= k < |items|
      ensures ItemSettled(m, after, items[k], cfg.blockSize)
    {
      HeldSettles(cfg, m, s, after, items, k);
    }
    FlatSettles(m, after, items, cfg.blockSize);
    forall x: Slot
      ensures x in after <==> x in store || x in b.slotMapping
      ensures x in store && x !in b.slotMapping ==> after[x] == store[x]
    {
      AppendFrame(m, store, b.inputIds, b.slotMapping, TokenContexts(b, |b.requestIds|), x);
    }
  }

  lemma {:induction false} ContextsOfRequest(b: GPUInputBatch, n: nat, k: nat, i: nat)
    requires Shaped(b, |b.requestIds|) && k < n <= |b.requestIds| && i < b.queryStartLoc[k + 1] - b.queryStartLoc[k]
    ensures b.queryStartLoc[k] + i < b.queryStartLoc[n]
    ensures TokenContexts(b, n)[b.queryStartLoc[k] + i] == RequestContexts(b, k)[i]
  {
    hide RequestContexts;
    if k < n - 1 { ContextsOfRequest(b, n - 1, k, i); }
  }

  /** Token i of item k reads the positions before its own. */
  lemma ContextsOfItem(items: seq<WorkerItem>, blockSize: nat, k: nat, i: nat)
    requires blockSize > 0 && AllAccepted(items, blockSize) && k < |items| && i < |items[k].tokenIds|
    ensures var b := Flatten(items, blockSize);
      && Shaped(b, |b.requestIds|) && k < |b.requestIds| && b.queryStartLoc[k] + i < |b.inputIds|
      && b.inputIds[b.queryStartLoc[k] + i] == items[k].tokenIds[i]
      && TokenContexts(b, |b.requestIds|)[b.queryStartLoc[k] + i] == ItemContexts(items[k], blockSize)[i]
  {
    hide Flatten, Sorted, Covers, SlotAt, CeilDiv, TokenContexts;
    var b, item := Flatten(items, blockSize), items[k];
    FlattenShape(items, blockSize);
    FlattenSegment(items, blockSize, k);
    ContextsOfRequest(b, |b.requestIds|, k, i);
    var q, p := b.queryStartLoc[k], item.startPos + i;
    assert b.inputIds[q..b.queryStartLoc[k + 1]][i] == b.inputIds[q + i];
    assert b.positions[q..b.queryStartLoc[k + 1]][i] == b.positions[q + i] == p;
    PrefixSlots(item.blockTable, blockSize, item.seqLen, p);
  }

  /** The hidden state of token i of item k of a forward pass is the causal transformer's, on the
      request's tokens alone, at the token's position. */
  ghost predicate RowIsCausal(t: Transformer, s: Sched, items: seq<WorkerItem>, b: GPUInputBatch, hidden: seq<Vector>,
                              k: nat, i: nat)
    requires k < |items|
  {
    && k < |b.queryStartLoc| && b.queryStartLoc[k] + i < |hidden|
    && items[k].id in s.running && items[k].startPos + i < |All(s.running[items[k].id])|
    && hidden[b.queryStartLoc[k] + i]
       == Causal(t, t.layers, All(s.running[items[k].id]), items[k].startPos + i)
  }

  lemma ScheduledRow(cfg: Config, m: Model, t: Transformer, s: Sched, store: Store, items: seq<WorkerItem>,
                     hidden: seq<Vector>, k: nat, i: nat)
    requires SchedInv(cfg, s, items) && StoreOk(cfg, m, s, store, []) && Layered(m, t)
    requires AllAccepted(items, cfg.blockSize) && k < |items| && i < |items[k].tokenIds|
    requires var b := Flatten(items, cfg.blockSize);
      && Shaped(b, |b.requestIds|)
      && HiddenAre(t, t.layers, hidden, b.inputIds, AppendBatch(m, store, b), TokenContexts(b, |b.requestIds|))
    ensures RowIsCausal(t, s, items, Flatten(items, cfg.blockSize), hidden, k, i)
  {
    hide IdsOk, CacheOk, RequestsOk, SizesOk, ItemFor, Flatten, AppendBatch, StoreOk, Hidden, Causal, Layered;
    hide Dense, Look, Sorted, TokenContexts, SlotAt, CeilDiv;
    AppendHolds(cfg, m, s, store, items);
    var b, item, p := Flatten(items, cfg.blockSize), items[k], items[k].startPos + i;
    var after := AppendBatch(m, store, b);
    ContextsOfItem(items, cfg.blockSize, k, i);
    ItemSlots(cfg, s, items, k);
    var all := All(s.running[item.id]);
    assert RequestHeld(cfg, m, s, after, item.id, item.seqLen);
    PrefixSlots(item.blockTable, cfg.blockSize, item.seqLen, p);
    LookHeld(after, cfg.blockSize, Dense(m, all), item.blockTable, p);
    assert item.tokenIds[i] == all[p];
    DenseIsCausal(m, t, all, t.layers, p);
  }
}
