/** The CPU reference kernels (minivllm/worker/operator_runtime.py): vector caches keyed by slot,
    and one online-softmax row per request of a batch. */
module ReferenceRuntime {
  import opened Protocol
  import opened Arith
  import opened KVCache
  import opened Scheduling
  import opened WorkerSide
  import opened Isolation
  import opened Softmax
  import opened Attention
  import opened OnlineSoftmax
  import opened TwoPass

  /** Component d of a token's synthetic vector; one function per phase. */
  type Wave = (Token, nat) -> real

  function Vector(wave: Wave, dim: nat, token: Token): (v: seq<real>)
    ensures |v| == dim
  {
    seq(dim, d requires 0 <= d < dim => wave(token, d))
  }

  ghost function VectorsOf(wave: Wave, dim: nat, tokens: seq<Token>): (vs: seq<seq<real>>)
    ensures |vs| == |tokens| && AllWide(vs, dim)
  {
    seq(|tokens|, i requires 0 <= i < |tokens| => Vector(wave, dim, tokens[i]))
  }

  /** Attention of a request's last token over all of its tokens, with no cache in sight. */
  ghost function SoloAttention(exp: RealFn, key: Wave, value: Wave, dim: nat, scale: real,
                               tokens: seq<Token>): (r: seq<real>)
    requires tokens != []
    ensures |r| == dim
  {
    AttentionRow(exp, Vector(key, dim, tokens[|tokens| - 1]), VectorsOf(key, dim, tokens),
      VectorsOf(value, dim, tokens), scale)
  }

  function Blend(out: seq<real>, alpha: real, beta: real, value: seq<real>): (r: seq<real>)
    requires |out| == |value|
    ensures |r| == |out|
  {
    seq(|out|, d requires 0 <= d < |out| => alpha * out[d] + beta * value[d])
  }

  /** What one slot holds for a token: its key vector, then its value vector. */
  function Pair(key: Wave, value: Wave, dim: nat, token: Token): (v: Value)
    ensures |v| == 2 * dim
  {
    Vector(key, dim, token) + Vector(value, dim, token)
  }

  /** The synthetic model: what a slot gets depends on the token alone. */
  ghost predicate Synthetic(m: Model, key: Wave, value: Wave, dim: nat) {
    forall token: Token, context: seq<Option<Value>> :: m.embed(token, context) == Pair(key, value, dim, token)
  }

  ghost predicate Pairs(values: seq<Value>, dim: nat) {
    forall i :: 0 <= i < |values| ==> |values[i]| == 2 * dim
  }

  ghost function KeyRows(values: seq<Value>, dim: nat): (rows: seq<seq<real>>)
    requires Pairs(values, dim)
    ensures |rows| == |values| && AllWide(rows, dim)
  {
    seq(|values|, i requires 0 <= i < |values| => values[i][..dim])
  }

  ghost function ValueRows(values: seq<Value>, dim: nat): (rows: seq<seq<real>>)
    requires Pairs(values, dim)
    ensures |rows| == |values| && AllWide(rows, dim)
  {
    seq(|values|, i requires 0 <= i < |values| => values[i][dim..])
  }

  /** Attention of the last of some cached pairs over all of them. */
  ghost function LastRow(exp: RealFn, dim: nat, scale: real, values: seq<Value>): (r: seq<real>)
    requires values != [] && Pairs(values, dim)
    ensures |r| == dim
  {
    AttentionRow(exp, values[|values| - 1][..dim], KeyRows(values, dim), ValueRows(values, dim), scale)
  }

  lemma {:induction false} DensePairs(m: Model, key: Wave, value: Wave, dim: nat, tokens: seq<Token>)
    requires Synthetic(m, key, value, dim)
    ensures forall i :: 0 <= i < |tokens| ==> Dense(m, tokens)[i] == Pair(key, value, dim, tokens[i])
  {
    hide Pair, Present;
    if tokens != [] { DensePairs(m, key, value, dim, tokens[..|tokens| - 1]); }
  }

  /** On a request's own values that is the attention of the request alone. */
  lemma LastRowIsSolo(exp: RealFn, m: Model, key: Wave, value: Wave, dim: nat, scale: real, tokens: seq<Token>)
    requires Synthetic(m, key, value, dim) && tokens != []
    ensures Pairs(Dense(m, tokens), dim)
    ensures LastRow(exp, dim, scale, Dense(m, tokens)) == SoloAttention(exp, key, value, dim, scale, tokens)
  {
    hide Dense, AttentionRow, Vector;
    DensePairs(m, key, value, dim, tokens);
    var values := Dense(m, tokens);
    assert forall i :: 0 <= i < |values| ==>
      values[i][..dim] == Vector(key, dim, tokens[i]) && values[i][dim..] == Vector(value, dim, tokens[i]);
    assert KeyRows(values, dim) == VectorsOf(key, dim, tokens);
    assert ValueRows(values, dim) == VectorsOf(value, dim, tokens);
  }

  /** The two caches hold the halves of the pairs in `store`. */
  ghost predicate CacheMirrors(kCache: map<Slot, seq<real>>, vCache: map<Slot, seq<real>>, dim: nat, store: Store) {
    && kCache.Keys == vCache.Keys == store.Keys
    && (forall x :: x in store ==> |kCache[x]| == |vCache[x]| == dim && store[x] == kCache[x] + vCache[x])
  }

  lemma MirrorStep(kCache: map<Slot, seq<real>>, vCache: map<Slot, seq<real>>, dim: nat, store: Store, slot: Slot,
                   k: seq<real>, v: seq<real>)
    requires CacheMirrors(kCache, vCache, dim, store) && |k| == |v| == dim
    ensures CacheMirrors(kCache[slot := k], vCache[slot := v], dim, store[slot := k + v])
  {}

  lemma MirrorAt(kCache: map<Slot, seq<real>>, vCache: map<Slot, seq<real>>, dim: nat, store: Store, slot: Slot)
    requires CacheMirrors(kCache, vCache, dim, store) && slot in store
    ensures slot in kCache && slot in vCache && |store[slot]| == 2 * dim
    ensures kCache[slot] == store[slot][..dim] && vCache[slot] == store[slot][dim..]
  {}

  lemma GatheredPairs(kCache: map<Slot, seq<real>>, vCache: map<Slot, seq<real>>, dim: nat, store: Store,
                      slots: seq<Slot>)
    requires CacheMirrors(kCache, vCache, dim, store) && forall i :: 0 <= i < |slots| ==> slots[i] in store
    ensures Pairs(Gather(store, slots), dim)
  {
    hide CacheMirrors;
    forall i | 0 <= i < |slots| ensures |store[slots[i]]| == 2 * dim { MirrorAt(kCache, vCache, dim, store, slots[i]); }
  }

  lemma AppendStep(m: Model, store: Store, tokens: seq<Token>, slots: seq<Slot>, contexts: seq<seq<Slot>>, i: nat)
    requires i < |tokens| == |slots| == |contexts|
    ensures var front := AppendKv(m, store, tokens[..i], slots[..i], contexts[..i]);
      AppendKv(m, store, tokens[..i + 1], slots[..i + 1], contexts[..i + 1])
      == front[slots[i] := m.embed(tokens[i], Look(front, contexts[i]))]
  {
    hide Look;
    assert tokens[..i + 1][..i] == tokens[..i] && slots[..i + 1][..i] == slots[..i]
      && contexts[..i + 1][..i] == contexts[..i];
  }

  /** `ReferenceKernelRuntime`; `key` and `value` are the two phases of `_vector`. */
  class ReferenceKernelRuntime {
    const headDim: nat
    const key: Wave
    const value: Wave
    var kCache: map<Slot, seq<real>>
    var vCache: map<Slot, seq<real>>
    var lastAttentionOutput: seq<real>
    var lastBatchOutputs: seq<seq<real>>

    ghost predicate Mirrors(store: Store)
      reads this
    {
      CacheMirrors(kCache, vCache, headDim, store)
    }

    constructor (dim: nat, key: Wave, value: Wave)
      ensures Mirrors(map[]) && headDim == dim && this.key == key && this.value == value
    {
      headDim, this.key, this.value := dim, key, value;
      kCache, vCache, lastAttentionOutput, lastBatchOutputs := map[], map[], [], [];
    }

    /** `append_kv`: false is the ValueError on lists of different length, before any write.  It is the
        append of the synthetic model, whatever the contexts. */
    method Append(tokenIds: seq<Token>, slots: seq<Slot>, ghost m: Model, ghost store: Store,
                  ghost contexts: seq<seq<Slot>>) returns (ok: bool)
      requires Mirrors(store) && Synthetic(m, key, value, headDim) && |contexts| == |tokenIds|
      modifies this`kCache, this`vCache
      ensures ok <==> |tokenIds| == |slots|
      ensures Mirrors(if ok then AppendKv(m, store, tokenIds, slots, contexts) else store)
    {
      hide Vector, CacheMirrors, AppendKv, Look;
      if |tokenIds| != |slots| { return false; }
      AppendNothing(m, store);
      ghost var now := store;
      for i := 0 to |slots|
        invariant now == AppendKv(m, store, tokenIds[..i], slots[..i], contexts[..i]) && Mirrors(now)
      {
        var k, v := Vector(key, headDim, tokenIds[i]), Vector(value, headDim, tokenIds[i]);
        MirrorStep(kCache, vCache, headDim, now, slots[i], k, v);
        AppendStep(m, store, tokenIds, slots, contexts, i);
        kCache := kCache[slots[i] := k];
        vCache := vCache[slots[i] := v];
        now := now[slots[i] := k + v];
      }
      assert tokenIds[..|slots|] == tokenIds && slots[..|slots|] == slots && contexts[..|slots|] == contexts;
      return true;
    }

    method Score(query: seq<real>, slot: Slot, scale: real, ghost store: Store, ghost keys: seq<seq<real>>,
                 ghost i: nat)
      returns (score: real, vector: seq<real>)
      requires Mirrors(store) && slot in store && |store[slot]| == 2 * headDim
      requires |query| == headDim && i < |keys| && AllWide(keys, headDim) && keys[i] == store[slot][..headDim]
      ensures score == Scores(query, keys, scale)[i]
      ensures vector == store[slot][headDim..]
    {
      hide Dot, CacheMirrors;
      MirrorAt(kCache, vCache, headDim, store, slot);
      score := PlainDot(query, kCache[slot]);
      score := score * scale;
      vector := vCache[slot];
    }

    /** `_online_attention` over cached slots. */
    method OnlineAttention(exp: RealFn, query: seq<real>, slots: seq<Slot>, scale: real, ghost store: Store)
      returns (row: seq<real>)
      requires IsExp(exp) && Mirrors(store) && |query| == headDim && slots != []
      requires forall i :: 0 <= i < |slots| ==> slots[i] in store
      ensures Pairs(Gather(store, slots), headDim)
      ensures row == AttentionRow(exp, query, KeyRows(Gather(store, slots), headDim),
        ValueRows(Gather(store, slots), headDim), scale)
    {
      hide IsExp, OnlineAt, Scores, NewMax, Alpha, AttentionAt, CacheMirrors;
      ghost var pairs := Gather(store, slots);
      GatheredPairs(kCache, vCache, headDim, store, slots);
      ghost var keys, values := KeyRows(pairs, headDim), ValueRows(pairs, headDim);
      ghost var s := Scores(query, keys, scale);
      var output: seq<real> := seq(headDim, _ => 0.0);
      var rowMax: Option<real>, rowSum := None, 0.0;
      OnlineStarts(exp, output, s, values);
      for i := 0 to |slots|
        invariant |output| == headDim && OnlineAt(exp, rowMax, rowSum, output, s, values, i)
      {
        assert pairs[i] == store[slots[i]];
        var score, vector := Score(query, slots[i], scale, store, keys, i);
        var newMax := NewMax(rowMax, score);
        var alpha, beta := Alpha(exp, rowMax, newMax), exp(score - newMax);
        var next := Blend(output, alpha, beta, vector);
        var newSum := alpha * rowSum + beta;
        OnlineStep(exp, rowMax, rowSum, output, s, values, i, alpha, beta, newSum, next);
        output, rowSum, rowMax := next, newSum, Some(newMax);
      }
      if headDim > 0 { OnlineEnds(exp, rowMax, rowSum, output, query, keys, values, scale, 0); }
      row := [];
      for d := 0 to headDim
        invariant |row| == d && forall i :: 0 <= i < d ==> row[i] == AttentionAt(exp, query, keys, values, scale, i)
      {
        OnlineEnds(exp, rowMax, rowSum, output, query, keys, values, scale, d);
        row := row + [output[d] / rowSum];
      }
    }

    /** `attention_batch`: one row per request, from the slots of its own context. */
    method AttentionBatch(exp: RealFn, b: GPUInputBatch, scale: real, ghost store: Store)
      requires IsExp(exp) && Mirrors(store) && Readable(b, store)
      modifies this`lastBatchOutputs, this`lastAttentionOutput
      ensures Mirrors(store) && |lastBatchOutputs| == |b.requestIds|
      ensures forall k :: 0 <= k < |b.requestIds| ==> BatchRow(exp, headDim, scale, b, store, k, lastBatchOutputs[k])
      ensures lastAttentionOutput
        == if |b.requestIds| > 0 then lastBatchOutputs[|b.requestIds| - 1] else old(lastAttentionOutput)
    {
      hide IsExp, LastRow, CacheMirrors, Sorted;
      var outputs: seq<seq<real>> := [];
      for request := 0 to |b.requestIds|
        invariant |outputs| == request && Mirrors(store) && lastAttentionOutput == old(lastAttentionOutput)
        invariant forall k :: 0 <= k < request ==> BatchRow(exp, headDim, scale, b, store, k, outputs[k])
      {
        ReadableSlice(b, store, request);
        var slots := b.contextSlotMapping[b.contextStartLoc[request]..b.contextStartLoc[request + 1]];
        if slots == [] {
          outputs := outputs + [[]];
        } else {
          var row := LastTokenRow(exp, slots, scale, store);
          outputs := outputs + [row];
        }
      }
      lastBatchOutputs := outputs;
      if outputs != [] { lastAttentionOutput := outputs[|outputs| - 1]; }
    }

    method LastTokenRow(exp: RealFn, slots: seq<Slot>, scale: real, ghost store: Store) returns (row: seq<real>)
      requires IsExp(exp) && Mirrors(store) && slots != [] && forall i :: 0 <= i < |slots| ==> slots[i] in store
      ensures Pairs(Gather(store, slots), headDim) && row == LastRow(exp, headDim, scale, Gather(store, slots))
    {
      hide IsExp, AttentionRow, CacheMirrors;
      var last := slots[|slots| - 1];
      assert last in store;
      MirrorAt(kCache, vCache, headDim, store, last);
      assert Gather(store, slots)[|slots| - 1] == store[last];
      row := OnlineAttention(exp, kCache[last], slots, scale, store);
    }
  }

  /** What request k of a batch gets; an empty context gives an empty row. */
  ghost predicate BatchRow(exp: RealFn, dim: nat, scale: real, b: GPUInputBatch, store: Store, k: nat, row: seq<real>)
    requires Readable(b, store) && k < |b.requestIds|
  {
    ReadableSlice(b, store, k);
    var values := Gather(store, ContextSlots(b, k));
    Pairs(values, dim) && row == if values == [] then [] else LastRow(exp, dim, scale, values)
  }

  /** For every scheduled batch, once its K/V is appended, each request's row is the attention of that
      request alone on its own tokens, and no other row will do. */
  lemma BatchedIsSolo(exp: RealFn, m: Model, key: Wave, value: Wave, dim: nat, scale: real,
                      cfg: Config, s: Sched, store: Store, items: seq<WorkerItem>, k: nat, row: seq<real>)
    requires Synthetic(m, key, value, dim)
    requires SchedInv(cfg, s, items) && StoreOk(cfg, m, s, store, []) && k < |items|
    ensures AllAccepted(items, cfg.blockSize)
    ensures items[k].id in s.running && 0 < items[k].seqLen <= |All(s.running[items[k].id])|
    ensures var b := Flatten(items, cfg.blockSize);
      && Shaped(b, |b.requestIds|) && k < |b.requestIds| && Readable(b, AppendBatch(m, store, b))
      && (BatchRow(exp, dim, scale, b, AppendBatch(m, store, b), k, row)
          <==> row == SoloAttention(exp, key, value, dim, scale, All(s.running[items[k].id])[..items[k].seqLen]))
  {
    hide SchedInv, StoreOk, AllAccepted, Flatten, AppendBatch, CeilDiv, SoloAttention, LastRow, Readable, Synthetic;
    hide Dense;
    ReadBack(cfg, m, s, store, items, k);
    ItemLength(cfg, s, items, k);
    LastRowIsSolo(exp, m, key, value, dim, scale, All(s.running[items[k].id])[..items[k].seqLen]);
  }

  lemma ItemLength(cfg: Config, s: Sched, items: seq<WorkerItem>, k: nat)
    requires SchedInv(cfg, s, items) && k < |items|
    ensures items[k].id in s.running && 0 < items[k].seqLen <= |All(s.running[items[k].id])|
  {
    hide IdsOk, CacheOk, RequestsOk, SizesOk, ItemsOk;
    ItemSlots(cfg, s, items, k);
  }
}
