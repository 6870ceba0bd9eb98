/** One attention layer of a mixed batch: the prefill and decode kernels of the Torch extension
    (runtime/torch_attention_cuda.cu) against the masked tensor reference
    (minivllm/model_executor/attention.py). */
module KernelSplit {
  import opened Protocol
  import opened Arith
  import opened RealSums
  import opened Softmax
  import opened Attention
  import opened PagedDecode
  import opened TorchAttention
  import opened Metadata
  import opened CacheAppend
  import PagedValidation

  // -------------------------------------------------------------- masked reference

  ghost function MaskedTerms(exp: RealFn, s: seq<real>, v: seq<real>, mask: seq<bool>): (r: seq<real>)
    requires |s| == |v| == |mask|
    ensures |r| == |s|
  {
    seq(|s|, p requires 0 <= p < |s| => if mask[p] then exp(s[p] - 0.0) * v[p] else 0.0)
  }

  /** scaled_dot_product_attention with a boolean mask: masked scores weigh nothing. */
  ghost function MaskedAttend(exp: RealFn, s: seq<real>, v: seq<real>, mask: seq<bool>): real
    requires |s| == |v| == |mask|
  {
    var d := Sum(MaskedTerms(exp, s, Ones(|s|), mask));
    if d == 0.0 then 0.0 else Sum(MaskedTerms(exp, s, v, mask)) / d
  }

  lemma MaskedSum(exp: RealFn, s: seq<real>, v: seq<real>, mask: seq<bool>, n: nat)
    requires |s| == |v| == |mask| && n <= |s| && forall p :: 0 <= p < |s| ==> (mask[p] <==> p < n)
    ensures Sum(MaskedTerms(exp, s, v, mask)) == Weighted(exp, s[..n], v[..n], 0.0)
  {
    hide Sum;
    var terms := MaskedTerms(exp, s, v, mask);
    SumSplit(terms, n);
    SumZero(terms[n..]);
    var front := Terms(exp, s[..n], v[..n], 0.0);
    forall p | 0 <= p < n ensures terms[p] == front[p] {
      assert s[..n][p] == s[p] && v[..n][p] == v[p];
    }
    assert terms[..n] == front;
  }

  /** A causal mask selects a prefix. */
  lemma MaskedPrefix(exp: RealFn, s: seq<real>, v: seq<real>, mask: seq<bool>, n: nat)
    requires |s| == |v| == |mask| && n <= |s| && forall p :: 0 <= p < |s| ==> (mask[p] <==> p < n)
    ensures MaskedAttend(exp, s, v, mask) == Attend(exp, s[..n], v[..n])
  {
    hide Sum, Weighted, MaskedTerms;
    MaskedSum(exp, s, v, mask, n);
    MaskedSum(exp, s, Ones(|s|), mask, n);
    assert Ones(|s|)[..n] == Ones(n);
  }

  // -------------------------------------------------------------------- one batch

  ghost predicate TokenOk(sh: Shape, md: AttentionMetadata, j: nat) {
    && sh.blockSize > 0
    && j < |md.requestIndices| && j < |md.positions|
    && md.requestIndices[j] < |md.seqLens| == |md.blockTables| == |md.isDecode|
    && md.requestIndices[j] + 1 < |md.queryStartLoc|
    && var k := md.requestIndices[j];
    && Within(md.queryStartLoc, k, j)
    && md.positions[j] < md.seqLens[k]
    && TableOk(sh, md.blockTables[k], md.seqLens[k]) && TableOk(sh, md.blockTables[k], md.positions[j] + 1)
    && (md.isDecode[k] ==>
          j == md.queryStartLoc[k] && md.queryStartLoc[k + 1] == j + 1 && md.positions[j] + 1 == md.seqLens[k])
  }

  lemma ShorterTable(sh: Shape, table: seq<int>, len: nat, n: nat)
    requires sh.blockSize > 0 && TableOk(sh, table, len) && n <= len
    ensures TableOk(sh, table, n)
  {
    CeilDivMonotone(n, len, sh.blockSize);
  }

  /** What a launch relies on: query rows are the batch's tokens, and the metadata of active
      tokens and of decode requests is consistent. */
  ghost predicate Launch(sh: Shape, md: AttentionMetadata) {
    && ShapeOk(sh)
    && sh.batch == |md.positions| == |md.requestIndices| == |md.activeMask|
    && |md.seqLens| == |md.blockTables| == |md.isDecode| && |md.queryStartLoc| == |md.seqLens| + 1
    && (forall j :: 0 <= j < sh.batch ==>
          md.requestIndices[j] < |md.isDecode| && (md.activeMask[j] ==> TokenOk(sh, md, j)))
    && (forall k :: 0 <= k < |md.isDecode| && md.isDecode[k] ==>
          md.queryStartLoc[k] < sh.batch && md.requestIndices[md.queryStartLoc[k]] == k)
  }

  lemma TokenFacts(sh: Shape, md: AttentionMetadata, items: seq<WorkerItem>, j: nat)
    requires ShapeOk(sh) && MetadataOk(md, items, sh) && j < |md.positions|
    ensures |md.requestIndices| == |md.positions| && TokenOk(sh, md, j) && md.requestIndices[j] < |items|
  {
    hide CeilDiv, TableOk, RequestIndices;
    IndicesInvert(md.queryStartLoc, |items|, j);
    var k := md.requestIndices[j];
    assert RowOk(md, k, items[k], sh) && Within(md.queryStartLoc, k, j);
    ShorterTable(sh, md.blockTables[k], md.seqLens[k], md.positions[j] + 1);
  }

  lemma DecodeFacts(sh: Shape, md: AttentionMetadata, items: seq<WorkerItem>, k: nat)
    requires ShapeOk(sh) && MetadataOk(md, items, sh) && k < |items|
    ensures md.queryStartLoc[k] < |md.positions| == |md.requestIndices| && md.requestIndices[md.queryStartLoc[k]] == k
  {
    hide TableAgrees, RequestIndices, PositionsOk;
    assert RowOk(md, k, items[k], sh) && items[k].tokenIds != [];
    IndicesInvert(md.queryStartLoc, |items|, md.queryStartLoc[k]);
    assert Within(md.queryStartLoc, k, md.queryStartLoc[k]);
  }

  /** The metadata of every accepted batch can be launched. */
  lemma EagerLaunch(sh: Shape, md: AttentionMetadata, items: seq<WorkerItem>)
    requires ShapeOk(sh) && MetadataOk(md, items, sh) && sh.batch == |md.positions|
    ensures Launch(sh, md)
  {
    hide RowOk, TokenOk, RequestIndices;
    IndicesLength(md.queryStartLoc, |items|);
    forall j | 0 <= j < sh.batch ensures md.requestIndices[j] < |md.isDecode| && TokenOk(sh, md, j) {
      TokenFacts(sh, md, items, j);
    }
    forall k | 0 <= k < |md.isDecode|
      ensures md.queryStartLoc[k] < sh.batch && md.requestIndices[md.queryStartLoc[k]] == k
    {
      DecodeFacts(sh, md, items, k);
    }
  }

  /** Which kernel writes token j's rows. */
  predicate PrefillWrites(md: AttentionMetadata, j: nat)
    requires j < |md.activeMask| && j < |md.requestIndices| && md.requestIndices[j] < |md.isDecode|
  {
    md.activeMask[j] && !md.isDecode[md.requestIndices[j]]
  }

  predicate DecodeWrites(md: AttentionMetadata, k: nat, j: nat)
    requires k < |md.queryStartLoc| && k < |md.isDecode| && j < |md.activeMask|
  {
    md.isDecode[k] && md.queryStartLoc[k] == j && md.activeMask[j]
  }

  /** Each active row is written by exactly one kernel, once; inactive rows by none. */
  lemma WrittenOnce(sh: Shape, md: AttentionMetadata, j: nat)
    requires Launch(sh, md) && j < sh.batch
    ensures forall k :: 0 <= k < |md.isDecode| ==>
      (DecodeWrites(md, k, j) <==> k == md.requestIndices[j] && md.activeMask[j] && !PrefillWrites(md, j))
    ensures PrefillWrites(md, j) ==> md.activeMask[j]
  {
    hide TableOk;
  }

  /** What the kernels compute for (token j, head h): the context is positions[j] + 1 tokens long. */
  ghost function CustomRow(exp: RealFn, sh: Shape, md: AttentionMetadata, query: seq<real>, k: seq<real>, v: seq<real>,
                           scale: real, j: nat, h: nat): (r: seq<Option<real>>)
    requires Inputs(sh, query, k, v) && TokenOk(sh, md, j) && j < sh.batch && h < sh.queryHeads
    ensures |r| == sh.headDim
  {
    PagedRow(exp, sh, query, k, v, md.blockTables[md.requestIndices[j]], md.positions[j] + 1, scale, j, h)
  }

  /** What the tensor reference computes: all of the request's context, its K/V heads repeated over
      their groups, causally masked. */
  ghost function TorchRow(exp: RealFn, sh: Shape, md: AttentionMetadata, query: seq<real>, k: seq<real>, v: seq<real>,
                          scale: real, j: nat, h: nat): (r: seq<real>)
    requires Inputs(sh, query, k, v) && TokenOk(sh, md, j) && j < sh.batch && h < sh.queryHeads
    ensures |r| == sh.headDim
  {
    QueryRowInRange(sh, j, h);
    var request := md.requestIndices[j];
    var len := md.seqLens[request];
    var q := Vec(query, QueryRows(sh), sh.headDim, Cell(j, h, sh.queryHeads));
    var keys := HeadOf(sh, PagedHeads(sh, k, md.blockTables[request], len), len, h);
    var values := HeadOf(sh, PagedHeads(sh, v, md.blockTables[request], len), len, h);
    var mask := seq(len, p requires 0 <= p < len => p <= md.positions[j]);
    seq(sh.headDim, d requires 0 <= d < sh.headDim =>
      MaskedAttend(exp, Scores(q, keys, scale), Column(values, sh.headDim, d), mask))
  }

  lemma PagedPrefix(sh: Shape, cache: seq<real>, table: seq<int>, len: nat, n: nat, head: nat)
    requires sh.blockSize > 0 && TableOk(sh, table, len) && TableOk(sh, table, n) && n <= len && head < sh.kvHeads
    requires IsMatrix(cache, CacheRows(sh), sh.headDim)
    ensures Paged(sh, cache, table, n, head) == Paged(sh, cache, table, len, head)[..n]
  {
    hide TableOk, CacheRows, Vec, IsMatrix;
  }

  lemma MaskedRow(exp: RealFn, q: seq<real>, keys: seq<seq<real>>, values: seq<seq<real>>, scale: real, mask: seq<bool>,
                  n: nat, d: nat)
    requires |keys| == |values| == |mask| && 0 < n <= |keys| && AllWide(keys, |q|) && AllWide(values, |q|) && d < |q|
    requires forall p :: 0 <= p < |mask| ==> (mask[p] <==> p < n)
    ensures DecodeAt(exp, q, keys[..n], values[..n], scale, d)
         == Some(MaskedAttend(exp, Scores(q, keys, scale), Column(values, |q|, d), mask))
  {
    hide Dot, Attend, MaskedAttend;
    var s, c := Scores(q, keys, scale), Column(values, |q|, d);
    MaskedPrefix(exp, s, c, mask, n);
    var front := Scores(q, keys[..n], scale);
    forall p | 0 <= p < n ensures front[p] == s[p] {
      assert keys[..n][p] == keys[p];
    }
    assert front == s[..n];
    assert Column(values[..n], |q|, d) == c[..n];
  }

  /** Row by row, the kernels agree with the masked reference. */
  lemma CustomIsTorch(exp: RealFn, sh: Shape, md: AttentionMetadata, query: seq<real>, k: seq<real>, v: seq<real>,
                      scale: real, j: nat, h: nat, d: nat)
    requires Inputs(sh, query, k, v) && TokenOk(sh, md, j) && j < sh.batch && h < sh.queryHeads && d < sh.headDim
    ensures CustomRow(exp, sh, md, query, k, v, scale, j, h)[d]
      == Some(TorchRow(exp, sh, md, query, k, v, scale, j, h)[d])
  {
    hide TableOk, CacheRows, QueryRows, Vec, IsMatrix, Cell, Paged, DecodeAt, MaskedAttend, Scores, Column, ShapeOk;
    hide KvHead, Repeated;
    var request, head := md.requestIndices[j], KvHead(sh, h);
    var table, len, n := md.blockTables[request], md.seqLens[request], md.positions[j] + 1;
    PagedPrefix(sh, k, table, len, n, head);
    PagedPrefix(sh, v, table, len, n, head);
    QueryRowInRange(sh, j, h);
    var q := Vec(query, QueryRows(sh), sh.headDim, Cell(j, h, sh.queryHeads));
    var mask := seq(len, p requires 0 <= p < len => p <= md.positions[j]);
    HeadRepeated(sh, PagedHeads(sh, k, table, len), h);
    HeadRepeated(sh, PagedHeads(sh, v, table, len), h);
    MaskedRow(exp, q, Paged(sh, k, table, len, head), Paged(sh, v, table, len, head), scale, mask, n, d);
  }

  // ------------------------------------------------------------------------- launches

  /** Rows the launches have reached: prefill up to (token, head), decode up to (request, head). */
  predicate Reached(md: AttentionMetadata, j: nat, h: nat, token: nat, tokenHead: nat, request: nat, requestHead: nat)
    requires j < |md.requestIndices| && md.requestIndices[j] < |md.isDecode| && j < |md.activeMask|
  {
    && md.activeMask[j]
    && if md.isDecode[md.requestIndices[j]] then PagedValidation.Before(md.requestIndices[j], h, request, requestHead)
       else PagedValidation.Before(j, h, token, tokenHead)
  }

  ghost function Zeros(n: nat): seq<Option<real>> { seq(n, _ => Some(0.0)) }

  ghost function RowNow(exp: RealFn, sh: Shape, md: AttentionMetadata, query: seq<real>, k: seq<real>, v: seq<real>,
                        scale: real, j: nat, h: nat, reached: bool): (r: seq<Option<real>>)
    requires Inputs(sh, query, k, v) && j < sh.batch && h < sh.queryHeads && (reached ==> TokenOk(sh, md, j))
    ensures |r| == sh.headDim
  {
    if reached then CustomRow(exp, sh, md, query, k, v, scale, j, h) else Zeros(sh.headDim)
  }

  /** Reached rows are computed, all others are still zero. */
  ghost predicate SplitDone(exp: RealFn, sh: Shape, md: AttentionMetadata, query: seq<real>, k: seq<real>, v: seq<real>,
                            scale: real, out: seq<Option<real>>, token: nat, tokenHead: nat, request: nat,
                            requestHead: nat)
    requires Launch(sh, md) && Inputs(sh, query, k, v)
  {
    forall j, h {:trigger Reached(md, j, h, token, tokenHead, request, requestHead)} ::
      0 <= j < sh.batch && 0 <= h < sh.queryHeads ==>
      RowIs(out, Cell(j, h, sh.queryHeads),
            RowNow(exp, sh, md, query, k, v, scale, j, h, Reached(md, j, h, token, tokenHead, request, requestHead)))
  }

  /** Computing row (j, h) moves the frontier past exactly that row. */
  lemma SplitStep(exp: RealFn, sh: Shape, md: AttentionMetadata, query: seq<real>, k: seq<real>, v: seq<real>,
                  scale: real, out: seq<Option<real>>, out': seq<Option<real>>, j: nat, h: nat, t: nat, th: nat, r: nat,
                  rh: nat, t': nat, th': nat, r': nat, rh': nat)
    requires Launch(sh, md) && Inputs(sh, query, k, v) && j < sh.batch && h < sh.queryHeads
    requires SplitDone(exp, sh, md, query, k, v, scale, out, t, th, r, rh)
    requires forall a, b :: 0 <= a < sh.batch && 0 <= b < sh.queryHeads && (a != j || b != h) ==>
      (Reached(md, a, b, t', th', r', rh') <==> Reached(md, a, b, t, th, r, rh))
    requires Reached(md, j, h, t', th', r', rh')
    requires RowIs(out', Cell(j, h, sh.queryHeads), CustomRow(exp, sh, md, query, k, v, scale, j, h))
    requires RowsKept(out, out', Cell(j, h, sh.queryHeads), sh.headDim)
    ensures SplitDone(exp, sh, md, query, k, v, scale, out', t', th', r', rh')
  {
    hide RowIs, Cell, PagedValidation.Before, CustomRow, TokenOk, Inputs, ShapeOk, Zeros;
    forall a, b | 0 <= a < sh.batch && 0 <= b < sh.queryHeads
      ensures RowIs(out', Cell(a, b, sh.queryHeads),
        RowNow(exp, sh, md, query, k, v, scale, a, b, Reached(md, a, b, t', th', r', rh')))
    {
      if a != j || b != h {
        assert Reached(md, a, b, t', th', r', rh') <==> Reached(md, a, b, t, th, r, rh);
        CellUnique(a, b, j, h, sh.queryHeads);
      }
    }
  }

  /** A frontier that passes no new row changes nothing. */
  lemma SplitSkip(exp: RealFn, sh: Shape, md: AttentionMetadata, query: seq<real>, k: seq<real>, v: seq<real>,
                  scale: real, out: seq<Option<real>>, t: nat, th: nat, r: nat, rh: nat, t': nat, th': nat, r': nat,
                  rh': nat)
    requires Launch(sh, md) && Inputs(sh, query, k, v) && SplitDone(exp, sh, md, query, k, v, scale, out, t, th, r, rh)
    requires forall a, b :: 0 <= a < sh.batch && 0 <= b < sh.queryHeads ==>
      (Reached(md, a, b, t', th', r', rh') <==> Reached(md, a, b, t, th, r, rh))
    ensures SplitDone(exp, sh, md, query, k, v, scale, out, t', th', r', rh')
  {
    hide RowIs, Cell, PagedValidation.Before, CustomRow, TokenOk, Inputs, ShapeOk, Zeros;
    forall a, b | 0 <= a < sh.batch && 0 <= b < sh.queryHeads
      ensures RowIs(out, Cell(a, b, sh.queryHeads),
        RowNow(exp, sh, md, query, k, v, scale, a, b, Reached(md, a, b, t', th', r', rh')))
    {
      assert Reached(md, a, b, t', th', r', rh') <==> Reached(md, a, b, t, th, r, rh);
    }
  }

  lemma PrefillFrontier(sh: Shape, md: AttentionMetadata, token: nat, head: nat)
    requires Launch(sh, md) && token < sh.batch && head < sh.queryHeads
    ensures forall a, b ::
      0 <= a < sh.batch && 0 <= b < sh.queryHeads && !(a == token && b == head && PrefillWrites(md, token)) ==>
      (Reached(md, a, b, token, head + 1, 0, 0) <==> Reached(md, a, b, token, head, 0, 0))
  {
    hide TokenOk;
  }

  lemma DecodeFrontier(sh: Shape, md: AttentionMetadata, request: nat, head: nat)
    requires Launch(sh, md) && request < |md.isDecode| && head < sh.queryHeads
    ensures forall a, b ::
      0 <= a < sh.batch && 0 <= b < sh.queryHeads && !(DecodeWrites(md, request, a) && b == head) ==>
      (Reached(md, a, b, sh.batch, 0, request, head + 1) <==> Reached(md, a, b, sh.batch, 0, request, head))
  {
    hide TableOk;
  }

  lemma NextFrontier(sh: Shape, md: AttentionMetadata, t: nat, r: nat)
    requires Launch(sh, md)
    ensures forall a, b :: 0 <= a < sh.batch && 0 <= b < sh.queryHeads ==>
      (Reached(md, a, b, t + 1, 0, 0, 0) <==> Reached(md, a, b, t, sh.queryHeads, 0, 0))
    ensures forall a, b :: 0 <= a < sh.batch && 0 <= b < sh.queryHeads ==>
      (Reached(md, a, b, sh.batch, 0, r + 1, 0) <==> Reached(md, a, b, sh.batch, 0, r, sh.queryHeads))
  {
    hide TokenOk;
  }

  /** flash_prefill_kernel over the grid (token, query head). */
  method FlashPrefill(exp: RealFn, sh: Shape, md: AttentionMetadata, query: seq<real>, kCache: seq<real>,
                      vCache: seq<real>, threads: nat, scale: real, out: array<Option<real>>)
    requires IsExp(exp) && Launch(sh, md) && Inputs(sh, query, kCache, vCache) && IsPow2(threads)
    requires sh.headDim <= threads
    requires out.Length == |query| && SplitDone(exp, sh, md, query, kCache, vCache, scale, out[..], 0, 0, 0, 0)
    modifies out
    ensures SplitDone(exp, sh, md, query, kCache, vCache, scale, out[..], sh.batch, 0, 0, 0)
  {
    hide IsExp, IsPow2, SplitDone, Reached, RowIs, RowsKept, Cell, PagedRow, CacheRows, Vec, TableOk;
    for token := 0 to sh.batch
      invariant SplitDone(exp, sh, md, query, kCache, vCache, scale, out[..], token, 0, 0, 0)
    {
      for head := 0 to sh.queryHeads
        invariant SplitDone(exp, sh, md, query, kCache, vCache, scale, out[..], token, head, 0, 0)
      {
        ghost var before := out[..];
        PrefillFrontier(sh, md, token, head);
        if PrefillWrites(md, token) {
          QueryRowInRange(sh, token, head);
          var request := md.requestIndices[token];
          var row := OnlinePagedAttention(exp, sh, query, kCache, vCache, md.blockTables[request],
            md.positions[token] + 1, token, head, threads, scale);
          StoreRow(out, QueryRows(sh), Cell(token, head, sh.queryHeads), row);
          PrefillReached(sh, md, token, head);
          SplitStep(exp, sh, md, query, kCache, vCache, scale, before, out[..], token, head, token, head, 0, 0, token,
            head + 1, 0, 0);
        } else {
          SplitSkip(exp, sh, md, query, kCache, vCache, scale, out[..], token, head, 0, 0, token, head + 1, 0, 0);
        }
      }
      NextFrontier(sh, md, token, 0);
      SplitSkip(exp, sh, md, query, kCache, vCache, scale, out[..], token, sh.queryHeads, 0, 0, token + 1, 0, 0, 0);
    }
  }

  lemma PrefillReached(sh: Shape, md: AttentionMetadata, token: nat, head: nat)
    requires Launch(sh, md) && token < sh.batch && PrefillWrites(md, token)
    ensures Reached(md, token, head, token, head + 1, 0, 0)
  {}

  lemma DecodeReached(sh: Shape, md: AttentionMetadata, request: nat, head: nat)
    requires Launch(sh, md) && request < |md.isDecode| && md.isDecode[request]
    requires md.activeMask[md.queryStartLoc[request]]
    ensures Reached(md, md.queryStartLoc[request], head, sh.batch, 0, request, head + 1)
    ensures TokenOk(sh, md, md.queryStartLoc[request])
    ensures md.positions[md.queryStartLoc[request]] + 1 == md.seqLens[request]
  {
    assert TokenOk(sh, md, md.queryStartLoc[request]);
  }

  /** paged_decode_kernel over the grid (request, query head). */
  method PagedDecodeOut(exp: RealFn, sh: Shape, md: AttentionMetadata, query: seq<real>, kCache: seq<real>,
                        vCache: seq<real>, threads: nat, scale: real, out: array<Option<real>>)
    requires IsExp(exp) && Launch(sh, md) && Inputs(sh, query, kCache, vCache) && IsPow2(threads)
    requires sh.headDim <= threads
    requires out.Length == |query| && SplitDone(exp, sh, md, query, kCache, vCache, scale, out[..], sh.batch, 0, 0, 0)
    modifies out
    ensures SplitDone(exp, sh, md, query, kCache, vCache, scale, out[..], sh.batch, 0, |md.isDecode|, 0)
  {
    hide IsExp, IsPow2, SplitDone, Reached, RowIs, RowsKept, Cell, PagedRow, CacheRows, Vec, TableOk;
    for request := 0 to |md.isDecode|
      invariant SplitDone(exp, sh, md, query, kCache, vCache, scale, out[..], sh.batch, 0, request, 0)
    {
      for head := 0 to sh.queryHeads
        invariant SplitDone(exp, sh, md, query, kCache, vCache, scale, out[..], sh.batch, 0, request, head)
      {
        ghost var before := out[..];
        DecodeFrontier(sh, md, request, head);
        if md.isDecode[request] && md.activeMask[md.queryStartLoc[request]] {
          var token := md.queryStartLoc[request];
          QueryRowInRange(sh, token, head);
          DecodeReached(sh, md, request, head);
          var row := OnlinePagedAttention(exp, sh, query, kCache, vCache, md.blockTables[request], md.seqLens[request],
            token, head, threads, scale);
          StoreRow(out, QueryRows(sh), Cell(token, head, sh.queryHeads), row);
          SplitStep(exp, sh, md, query, kCache, vCache, scale, before, out[..], token, head, sh.batch, 0, request, head,
            sh.batch, 0, request, head + 1);
        } else {
          SplitSkip(exp, sh, md, query, kCache, vCache, scale, out[..], sh.batch, 0, request, head, sh.batch, 0,
            request, head + 1);
        }
      }
      NextFrontier(sh, md, 0, request);
      SplitSkip(exp, sh, md, query, kCache, vCache, scale, out[..], sh.batch, 0, request, sh.queryHeads, sh.batch, 0,
        request + 1, 0);
    }
  }

  lemma AllZero(exp: RealFn, sh: Shape, md: AttentionMetadata, query: seq<real>, k: seq<real>, v: seq<real>,
                scale: real, out: seq<Option<real>>)
    requires Launch(sh, md) && Inputs(sh, query, k, v) && |out| == |query|
    requires forall i :: 0 <= i < |out| ==> out[i] == Some(0.0)
    ensures SplitDone(exp, sh, md, query, k, v, scale, out, 0, 0, 0, 0)
  {
    hide TokenOk, CustomRow, Cell, CacheRows;
    forall j, h | 0 <= j < sh.batch && 0 <= h < sh.queryHeads
      ensures !Reached(md, j, h, 0, 0, 0, 0) && RowIs(out, Cell(j, h, sh.queryHeads), Zeros(sh.headDim))
    {
      QueryRowInRange(sh, j, h);
      forall d | 0 <= d < sh.headDim ensures Cell(Cell(j, h, sh.queryHeads), d, sh.headDim) < |out| {
        CellInRange(Cell(j, h, sh.queryHeads), d, QueryRows(sh), sh.headDim);
      }
    }
  }

  /** An active row's cell is the tensor reference's; an inactive row's is zero. */
  ghost predicate TorchCell(exp: RealFn, sh: Shape, md: AttentionMetadata, query: seq<real>, k: seq<real>, v: seq<real>,
                            scale: real, out: seq<Option<real>>, j: nat, h: nat, d: nat)
    requires Launch(sh, md) && Inputs(sh, query, k, v) && j < sh.batch && h < sh.queryHeads && d < sh.headDim
  {
    && PagedValidation.OutIndex(sh, j, h, d) < |out|
    && out[PagedValidation.OutIndex(sh, j, h, d)]
       == Some(if md.activeMask[j] then TorchRow(exp, sh, md, query, k, v, scale, j, h)[d] else 0.0)
  }

  /** The finished output, cell by cell, against the tensor reference. */
  lemma OutputIsTorch(exp: RealFn, sh: Shape, md: AttentionMetadata, query: seq<real>, k: seq<real>, v: seq<real>,
                      scale: real, out: seq<Option<real>>, j: nat, h: nat, d: nat)
    requires Launch(sh, md) && Inputs(sh, query, k, v) && j < sh.batch && h < sh.queryHeads && d < sh.headDim
    requires SplitDone(exp, sh, md, query, k, v, scale, out, sh.batch, 0, |md.isDecode|, 0)
    ensures TorchCell(exp, sh, md, query, k, v, scale, out, j, h, d)
  {
    hide CustomRow, TorchRow, Cell, CacheRows, TokenOk, ShapeOk;
    var reached := Reached(md, j, h, sh.batch, 0, |md.isDecode|, 0);
    if md.activeMask[j] { CustomIsTorch(exp, sh, md, query, k, v, scale, j, h, d); }
  }

  /** `CudaAttentionBackend.forward`: append K/V, prefill kernel, decode kernel.  Every active row is the
      masked tensor reference's row on the updated caches; inactive rows stay zero. */
  method Forward(exp: RealFn, sh: Shape, md: AttentionMetadata, query: seq<real>, key: seq<real>, value: seq<real>,
                 kCache: array<real>, vCache: array<real>, threads: nat, scale: real) returns (out: array<Option<real>>)
    requires IsExp(exp) && Launch(sh, md) && IsMatrix(query, QueryRows(sh), sh.headDim) && IsPow2(threads)
    requires sh.headDim <= threads
    requires |md.slotMapping| == sh.batch && forall j :: 0 <= j < sh.batch ==> md.slotMapping[j] >= 0
    requires AppendArgs(sh, md.slotMapping, md.activeMask) && kCache != vCache
    requires IsMatrix(key, sh.batch * sh.kvHeads, sh.headDim) && IsMatrix(value, sh.batch * sh.kvHeads, sh.headDim)
    requires kCache.Length == vCache.Length == CacheRows(sh) * sh.headDim
    modifies kCache, vCache
    ensures Appended(sh, md.slotMapping, md.activeMask, key, old(kCache[..]), kCache[..])
    ensures Appended(sh, md.slotMapping, md.activeMask, value, old(vCache[..]), vCache[..])
    ensures fresh(out) && out.Length == |query|
    ensures forall j, h, d :: 0 <= j < sh.batch && 0 <= h < sh.queryHeads && 0 <= d < sh.headDim ==>
      TorchCell(exp, sh, md, query, kCache[..], vCache[..], scale, out[..], j, h, d)
  {
    hide IsExp, IsPow2, AppendArgs, Appended, SplitDone, CacheRows, QueryRows, TorchCell;
    AppendBySlot(sh, md.slotMapping, md.activeMask, key, value, kCache, vCache);
    var k, v := kCache[..], vCache[..];
    out := new Option<real>[|query|](_ => Some(0.0));
    AllZero(exp, sh, md, query, k, v, scale, out[..]);
    FlashPrefill(exp, sh, md, query, k, v, threads, scale, out);
    PagedDecodeOut(exp, sh, md, query, k, v, threads, scale, out);
    forall j, h, d | 0 <= j < sh.batch && 0 <= h < sh.queryHeads && 0 <= d < sh.headDim
      ensures TorchCell(exp, sh, md, query, kCache[..], vCache[..], scale, out[..], j, h, d)
    {
      OutputIsTorch(exp, sh, md, query, k, v, scale, out[..], j, h, d);
    }
  }
}
