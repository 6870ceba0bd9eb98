/** Paged K/V storage and decode attention (kernels/paged_kv_cache/paged_kv_cache.cu): the
    split multi-warp kernel on block tables computes the two-pass dense reference. */
module PagedDecode {
  import opened Protocol
  import opened Arith
  import opened RealSums
  import opened Softmax
  import opened Attention

  /** `scratch` counts cache slots beyond the physical blocks (none in the standalone kernels). */
  datatype Shape = Shape(batch: nat, queryHeads: nat, kvHeads: nat, headDim: nat, blockSize: nat, blocks: nat,
    scratch: nat)

  predicate ShapeOk(sh: Shape) { sh.kvHeads > 0 && sh.queryHeads % sh.kvHeads == 0 && sh.blockSize > 0 }

  function CacheSlots(sh: Shape): nat { sh.blocks * sh.blockSize + sh.scratch }

  /** Rows of a cache of shape [slots, kv_heads, head_dim]. */
  function CacheRows(sh: Shape): nat { CacheSlots(sh) * sh.kvHeads }

  function QueryRows(sh: Shape): nat { sh.batch * sh.queryHeads }

  /** Grouped-query attention: consecutive query heads share one K/V head. */
  function KvHead(sh: Shape, qHead: nat): (h: nat)
    requires ShapeOk(sh) && qHead < sh.queryHeads
    ensures h < sh.kvHeads
  {
    GroupedHead(sh.queryHeads, sh.kvHeads, qHead);
    qHead / (sh.queryHeads / sh.kvHeads)
  }

  /** Query heads per K/V head. */
  function Group(sh: Shape): (n: nat)
    requires ShapeOk(sh)
    ensures n * sh.kvHeads == sh.queryHeads
  {
    sh.queryHeads / sh.kvHeads
  }

  /** Query head q reads K/V head g exactly when q lies in the g-th group of consecutive heads. */
  lemma SharedHead(sh: Shape, qHead: nat, g: nat)
    requires ShapeOk(sh) && qHead < sh.queryHeads
    ensures KvHead(sh, qHead) == g <==> g * Group(sh) <= qHead < (g + 1) * Group(sh)
  {
    GroupedHead(sh.queryHeads, sh.kvHeads, qHead);
    var n := Group(sh);
    assert (g + 1) * n == g * n + n;
    if g * n <= qHead < (g + 1) * n { DivModUnique(qHead, n, g, qHead - g * n); }
  }

  /** `repeat_interleave`: every element n times in a row. */
  function Repeated<T>(xs: seq<T>, n: nat): (r: seq<T>)
    ensures |r| == |xs| * n
  {
    if xs == [] then []
    else
      var last := |xs| - 1;
      assert |xs| * n == last * n + n;
      Repeated(xs[..last], n) + seq(n, _ => xs[last])
  }

  lemma Distribute(a: nat, n: nat)
    ensures (a + 1) * n == a * n + n
  {}

  lemma {:induction false} RepeatedAt<T>(xs: seq<T>, n: nat, g: nat, i: nat)
    requires g < |xs| && g * n <= i < (g + 1) * n
    ensures i < |xs| * n && Repeated(xs, n)[i] == xs[g]
  {
    var last := |xs| - 1;
    var front := Repeated(xs[..last], n);
    Distribute(last, n);
    if g < last {
      MulMonotone(g + 1, last, n);
      RepeatedAt(xs[..last], n, g, i);
      assert Repeated(xs, n)[i] == front[i];
    } else {
      assert Repeated(xs, n)[i] == xs[last];
    }
  }

  /** Repeating the K/V heads once per query head of their group, as the tensor reference does, gives
      each query head the K/V head that the kernels compute. */
  lemma HeadRepeated<T>(sh: Shape, heads: seq<T>, qHead: nat)
    requires ShapeOk(sh) && |heads| == sh.kvHeads && qHead < sh.queryHeads
    ensures |Repeated(heads, Group(sh))| == sh.queryHeads
    ensures Repeated(heads, Group(sh))[qHead] == heads[KvHead(sh, qHead)]
  {
    hide KvHead, Repeated;
    var g := KvHead(sh, qHead);
    SharedHead(sh, qHead, g);
    RepeatedAt(heads, Group(sh), g, qHead);
    assert |heads| * Group(sh) == sh.queryHeads;
  }

  lemma GroupedHead(queryHeads: nat, kvHeads: nat, qHead: nat)
    requires kvHeads > 0 && queryHeads % kvHeads == 0 && qHead < queryHeads
    ensures queryHeads / kvHeads > 0 && 0 <= qHead / (queryHeads / kvHeads) < kvHeads
  {
    var group := queryHeads / kvHeads;
    assert queryHeads == group * kvHeads;
    assert kvHeads * group == queryHeads;
    assert group > 0 by { if group <= 0 { MulMonotone(group, 0, kvHeads); } }
    CellOf(qHead, kvHeads, group);
  }

  /** The table maps every position below `len` to a physical block. */
  predicate TableOk(sh: Shape, table: seq<int>, len: nat)
    requires sh.blockSize > 0
  {
    && CeilDiv(len, sh.blockSize) <= |table|
    && forall j :: 0 <= j < CeilDiv(len, sh.blockSize) ==> 0 <= table[j] < sh.blocks
  }

  /** Physical slot of position `p`. */
  function PhysicalSlot(sh: Shape, table: seq<int>, len: nat, p: nat): (slot: nat)
    requires sh.blockSize > 0 && TableOk(sh, table, len) && p < len
    ensures slot < sh.blocks * sh.blockSize
  {
    PositionInBlocks(p, len, sh.blockSize);
    SlotInRange(table[p / sh.blockSize], p % sh.blockSize, sh.blocks, sh.blockSize);
    table[p / sh.blockSize] * sh.blockSize + p % sh.blockSize
  }

  /** Cache row that holds K/V head `head` of position `p`. */
  function KvRow(sh: Shape, table: seq<int>, len: nat, p: nat, head: nat): (row: nat)
    requires sh.blockSize > 0 && TableOk(sh, table, len) && p < len && head < sh.kvHeads
    ensures row < CacheRows(sh)
  {
    CellInRange(PhysicalSlot(sh, table, len, p), head, CacheSlots(sh), sh.kvHeads);
    Cell(PhysicalSlot(sh, table, len, p), head, sh.kvHeads)
  }

  /** The vectors of positions 0..len, read through the block table. */
  ghost function Paged(sh: Shape, cache: seq<real>, table: seq<int>, len: nat, head: nat): (vs: seq<seq<real>>)
    requires sh.blockSize > 0 && TableOk(sh, table, len) && head < sh.kvHeads
    requires IsMatrix(cache, CacheRows(sh), sh.headDim)
    ensures |vs| == len && AllWide(vs, sh.headDim)
  {
    seq(len, p requires 0 <= p < len => Vec(cache, CacheRows(sh), sh.headDim, KvRow(sh, table, len, p, head)))
  }

  /** The vectors that a query head reads, once every K/V head is repeated over its group. */
  ghost function HeadOf(sh: Shape, heads: seq<seq<seq<real>>>, len: nat, qHead: nat): (vs: seq<seq<real>>)
    requires ShapeOk(sh) && |heads| == sh.kvHeads && qHead < sh.queryHeads
    requires forall g :: 0 <= g < |heads| ==> |heads[g]| == len && AllWide(heads[g], sh.headDim)
    ensures |vs| == len && AllWide(vs, sh.headDim)
  {
    HeadRepeated(sh, heads, qHead);
    Repeated(heads, Group(sh))[qHead]
  }

  /** All K/V heads of positions 0..len, read through the block table. */
  ghost function PagedHeads(sh: Shape, cache: seq<real>, table: seq<int>, len: nat): (heads: seq<seq<seq<real>>>)
    requires sh.blockSize > 0 && TableOk(sh, table, len) && IsMatrix(cache, CacheRows(sh), sh.headDim)
    ensures |heads| == sh.kvHeads
    ensures forall g :: 0 <= g < |heads| ==> |heads[g]| == len && AllWide(heads[g], sh.headDim)
  {
    seq(sh.kvHeads, g requires 0 <= g < sh.kvHeads => Paged(sh, cache, table, len, g))
  }

  // --------------------------------------------------------------- one thread block

  /** A warp's statistics and its output row, relative to its running maximum. */
  ghost predicate RowAccumulates(exp: RealFn, m: Option<real>, sum: real, out: seq<real>, s: seq<real>,
                                 values: seq<seq<real>>, warp: nat, warps: nat, n: nat)
    requires |s| == |values| && n <= |s| && warp < warps && AllWide(values, |out|)
  {
    && PartAccumulates(exp, m, sum, s, Ones(|s|), warp, warps, n)
    && forall d :: 0 <= d < |out| ==> PartAccumulates(exp, m, out[d], s, Column(values, |out|, d), warp, warps, n)
  }

  lemma RowAbsorbs(exp: RealFn, m: Option<real>, sum: real, out: seq<real>, s: seq<real>, values: seq<seq<real>>,
                   warp: nat, warps: nat, t: nat, next: nat,
                   alpha: real, beta: real, sum': real, out': seq<real>)
    requires IsExp(exp) && |s| == |values| && warp < warps && t < |s| && t % warps == warp && warp <= t
    requires |out'| == |out| && AllWide(values, |out|)
    requires RowAccumulates(exp, m, sum, out, s, values, warp, warps, t)
    requires next == (if t + warps <= |s| then t + warps else |s|)
    requires alpha == Alpha(exp, m, NewMax(m, s[t])) && beta == exp(s[t] - NewMax(m, s[t]))
    requires sum' == alpha * sum + beta
    requires forall d :: 0 <= d < |out| ==> out'[d] == alpha * out[d] + beta * values[t][d]
    ensures RowAccumulates(exp, Some(NewMax(m, s[t])), sum', out', s, values, warp, warps, next)
  {
    hide IsExp, PartAccumulates, Alpha, NewMax;
    assert beta * Ones(|s|)[t] == beta;
    PartAbsorbs(exp, m, sum, s, Ones(|s|), warp, warps, t, next, sum');
    forall d | 0 <= d < |out|
      ensures PartAccumulates(exp, Some(NewMax(m, s[t])), out'[d], s, Column(values, |out'|, d), warp, warps, next)
    {
      assert Column(values, |out|, d)[t] == values[t][d];
      PartAbsorbs(exp, m, out[d], s, Column(values, |out|, d), warp, warps, t, next, out'[d]);
    }
  }

  lemma RowStarts(exp: RealFn, out: seq<real>, s: seq<real>, values: seq<seq<real>>, warp: nat, warps: nat)
    requires |s| == |values| && warp < warps && AllWide(values, |out|)
    requires forall d :: 0 <= d < |out| ==> out[d] == 0.0
    ensures RowAccumulates(exp, None, 0.0, out, s, values, warp, warps, if warp <= |s| then warp else |s|)
  {
    hide StrideSum, Terms;
  }

  /** Rescale the accumulated row and add one weighted vector; every dimension belongs to one lane. */
  method Rescale(out: array<real>, alpha: real, beta: real, v: seq<real>)
    requires |v| == out.Length
    modifies out
    ensures forall d :: 0 <= d < |v| ==> out[d] == alpha * old(out[d]) + beta * v[d]
  {
    for dim := 0 to out.Length
      invariant forall d :: 0 <= d < dim ==> out[d] == alpha * old(out[d]) + beta * v[d]
      invariant forall d :: dim <= d < |v| ==> out[d] == old(out[d])
    {
      out[dim] := alpha * out[dim] + beta * v[dim];
    }
  }

  /** The warp's score of one token, and the token's value vector. */
  method TokenScore(sh: Shape, q: seq<real>, kCache: seq<real>, vCache: seq<real>, table: seq<int>, seqLen: nat,
                    head: nat, lanes: nat, scale: real, token: nat) returns (score: real, value: seq<real>)
    requires sh.blockSize > 0 && TableOk(sh, table, seqLen) && head < sh.kvHeads && |q| == sh.headDim && token < seqLen
    requires IsMatrix(kCache, CacheRows(sh), sh.headDim) && IsMatrix(vCache, CacheRows(sh), sh.headDim) && IsPow2(lanes)
    ensures score == Scores(q, Paged(sh, kCache, table, seqLen, head), scale)[token]
    ensures value == Paged(sh, vCache, table, seqLen, head)[token] && |value| == sh.headDim
  {
    hide Dot, CacheRows, TableOk, IsPow2, IsMatrix, Vec;
    var row := KvRow(sh, table, seqLen, token, head);
    score := WarpDot(q, Vec(kCache, CacheRows(sh), sh.headDim, row), lanes);
    score := score * scale;
    value := Vec(vCache, CacheRows(sh), sh.headDim, row);
  }

  /** One warp's online softmax over the tokens warp, warp + warps, warp + 2 * warps, ... */
  method WarpSweep(exp: RealFn, sh: Shape, q: seq<real>, kCache: seq<real>, vCache: seq<real>, table: seq<int>,
                   seqLen: nat, head: nat, warp: nat, warps: nat, lanes: nat, scale: real, out: array<real>)
    returns (localMax: Option<real>, localSum: real)
    requires IsExp(exp) && sh.blockSize > 0 && TableOk(sh, table, seqLen) && head < sh.kvHeads
    requires IsMatrix(kCache, CacheRows(sh), sh.headDim) && IsMatrix(vCache, CacheRows(sh), sh.headDim)
    requires warp < warps && IsPow2(lanes) && |q| == out.Length == sh.headDim
    requires forall d :: 0 <= d < out.Length ==> out[d] == 0.0
    modifies out
    ensures RowAccumulates(exp, localMax, localSum, out[..], Scores(q, Paged(sh, kCache, table, seqLen, head), scale),
                           Paged(sh, vCache, table, seqLen, head), warp, warps, seqLen)
  {
    hide *;
    ghost var keys, values := Paged(sh, kCache, table, seqLen, head), Paged(sh, vCache, table, seqLen, head);
    ghost var s := Scores(q, keys, scale);
    RowStarts(exp, out[..], s, values, warp, warps);
    BeforeFirst(warp, warps);
    localMax, localSum := None, 0.0;
    var token := warp;
    while token < seqLen
      invariant warp <= token && token % warps == warp
      invariant RowAccumulates(exp, localMax, localSum, out[..], s, values, warp, warps,
        if token <= seqLen then token else seqLen)
      decreases seqLen - token
    {
      ghost var before := out[..];
      var score, value := TokenScore(sh, q, kCache, vCache, table, seqLen, head, lanes, scale, token);
      var newMax := NewMax(localMax, score);
      var alpha := Alpha(exp, localMax, newMax);
      var beta := exp(score - newMax);
      Rescale(out, alpha, beta, value);
      var newSum := alpha * localSum + beta;
      RowAbsorbs(exp, localMax, localSum, before, s, values, warp, warps, token,
                 if token + warps <= seqLen then token + warps else seqLen, alpha, beta, newSum, out[..]);
      NextInClass(token, warp, warps);
      localSum, localMax := newSum, Some(newMax);
      token := token + warps;
    }
  }

  /** Each warp's contribution at the common maximum; a warp that saw no token has none. */
  ghost function Shares(exp: RealFn, maxes: seq<Option<real>>, accs: seq<real>, m: real): seq<real>
    requires |maxes| == |accs|
  {
    seq(|maxes|, w requires 0 <= w < |maxes| => if maxes[w].None? then 0.0 else exp(maxes[w].value - m) * accs[w])
  }

  method MergeMax(maxes: seq<Option<real>>) returns (globalMax: Option<real>)
    ensures globalMax.None? <==> forall w :: 0 <= w < |maxes| ==> maxes[w].None?
    ensures globalMax.Some? ==>
      globalMax in maxes && forall w :: 0 <= w < |maxes| && maxes[w].Some? ==> maxes[w].value <= globalMax.value
  {
    globalMax := None;
    for warp := 0 to |maxes|
      invariant globalMax.None? <==> forall w :: 0 <= w < warp ==> maxes[w].None?
      invariant globalMax.Some? ==>
        globalMax in maxes && forall w :: 0 <= w < warp && maxes[w].Some? ==> maxes[w].value <= globalMax.value
    {
      if maxes[warp].Some? { globalMax := Some(NewMax(globalMax, maxes[warp].value)); }
    }
  }

  method MergeShares(exp: RealFn, maxes: seq<Option<real>>, accs: seq<real>, m: real) returns (total: real)
    requires |maxes| == |accs|
    ensures total == Sum(Shares(exp, maxes, accs, m))
  {
    hide Sum;
    ghost var shares := Shares(exp, maxes, accs, m);
    NothingSummed();
    total := 0.0;
    for warp := 0 to |maxes|
      invariant total == Sum(shares[..warp])
    {
      SumAppend(shares[..warp], shares[warp]);
      assert shares[..warp] + [shares[warp]] == shares[..warp + 1];
      var share := if maxes[warp].Some? then exp(maxes[warp].value - m) * accs[warp] else 0.0;
      assert share == shares[warp];
      total := total + share;
    }
    assert shares[..|maxes|] == shares;
  }

  /** All warps have swept their tokens. */
  ghost predicate AllSwept(exp: RealFn, maxes: seq<Option<real>>, sums: seq<real>, outs: seq<seq<real>>, s: seq<real>,
                           values: seq<seq<real>>, width: nat, done: nat, warps: nat)
    requires |s| == |values| && AllWide(values, width)
  {
    && |maxes| == |sums| == |outs| == done <= warps
    && AllWide(outs, width)
    && forall w :: 0 <= w < done ==> RowAccumulates(exp, maxes[w], sums[w], outs[w], s, values, w, warps, |s|)
  }

  /** The merged numerator and denominator are the plain weighted sums. */
  lemma Merged(exp: RealFn, maxes: seq<Option<real>>, sums: seq<real>, outs: seq<seq<real>>, s: seq<real>,
               values: seq<seq<real>>, width: nat, warps: nat, m: real, d: nat)
    requires IsExp(exp) && |s| == |values| && AllWide(values, width) && warps > 0 && d < width
    requires AllSwept(exp, maxes, sums, outs, s, values, width, warps, warps)
    ensures Sum(Shares(exp, maxes, sums, m)) == Weighted(exp, s, Ones(|s|), m)
    ensures Sum(Shares(exp, maxes, Column(outs, width, d), m)) == Weighted(exp, s, Column(values, width, d), m)
  {
    hide IsExp, PartAccumulates, Sum, Weighted;
    PartsMerge(exp, s, Ones(|s|), warps, maxes, sums, m, Shares(exp, maxes, sums, m));
    var column := Column(outs, width, d);
    forall w | 0 <= w < warps
      ensures PartAccumulates(exp, maxes[w], column[w], s, Column(values, width, d), w, warps, |s|)
    {
      assert RowAccumulates(exp, maxes[w], sums[w], outs[w], s, values, w, warps, |s|);
    }
    PartsMerge(exp, s, Column(values, width, d), warps, maxes, column, m, Shares(exp, maxes, column, m));
  }

  /** One row of decode attention; with no token at all the kernel divides zero by zero. */
  ghost function DecodeAt(exp: RealFn, q: seq<real>, keys: seq<seq<real>>, values: seq<seq<real>>, scale: real,
                          d: nat): Option<real>
    requires AllWide(keys, |q|) && AllWide(values, |q|) && |keys| == |values| && d < |q|
  {
    if keys == [] then None else Some(AttentionAt(exp, q, keys, values, scale, d))
  }

  lemma MergedQuotient(exp: RealFn, q: seq<real>, keys: seq<seq<real>>, maxes: seq<Option<real>>, sums: seq<real>,
                       outs: seq<seq<real>>, values: seq<seq<real>>, warps: nat, scale: real, m: real, d: nat,
                       sum: real, value: real)
    requires IsExp(exp) && |keys| == |values| && AllWide(keys, |q|) && AllWide(values, |q|) && warps > 0 && d < |q|
    requires AllSwept(exp, maxes, sums, outs, Scores(q, keys, scale), values, |q|, warps, warps)
    requires sum == Sum(Shares(exp, maxes, sums, m)) && value == Sum(Shares(exp, maxes, Column(outs, |q|, d), m))
    ensures Quotient(value, sum) == DecodeAt(exp, q, keys, values, scale, d)
  {
    hide IsExp, Sum, Shares, AllSwept, Scores, Column, Weighted, Attend;
    var s := Scores(q, keys, scale);
    Merged(exp, maxes, sums, outs, s, values, |q|, warps, m, d);
    if keys == [] {
      NothingWeighted(exp, m);
      assert s == [] && Ones(|s|) == [];
    } else {
      AnyReference(exp, s, Column(values, |q|, d), m);
    }
  }

  predicate Inputs(sh: Shape, query: seq<real>, kCache: seq<real>, vCache: seq<real>) {
    && ShapeOk(sh)
    && IsMatrix(query, QueryRows(sh), sh.headDim)
    && IsMatrix(kCache, CacheRows(sh), sh.headDim)
    && IsMatrix(vCache, CacheRows(sh), sh.headDim)
  }

  lemma QueryRowInRange(sh: Shape, b: nat, h: nat)
    requires b < sh.batch && h < sh.queryHeads
    ensures Cell(b, h, sh.queryHeads) < QueryRows(sh)
  {
    CellInRange(b, h, sh.batch, sh.queryHeads);
  }

  ghost function DecodeRow(exp: RealFn, q: seq<real>, keys: seq<seq<real>>, values: seq<seq<real>>,
                           scale: real): (r: seq<Option<real>>)
    requires AllWide(keys, |q|) && AllWide(values, |q|) && |keys| == |values|
    ensures |r| == |q|
  {
    seq(|q|, d requires 0 <= d < |q| => DecodeAt(exp, q, keys, values, scale, d))
  }

  /** Row (sequence b, head h) of a launch. */
  ghost function PagedRow(exp: RealFn, sh: Shape, query: seq<real>, kCache: seq<real>, vCache: seq<real>,
                          table: seq<int>, len: nat, scale: real, b: nat, h: nat): (r: seq<Option<real>>)
    requires Inputs(sh, query, kCache, vCache) && TableOk(sh, table, len) && b < sh.batch && h < sh.queryHeads
    ensures |r| == sh.headDim
  {
    QueryRowInRange(sh, b, h);
    DecodeRow(exp, Vec(query, QueryRows(sh), sh.headDim, Cell(b, h, sh.queryHeads)),
              Paged(sh, kCache, table, len, KvHead(sh, h)), Paged(sh, vCache, table, len, KvHead(sh, h)), scale)
  }

  /** All warps of one thread block, one after the other: they share nothing before the barrier. */
  method SweepAll(exp: RealFn, sh: Shape, q: seq<real>, kCache: seq<real>, vCache: seq<real>, table: seq<int>,
                  seqLen: nat, head: nat, warps: nat, lanes: nat, scale: real)
    returns (maxes: seq<Option<real>>, sums: seq<real>, outs: seq<seq<real>>)
    requires IsExp(exp) && sh.blockSize > 0 && TableOk(sh, table, seqLen) && head < sh.kvHeads
    requires IsMatrix(kCache, CacheRows(sh), sh.headDim) && IsMatrix(vCache, CacheRows(sh), sh.headDim)
    requires IsPow2(lanes) && |q| == sh.headDim
    ensures |maxes| == |sums| == |outs| == warps && AllWide(outs, sh.headDim)
    ensures AllSwept(exp, maxes, sums, outs, Scores(q, Paged(sh, kCache, table, seqLen, head), scale),
                     Paged(sh, vCache, table, seqLen, head), sh.headDim, warps, warps)
  {
    hide IsExp, TableOk, IsMatrix, CacheRows, IsPow2, RowAccumulates, Scores, Paged;
    ghost var s, values := Scores(q, Paged(sh, kCache, table, seqLen, head), scale),
      Paged(sh, vCache, table, seqLen, head);
    maxes, sums, outs := [], [], [];
    for warp := 0 to warps
      invariant AllSwept(exp, maxes, sums, outs, s, values, sh.headDim, warp, warps)
    {
      var out := new real[sh.headDim](_ => 0.0);
      var localMax, localSum :=
        WarpSweep(exp, sh, q, kCache, vCache, table, seqLen, head, warp, warps, lanes, scale, out);
      maxes, sums, outs := maxes + [localMax], sums + [localSum], outs + [out[..]];
    }
  }

  /** One thread block: sequence seqIdx, query head qHead. */
  method DecodeBlock(exp: RealFn, sh: Shape, query: seq<real>, kCache: seq<real>, vCache: seq<real>, table: seq<int>,
                     seqLen: nat, seqIdx: nat, qHead: nat, warps: nat, lanes: nat, scale: real)
    returns (row: seq<Option<real>>)
    requires IsExp(exp) && Inputs(sh, query, kCache, vCache) && TableOk(sh, table, seqLen)
    requires seqIdx < sh.batch && qHead < sh.queryHeads && warps > 0 && IsPow2(lanes)
    ensures row == PagedRow(exp, sh, query, kCache, vCache, table, seqLen, scale, seqIdx, qHead)
  {
    hide IsExp, TableOk, IsMatrix, CacheRows, QueryRows, IsPow2, AllSwept, Scores, Paged, Sum, Shares, DecodeAt, Vec;
    hide KvHead, Quotient, Cell;
    QueryRowInRange(sh, seqIdx, qHead);
    var q := Vec(query, QueryRows(sh), sh.headDim, Cell(seqIdx, qHead, sh.queryHeads));
    var head := KvHead(sh, qHead);
    ghost var keys, values := Paged(sh, kCache, table, seqLen, head), Paged(sh, vCache, table, seqLen, head);
    var maxes, sums, outs := SweepAll(exp, sh, q, kCache, vCache, table, seqLen, head, warps, lanes, scale);
    var globalMax := MergeMax(maxes);
    var m := if globalMax.Some? then globalMax.value else 0.0;
    var globalSum := MergeShares(exp, maxes, sums, m);
    row := [];
    for dim := 0 to sh.headDim
      invariant |row| == dim
      invariant forall d :: 0 <= d < dim ==> row[d] == DecodeAt(exp, q, keys, values, scale, d)
    {
      var column := Column(outs, sh.headDim, dim);
      var value := MergeShares(exp, maxes, column, m);
      MergedQuotient(exp, q, keys, maxes, sums, outs, values, warps, scale, m, dim, globalSum, value);
      row := row + [Quotient(value, globalSum)];
    }
  }
}
