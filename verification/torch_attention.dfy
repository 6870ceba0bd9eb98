/** Attention of the Torch extension (runtime/torch_attention_cuda.cu): one thread block per
    (query row, query head), tree reduction and online softmax over the paged context. */
module TorchAttention {
  import opened Protocol
  import opened RealSums
  import opened Softmax
  import opened Attention
  import opened PagedDecode
  import opened OnlineSoftmax

  /** Each thread multiplies one dimension, threads past head_dim contribute zero, and the block
      reduces in shared memory. */
  method BlockDot(a: seq<real>, b: seq<real>, threads: nat) returns (total: real)
    requires |a| == |b| <= threads && IsPow2(threads)
    ensures total == Dot(a, b)
  {
    hide Sum;
    var reduction := new real[threads];
    for dim := 0 to threads
      invariant forall i :: 0 <= i < dim ==> reduction[i] == if i < |a| then Products(a, b)[i] else 0.0
    {
      reduction[dim] := if dim < |a| then a[dim] * b[dim] else 0.0;
    }
    PaddedSum(Products(a, b), reduction[..]);
    TreeReduce(reduction);
    total := reduction[0];
  }

  method ScoreToken(sh: Shape, q: seq<real>, kCache: seq<real>, vCache: seq<real>, table: seq<int>, len: nat, head: nat,
                    threads: nat, scale: real, token: nat) returns (score: real, value: seq<real>)
    requires sh.blockSize > 0 && TableOk(sh, table, len) && head < sh.kvHeads && |q| == sh.headDim && token < len
    requires IsMatrix(kCache, CacheRows(sh), sh.headDim) && IsMatrix(vCache, CacheRows(sh), sh.headDim)
    requires IsPow2(threads) && sh.headDim <= threads
    ensures score == Scores(q, Paged(sh, kCache, table, len, head), scale)[token]
    ensures value == Paged(sh, vCache, table, len, head)[token] && |value| == sh.headDim
  {
    hide Dot, CacheRows, TableOk, IsPow2, IsMatrix, Vec;
    var row := KvRow(sh, table, len, token, head);
    score := BlockDot(q, Vec(kCache, CacheRows(sh), sh.headDim, row), threads);
    score := score * scale;
    value := Vec(vCache, CacheRows(sh), sh.headDim, row);
  }

  /** The token loop: stats and accumulators after all of the context. */
  method Sweep(exp: RealFn, sh: Shape, q: seq<real>, kCache: seq<real>, vCache: seq<real>, table: seq<int>, len: nat,
               head: nat, threads: nat, scale: real, accumulator: array<real>)
    returns (rowMax: Option<real>, rowSum: real)
    requires IsExp(exp) && sh.blockSize > 0 && TableOk(sh, table, len) && head < sh.kvHeads
    requires IsMatrix(kCache, CacheRows(sh), sh.headDim) && IsMatrix(vCache, CacheRows(sh), sh.headDim)
    requires IsPow2(threads) && |q| == accumulator.Length == sh.headDim <= threads
    requires forall d :: 0 <= d < accumulator.Length ==> accumulator[d] == 0.0
    modifies accumulator
    ensures OnlineAt(exp, rowMax, rowSum, accumulator[..], Scores(q, Paged(sh, kCache, table, len, head), scale),
                     Paged(sh, vCache, table, len, head), len)
  {
    hide *;
    ghost var values := Paged(sh, vCache, table, len, head);
    ghost var s := Scores(q, Paged(sh, kCache, table, len, head), scale);
    OnlineStarts(exp, accumulator[..], s, values);
    rowMax, rowSum := None, 0.0;
    for token := 0 to len
      invariant OnlineAt(exp, rowMax, rowSum, accumulator[..], s, values, token)
    {
      ghost var before := accumulator[..];
      var score, value := ScoreToken(sh, q, kCache, vCache, table, len, head, threads, scale, token);
      var newMax := NewMax(rowMax, score);
      var alpha, beta := Alpha(exp, rowMax, newMax), exp(score - newMax);
      Rescale(accumulator, alpha, beta, value);
      var newSum := alpha * rowSum + beta;
      OnlineStep(exp, rowMax, rowSum, before, s, values, token, alpha, beta, newSum, accumulator[..]);
      rowMax, rowSum := Some(newMax), newSum;
    }
  }

  /** online_paged_attention for one query row and head. */
  method OnlinePagedAttention(exp: RealFn, sh: Shape, query: seq<real>, kCache: seq<real>, vCache: seq<real>,
                              table: seq<int>, contextLen: nat, queryIndex: nat, queryHead: nat, threads: nat,
                              scale: real) returns (row: seq<Option<real>>)
    requires IsExp(exp) && Inputs(sh, query, kCache, vCache) && TableOk(sh, table, contextLen)
    requires queryIndex < sh.batch && queryHead < sh.queryHeads && IsPow2(threads) && sh.headDim <= threads
    ensures row == PagedRow(exp, sh, query, kCache, vCache, table, contextLen, scale, queryIndex, queryHead)
  {
    hide IsExp, TableOk, IsMatrix, CacheRows, QueryRows, IsPow2, OnlineAt, Scores, Paged, DecodeAt, Vec, KvHead;
    hide Quotient, Cell;
    QueryRowInRange(sh, queryIndex, queryHead);
    var q := Vec(query, QueryRows(sh), sh.headDim, Cell(queryIndex, queryHead, sh.queryHeads));
    var head := KvHead(sh, queryHead);
    ghost var keys, values := Paged(sh, kCache, table, contextLen, head), Paged(sh, vCache, table, contextLen, head);
    var accumulator := new real[sh.headDim](_ => 0.0);
    var rowMax, rowSum := Sweep(exp, sh, q, kCache, vCache, table, contextLen, head, threads, scale, accumulator);
    var numerators := accumulator[..];
    row := [];
    for dim := 0 to sh.headDim
      invariant |row| == dim
      invariant forall d :: 0 <= d < dim ==> row[d] == DecodeAt(exp, q, keys, values, scale, d)
    {
      OnlineEnds(exp, rowMax, rowSum, numerators, q, keys, values, scale, dim);
      row := row + [Quotient(numerators[dim], rowSum)];
    }
  }
}
