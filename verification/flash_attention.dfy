/** Tiled flash attention against two-pass attention
    (kernels/flash_attention/flash_attention_prefilling.cu). */
module FlashAttention {
  import opened Protocol
  import opened Arith
  import opened RealSums
  import opened Softmax
  import opened Attention
  import opened OnlineSoftmax
  import opened TwoPass

  /** Tensors of shape [slices, len, dim], one slice per (batch, head). */
  datatype Grid = Grid(slices: nat, len: nat, dim: nat)

  function Rows(g: Grid): nat { g.slices * g.len }

  function RowOf(g: Grid, slice: nat, i: nat): (row: nat)
    requires slice < g.slices && i < g.len
    ensures row < Rows(g)
  {
    CellInRange(slice, i, g.slices, g.len);
    Cell(slice, i, g.len)
  }

  function RowVec(g: Grid, m: seq<real>, slice: nat, i: nat): (v: seq<real>)
    requires IsMatrix(m, Rows(g), g.dim) && slice < g.slices && i < g.len
    ensures |v| == g.dim
  {
    Vec(m, Rows(g), g.dim, RowOf(g, slice, i))
  }

  /** All rows of one slice. */
  function Slice(g: Grid, m: seq<real>, slice: nat): (vs: seq<seq<real>>)
    requires IsMatrix(m, Rows(g), g.dim) && slice < g.slices
    ensures |vs| == g.len && AllWide(vs, g.dim)
  {
    seq(g.len, i requires 0 <= i < g.len => RowVec(g, m, slice, i))
  }

  /** Tensors are laid out as [slices, len, dim]. */
  lemma SliceIs(g: Grid, m: seq<real>, slice: nat, i: nat, d: nat)
    requires IsMatrix(m, Rows(g), g.dim) && slice < g.slices && i < g.len && d < g.dim
    ensures (slice * g.len + i) * g.dim + d < |m|
    ensures Slice(g, m, slice)[i][d] == m[(slice * g.len + i) * g.dim + d]
  {
    hide IsMatrix, Vec, Rows;
    assert RowOf(g, slice, i) == slice * g.len + i;
    VecAt(m, Rows(g), g.dim, RowOf(g, slice, i), d);
  }

  function Zeros(n: nat): (z: seq<real>) ensures |z| == n { seq(n, _ => 0.0) }

  // ------------------------------------------------------------------------------ tiles

  /** Row `row` of a tile: rows past the sequence are zero. */
  function TileRow(g: Grid, m: seq<real>, slice: nat, tile: nat, size: nat, row: nat): (v: seq<real>)
    requires IsMatrix(m, Rows(g), g.dim) && slice < g.slices
    ensures |v| == g.dim
  {
    if tile * size + row < g.len then RowVec(g, m, slice, tile * size + row) else Zeros(g.dim)
  }

  ghost predicate IsTile(g: Grid, m: seq<real>, slice: nat, tile: nat, size: nat, t: seq<real>)
    requires IsMatrix(m, Rows(g), g.dim) && slice < g.slices
  {
    IsMatrix(t, size, g.dim) && forall row :: 0 <= row < size ==>
      Vec(t, size, g.dim, row) == TileRow(g, m, slice, tile, size, row)
  }

  lemma TileElements(g: Grid, m: seq<real>, slice: nat, tile: nat, size: nat, t: seq<real>)
    requires IsMatrix(m, Rows(g), g.dim) && slice < g.slices && IsMatrix(t, size, g.dim)
    requires forall idx :: 0 <= idx < |t| && g.dim > 0 && idx / g.dim >= 0 && 0 <= idx % g.dim < g.dim ==>
      t[idx] == TileRow(g, m, slice, tile, size, idx / g.dim)[idx % g.dim]
    ensures IsTile(g, m, slice, tile, size, t)
  {
    hide TileRow, IsMatrix;
    forall row | 0 <= row < size ensures Vec(t, size, g.dim, row) == TileRow(g, m, slice, tile, size, row) {
      var v := Vec(t, size, g.dim, row);
      forall d | 0 <= d < g.dim ensures v[d] == TileRow(g, m, slice, tile, size, row)[d] {
        DivModUnique(Cell(row, d, g.dim), g.dim, row, d);
      }
    }
  }

  lemma TileElement(g: Grid, m: seq<real>, slice: nat, tile: nat, size: nat, row: nat, col: nat, source: nat)
    requires IsMatrix(m, Rows(g), g.dim) && slice < g.slices && col < g.dim && source == tile * size + row
    ensures source < g.len ==> Cell(RowOf(g, slice, source), col, g.dim) < |m|
    ensures source < g.len ==>
      TileRow(g, m, slice, tile, size, row)[col] == m[Cell(RowOf(g, slice, source), col, g.dim)]
    ensures source >= g.len ==> TileRow(g, m, slice, tile, size, row)[col] == 0.0
  {
    hide Cell, Rows;
    if source < g.len { CellInRange(RowOf(g, slice, source), col, Rows(g), g.dim); }
  }

  /** The block's threads load one tile element by element. */
  method LoadTile(g: Grid, m: seq<real>, slice: nat, tile: nat, size: nat) returns (t: array<real>)
    requires IsMatrix(m, Rows(g), g.dim) && slice < g.slices
    ensures fresh(t) && IsTile(g, m, slice, tile, size, t[..])
  {
    hide TileRow, Cell, IsTile, Rows;
    t := new real[size * g.dim];
    for idx := 0 to t.Length
      invariant forall i :: 0 <= i < idx && g.dim > 0 && i / g.dim >= 0 && 0 <= i % g.dim < g.dim ==>
        t[i] == TileRow(g, m, slice, tile, size, i / g.dim)[i % g.dim]
    {
      CellOf(idx, size, g.dim);
      var row, col := idx / g.dim, idx % g.dim;
      var source := tile * size + row;
      TileElement(g, m, slice, tile, size, row, col, source);
      if source < g.len {
        t[idx] := m[Cell(RowOf(g, slice, source), col, g.dim)];
      } else {
        t[idx] := 0.0;
      }
    }
    TileElements(g, m, slice, tile, size, t[..]);
  }

  // ---------------------------------------------------------------------- lane registers

  /** Dimension d lives in lane d % lanes, register d / lanes. */
  ghost function Registers(regs: array2<real>, dim: nat): (r: seq<real>)
    reads regs
    requires regs.Length0 > 0 && regs.Length1 == CeilDiv(dim, regs.Length0)
    ensures |r| == dim
  {
    seq(dim, d requires 0 <= d < dim reads regs =>
      PositionInBlocks(d, dim, regs.Length0);
      regs[d % regs.Length0, d / regs.Length0])
  }

  lemma LaneUnique(dim: nat, lanes: nat, d: nat)
    requires lanes > 0
    ensures forall i :: 0 <= i < dim && i != d ==> i % lanes != d % lanes || i / lanes != d / lanes
  {
    forall i | 0 <= i < dim && i % lanes == d % lanes && i / lanes == d / lanes
      ensures i == d
    {
      DivModDetermine(i, d, lanes);
    }
  }

  /** The lane that owns dimension d stores its register; no other dimension changes. */
  method SetRegister(regs: array2<real>, dim: nat, d: nat, x: real)
    requires regs.Length0 > 0 && regs.Length1 == CeilDiv(dim, regs.Length0) && d < dim
    modifies regs
    ensures Registers(regs, dim) == old(Registers(regs, dim))[d := x]
  {
    hide CeilDiv;
    var lanes := regs.Length0;
    PositionInBlocks(d, dim, lanes);
    LaneUnique(dim, lanes, d);
    ghost var before := Registers(regs, dim);
    regs[d % lanes, d / lanes] := x;
    forall i | 0 <= i < dim ensures Registers(regs, dim)[i] == before[d := x][i] {
      PositionInBlocks(i, dim, lanes);
    }
  }

  /** Every lane rescales its own slice of the output row. */
  method RescaleLanes(regs: array2<real>, dim: nat, alpha: real, beta: real, v: seq<real>)
    requires regs.Length0 > 0 && regs.Length1 == CeilDiv(dim, regs.Length0) && |v| == dim
    modifies regs
    ensures forall d :: 0 <= d < dim ==> Registers(regs, dim)[d] == alpha * old(Registers(regs, dim))[d] + beta * v[d]
  {
    hide CeilDiv, Registers;
    ghost var before := Registers(regs, dim);
    for d := 0 to dim
      invariant forall i :: 0 <= i < d ==> Registers(regs, dim)[i] == alpha * before[i] + beta * v[i]
      invariant forall i :: d <= i < dim ==> Registers(regs, dim)[i] == before[i]
    {
      RegisterAt(regs, dim, d);
      var was := regs[d % regs.Length0, d / regs.Length0];
      assert was == before[d];
      var x := alpha * was + beta * v[d];
      ghost var now := Registers(regs, dim);
      SetRegister(regs, dim, d, x);
      assert Registers(regs, dim) == now[d := x] && x == alpha * before[d] + beta * v[d];
    }
  }

  // -------------------------------------------------------------------- one query row

  /** Lane-strided products, then xor-butterfly. */
  method ButterflyDot(a: seq<real>, b: seq<real>, lanes: nat) returns (score: real)
    requires |a| == |b| && IsPow2(lanes)
    ensures score == Dot(a, b)
  {
    hide Sum, StrideSum;
    var partials := LanePartials(a, b, lanes);
    score := ButterflySum(partials);
    StridesCover(Products(a, b), lanes, |a|);
    assert Products(a, b)[..|a|] == Products(a, b);
  }

  ghost predicate Operands(g: Grid, q: seq<real>, k: seq<real>, v: seq<real>, slice: nat) {
    && slice < g.slices && |q| == g.dim
    && IsMatrix(k, Rows(g), g.dim) && IsMatrix(v, Rows(g), g.dim)
  }

  ghost function RowScores(g: Grid, q: seq<real>, k: seq<real>, v: seq<real>, slice: nat, scale: real): (s: seq<real>)
    requires Operands(g, q, k, v, slice)
    ensures |s| == g.len
  {
    Scores(q, Slice(g, k, slice), scale)
  }

  /** Score and value vector of key row `rowK` of the loaded tiles. */
  method TileScore(g: Grid, q: seq<real>, ghost k: seq<real>, ghost v: seq<real>, kTile: seq<real>, vTile: seq<real>,
                   slice: nat, tile: nat, size: nat, rowK: nat, lanes: nat, scale: real)
    returns (score: real, value: seq<real>)
    requires Operands(g, q, k, v, slice) && rowK < size && tile * size + rowK < g.len && IsPow2(lanes)
    requires IsTile(g, k, slice, tile, size, kTile) && IsTile(g, v, slice, tile, size, vTile)
    ensures score == RowScores(g, q, k, v, slice, scale)[tile * size + rowK]
    ensures |value| == g.dim && value == Slice(g, v, slice)[tile * size + rowK]
  {
    hide Dot, IsPow2, Vec, RowVec, Rows;
    assert Vec(kTile, size, g.dim, rowK) == TileRow(g, k, slice, tile, size, rowK);
    assert Vec(vTile, size, g.dim, rowK) == TileRow(g, v, slice, tile, size, rowK);
    score := ButterflyDot(q, Vec(kTile, size, g.dim, rowK), lanes);
    score := score * scale;
    value := Vec(vTile, size, g.dim, rowK);
  }

  /** The online state covers the first t keys. */
  ghost predicate Covered(exp: RealFn, g: Grid, q: seq<real>, k: seq<real>, v: seq<real>, slice: nat, scale: real,
                          rowMax: Option<real>, rowSum: real, out: seq<real>, t: nat)
    requires Operands(g, q, k, v, slice) && |out| == g.dim
  {
    OnlineAt(exp, rowMax, rowSum, out, RowScores(g, q, k, v, slice, scale), Slice(g, v, slice),
      if t <= g.len then t else g.len)
  }

  /** One K/V tile: keys past the sequence are skipped. */
  method SweepTile(exp: RealFn, g: Grid, q: seq<real>, ghost k: seq<real>, ghost v: seq<real>, kTile: seq<real>,
                   vTile: seq<real>, slice: nat, tile: nat, size: nat, lanes: nat, scale: real, regs: array2<real>,
                   max0: Option<real>, sum0: real)
    returns (rowMax: Option<real>, rowSum: real)
    requires IsExp(exp) && Operands(g, q, k, v, slice) && IsPow2(lanes)
    requires IsTile(g, k, slice, tile, size, kTile) && IsTile(g, v, slice, tile, size, vTile)
    requires regs.Length0 == lanes > 0 && regs.Length1 == CeilDiv(g.dim, lanes)
    requires Covered(exp, g, q, k, v, slice, scale, max0, sum0, Registers(regs, g.dim), tile * size)
    modifies regs
    ensures Covered(exp, g, q, k, v, slice, scale, rowMax, rowSum, Registers(regs, g.dim), tile * size + size)
  {
    hide *;
    rowMax, rowSum := max0, sum0;
    for rowK := 0 to size
      invariant Covered(exp, g, q, k, v, slice, scale, rowMax, rowSum, Registers(regs, g.dim), tile * size + rowK)
    {
      ghost var before := Registers(regs, g.dim);
      if tile * size + rowK >= g.len {
        CoveredAll(exp, g, q, k, v, slice, scale, rowMax, rowSum, before, tile * size + rowK);
        continue;
      }
      var score, value := TileScore(g, q, k, v, kTile, vTile, slice, tile, size, rowK, lanes, scale);
      var newMax := NewMax(rowMax, score);
      var alpha, beta := Alpha(exp, rowMax, newMax), exp(score - newMax);
      var newSum := alpha * rowSum + beta;
      RescaleLanes(regs, g.dim, alpha, beta, value);
      CoveredStep(exp, g, q, k, v, slice, scale, rowMax, rowSum, before, tile * size + rowK, score, value, newMax,
        alpha, beta, newSum, Registers(regs, g.dim));
      rowMax, rowSum := Some(newMax), newSum;
    }
  }

  lemma CoveredAll(exp: RealFn, g: Grid, q: seq<real>, k: seq<real>, v: seq<real>, slice: nat, scale: real,
                   rowMax: Option<real>, rowSum: real, out: seq<real>, t: nat)
    requires Operands(g, q, k, v, slice) && |out| == g.dim && t >= g.len
    requires Covered(exp, g, q, k, v, slice, scale, rowMax, rowSum, out, t)
    ensures Covered(exp, g, q, k, v, slice, scale, rowMax, rowSum, out, t + 1)
  {
    hide OnlineAt, RowScores, Slice;
  }

  lemma CoveredStep(exp: RealFn, g: Grid, q: seq<real>, k: seq<real>, v: seq<real>, slice: nat, scale: real,
                    rowMax: Option<real>, rowSum: real, out: seq<real>, t: nat, score: real, value: seq<real>,
                    newMax: real, alpha: real, beta: real, newSum: real, out': seq<real>)
    requires IsExp(exp) && Operands(g, q, k, v, slice) && |out| == |out'| == g.dim && t < g.len
    requires Covered(exp, g, q, k, v, slice, scale, rowMax, rowSum, out, t)
    requires score == RowScores(g, q, k, v, slice, scale)[t] && value == Slice(g, v, slice)[t] && |value| == g.dim
    requires newMax == NewMax(rowMax, score) && alpha == Alpha(exp, rowMax, newMax) && beta == exp(score - newMax)
    requires newSum == alpha * rowSum + beta
    requires forall d :: 0 <= d < g.dim ==> out'[d] == alpha * out[d] + beta * value[d]
    ensures Covered(exp, g, q, k, v, slice, scale, Some(newMax), newSum, out', t + 1)
  {
    hide IsExp, OnlineAt, RowScores, Slice, Alpha, NewMax;
    OnlineStep(exp, rowMax, rowSum, out, RowScores(g, q, k, v, slice, scale), Slice(g, v, slice), t, alpha, beta,
      newSum, out');
  }

  /** All K/V tiles for one query row. */
  method SweepRow(exp: RealFn, g: Grid, q: seq<real>, k: seq<real>, v: seq<real>, slice: nat, size: nat, lanes: nat,
                  scale: real, regs: array2<real>)
    returns (rowMax: Option<real>, rowSum: real)
    requires IsExp(exp) && Operands(g, q, k, v, slice) && IsPow2(lanes) && size > 0
    requires regs.Length0 == lanes > 0 && regs.Length1 == CeilDiv(g.dim, lanes)
    requires forall d :: 0 <= d < g.dim ==> Registers(regs, g.dim)[d] == 0.0
    modifies regs
    ensures Covered(exp, g, q, k, v, slice, scale, rowMax, rowSum, Registers(regs, g.dim), g.len)
  {
    hide IsExp, IsPow2, Covered, IsTile, Registers, CeilDiv, IsMatrix, Rows;
    rowMax, rowSum := None, 0.0;
    CoveredNone(exp, g, q, k, v, slice, scale, Registers(regs, g.dim));
    var tiles := CeilDiv(g.len, size);
    for tile := 0 to tiles
      invariant Covered(exp, g, q, k, v, slice, scale, rowMax, rowSum, Registers(regs, g.dim), tile * size)
    {
      var kTile := LoadTile(g, k, slice, tile, size);
      var vTile := LoadTile(g, v, slice, tile, size);
      rowMax, rowSum := SweepTile(exp, g, q, k, v, kTile[..], vTile[..], slice, tile, size, lanes, scale, regs, rowMax,
        rowSum);
      assert (tile + 1) * size == tile * size + size;
    }
    CeilDivLeast(g.len, size);
    CoveredEnd(exp, g, q, k, v, slice, scale, rowMax, rowSum, Registers(regs, g.dim), tiles * size);
  }

  lemma CoveredNone(exp: RealFn, g: Grid, q: seq<real>, k: seq<real>, v: seq<real>, slice: nat, scale: real,
                    out: seq<real>)
    requires Operands(g, q, k, v, slice) && |out| == g.dim && forall d :: 0 <= d < g.dim ==> out[d] == 0.0
    ensures Covered(exp, g, q, k, v, slice, scale, None, 0.0, out, 0)
  {
    hide OnlineAt, RowScores, Slice;
    OnlineStarts(exp, out, RowScores(g, q, k, v, slice, scale), Slice(g, v, slice));
  }

  lemma CoveredEnd(exp: RealFn, g: Grid, q: seq<real>, k: seq<real>, v: seq<real>, slice: nat, scale: real,
                   rowMax: Option<real>, rowSum: real, out: seq<real>, t: nat)
    requires Operands(g, q, k, v, slice) && |out| == g.dim && t >= g.len
    requires Covered(exp, g, q, k, v, slice, scale, rowMax, rowSum, out, t)
    ensures Covered(exp, g, q, k, v, slice, scale, rowMax, rowSum, out, g.len)
  {
    hide OnlineAt, RowScores, Slice;
  }

  // ------------------------------------------------------------------- the whole kernel

  ghost predicate Tensors(g: Grid, q: seq<real>, k: seq<real>, v: seq<real>) {
    IsMatrix(q, Rows(g), g.dim) && IsMatrix(k, Rows(g), g.dim) && IsMatrix(v, Rows(g), g.dim)
  }

  /** Row i of one slice: attention of its query over all keys of the slice. */
  ghost function SliceRow(exp: RealFn, g: Grid, q: seq<real>, k: seq<real>, v: seq<real>, scale: real, slice: nat,
                          i: nat): (r: seq<real>)
    requires Tensors(g, q, k, v) && slice < g.slices && i < g.len
    ensures |r| == g.dim
  {
    AttentionRow(exp, RowVec(g, q, slice, i), Slice(g, k, slice), Slice(g, v, slice), scale)
  }

  /** One warp's query row: sweep, normalise.  The row is not empty, so the denominator is positive. */
  method QueryRow(exp: RealFn, g: Grid, qTile: seq<real>, q: seq<real>, k: seq<real>, v: seq<real>, slice: nat,
                  tile: nat, rowQ: nat, size: nat, lanes: nat, scale: real) returns (row: seq<real>)
    requires IsExp(exp) && Tensors(g, q, k, v) && slice < g.slices && rowQ < size && tile * size + rowQ < g.len
    requires IsPow2(lanes)
    requires IsTile(g, q, slice, tile, size, qTile)
    ensures row == SliceRow(exp, g, q, k, v, scale, slice, tile * size + rowQ)
  {
    hide IsExp, IsPow2, Covered, Vec, RowVec, Slice, AttentionAt, Rows, Registers, Zeros;
    var query := Vec(qTile, size, g.dim, rowQ);
    assert query == TileRow(g, q, slice, tile, size, rowQ);
    assert lanes > 0 by { PositivePow2(lanes); }
    var regs := new real[lanes, CeilDiv(g.dim, lanes)]((_, _) => 0.0);
    ZeroRegisters(regs, g.dim);
    var rowMax, rowSum := SweepRow(exp, g, query, k, v, slice, size, lanes, scale, regs);
    ghost var numerators := Registers(regs, g.dim);
    CoveredPositive(exp, g, query, k, v, slice, scale, rowMax, rowSum, numerators);
    row := [];
    for d := 0 to g.dim
      invariant |row| == d && Registers(regs, g.dim) == numerators
      invariant forall i :: 0 <= i < d ==>
        row[i] == AttentionAt(exp, query, Slice(g, k, slice), Slice(g, v, slice), scale, i)
    {
      PositionInBlocks(d, g.dim, lanes);
      RegisterAt(regs, g.dim, d);
      CoveredResult(exp, g, query, k, v, slice, scale, rowMax, rowSum, numerators, d);
      row := row + [regs[d % lanes, d / lanes] / rowSum];
    }
  }

  lemma PositivePow2(n: nat) requires IsPow2(n) ensures n > 0 {}

  lemma RegisterAt(regs: array2<real>, dim: nat, d: nat)
    requires regs.Length0 > 0 && regs.Length1 == CeilDiv(dim, regs.Length0) && d < dim
    ensures 0 <= d % regs.Length0 < regs.Length0 && 0 <= d / regs.Length0 < regs.Length1
    ensures Registers(regs, dim)[d] == regs[d % regs.Length0, d / regs.Length0]
  {
    hide CeilDiv;
    PositionInBlocks(d, dim, regs.Length0);
  }

  lemma ZeroRegisters(regs: array2<real>, dim: nat)
    requires regs.Length0 > 0 && regs.Length1 == CeilDiv(dim, regs.Length0)
    requires forall i, j :: 0 <= i < regs.Length0 && 0 <= j < regs.Length1 ==> regs[i, j] == 0.0
    ensures forall d :: 0 <= d < dim ==> Registers(regs, dim)[d] == 0.0
  {
    hide CeilDiv, Registers;
    forall d | 0 <= d < dim ensures Registers(regs, dim)[d] == 0.0 { RegisterAt(regs, dim, d); }
  }

  lemma CoveredPositive(exp: RealFn, g: Grid, q: seq<real>, k: seq<real>, v: seq<real>, slice: nat, scale: real,
                        rowMax: Option<real>, rowSum: real, out: seq<real>)
    requires IsExp(exp) && Operands(g, q, k, v, slice) && |out| == g.dim && g.len > 0
    requires Covered(exp, g, q, k, v, slice, scale, rowMax, rowSum, out, g.len)
    ensures rowSum > 0.0
  {
    hide IsExp, RowScores, Slice;
    var s := RowScores(g, q, k, v, slice, scale);
    assert s[..g.len] == s;
    DenominatorPositive(exp, s, rowMax.value);
  }

  lemma CoveredResult(exp: RealFn, g: Grid, q: seq<real>, k: seq<real>, v: seq<real>, slice: nat, scale: real,
                      rowMax: Option<real>, rowSum: real, out: seq<real>, d: nat)
    requires IsExp(exp) && Operands(g, q, k, v, slice) && |out| == g.dim && g.len > 0 && d < g.dim
    requires Covered(exp, g, q, k, v, slice, scale, rowMax, rowSum, out, g.len)
    ensures rowSum > 0.0 && out[d] / rowSum == AttentionAt(exp, q, Slice(g, k, slice), Slice(g, v, slice), scale, d)
  {
    hide IsExp, OnlineAt, Scores, Slice, AttentionAt;
    OnlineEnds(exp, rowMax, rowSum, out, q, Slice(g, k, slice), Slice(g, v, slice), scale, d);
  }

  /** The rows of a slice below `done` are written. */
  ghost predicate SliceDone(exp: RealFn, g: Grid, q: seq<real>, k: seq<real>, v: seq<real>, scale: real, out: seq<real>,
                            slice: nat, done: nat)
    requires Tensors(g, q, k, v) && slice < g.slices
  {
    forall i :: 0 <= i < g.len && i < done ==>
      RowIs(out, RowOf(g, slice, i), SliceRow(exp, g, q, k, v, scale, slice, i))
  }

  lemma SliceStep(exp: RealFn, g: Grid, q: seq<real>, k: seq<real>, v: seq<real>, scale: real, out: seq<real>,
                  out': seq<real>, slice: nat, i: nat)
    requires Tensors(g, q, k, v) && slice < g.slices && i < g.len && SliceDone(exp, g, q, k, v, scale, out, slice, i)
    requires RowIs(out', RowOf(g, slice, i), SliceRow(exp, g, q, k, v, scale, slice, i))
    requires RowsKept(out, out', RowOf(g, slice, i), g.dim)
    ensures SliceDone(exp, g, q, k, v, scale, out', slice, i + 1)
  {
    hide RowIs, SliceRow, IsMatrix;
    forall j | 0 <= j < i ensures RowOf(g, slice, j) != RowOf(g, slice, i) {
      CellUnique(slice, j, slice, i, g.len);
    }
  }

  lemma SliceKept(exp: RealFn, g: Grid, q: seq<real>, k: seq<real>, v: seq<real>, scale: real, out: seq<real>,
                  out': seq<real>, slice: nat, other: nat, i: nat)
    requires Tensors(g, q, k, v) && slice < g.slices && other < g.slices && other != slice && i < g.len
    requires SliceDone(exp, g, q, k, v, scale, out, other, g.len) && RowsKept(out, out', RowOf(g, slice, i), g.dim)
    ensures SliceDone(exp, g, q, k, v, scale, out', other, g.len)
  {
    hide RowIs, SliceRow, IsMatrix;
    forall j | 0 <= j < g.len ensures RowOf(g, other, j) != RowOf(g, slice, i) {
      CellUnique(other, j, slice, i, g.len);
    }
  }

  ghost predicate SlicesDone(exp: RealFn, g: Grid, q: seq<real>, k: seq<real>, v: seq<real>, scale: real,
                             out: seq<real>, n: nat)
    requires Tensors(g, q, k, v) && n <= g.slices
  {
    forall slice :: 0 <= slice < n ==> SliceDone(exp, g, q, k, v, scale, out, slice, g.len)
  }

  /** Earlier slices are complete and this one is up to row `done`. */
  ghost predicate Progress(exp: RealFn, g: Grid, q: seq<real>, k: seq<real>, v: seq<real>, scale: real, out: seq<real>,
                           slice: nat, done: nat)
    requires Tensors(g, q, k, v) && slice < g.slices
  {
    SlicesDone(exp, g, q, k, v, scale, out, slice) && SliceDone(exp, g, q, k, v, scale, out, slice, done)
  }

  lemma ProgressStep(exp: RealFn, g: Grid, q: seq<real>, k: seq<real>, v: seq<real>, scale: real, out: seq<real>,
                     out': seq<real>, slice: nat, i: nat)
    requires Tensors(g, q, k, v) && slice < g.slices && i < g.len && Progress(exp, g, q, k, v, scale, out, slice, i)
    requires RowIs(out', RowOf(g, slice, i), SliceRow(exp, g, q, k, v, scale, slice, i))
    requires RowsKept(out, out', RowOf(g, slice, i), g.dim)
    ensures Progress(exp, g, q, k, v, scale, out', slice, i + 1)
  {
    hide RowIs, SliceRow, IsMatrix, SliceDone, RowsKept;
    SliceStep(exp, g, q, k, v, scale, out, out', slice, i);
    forall other | 0 <= other < slice ensures SliceDone(exp, g, q, k, v, scale, out', other, g.len) {
      SliceKept(exp, g, q, k, v, scale, out, out', slice, other, i);
    }
  }

  lemma ProgressPast(exp: RealFn, g: Grid, q: seq<real>, k: seq<real>, v: seq<real>, scale: real, out: seq<real>,
                     slice: nat, i: nat, j: nat)
    requires Tensors(g, q, k, v) && slice < g.slices && (i >= g.len || i >= j)
    requires Progress(exp, g, q, k, v, scale, out, slice, i)
    ensures Progress(exp, g, q, k, v, scale, out, slice, j)
  {
    hide RowIs, SliceRow, IsMatrix;
  }

  lemma NextSlice(exp: RealFn, g: Grid, q: seq<real>, k: seq<real>, v: seq<real>, scale: real, out: seq<real>,
                  slice: nat)
    requires Tensors(g, q, k, v) && slice < g.slices && Progress(exp, g, q, k, v, scale, out, slice, g.len)
    ensures SlicesDone(exp, g, q, k, v, scale, out, slice + 1)
  {
    hide SliceDone;
  }

  lemma StartSlice(exp: RealFn, g: Grid, q: seq<real>, k: seq<real>, v: seq<real>, scale: real, out: seq<real>,
                   slice: nat)
    requires Tensors(g, q, k, v) && slice < g.slices && SlicesDone(exp, g, q, k, v, scale, out, slice)
    ensures Progress(exp, g, q, k, v, scale, out, slice, 0)
  {
    hide RowIs, SliceRow, IsMatrix;
  }

  /** The warps of one pass over a query tile: row q_base + warp each, if it exists. */
  method WarpPass(exp: RealFn, g: Grid, qTile: seq<real>, q: seq<real>, k: seq<real>, v: seq<real>, slice: nat,
                  tile: nat, qBase: nat, size: nat, warps: nat, lanes: nat, scale: real, out: array<real>)
    requires IsExp(exp) && Tensors(g, q, k, v) && slice < g.slices && IsPow2(lanes) && out.Length == |q| && qBase < size
    requires IsTile(g, q, slice, tile, size, qTile)
    requires Progress(exp, g, q, k, v, scale, out[..], slice, tile * size + qBase)
    modifies out
    ensures Progress(exp, g, q, k, v, scale, out[..], slice,
      tile * size + if qBase + warps <= size then qBase + warps else size)
  {
    hide IsExp, IsPow2, IsTile, Progress, RowIs, RowsKept, SliceRow, RowOf;
    for warp := 0 to warps
      invariant Progress(exp, g, q, k, v, scale, out[..], slice,
        tile * size + if qBase + warp <= size then qBase + warp else size)
    {
      ghost var before := out[..];
      var rowQ := qBase + warp;
      if rowQ < size {
        if tile * size + rowQ < g.len {
          var row := QueryRow(exp, g, qTile, q, k, v, slice, tile, rowQ, size, lanes, scale);
          StoreRow(out, Rows(g), RowOf(g, slice, tile * size + rowQ), row);
          ProgressStep(exp, g, q, k, v, scale, before, out[..], slice, tile * size + rowQ);
        } else {
          ProgressPast(exp, g, q, k, v, scale, out[..], slice, tile * size + rowQ, tile * size + rowQ + 1);
        }
      }
    }
  }

  /** One thread block: all query tiles of one slice. */
  method FusedBlock(exp: RealFn, g: Grid, q: seq<real>, k: seq<real>, v: seq<real>, slice: nat, size: nat, warps: nat,
                    lanes: nat, scale: real, out: array<real>)
    requires IsExp(exp) && Tensors(g, q, k, v) && slice < g.slices && IsPow2(lanes) && out.Length == |q| && size > 0
    requires warps > 0
    requires SlicesDone(exp, g, q, k, v, scale, out[..], slice)
    modifies out
    ensures SlicesDone(exp, g, q, k, v, scale, out[..], slice + 1)
  {
    hide IsExp, IsPow2, IsTile, Progress, CeilDiv, SlicesDone, IsMatrix, Rows;
    assert IsMatrix(q, Rows(g), g.dim);
    StartSlice(exp, g, q, k, v, scale, out[..], slice);
    var tiles := CeilDiv(g.len, size);
    for tile := 0 to tiles
      invariant Progress(exp, g, q, k, v, scale, out[..], slice, tile * size)
    {
      var qTile := LoadTile(g, q, slice, tile, size);
      var qt := qTile[..];
      var qBase := 0;
      while qBase < size
        invariant Progress(exp, g, q, k, v, scale, out[..], slice, tile * size + if qBase <= size then qBase else size)
        decreases size - qBase
      {
        WarpPass(exp, g, qt, q, k, v, slice, tile, qBase, size, warps, lanes, scale, out);
        qBase := qBase + warps;
      }
      assert (tile + 1) * size == tile * size + size;
    }
    CeilDivLeast(g.len, size);
    ProgressPast(exp, g, q, k, v, scale, out[..], slice, tiles * size, g.len);
    NextSlice(exp, g, q, k, v, scale, out[..], slice);
  }

  lemma NoSlices(exp: RealFn, g: Grid, q: seq<real>, k: seq<real>, v: seq<real>, scale: real, out: seq<real>)
    requires Tensors(g, q, k, v)
    ensures SlicesDone(exp, g, q, k, v, scale, out, 0)
  {}

  /** `fused_kernel` over the grid (batch, head). */
  method FusedKernel(exp: RealFn, g: Grid, q: seq<real>, k: seq<real>, v: seq<real>, size: nat, warps: nat, lanes: nat,
                     scale: real) returns (out: array<real>)
    requires IsExp(exp) && Tensors(g, q, k, v) && IsPow2(lanes) && size > 0 && warps > 0
    ensures fresh(out) && out.Length == |q| && SlicesDone(exp, g, q, k, v, scale, out[..], g.slices)
  {
    hide IsExp, IsPow2, SlicesDone, Tensors;
    out := new real[|q|](_ => 0.0);
    NoSlices(exp, g, q, k, v, scale, out[..]);
    for slice := 0 to g.slices
      invariant SlicesDone(exp, g, q, k, v, scale, out[..], slice)
    {
      FusedBlock(exp, g, q, k, v, slice, size, warps, lanes, scale, out);
    }
  }

  /** `reference_attention`. */
  method ReferenceAttention(exp: RealFn, g: Grid, q: seq<real>, k: seq<real>, v: seq<real>, scale: real)
    returns (out: array<real>)
    requires IsExp(exp) && Tensors(g, q, k, v)
    ensures fresh(out) && out.Length == |q| && SlicesDone(exp, g, q, k, v, scale, out[..], g.slices)
  {
    hide IsExp, SlicesDone, Progress, RowIs, RowsKept, RowOf, AttentionRow, RowVec, Slice;
    out := new real[|q|](_ => 0.0);
    NoSlices(exp, g, q, k, v, scale, out[..]);
    for slice := 0 to g.slices
      invariant SlicesDone(exp, g, q, k, v, scale, out[..], slice)
    {
      StartSlice(exp, g, q, k, v, scale, out[..], slice);
      for i := 0 to g.len
        invariant Progress(exp, g, q, k, v, scale, out[..], slice, i)
      {
        ghost var before := out[..];
        var row := ReferenceRow(exp, RowVec(g, q, slice, i), Slice(g, k, slice), Slice(g, v, slice), scale);
        StoreRow(out, Rows(g), RowOf(g, slice, i), row);
        ProgressStep(exp, g, q, k, v, scale, before, out[..], slice, i);
      }
      NextSlice(exp, g, q, k, v, scale, out[..], slice);
    }
  }

  /** Complete outputs are determined: every cell belongs to one row of one slice. */
  lemma OutputsEqual(exp: RealFn, g: Grid, q: seq<real>, k: seq<real>, v: seq<real>, scale: real, out: seq<real>,
                     out': seq<real>)
    requires Tensors(g, q, k, v) && |out| == |out'| == |q|
    requires SlicesDone(exp, g, q, k, v, scale, out, g.slices) && SlicesDone(exp, g, q, k, v, scale, out', g.slices)
    ensures out == out'
  {
    hide SliceRow;
    forall c | 0 <= c < |q| ensures out[c] == out'[c] {
      CellOf(c, Rows(g), g.dim);
      var row, d := c / g.dim, c % g.dim;
      CellOf(row, g.slices, g.len);
      var slice, i := row / g.len, row % g.len;
      assert SliceDone(exp, g, q, k, v, scale, out, slice, g.len)
        && SliceDone(exp, g, q, k, v, scale, out', slice, g.len);
      assert RowOf(g, slice, i) == row;
      var r := SliceRow(exp, g, q, k, v, scale, slice, i);
      assert out[Cell(row, d, g.dim)] == r[d] == out'[Cell(row, d, g.dim)];
    }
  }

  /** Tiled and two-pass attention give the same tensor for every sequence length and tile size. */
  method Compare(exp: RealFn, g: Grid, q: seq<real>, k: seq<real>, v: seq<real>, size: nat, warps: nat, lanes: nat,
                 scale: real)
    returns (fused: seq<real>, reference: seq<real>)
    requires IsExp(exp) && Tensors(g, q, k, v) && IsPow2(lanes) && size > 0 && warps > 0
    ensures |fused| == |q| && fused == reference
    ensures SlicesDone(exp, g, q, k, v, scale, fused, g.slices)
  {
    hide IsExp, IsPow2, SlicesDone, Tensors;
    var a := FusedKernel(exp, g, q, k, v, size, warps, lanes, scale);
    var b := ReferenceAttention(exp, g, q, k, v, scale);
    fused, reference := a[..], b[..];
    OutputsEqual(exp, g, q, k, v, scale, fused, reference);
  }
}
