/** Row-major tensors and single-query attention over vectors: what every attention
    kernel of the repository is compared with. */
module Attention {
  import opened Protocol
  import opened Arith
  import opened RealSums
  import opened Softmax

  /** Row-major position of (row, col) in a matrix of the given width. */
  function Cell(row: nat, col: nat, width: nat): nat { row * width + col }

  lemma CellUnique(row: nat, col: nat, row': nat, col': nat, width: nat)
    requires col < width && col' < width
    ensures Cell(row, col, width) == Cell(row', col', width) <==> row == row' && col == col'
  {
    SlotUnique(row, col, row', col', width);
  }

  lemma CellInRange(row: nat, col: nat, rows: nat, width: nat)
    requires row < rows && col < width
    ensures Cell(row, col, width) < rows * width
  {
    SlotInRange(row, col, rows, width);
  }

  /** A linear thread index is the cell of its quotient and remainder. */
  lemma CellOf(linear: nat, rows: nat, width: nat)
    requires linear < rows * width
    ensures width > 0 && 0 <= linear / width < rows && 0 <= linear % width < width
    ensures Cell(linear / width, linear % width, width) == linear
  {
    assert width > 0;
    var q := linear / width;
    assert linear == q * width + linear % width;
    if q >= rows { MulMonotone(rows, q, width); }
    if q < 0 { MulMonotone(q, -1, width); }
  }

  predicate IsMatrix(a: seq<real>, rows: nat, width: nat) { |a| == rows * width }

  /** Row `row` of a row-major matrix. */
  function Vec(a: seq<real>, rows: nat, width: nat, row: nat): (v: seq<real>)
    requires IsMatrix(a, rows, width) && row < rows
    ensures |v| == width
    ensures forall d :: 0 <= d < width ==> Cell(row, d, width) < |a| && v[d] == a[Cell(row, d, width)]
  {
    VecInRange(rows, width, row);
    a[row * width..row * width + width]
  }

  /** Row-major order, element by element. */
  lemma VecAt(a: seq<real>, rows: nat, width: nat, row: nat, d: nat)
    requires IsMatrix(a, rows, width) && row < rows && d < width
    ensures row * width + d < |a| && Vec(a, rows, width, row)[d] == a[row * width + d]
  {
    hide Vec;
    CellInRange(row, d, rows, width);
    assert Cell(row, d, width) == row * width + d;
  }

  lemma VecInRange(rows: nat, width: nat, row: nat)
    requires row < rows
    ensures row * width + width <= rows * width
  {
    MulMonotone(row + 1, rows, width);
    assert (row + 1) * width == row * width + width;
  }

  // ------------------------------------------------------------------ attention on vectors

  ghost function Products(a: seq<real>, b: seq<real>): seq<real>
    requires |a| == |b|
  {
    seq(|a|, d requires 0 <= d < |a| => a[d] * b[d])
  }

  ghost function Dot(a: seq<real>, b: seq<real>): real
    requires |a| == |b|
  {
    Sum(Products(a, b))
  }

  ghost predicate AllWide(vs: seq<seq<real>>, width: nat) { forall t :: 0 <= t < |vs| ==> |vs[t]| == width }

  ghost function Scores(q: seq<real>, keys: seq<seq<real>>, scale: real): (s: seq<real>)
    requires AllWide(keys, |q|)
    ensures |s| == |keys|
  {
    seq(|keys|, t requires 0 <= t < |keys| => Dot(q, keys[t]) * scale)
  }

  function Column(values: seq<seq<real>>, width: nat, d: nat): (c: seq<real>)
    requires AllWide(values, width) && d < width
    ensures |c| == |values|
  {
    seq(|values|, t requires 0 <= t < |values| => values[t][d])
  }

  /** Softmax(q . keys * scale) . values, in dimension d. */
  ghost function AttentionAt(exp: RealFn, q: seq<real>, keys: seq<seq<real>>, values: seq<seq<real>>, scale: real,
                             d: nat): real
    requires AllWide(keys, |q|) && AllWide(values, |q|) && |keys| == |values| && d < |q|
  {
    Attend(exp, Scores(q, keys, scale), Column(values, |q|, d))
  }

  ghost function AttentionRow(exp: RealFn, q: seq<real>, keys: seq<seq<real>>, values: seq<seq<real>>,
                              scale: real): (r: seq<real>)
    requires AllWide(keys, |q|) && AllWide(values, |q|) && |keys| == |values|
    ensures |r| == |q|
  {
    seq(|q|, d requires 0 <= d < |q| => AttentionAt(exp, q, keys, values, scale, d))
  }

  // -------------------------------------------------------------------------- output rows

  ghost predicate RowIs<T>(out: seq<T>, row: nat, vals: seq<T>) {
    forall d :: 0 <= d < |vals| ==> Cell(row, d, |vals|) < |out| && out[Cell(row, d, |vals|)] == vals[d]
  }

  /** Every row but `row` keeps its contents. */
  ghost predicate RowsKept<T(!new)>(before: seq<T>, after: seq<T>, row: nat, width: nat) {
    forall r: nat, v: seq<T> {:trigger RowIs(after, r, v)} :: |v| == width && r != row && RowIs(before, r, v) ==>
      RowIs(after, r, v)
  }

  /** Write one row of a row-major matrix. */
  method StoreRow<T(!new)>(out: array<T>, rows: nat, row: nat, vals: seq<T>)
    requires out.Length == rows * |vals| && row < rows
    modifies out
    ensures RowIs(out[..], row, vals)
    ensures RowsKept(old(out[..]), out[..], row, |vals|)
  {
    hide Cell;
    VecInRange(rows, |vals|, row);
    for dim := 0 to |vals|
      invariant forall d :: 0 <= d < dim ==> Cell(row, d, |vals|) < out.Length && out[Cell(row, d, |vals|)] == vals[d]
      invariant forall r: nat, d: nat :: r != row && d < |vals| && Cell(r, d, |vals|) < out.Length ==>
        out[Cell(r, d, |vals|)] == old(out[Cell(r, d, |vals|)])
    {
      CellInRange(row, dim, rows, |vals|);
      forall r: nat, d: nat | d < |vals| && Cell(r, d, |vals|) == Cell(row, dim, |vals|) ensures r == row && d == dim {
        CellUnique(r, d, row, dim, |vals|);
      }
      out[Cell(row, dim, |vals|)] := vals[dim];
    }
  }

  // ------------------------------------------------------------------------ division

  /** IEEE division as the kernels use it: 0 / 0 is not a number. */
  function Quotient(a: real, b: real): Option<real> { if b == 0.0 then None else Some(a / b) }

  // ------------------------------------------------------------------------ dot products

  /** Each lane sums the products at its own stride. */
  method LanePartials(a: seq<real>, b: seq<real>, lanes: nat) returns (partials: seq<real>)
    requires |a| == |b| && lanes > 0
    ensures partials == Strides(Products(a, b), lanes, |a|)
  {
    hide StrideSum;
    ghost var products := Products(a, b);
    partials := [];
    for lane := 0 to lanes
      invariant |partials| == lane
      invariant forall l :: 0 <= l < lane ==> partials[l] == StrideSum(products, l, lanes, |a|)
    {
      var score := LaneSum(a, b, lane, lanes);
      partials := partials + [score];
    }
  }

  method LaneSum(a: seq<real>, b: seq<real>, lane: nat, lanes: nat) returns (score: real)
    requires |a| == |b| && lane < lanes
    ensures score == StrideSum(Products(a, b), lane, lanes, |a|)
  {
    hide StrideSum;
    ghost var products := Products(a, b);
    BeforeFirst(lane, lanes);
    EmptyClass(products, lane, lanes, if lane < |a| then lane else |a|);
    score := 0.0;
    var dim := lane;
    while dim < |a|
      invariant lane <= dim && dim % lanes == lane
      invariant score == StrideSum(products, lane, lanes, if dim < |a| then dim else |a|)
      decreases |a| - dim
    {
      PartStep(products, lane, lanes, dim, if dim + lanes <= |a| then dim + lanes else |a|);
      NextInClass(dim, lane, lanes);
      score := score + a[dim] * b[dim];
      dim := dim + lanes;
    }
  }

  /** Warp dot product: lane-strided partial sums, then shuffle-down. */
  method WarpDot(a: seq<real>, b: seq<real>, lanes: nat) returns (score: real)
    requires |a| == |b| && IsPow2(lanes)
    ensures score == Dot(a, b)
  {
    hide Sum, StrideSum;
    var partials := LanePartials(a, b, lanes);
    score := ShuffleDownSum(partials);
    StridesCover(Products(a, b), lanes, |a|);
    assert Products(a, b)[..|a|] == Products(a, b);
  }
}
