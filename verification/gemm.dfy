/** Tiled matrix multiplication against the plain one (kernels/GeMMs/GeMMs.cu). */
module Gemm {
  import opened Arith
  import opened RealSums
  import opened Attention

  /** C is m x n, A is m x k, B is k x n; a thread block of half x half threads computes a tile
      of side 2 * half. */
  datatype Dims = Dims(m: nat, n: nat, k: nat, half: nat)

  function Side(g: Dims): nat { 2 * g.half }

  predicate Operands(g: Dims, a: seq<real>, b: seq<real>) {
    g.half > 0 && IsMatrix(a, g.m, g.k) && IsMatrix(b, g.k, g.n)
  }

  /** Guarded load: zero outside the matrix. */
  function At(x: seq<real>, rows: nat, width: nat, i: nat, j: nat): real
    requires IsMatrix(x, rows, width)
  {
    if i < rows && j < width then CellInRange(i, j, rows, width); x[Cell(i, j, width)] else 0.0
  }

  /** The first `len` products of row i of A and column j of B, zero outside. */
  ghost function Terms(g: Dims, a: seq<real>, b: seq<real>, i: nat, j: nat, len: nat): (r: seq<real>)
    requires Operands(g, a, b)
    ensures |r| == len
  {
    seq(len, p requires 0 <= p < len => At(a, g.m, g.k, i, p) * At(b, g.k, g.n, p, j))
  }

  /** Entry (i, j) of the product. */
  ghost function Entry(g: Dims, a: seq<real>, b: seq<real>, i: nat, j: nat): real
    requires Operands(g, a, b)
  {
    Sum(Terms(g, a, b, i, j, g.k))
  }

  /** Entry (i, j) is the sum of the products a[i][p] * b[p][j] of row-major matrices. */
  lemma EntryIs(g: Dims, a: seq<real>, b: seq<real>, i: nat, j: nat, products: seq<real>)
    requires Operands(g, a, b) && i < g.m && j < g.n && |products| == g.k
    requires forall p :: 0 <= p < g.k ==> ProductAt(g, a, b, i, j, p, products[p])
    ensures Entry(g, a, b, i, j) == Sum(products)
  {
    hide Sum, At;
    forall p | 0 <= p < g.k ensures Terms(g, a, b, i, j, g.k)[p] == products[p] {
      assert ProductAt(g, a, b, i, j, p, products[p]);
      ElementAt(a, g.m, g.k, i, p);
      ElementAt(b, g.k, g.n, p, j);
    }
    assert Terms(g, a, b, i, j, g.k) == products;
  }

  ghost predicate ProductAt(g: Dims, a: seq<real>, b: seq<real>, i: nat, j: nat, p: nat, x: real) {
    i * g.k + p < |a| && p * g.n + j < |b| && x == a[i * g.k + p] * b[p * g.n + j]
  }

  lemma ElementAt(x: seq<real>, rows: nat, width: nat, i: nat, j: nat)
    requires IsMatrix(x, rows, width) && i < rows && j < width
    ensures i * width + j < |x| && At(x, rows, width, i, j) == x[i * width + j]
  {
    CellInRange(i, j, rows, width);
  }

  lemma PaddedEntry(g: Dims, a: seq<real>, b: seq<real>, i: nat, j: nat, len: nat)
    requires Operands(g, a, b) && g.k <= len
    ensures Sum(Terms(g, a, b, i, j, len)) == Entry(g, a, b, i, j)
  {
    hide Sum, IsMatrix;
    var long, short := Terms(g, a, b, i, j, len), Terms(g, a, b, i, j, g.k);
    forall p | g.k <= p < len ensures long[p] == 0.0 {
      assert At(a, g.m, g.k, i, p) == 0.0;
    }
    assert long[..g.k] == short;
    PaddedSum(short, long);
  }

  // -------------------------------------------------------------------------- plain kernel

  method PlainEntry(g: Dims, a: seq<real>, b: seq<real>, row: nat, col: nat) returns (sum: real)
    requires Operands(g, a, b) && row < g.m && col < g.n
    ensures sum == Entry(g, a, b, row, col)
  {
    hide Sum;
    ghost var terms := Terms(g, a, b, row, col, g.k);
    NothingSummed();
    sum := 0.0;
    for p := 0 to g.k
      invariant sum == Sum(terms[..p])
    {
      SumAppend(terms[..p], terms[p]);
      assert terms[..p] + [terms[p]] == terms[..p + 1];
      CellInRange(row, p, g.m, g.k);
      CellInRange(p, col, g.k, g.n);
      sum := sum + a[Cell(row, p, g.k)] * b[Cell(p, col, g.n)];
    }
    assert terms[..g.k] == terms;
  }

  // -------------------------------------------------------------------------- tiled kernel

  /** Threads before (ty, tx) in the block have acted on their 2 x 2 cells. */
  predicate Acted(r: nat, c: nat, ty: nat, tx: nat) { r / 2 < ty || (r / 2 == ty && c / 2 < tx) }

  ghost predicate TileHolds(x: seq<real>, rows: nat, width: nat, row0: nat, col0: nat, tile: array2<real>, ty: nat,
                            tx: nat)
    reads tile
    requires IsMatrix(x, rows, width)
  {
    forall r, c :: 0 <= r < tile.Length0 && 0 <= c < tile.Length1 && Acted(r, c, ty, tx) ==>
      tile[r, c] == At(x, rows, width, row0 + r, col0 + c)
  }

  /** One thread's four guarded loads. */
  method LoadQuad(x: seq<real>, rows: nat, width: nat, row0: nat, col0: nat, tile: array2<real>, ty: nat, tx: nat)
    requires IsMatrix(x, rows, width) && tile.Length0 == tile.Length1 && 2 * ty + 1 < tile.Length0
    requires 2 * tx + 1 < tile.Length1
    requires TileHolds(x, rows, width, row0, col0, tile, ty, tx)
    modifies tile
    ensures TileHolds(x, rows, width, row0, col0, tile, ty, tx + 1)
  {
    hide At;
    tile[2 * ty, 2 * tx] := At(x, rows, width, row0 + 2 * ty, col0 + 2 * tx);
    tile[2 * ty, 2 * tx + 1] := At(x, rows, width, row0 + 2 * ty, col0 + 2 * tx + 1);
    tile[2 * ty + 1, 2 * tx] := At(x, rows, width, row0 + 2 * ty + 1, col0 + 2 * tx);
    tile[2 * ty + 1, 2 * tx + 1] := At(x, rows, width, row0 + 2 * ty + 1, col0 + 2 * tx + 1);
  }

  /** All threads of the block fill one shared tile whose corner is (row0, col0). */
  method LoadTile(x: seq<real>, rows: nat, width: nat, row0: nat, col0: nat, half: nat, tile: array2<real>)
    requires IsMatrix(x, rows, width) && tile.Length0 == tile.Length1 == 2 * half
    modifies tile
    ensures forall r, c :: 0 <= r < 2 * half && 0 <= c < 2 * half ==>
      tile[r, c] == At(x, rows, width, row0 + r, col0 + c)
  {
    hide At;
    for ty := 0 to half
      invariant TileHolds(x, rows, width, row0, col0, tile, ty, 0)
    {
      for tx := 0 to half
        invariant TileHolds(x, rows, width, row0, col0, tile, ty, tx)
      {
        LoadQuad(x, rows, width, row0, col0, tile, ty, tx);
      }
      assert forall r, c :: 0 <= r < 2 * half && 0 <= c < 2 * half && Acted(r, c, ty + 1, 0) ==> Acted(r, c, ty, half);
    }
    assert forall r, c :: 0 <= r < 2 * half && 0 <= c < 2 * half ==> Acted(r, c, half, 0);
  }

  /** Partial sum of entry (i, j) over the first `len` products. */
  ghost function Partial(g: Dims, a: seq<real>, b: seq<real>, i: nat, j: nat, len: nat): real
    requires Operands(g, a, b)
  {
    Sum(Terms(g, a, b, i, j, len))
  }

  lemma PartialNext(g: Dims, a: seq<real>, b: seq<real>, i: nat, j: nat, p: nat)
    requires Operands(g, a, b)
    ensures Partial(g, a, b, i, j, p + 1) == Partial(g, a, b, i, j, p) + At(a, g.m, g.k, i, p) * At(b, g.k, g.n, p, j)
  {
    hide Sum, At, IsMatrix;
    var longer, shorter := Terms(g, a, b, i, j, p + 1), Terms(g, a, b, i, j, p);
    SumAppend(shorter, longer[p]);
    assert longer == shorter + [longer[p]];
  }

  /** The shared tiles hold columns base.. of A's rows and rows base.. of B's columns. */
  ghost predicate Loaded(g: Dims, a: seq<real>, b: seq<real>, row0: nat, col0: nat, base: nat, tileA: array2<real>,
                         tileB: array2<real>)
    reads tileA, tileB
    requires Operands(g, a, b)
  {
    && tileA.Length0 == tileA.Length1 == tileB.Length0 == tileB.Length1 == Side(g)
    && (forall r, j :: 0 <= r < Side(g) && 0 <= j < Side(g) ==> tileA[r, j] == At(a, g.m, g.k, row0 + r, base + j))
    && (forall j, c :: 0 <= j < Side(g) && 0 <= c < Side(g) ==> tileB[j, c] == At(b, g.k, g.n, base + j, col0 + c))
  }

  /** One thread's inner loop: four registers from two rows and two columns. */
  method Quad(g: Dims, ghost a: seq<real>, ghost b: seq<real>, ghost row0: nat, ghost col0: nat, ghost base: nat,
              tileA: array2<real>, tileB: array2<real>, r: nat, c: nat, in00: real, in01: real, in10: real, in11: real)
    returns (sum00: real, sum01: real, sum10: real, sum11: real)
    requires Operands(g, a, b) && Loaded(g, a, b, row0, col0, base, tileA, tileB) && r + 1 < Side(g) && c + 1 < Side(g)
    requires in00 == Partial(g, a, b, row0 + r, col0 + c, base)
    requires in01 == Partial(g, a, b, row0 + r, col0 + c + 1, base)
    requires in10 == Partial(g, a, b, row0 + r + 1, col0 + c, base)
    requires in11 == Partial(g, a, b, row0 + r + 1, col0 + c + 1, base)
    ensures sum00 == Partial(g, a, b, row0 + r, col0 + c, base + Side(g))
    ensures sum01 == Partial(g, a, b, row0 + r, col0 + c + 1, base + Side(g))
    ensures sum10 == Partial(g, a, b, row0 + r + 1, col0 + c, base + Side(g))
    ensures sum11 == Partial(g, a, b, row0 + r + 1, col0 + c + 1, base + Side(g))
  {
    hide Partial, At, IsMatrix;
    sum00, sum01, sum10, sum11 := in00, in01, in10, in11;
    for j := 0 to Side(g)
      invariant sum00 == Partial(g, a, b, row0 + r, col0 + c, base + j)
      invariant sum01 == Partial(g, a, b, row0 + r, col0 + c + 1, base + j)
      invariant sum10 == Partial(g, a, b, row0 + r + 1, col0 + c, base + j)
      invariant sum11 == Partial(g, a, b, row0 + r + 1, col0 + c + 1, base + j)
    {
      var a0, a1, b0, b1 := tileA[r, j], tileA[r + 1, j], tileB[j, c], tileB[j, c + 1];
      PartialNext(g, a, b, row0 + r, col0 + c, base + j);
      PartialNext(g, a, b, row0 + r, col0 + c + 1, base + j);
      PartialNext(g, a, b, row0 + r + 1, col0 + c, base + j);
      PartialNext(g, a, b, row0 + r + 1, col0 + c + 1, base + j);
      sum00 := sum00 + a0 * b0;
      sum01 := sum01 + a0 * b1;
      sum10 := sum10 + a1 * b0;
      sum11 := sum11 + a1 * b1;
    }
  }

  /** Registers of the block: cell (r, c) belongs to thread (r / 2, c / 2). */
  ghost predicate SumsHold(g: Dims, a: seq<real>, b: seq<real>, row0: nat, col0: nat, base: nat, sums: array2<real>,
                           ty: nat, tx: nat)
    reads sums
    requires Operands(g, a, b)
  {
    && sums.Length0 == sums.Length1 == Side(g)
    && forall r, c :: 0 <= r < Side(g) && 0 <= c < Side(g) ==>
         sums[r, c] == Partial(g, a, b, row0 + r, col0 + c, if Acted(r, c, ty, tx) then base + Side(g) else base)
  }

  method AccumulateThread(g: Dims, ghost a: seq<real>, ghost b: seq<real>, ghost row0: nat, ghost col0: nat,
                          ghost base: nat, tileA: array2<real>, tileB: array2<real>, sums: array2<real>, ty: nat,
                          tx: nat)
    requires Operands(g, a, b) && Loaded(g, a, b, row0, col0, base, tileA, tileB) && ty < g.half && tx < g.half
    requires sums != tileA && sums != tileB && SumsHold(g, a, b, row0, col0, base, sums, ty, tx)
    modifies sums
    ensures SumsHold(g, a, b, row0, col0, base, sums, ty, tx + 1)
  {
    hide Partial, At, IsMatrix, Loaded;
    var r, c := 2 * ty, 2 * tx;
    var s00, s01, s10, s11 :=
      Quad(g, a, b, row0, col0, base, tileA, tileB, r, c, sums[r, c], sums[r, c + 1], sums[r + 1, c],
      sums[r + 1, c + 1]);
    sums[r, c], sums[r, c + 1], sums[r + 1, c], sums[r + 1, c + 1] := s00, s01, s10, s11;
  }

  /** One step of the tile loop: load both tiles, barrier, accumulate, barrier. */
  method TileStep(g: Dims, a: seq<real>, b: seq<real>, row0: nat, col0: nat, base: nat, tileA: array2<real>,
                  tileB: array2<real>, sums: array2<real>)
    requires Operands(g, a, b) && tileA.Length0 == tileA.Length1 == tileB.Length0 == tileB.Length1 == Side(g)
    requires tileA != tileB && sums != tileA && sums != tileB && SumsHold(g, a, b, row0, col0, base, sums, 0, 0)
    modifies tileA, tileB, sums
    ensures SumsHold(g, a, b, row0, col0, base + Side(g), sums, 0, 0)
  {
    hide Partial, At, IsMatrix;
    LoadTile(a, g.m, g.k, row0, base, g.half, tileA);
    LoadTile(b, g.k, g.n, base, col0, g.half, tileB);
    for ty := 0 to g.half
      invariant Loaded(g, a, b, row0, col0, base, tileA, tileB) && SumsHold(g, a, b, row0, col0, base, sums, ty, 0)
    {
      for tx := 0 to g.half
        invariant Loaded(g, a, b, row0, col0, base, tileA, tileB) && SumsHold(g, a, b, row0, col0, base, sums, ty, tx)
      {
        AccumulateThread(g, a, b, row0, col0, base, tileA, tileB, sums, ty, tx);
      }
      assert forall r, c :: 0 <= r < Side(g) && 0 <= c < Side(g) ==>
        (Acted(r, c, ty + 1, 0) <==> Acted(r, c, ty, g.half));
    }
    assert forall r, c :: 0 <= r < Side(g) && 0 <= c < Side(g) ==> Acted(r, c, g.half, 0) && !Acted(r, c, 0, 0);
  }

  /** Guarded store of one register. */
  method WriteCell(c: array<real>, rows: nat, width: nat, i: nat, j: nat, value: real)
    requires c.Length == rows * width
    modifies c
    ensures forall x: nat, y: nat ::
      At(c[..], rows, width, x, y)
        == if x == i && y == j && i < rows && j < width then value else old(At(c[..], rows, width, x, y))
  {
    ghost var before := c[..];
    if i < rows && j < width {
      CellInRange(i, j, rows, width);
      c[Cell(i, j, width)] := value;
      forall i', j' | 0 <= i' < rows && 0 <= j' < width && !(i' == i && j' == j)
        ensures Cell(i', j', width) < |before| && Cell(i', j', width) != Cell(i, j, width)
      {
        CellInRange(i', j', rows, width);
        CellUnique(i', j', i, j, width);
      }
    }
  }

  /** Threads before (ty, tx) have stored their entries; everything else is as before. */
  ghost predicate Written(g: Dims, a: seq<real>, b: seq<real>, before: seq<real>, c: seq<real>, row0: nat, col0: nat,
                          ty: nat, tx: nat)
    requires Operands(g, a, b) && IsMatrix(before, g.m, g.n) && IsMatrix(c, g.m, g.n)
  {
    forall i, j :: 0 <= i < g.m && 0 <= j < g.n ==>
      At(c, g.m, g.n, i, j)
        == if WrittenCell(g, row0, col0, ty, tx, i, j) then Entry(g, a, b, i, j) else At(before, g.m, g.n, i, j)
  }

  predicate WrittenCell(g: Dims, row0: nat, col0: nat, ty: nat, tx: nat, i: nat, j: nat) {
    row0 <= i < row0 + Side(g) && col0 <= j < col0 + Side(g) && Acted(i - row0, j - col0, ty, tx)
  }

  method WriteThread(g: Dims, ghost a: seq<real>, ghost b: seq<real>, row0: nat, col0: nat, sums: array2<real>,
                     c: array<real>, ghost before: seq<real>, ty: nat, tx: nat)
    requires Operands(g, a, b) && IsMatrix(before, g.m, g.n) && c.Length == g.m * g.n && ty < g.half && tx < g.half
    requires sums.Length0 == sums.Length1 == Side(g) && sums as object != c
    requires forall r, s :: 0 <= r < Side(g) && 0 <= s < Side(g) ==> sums[r, s] == Entry(g, a, b, row0 + r, col0 + s)
    requires Written(g, a, b, before, c[..], row0, col0, ty, tx)
    modifies c
    ensures Written(g, a, b, before, c[..], row0, col0, ty, tx + 1)
  {
    hide At, Entry;
    var r, s := 2 * ty, 2 * tx;
    WriteCell(c, g.m, g.n, row0 + r, col0 + s, sums[r, s]);
    WriteCell(c, g.m, g.n, row0 + r, col0 + s + 1, sums[r, s + 1]);
    WriteCell(c, g.m, g.n, row0 + r + 1, col0 + s, sums[r + 1, s]);
    WriteCell(c, g.m, g.n, row0 + r + 1, col0 + s + 1, sums[r + 1, s + 1]);
  }

  /** One thread block: accumulate over all tiles, then store. */
  method Block(g: Dims, a: seq<real>, b: seq<real>, c: array<real>, row0: nat, col0: nat)
    requires Operands(g, a, b) && c.Length == g.m * g.n
    modifies c
    ensures Written(g, a, b, old(c[..]), c[..], row0, col0, g.half, 0)
  {
    hide At, Entry, Partial, IsMatrix, CeilDiv;
    var tileA, tileB := new real[Side(g), Side(g)], new real[Side(g), Side(g)];
    var sums := new real[Side(g), Side(g)]((_, _) => 0.0);
    NoPartial(g, a, b);
    var tiles := CeilDiv(g.k, Side(g));
    for t := 0 to tiles
      invariant SumsHold(g, a, b, row0, col0, t * Side(g), sums, 0, 0) && c[..] == old(c[..])
    {
      TileStep(g, a, b, row0, col0, t * Side(g), tileA, tileB, sums);
      assert (t + 1) * Side(g) == t * Side(g) + Side(g);
    }
    CeilDivLeast(g.k, Side(g));
    CompleteSums(g, a, b, row0, col0, tiles * Side(g), sums);
    Store(g, a, b, row0, col0, sums, c);
  }

  lemma NoPartial(g: Dims, a: seq<real>, b: seq<real>)
    requires Operands(g, a, b)
    ensures forall i: nat, j: nat :: Partial(g, a, b, i, j, 0) == 0.0
  {
    hide At;
  }

  lemma CompleteSums(g: Dims, a: seq<real>, b: seq<real>, row0: nat, col0: nat, len: nat, sums: array2<real>)
    requires Operands(g, a, b) && g.k <= len && SumsHold(g, a, b, row0, col0, len, sums, 0, 0)
    ensures forall r, s :: 0 <= r < Side(g) && 0 <= s < Side(g) ==> sums[r, s] == Entry(g, a, b, row0 + r, col0 + s)
  {
    hide Entry, IsMatrix, Sum, Terms;
    forall r, s | 0 <= r < Side(g) && 0 <= s < Side(g) ensures sums[r, s] == Entry(g, a, b, row0 + r, col0 + s) {
      PaddedEntry(g, a, b, row0 + r, col0 + s, len);
    }
  }

  method Store(g: Dims, ghost a: seq<real>, ghost b: seq<real>, row0: nat, col0: nat, sums: array2<real>,
               c: array<real>)
    requires Operands(g, a, b) && c.Length == g.m * g.n && sums.Length0 == sums.Length1 == Side(g)
    requires sums as object != c
    requires forall r, s :: 0 <= r < Side(g) && 0 <= s < Side(g) ==> sums[r, s] == Entry(g, a, b, row0 + r, col0 + s)
    modifies c
    ensures Written(g, a, b, old(c[..]), c[..], row0, col0, g.half, 0)
  {
    hide At, Entry;
    for ty := 0 to g.half
      invariant Written(g, a, b, old(c[..]), c[..], row0, col0, ty, 0)
    {
      for tx := 0 to g.half
        invariant Written(g, a, b, old(c[..]), c[..], row0, col0, ty, tx)
      {
        WriteThread(g, a, b, row0, col0, sums, c, old(c[..]), ty, tx);
      }
      WrittenRow(g, a, b, old(c[..]), c[..], row0, col0, ty);
    }
  }

  lemma WrittenRow(g: Dims, a: seq<real>, b: seq<real>, before: seq<real>, c: seq<real>, row0: nat, col0: nat, ty: nat)
    requires Operands(g, a, b) && IsMatrix(before, g.m, g.n) && IsMatrix(c, g.m, g.n)
    requires Written(g, a, b, before, c, row0, col0, ty, g.half)
    ensures Written(g, a, b, before, c, row0, col0, ty + 1, 0)
  {
    hide At, Entry, IsMatrix;
    assert forall i: nat, j: nat ::
      WrittenCell(g, row0, col0, ty + 1, 0, i, j) <==> WrittenCell(g, row0, col0, ty, g.half, i, j);
  }

  // ------------------------------------------------------------------------------- launches

  /** Every entry above row `row1`, and left of `col1` within the next band, is computed. */
  ghost predicate Computed(g: Dims, a: seq<real>, b: seq<real>, c: seq<real>, row1: nat, col1: nat, band: nat)
    requires Operands(g, a, b) && IsMatrix(c, g.m, g.n)
  {
    forall i, j :: 0 <= i < g.m && 0 <= j < g.n && (i < row1 || (i < row1 + band && j < col1)) ==>
      At(c, g.m, g.n, i, j) == Entry(g, a, b, i, j)
  }

  lemma BlockComputes(g: Dims, a: seq<real>, b: seq<real>, before: seq<real>, c: seq<real>, row0: nat, col0: nat)
    requires Operands(g, a, b) && IsMatrix(before, g.m, g.n) && IsMatrix(c, g.m, g.n)
    requires Computed(g, a, b, before, row0, col0, Side(g)) && Written(g, a, b, before, c, row0, col0, g.half, 0)
    ensures Computed(g, a, b, c, row0, col0 + Side(g), Side(g))
  {
    hide At, Entry, IsMatrix;
  }

  lemma BandComputes(g: Dims, a: seq<real>, b: seq<real>, c: seq<real>, row0: nat, col1: nat)
    requires Operands(g, a, b) && IsMatrix(c, g.m, g.n) && col1 >= g.n && Computed(g, a, b, c, row0, col1, Side(g))
    ensures Computed(g, a, b, c, row0 + Side(g), 0, Side(g))
  {
    hide At, Entry, IsMatrix;
  }

  /** `tiling_matMul` over its grid. */
  method TiledMatMul(g: Dims, a: seq<real>, b: seq<real>, c: array<real>)
    requires Operands(g, a, b) && c.Length == g.m * g.n
    modifies c
    ensures forall i, j :: 0 <= i < g.m && 0 <= j < g.n ==> At(c[..], g.m, g.n, i, j) == Entry(g, a, b, i, j)
  {
    hide At, Entry, CeilDiv, Written;
    var blocksY, blocksX := CeilDiv(g.m, Side(g)), CeilDiv(g.n, Side(g));
    for blockY := 0 to blocksY
      invariant Computed(g, a, b, c[..], blockY * Side(g), 0, Side(g))
    {
      for blockX := 0 to blocksX
        invariant Computed(g, a, b, c[..], blockY * Side(g), blockX * Side(g), Side(g))
      {
        ghost var before := c[..];
        Block(g, a, b, c, blockY * Side(g), blockX * Side(g));
        BlockComputes(g, a, b, before, c[..], blockY * Side(g), blockX * Side(g));
        assert (blockX + 1) * Side(g) == blockX * Side(g) + Side(g);
      }
      CeilDivLeast(g.n, Side(g));
      BandComputes(g, a, b, c[..], blockY * Side(g), blocksX * Side(g));
      assert (blockY + 1) * Side(g) == blockY * Side(g) + Side(g);
    }
    CeilDivLeast(g.m, Side(g));
  }

  /** `matMul`: one thread per entry. */
  method PlainMatMul(g: Dims, a: seq<real>, b: seq<real>, c: array<real>)
    requires Operands(g, a, b) && c.Length == g.m * g.n
    modifies c
    ensures forall i, j :: 0 <= i < g.m && 0 <= j < g.n ==> At(c[..], g.m, g.n, i, j) == Entry(g, a, b, i, j)
  {
    hide At, Entry;
    for row := 0 to g.m
      invariant Computed(g, a, b, c[..], row, 0, 1)
    {
      for col := 0 to g.n
        invariant Computed(g, a, b, c[..], row, col, 1)
      {
        var sum := PlainEntry(g, a, b, row, col);
        WriteCell(c, g.m, g.n, row, col, sum);
      }
    }
  }

  /** Corner of thread (tx, ty) of block (bx, by), as the kernel computes it. */
  function Corner(g: Dims, block: nat, thread: nat): nat { (block * g.half + thread) * 2 }

  lemma CornerInTile(g: Dims, block: nat, thread: nat)
    ensures Corner(g, block, thread) == block * Side(g) + 2 * thread
  {
    assert block * Side(g) == (block * g.half) * 2;
  }

  /** Register r of the given thread holds index i. */
  predicate Owns(g: Dims, block: nat, thread: nat, r: nat, i: nat) {
    thread < g.half && r < 2 && Corner(g, block, thread) + r == i
  }

  /** Each row (and likewise each column) of C belongs to a block, thread and register of the launch ... */
  lemma Owner(g: Dims, rows: nat, i: nat) returns (block: nat, thread: nat, r: nat)
    requires g.half > 0 && i < rows
    ensures block < CeilDiv(rows, Side(g)) && Owns(g, block, thread, r, i)
  {
    hide CeilDiv;
    PositionInBlocks(i, rows, Side(g));
    block := i / Side(g);
    var rest := i % Side(g);
    thread, r := rest / 2, rest % 2;
    assert block * Side(g) == (block * g.half) * 2;
  }

  /** ... and to no other. */
  lemma OwnerUnique(g: Dims, i: nat, block: nat, thread: nat, r: nat, block': nat, thread': nat, r': nat)
    requires Owns(g, block, thread, r, i) && Owns(g, block', thread', r', i)
    ensures block == block' && thread == thread' && r == r'
  {
    assert block * g.half + thread == block' * g.half + thread';
    SlotUnique(block, thread, block', thread', g.half);
  }

  /** The tiled and the plain product are the same matrix. */
  method CompareMatMul(g: Dims, a: seq<real>, b: seq<real>) returns (tiled: seq<real>, plain: seq<real>)
    requires Operands(g, a, b)
    ensures |tiled| == g.m * g.n && tiled == plain
    ensures forall i, j :: 0 <= i < g.m && 0 <= j < g.n ==> At(tiled, g.m, g.n, i, j) == Entry(g, a, b, i, j)
  {
    hide Entry;
    var c, d := new real[g.m * g.n], new real[g.m * g.n];
    TiledMatMul(g, a, b, c);
    PlainMatMul(g, a, b, d);
    tiled, plain := c[..], d[..];
    forall x | 0 <= x < |tiled| ensures tiled[x] == plain[x] {
      CellOf(x, g.m, g.n);
      assert At(tiled, g.m, g.n, x / g.n, x % g.n) == At(plain, g.m, g.n, x / g.n, x % g.n);
    }
  }
}
