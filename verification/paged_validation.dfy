/** Append every sequence, launch decode attention, compare with the reference: the whole
    computation of kernels/paged_kv_cache/paged_kv_cache.cu. */
module PagedValidation {
  import opened Protocol
  import opened Arith
  import opened Softmax
  import opened Attention
  import opened RealSums
  import opened PagedDecode
  import opened TwoPass
  import opened CacheAppend

  /** Block table, length and dense K/V of shape [len, kv_heads, head_dim] of one sequence. */
  datatype Sequence = Sequence(table: seq<int>, len: nat, keys: seq<real>, values: seq<real>)

  ghost predicate SequenceOk(sh: Shape, x: Sequence) {
    && sh.blockSize > 0
    && TableOk(sh, x.table, x.len) && NoRepeat(sh, x.table, x.len)
    && IsMatrix(x.keys, x.len * sh.kvHeads, sh.headDim)
    && IsMatrix(x.values, x.len * sh.kvHeads, sh.headDim)
  }

  /** Well-shaped inputs whose sequences own disjoint blocks. */
  ghost predicate SequencesOk(sh: Shape, q: seq<Sequence>) {
    && ShapeOk(sh) && |q| == sh.batch
    && (forall b :: 0 <= b < |q| ==> SequenceOk(sh, q[b]))
    && forall a, b :: 0 <= a < b < |q| ==> Apart(sh, q[a].table, q[a].len, q[b].table, q[b].len)
  }

  /** The cache holds the dense vectors of one sequence at its physical slots. */
  ghost predicate Resident(sh: Shape, cache: seq<real>, table: seq<int>, len: nat, input: seq<real>)
    requires sh.blockSize > 0 && TableOk(sh, table, len)
    requires IsMatrix(cache, CacheRows(sh), sh.headDim) && IsMatrix(input, len * sh.kvHeads, sh.headDim)
  {
    forall p, h :: 0 <= p < len && 0 <= h < sh.kvHeads ==>
      CacheVec(sh, cache, PhysicalSlot(sh, table, len, p), h) == InputVec(sh, input, len, p, h)
  }

  function Iota(n: nat): seq<nat> { seq(n, i => i) }

  /** Appending another sequence leaves a resident one in place. */
  lemma ResidentKept(sh: Shape, before: seq<real>, after: seq<real>, table: seq<int>, len: nat, input: seq<real>,
                     table': seq<int>, len': nat, input': seq<real>)
    requires sh.blockSize > 0 && TableOk(sh, table, len) && TableOk(sh, table', len')
    requires AppendArgs(sh, TableSlots(sh, table', len', Iota(len')), AllActive(len'))
    requires IsMatrix(before, CacheRows(sh), sh.headDim) && IsMatrix(after, CacheRows(sh), sh.headDim)
    requires IsMatrix(input, len * sh.kvHeads, sh.headDim) && IsMatrix(input', len' * sh.kvHeads, sh.headDim)
    requires Apart(sh, table, len, table', len') && Resident(sh, before, table, len, input)
    requires Appended(sh, TableSlots(sh, table', len', Iota(len')), AllActive(len'), input', before, after)
    ensures Resident(sh, after, table, len, input)
  {
    hide Apart, TableOk, NoRepeat, PhysicalSlot, CacheVec, InputVec, CacheRows, IsMatrix;
    var slots := TableSlots(sh, table', len', Iota(len'));
    forall p, h | 0 <= p < len && 0 <= h < sh.kvHeads
      ensures CacheVec(sh, after, PhysicalSlot(sh, table, len, p), h) == InputVec(sh, input, len, p, h)
    {
      var slot := PhysicalSlot(sh, table, len, p);
      forall i | 0 <= i < len' ensures slots[i] != slot {
        PhysicalSlotsApart(sh, table, len, p, table', len', i);
      }
      assert !WritesSlot(slots, AllActive(len'), slot);
    }
  }

  /** Appending a whole sequence makes it resident. */
  lemma AppendedResident(sh: Shape, table: seq<int>, len: nat, input: seq<real>, before: seq<real>, after: seq<real>)
    requires sh.blockSize > 0 && TableOk(sh, table, len)
    requires AppendArgs(sh, TableSlots(sh, table, len, Iota(len)), AllActive(len))
    requires IsMatrix(before, CacheRows(sh), sh.headDim) && IsMatrix(after, CacheRows(sh), sh.headDim)
    requires IsMatrix(input, len * sh.kvHeads, sh.headDim)
    requires Appended(sh, TableSlots(sh, table, len, Iota(len)), AllActive(len), input, before, after)
    ensures Resident(sh, after, table, len, input)
  {
    hide TableOk, PhysicalSlot, CacheVec, InputVec, CacheRows, IsMatrix;
    var slots := TableSlots(sh, table, len, Iota(len));
    forall p, h | 0 <= p < len && 0 <= h < sh.kvHeads
      ensures CacheVec(sh, after, PhysicalSlot(sh, table, len, p), h) == InputVec(sh, input, len, p, h)
    {
      assert slots[p] == PhysicalSlot(sh, table, len, p) && AllActive(len)[p];
    }
  }

  ghost predicate BothResident(sh: Shape, k: seq<real>, v: seq<real>, x: Sequence)
    requires SequenceOk(sh, x) && IsMatrix(k, CacheRows(sh), sh.headDim) && IsMatrix(v, CacheRows(sh), sh.headDim)
  {
    Resident(sh, k, x.table, x.len, x.keys) && Resident(sh, v, x.table, x.len, x.values)
  }

  /** One append launch of a whole sequence. */
  method AppendOne(sh: Shape, x: Sequence, ghost others: seq<Sequence>, kCache: array<real>, vCache: array<real>)
    requires SequenceOk(sh, x) && kCache != vCache && kCache.Length == vCache.Length == CacheRows(sh) * sh.headDim
    requires forall b :: 0 <= b < |others| ==>
      SequenceOk(sh, others[b]) && Apart(sh, others[b].table, others[b].len, x.table, x.len)
      && BothResident(sh, kCache[..], vCache[..], others[b])
    modifies kCache, vCache
    ensures BothResident(sh, kCache[..], vCache[..], x)
    ensures forall b :: 0 <= b < |others| ==> BothResident(sh, kCache[..], vCache[..], others[b])
  {
    hide Apart, TableOk, NoRepeat, Resident, Appended, CacheRows, AppendArgs, TableSlots;
    ghost var k, v := kCache[..], vCache[..];
    TableArgs(sh, x.table, x.len, Iota(x.len));
    AppendByTable(sh, x.table, x.len, Iota(x.len), x.keys, x.values, kCache, vCache);
    AppendedResident(sh, x.table, x.len, x.keys, k, kCache[..]);
    AppendedResident(sh, x.table, x.len, x.values, v, vCache[..]);
    forall b | 0 <= b < |others| ensures BothResident(sh, kCache[..], vCache[..], others[b]) {
      var o := others[b];
      ResidentKept(sh, k, kCache[..], o.table, o.len, o.keys, x.table, x.len, x.keys);
      ResidentKept(sh, v, vCache[..], o.table, o.len, o.values, x.table, x.len, x.values);
    }
  }

  /** The host loop: one append launch per sequence. */
  method AppendAll(sh: Shape, q: seq<Sequence>, kCache: array<real>, vCache: array<real>)
    requires SequencesOk(sh, q) && kCache != vCache && kCache.Length == vCache.Length == CacheRows(sh) * sh.headDim
    modifies kCache, vCache
    ensures forall b :: 0 <= b < |q| ==> BothResident(sh, kCache[..], vCache[..], q[b])
  {
    hide Apart, SequenceOk, BothResident, CacheRows;
    for batch := 0 to |q|
      invariant forall b :: 0 <= b < batch ==> BothResident(sh, kCache[..], vCache[..], q[b])
    {
      AppendOne(sh, q[batch], q[..batch], kCache, vCache);
      assert forall b :: 0 <= b < batch ==> q[..batch][b] == q[b];
    }
  }

  // ------------------------------------------------------------------------- launches

  /** Dense vectors of one head, as the reference reads them. */
  function Dense(sh: Shape, input: seq<real>, len: nat, head: nat): (vs: seq<seq<real>>)
    requires IsMatrix(input, len * sh.kvHeads, sh.headDim) && head < sh.kvHeads
    ensures |vs| == len && AllWide(vs, sh.headDim)
  {
    seq(len, p requires 0 <= p < len => InputVec(sh, input, len, p, head))
  }

  /** Reading a resident sequence through its table gives its dense vectors. */
  lemma PagedIsDense(sh: Shape, cache: seq<real>, table: seq<int>, len: nat, input: seq<real>, head: nat)
    requires sh.blockSize > 0 && TableOk(sh, table, len) && head < sh.kvHeads
    requires IsMatrix(cache, CacheRows(sh), sh.headDim) && IsMatrix(input, len * sh.kvHeads, sh.headDim)
    requires Resident(sh, cache, table, len, input)
    ensures Paged(sh, cache, table, len, head) == Dense(sh, input, len, head)
  {
    hide TableOk, Vec, CacheRows, IsMatrix, PhysicalSlot, InputVec;
  }

  ghost function DenseHeads(sh: Shape, input: seq<real>, len: nat): (heads: seq<seq<seq<real>>>)
    requires IsMatrix(input, len * sh.kvHeads, sh.headDim)
    ensures |heads| == sh.kvHeads
    ensures forall g :: 0 <= g < |heads| ==> |heads[g]| == len && AllWide(heads[g], sh.headDim)
  {
    seq(sh.kvHeads, g requires 0 <= g < sh.kvHeads => Dense(sh, input, len, g))
  }

  /** The dense vectors that a query head reads are those of the K/V head that the loops compute. */
  lemma DenseHead(sh: Shape, input: seq<real>, len: nat, h: nat)
    requires ShapeOk(sh) && IsMatrix(input, len * sh.kvHeads, sh.headDim) && h < sh.queryHeads
    ensures HeadOf(sh, DenseHeads(sh, input, len), len, h) == Dense(sh, input, len, KvHead(sh, h))
  {
    hide Dense, KvHead, Repeated, ShapeOk;
    HeadRepeated(sh, DenseHeads(sh, input, len), h);
  }

  /** Row (b, h) of the reference output: attention over dense K/V, whose heads are repeated over their
      groups of query heads. */
  ghost function ReferenceAt(exp: RealFn, sh: Shape, query: seq<real>, x: Sequence, scale: real, b: nat,
                             h: nat): (r: seq<real>)
    requires ShapeOk(sh) && IsMatrix(query, QueryRows(sh), sh.headDim) && b < sh.batch && h < sh.queryHeads
    requires SequenceOk(sh, x)
    ensures |r| == sh.headDim
  {
    QueryRowInRange(sh, b, h);
    AttentionRow(exp, Vec(query, QueryRows(sh), sh.headDim, Cell(b, h, sh.queryHeads)),
                 HeadOf(sh, DenseHeads(sh, x.keys, x.len), x.len, h),
                 HeadOf(sh, DenseHeads(sh, x.values, x.len), x.len, h), scale)
  }

  ghost function PagedAt(exp: RealFn, sh: Shape, query: seq<real>, k: seq<real>, v: seq<real>, x: Sequence, scale: real,
                         b: nat, h: nat): (r: seq<Option<real>>)
    requires Inputs(sh, query, k, v) && b < sh.batch && h < sh.queryHeads && SequenceOk(sh, x)
    ensures |r| == sh.headDim
  {
    PagedRow(exp, sh, query, k, v, x.table, x.len, scale, b, h)
  }

  predicate Before(b: nat, h: nat, b': nat, h': nat) { b < b' || (b == b' && h < h') }

  /** The reference has written the rows before (b, h). */
  ghost predicate ReferenceDone(exp: RealFn, sh: Shape, query: seq<real>, q: seq<Sequence>, scale: real, out: seq<real>,
                                b: nat, h: nat)
    requires SequencesOk(sh, q) && IsMatrix(query, QueryRows(sh), sh.headDim)
  {
    forall b', h' {:trigger Before(b', h', b, h)} ::
      0 <= b' < sh.batch && 0 <= h' < sh.queryHeads && Before(b', h', b, h) ==>
      RowIs(out, Cell(b', h', sh.queryHeads), ReferenceAt(exp, sh, query, q[b'], scale, b', h'))
  }

  ghost predicate DecodeDone(exp: RealFn, sh: Shape, query: seq<real>, k: seq<real>, v: seq<real>, q: seq<Sequence>,
                             scale: real, out: seq<Option<real>>, b: nat, h: nat)
    requires SequencesOk(sh, q) && Inputs(sh, query, k, v)
  {
    forall b', h' {:trigger Before(b', h', b, h)} ::
      0 <= b' < sh.batch && 0 <= h' < sh.queryHeads && Before(b', h', b, h) ==>
      RowIs(out, Cell(b', h', sh.queryHeads), PagedAt(exp, sh, query, k, v, q[b'], scale, b', h'))
  }

  lemma ReferenceStep(exp: RealFn, sh: Shape, query: seq<real>, q: seq<Sequence>, scale: real, out: seq<real>,
                      out': seq<real>, b: nat, h: nat)
    requires SequencesOk(sh, q) && IsMatrix(query, QueryRows(sh), sh.headDim) && b < sh.batch && h < sh.queryHeads
    requires ReferenceDone(exp, sh, query, q, scale, out, b, h)
    requires RowsKept(out, out', Cell(b, h, sh.queryHeads), sh.headDim)
    requires RowIs(out', Cell(b, h, sh.queryHeads), ReferenceAt(exp, sh, query, q[b], scale, b, h))
    ensures ReferenceDone(exp, sh, query, q, scale, out', b, h + 1)
  {
    hide SequenceOk, ShapeOk, Apart, RowIs, Cell, ReferenceAt, QueryRows, CacheRows;
    forall b', h' | 0 <= b' < sh.batch && 0 <= h' < sh.queryHeads && Before(b', h', b, h + 1)
      ensures RowIs(out', Cell(b', h', sh.queryHeads), ReferenceAt(exp, sh, query, q[b'], scale, b', h'))
    {
      if b' != b || h' != h {
        assert Before(b', h', b, h);
        CellUnique(b', h', b, h, sh.queryHeads);
      }
    }
  }

  lemma ReferenceNext(exp: RealFn, sh: Shape, query: seq<real>, q: seq<Sequence>, scale: real, out: seq<real>, b: nat)
    requires SequencesOk(sh, q) && IsMatrix(query, QueryRows(sh), sh.headDim) && b < sh.batch
    requires ReferenceDone(exp, sh, query, q, scale, out, b, sh.queryHeads)
    ensures ReferenceDone(exp, sh, query, q, scale, out, b + 1, 0)
  {
    hide SequenceOk, ShapeOk, Apart, RowIs, Cell, ReferenceAt, QueryRows, CacheRows;
    forall b', h' | 0 <= b' < sh.batch && 0 <= h' < sh.queryHeads && Before(b', h', b + 1, 0)
      ensures RowIs(out, Cell(b', h', sh.queryHeads), ReferenceAt(exp, sh, query, q[b'], scale, b', h'))
    {
      assert Before(b', h', b, sh.queryHeads);
    }
  }

  lemma DecodeStep(exp: RealFn, sh: Shape, query: seq<real>, k: seq<real>, v: seq<real>, q: seq<Sequence>, scale: real,
                   out: seq<Option<real>>, out': seq<Option<real>>, b: nat, h: nat)
    requires SequencesOk(sh, q) && Inputs(sh, query, k, v) && b < sh.batch && h < sh.queryHeads
    requires DecodeDone(exp, sh, query, k, v, q, scale, out, b, h)
    requires RowsKept(out, out', Cell(b, h, sh.queryHeads), sh.headDim)
    requires RowIs(out', Cell(b, h, sh.queryHeads), PagedAt(exp, sh, query, k, v, q[b], scale, b, h))
    ensures DecodeDone(exp, sh, query, k, v, q, scale, out', b, h + 1)
  {
    hide SequenceOk, ShapeOk, Apart, RowIs, Cell, PagedAt, QueryRows, CacheRows;
    forall b', h' | 0 <= b' < sh.batch && 0 <= h' < sh.queryHeads && Before(b', h', b, h + 1)
      ensures RowIs(out', Cell(b', h', sh.queryHeads), PagedAt(exp, sh, query, k, v, q[b'], scale, b', h'))
    {
      if b' != b || h' != h {
        assert Before(b', h', b, h);
        CellUnique(b', h', b, h, sh.queryHeads);
      }
    }
  }

  lemma DecodeNext(exp: RealFn, sh: Shape, query: seq<real>, k: seq<real>, v: seq<real>, q: seq<Sequence>, scale: real,
                   out: seq<Option<real>>, b: nat)
    requires SequencesOk(sh, q) && Inputs(sh, query, k, v) && b < sh.batch
    requires DecodeDone(exp, sh, query, k, v, q, scale, out, b, sh.queryHeads)
    ensures DecodeDone(exp, sh, query, k, v, q, scale, out, b + 1, 0)
  {
    hide SequenceOk, ShapeOk, Apart, RowIs, Cell, PagedAt, QueryRows, CacheRows;
    forall b', h' | 0 <= b' < sh.batch && 0 <= h' < sh.queryHeads && Before(b', h', b + 1, 0)
      ensures RowIs(out, Cell(b', h', sh.queryHeads), PagedAt(exp, sh, query, k, v, q[b'], scale, b', h'))
    {
      assert Before(b', h', b, sh.queryHeads);
    }
  }

  // ----------------------------------------------------------------------- host tensors

  /** Dense host K/V of shape [batch, max_seq_len, kv_heads, head_dim]. */
  datatype Host = Host(maxSeqLen: nat, keys: seq<real>, values: seq<real>)

  function HostRows(sh: Shape, h: Host): nat { sh.batch * h.maxSeqLen * sh.kvHeads }

  predicate HostOk(sh: Shape, h: Host) {
    IsMatrix(h.keys, HostRows(sh, h), sh.headDim) && IsMatrix(h.values, HostRows(sh, h), sh.headDim)
  }

  /** Row of (sequence b, token p, head) in a host tensor. */
  function HostRow(sh: Shape, h: Host, b: nat, p: nat, head: nat): (row: nat)
    requires b < sh.batch && p < h.maxSeqLen && head < sh.kvHeads
    ensures row < HostRows(sh, h)
  {
    CellInRange(b, p, sh.batch, h.maxSeqLen);
    CellInRange(Cell(b, p, h.maxSeqLen), head, sh.batch * h.maxSeqLen, sh.kvHeads);
    Cell(Cell(b, p, h.maxSeqLen), head, sh.kvHeads)
  }

  /** Offset of sequence b in a host tensor. */
  function SliceBase(sh: Shape, h: Host, b: nat): nat { b * h.maxSeqLen * sh.kvHeads * sh.headDim }

  /** The first `len` tokens of sequence b, as the host copies them to the device. */
  function HostSlice(sh: Shape, h: Host, dense: seq<real>, b: nat, len: nat): (r: seq<real>)
    requires IsMatrix(dense, HostRows(sh, h), sh.headDim) && b < sh.batch && len <= h.maxSeqLen
    ensures |r| == len * sh.kvHeads * sh.headDim
    ensures forall i :: 0 <= i < |r| ==> SliceBase(sh, h, b) + i < |dense| && r[i] == dense[SliceBase(sh, h, b) + i]
  {
    SliceInRange(sh, h, b, len);
    dense[SliceBase(sh, h, b)..][..len * sh.kvHeads * sh.headDim]
  }

  lemma SliceInRange(sh: Shape, h: Host, b: nat, len: nat)
    requires b < sh.batch && len <= h.maxSeqLen
    ensures SliceBase(sh, h, b) + len * sh.kvHeads * sh.headDim <= HostRows(sh, h) * sh.headDim
  {
    var s, e := h.maxSeqLen, sh.kvHeads * sh.headDim;
    VecInRange(sh.batch, s, b);
    MulMonotone(b * s + len, sh.batch * s, e);
    assert (b * s + len) * e == b * s * e + len * e;
    assert b * s * e == b * s * sh.kvHeads * sh.headDim && len * e == len * sh.kvHeads * sh.headDim;
    assert sh.batch * s * e == sh.batch * s * sh.kvHeads * sh.headDim;
  }

  /** Reading a sequence's slice is reading the host tensor at its stride. */
  lemma SliceRow(sh: Shape, h: Host, dense: seq<real>, b: nat, len: nat, p: nat, head: nat)
    requires IsMatrix(dense, HostRows(sh, h), sh.headDim) && b < sh.batch && p < len <= h.maxSeqLen && head < sh.kvHeads
    ensures InputVec(sh, HostSlice(sh, h, dense, b, len), len, p, head)
      == Vec(dense, HostRows(sh, h), sh.headDim, HostRow(sh, h, b, p, head))
  {
    hide HostRows, HostSlice, SliceBase, Cell, HostRow;
    var slice, row := HostSlice(sh, h, dense, b, len), Cell(p, head, sh.kvHeads);
    CellInRange(p, head, len, sh.kvHeads);
    var v, v' := InputVec(sh, slice, len, p, head), Vec(dense, HostRows(sh, h), sh.headDim, HostRow(sh, h, b, p, head));
    forall d | 0 <= d < sh.headDim ensures v[d] == v'[d] {
      StrideCell(sh, h, b, p, head, d);
      assert v[d] == slice[Cell(row, d, sh.headDim)];
    }
  }

  lemma StrideCell(sh: Shape, h: Host, b: nat, p: nat, head: nat, d: nat)
    requires b < sh.batch && p < h.maxSeqLen && head < sh.kvHeads
    ensures Cell(HostRow(sh, h, b, p, head), d, sh.headDim)
      == SliceBase(sh, h, b) + Cell(Cell(p, head, sh.kvHeads), d, sh.headDim)
  {
    var x, y := b * h.maxSeqLen, sh.kvHeads;
    assert (x + p) * y + head == x * y + (p * y + head);
    assert (x * y + (p * y + head)) * sh.headDim == x * y * sh.headDim + (p * y + head) * sh.headDim;
  }

  function HostSequence(sh: Shape, h: Host, b: nat, table: seq<int>, len: nat): Sequence
    requires HostOk(sh, h) && b < sh.batch && len <= h.maxSeqLen
  {
    Sequence(table, len, HostSlice(sh, h, h.keys, b, len), HostSlice(sh, h, h.values, b, len))
  }

  /** The sequences are the host tensors' slices. */
  ghost predicate FromHost(sh: Shape, h: Host, q: seq<Sequence>) {
    HostOk(sh, h) && forall b :: 0 <= b < |q| && b < sh.batch ==>
      q[b].len <= h.maxSeqLen && q[b] == HostSequence(sh, h, b, q[b].table, q[b].len)
  }

  /** Vectors of one head, read at the host tensor's stride. */
  function Strided(sh: Shape, h: Host, dense: seq<real>, b: nat, len: nat, head: nat): (vs: seq<seq<real>>)
    requires IsMatrix(dense, HostRows(sh, h), sh.headDim) && b < sh.batch && len <= h.maxSeqLen && head < sh.kvHeads
    ensures |vs| == len && AllWide(vs, sh.headDim)
  {
    seq(len, p requires 0 <= p < len => Vec(dense, HostRows(sh, h), sh.headDim, HostRow(sh, h, b, p, head)))
  }

  lemma StridedIsDense(sh: Shape, h: Host, dense: seq<real>, b: nat, len: nat, head: nat)
    requires IsMatrix(dense, HostRows(sh, h), sh.headDim) && b < sh.batch && len <= h.maxSeqLen && head < sh.kvHeads
    requires IsMatrix(HostSlice(sh, h, dense, b, len), len * sh.kvHeads, sh.headDim)
    ensures Strided(sh, h, dense, b, len, head) == Dense(sh, HostSlice(sh, h, dense, b, len), len, head)
  {
    hide HostRows, HostSlice, HostRow, Vec, InputVec;
    forall p | 0 <= p < len
      ensures Strided(sh, h, dense, b, len, head)[p] == Dense(sh, HostSlice(sh, h, dense, b, len), len, head)[p]
    {
      SliceRow(sh, h, dense, b, len, p, head);
    }
  }

  /** reference_decode: every (sequence, query head) by the two-pass form on dense K/V. */
  method ReferenceDecode(exp: RealFn, sh: Shape, query: seq<real>, q: seq<Sequence>, host: Host, scale: real)
    returns (output: array<real>)
    requires IsExp(exp) && SequencesOk(sh, q) && IsMatrix(query, QueryRows(sh), sh.headDim) && FromHost(sh, host, q)
    ensures fresh(output) && output.Length == |query|
    ensures ReferenceDone(exp, sh, query, q, scale, output[..], sh.batch, 0)
  {
    hide IsExp, Apart, TableOk, NoRepeat, RowIs, AttentionRow, Vec, Dense, KvHead, Cell, ReferenceDone, RowsKept;
    hide HostRows, HostSlice, Strided;
    output := new real[|query|](_ => 0.0);
    ReferenceNothing(exp, sh, query, q, scale, output[..]);
    for batch := 0 to sh.batch
      invariant ReferenceDone(exp, sh, query, q, scale, output[..], batch, 0)
    {
      var len := q[batch].len;
      for qHead := 0 to sh.queryHeads
        invariant ReferenceDone(exp, sh, query, q, scale, output[..], batch, qHead)
      {
        ghost var before := output[..];
        QueryRowInRange(sh, batch, qHead);
        var kvHead := KvHead(sh, qHead);
        DenseHead(sh, q[batch].keys, len, qHead);
        DenseHead(sh, q[batch].values, len, qHead);
        StridedIsDense(sh, host, host.keys, batch, len, kvHead);
        StridedIsDense(sh, host, host.values, batch, len, kvHead);
        var row := ReferenceRow(exp, Vec(query, QueryRows(sh), sh.headDim, Cell(batch, qHead, sh.queryHeads)),
                                Strided(sh, host, host.keys, batch, len, kvHead),
                                  Strided(sh, host, host.values, batch, len, kvHead), scale);
        StoreRow(output, QueryRows(sh), Cell(batch, qHead, sh.queryHeads), row);
        ReferenceStep(exp, sh, query, q, scale, before, output[..], batch, qHead);
      }
      ReferenceNext(exp, sh, query, q, scale, output[..], batch);
    }
  }

  lemma ReferenceNothing(exp: RealFn, sh: Shape, query: seq<real>, q: seq<Sequence>, scale: real, out: seq<real>)
    requires SequencesOk(sh, q) && IsMatrix(query, QueryRows(sh), sh.headDim)
    ensures ReferenceDone(exp, sh, query, q, scale, out, 0, 0)
  {}

  lemma DecodeNothing(exp: RealFn, sh: Shape, query: seq<real>, k: seq<real>, v: seq<real>, q: seq<Sequence>,
                      scale: real, out: seq<Option<real>>)
    requires SequencesOk(sh, q) && Inputs(sh, query, k, v)
    ensures DecodeDone(exp, sh, query, k, v, q, scale, out, 0, 0)
  {}

  /** The decode launch over the grid (sequence, query head). */
  method LaunchDecode(exp: RealFn, sh: Shape, query: seq<real>, kCache: seq<real>, vCache: seq<real>, q: seq<Sequence>,
                      warps: nat, lanes: nat, scale: real) returns (output: array<Option<real>>)
    requires IsExp(exp) && SequencesOk(sh, q) && Inputs(sh, query, kCache, vCache) && warps > 0 && IsPow2(lanes)
    ensures fresh(output) && output.Length == |query|
    ensures DecodeDone(exp, sh, query, kCache, vCache, q, scale, output[..], sh.batch, 0)
  {
    hide IsExp, IsPow2, Apart, TableOk, NoRepeat, RowIs, PagedRow, Vec, Cell, DecodeDone, CacheRows, RowsKept;
    output := new Option<real>[|query|](_ => None);
    DecodeNothing(exp, sh, query, kCache, vCache, q, scale, output[..]);
    for batch := 0 to sh.batch
      invariant DecodeDone(exp, sh, query, kCache, vCache, q, scale, output[..], batch, 0)
    {
      var x := q[batch];
      for qHead := 0 to sh.queryHeads
        invariant DecodeDone(exp, sh, query, kCache, vCache, q, scale, output[..], batch, qHead)
      {
        ghost var before := output[..];
        QueryRowInRange(sh, batch, qHead);
        var row := DecodeBlock(exp, sh, query, kCache, vCache, x.table, x.len, batch, qHead, warps, lanes, scale);
        StoreRow(output, QueryRows(sh), Cell(batch, qHead, sh.queryHeads), row);
        DecodeStep(exp, sh, query, kCache, vCache, q, scale, before, output[..], batch, qHead);
      }
      DecodeNext(exp, sh, query, kCache, vCache, q, scale, output[..], batch);
    }
  }

  // -------------------------------------------------------------------------- agreement

  /** On resident K/V the paged row is the reference row; with no token the kernel's row is
      not a number where the reference's is zero. */
  lemma PagedRowIsReference(exp: RealFn, sh: Shape, query: seq<real>, k: seq<real>, v: seq<real>, x: Sequence,
                            scale: real, b: nat, h: nat, d: nat)
    requires Inputs(sh, query, k, v) && b < sh.batch && h < sh.queryHeads && SequenceOk(sh, x) && d < sh.headDim
    requires BothResident(sh, k, v, x)
    ensures PagedAt(exp, sh, query, k, v, x, scale, b, h)[d]
      == if x.len == 0 then None else Some(ReferenceAt(exp, sh, query, x, scale, b, h)[d])
    ensures x.len == 0 ==> ReferenceAt(exp, sh, query, x, scale, b, h)[d] == 0.0
  {
    hide TableOk, NoRepeat, Resident, Paged, Dense, CacheRows, QueryRows, Vec, Cell, Attend, Scores, Column;
    DenseHead(sh, x.keys, x.len, h);
    DenseHead(sh, x.values, x.len, h);
    PagedIsDense(sh, k, x.table, x.len, x.keys, KvHead(sh, h));
    PagedIsDense(sh, v, x.table, x.len, x.values, KvHead(sh, h));
    if x.len == 0 {
      NothingAttended(exp);
      QueryRowInRange(sh, b, h);
      var q := Vec(query, QueryRows(sh), sh.headDim, Cell(b, h, sh.queryHeads));
      assert Scores(q, Dense(sh, x.keys, x.len, KvHead(sh, h)), scale) == [];
      assert Column(Dense(sh, x.values, x.len, KvHead(sh, h)), sh.headDim, d) == [];
    }
  }

  function OutIndex(sh: Shape, b: nat, h: nat, d: nat): nat { Cell(Cell(b, h, sh.queryHeads), d, sh.headDim) }

  /** Two whole outputs, cell by cell. */
  lemma OutputsAgree(exp: RealFn, sh: Shape, query: seq<real>, k: seq<real>, v: seq<real>, q: seq<Sequence>,
                     scale: real, paged: seq<Option<real>>, reference: seq<real>, b: nat, h: nat, d: nat)
    requires SequencesOk(sh, q) && Inputs(sh, query, k, v) && b < sh.batch && h < sh.queryHeads && d < sh.headDim
    requires forall i :: 0 <= i < |q| ==> BothResident(sh, k, v, q[i])
    requires DecodeDone(exp, sh, query, k, v, q, scale, paged, sh.batch, 0)
    requires ReferenceDone(exp, sh, query, q, scale, reference, sh.batch, 0)
    ensures OutIndex(sh, b, h, d) < |paged| && OutIndex(sh, b, h, d) < |reference|
    ensures paged[OutIndex(sh, b, h, d)] == if q[b].len == 0 then None else Some(reference[OutIndex(sh, b, h, d)])
    ensures q[b].len == 0 ==> reference[OutIndex(sh, b, h, d)] == 0.0
  {
    hide SequenceOk, BothResident, Apart, PagedAt, ReferenceAt, Cell, CacheRows, QueryRows, IsMatrix;
    assert Before(b, h, sh.batch, 0);
    PagedRowIsReference(exp, sh, query, k, v, q[b], scale, b, h, d);
  }

  /** Append, decode and reference together, for every sequence length, warp count and GQA ratio. */
  method Validate(exp: RealFn, sh: Shape, query: seq<real>, q: seq<Sequence>, host: Host, warps: nat, lanes: nat,
                  scale: real)
    returns (paged: array<Option<real>>, reference: array<real>)
    requires IsExp(exp) && SequencesOk(sh, q) && IsMatrix(query, QueryRows(sh), sh.headDim) && FromHost(sh, host, q)
    requires warps > 0 && IsPow2(lanes)
    ensures paged.Length == reference.Length == |query|
    ensures forall b, h, d :: 0 <= b < sh.batch && 0 <= h < sh.queryHeads && 0 <= d < sh.headDim ==>
      var i := OutIndex(sh, b, h, d);
      i < |query| && paged[i] == (if q[b].len == 0 then None else Some(reference[i]))
        && (q[b].len == 0 ==> reference[i] == 0.0)
  {
    hide IsExp, IsPow2, SequencesOk, BothResident, QueryRows, CacheRows, DecodeDone, ReferenceDone, OutIndex, FromHost;
    assert ShapeOk(sh) && |q| == sh.batch by { SequencesShape(sh, q); }
    var elements := CacheRows(sh) * sh.headDim;
    var kCache, vCache := new real[elements](_ => 0.0), new real[elements](_ => 0.0);
    AppendAll(sh, q, kCache, vCache);
    ghost var k, v := kCache[..], vCache[..];
    paged := LaunchDecode(exp, sh, query, kCache[..], vCache[..], q, warps, lanes, scale);
    reference := ReferenceDecode(exp, sh, query, q, host, scale);
    forall b, h, d | 0 <= b < sh.batch && 0 <= h < sh.queryHeads && 0 <= d < sh.headDim
      ensures var i := OutIndex(sh, b, h, d);
        i < |query| && paged[i] == (if q[b].len == 0 then None else Some(reference[i]))
          && (q[b].len == 0 ==> reference[i] == 0.0)
    {
      OutputsAgree(exp, sh, query, k, v, q, scale, paged[..], reference[..], b, h, d);
    }
  }

  lemma SequencesShape(sh: Shape, q: seq<Sequence>)
    requires SequencesOk(sh, q)
    ensures ShapeOk(sh) && |q| == sh.batch && forall b :: 0 <= b < |q| ==> SequenceOk(sh, q[b])
  {}
}
