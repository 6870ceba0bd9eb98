/** The paged KV cache bookkeeping of minivllm/cache.py, as values with the block partition
    invariant. */
module KVCache {
  import opened Protocol
  import opened Arith

  /** `free` is a stack whose top is its last element. */
  datatype Pool = Pool(free: seq<Block>, used: set<Block>)

  datatype Cache = Cache(pool: Pool, tables: map<RequestId, seq<Block>>)

  function Elements<T(==)>(s: seq<T>): set<T> { set x | x in s }

  /** The `n` blocks taken off the free stack, in the order they are popped. */
  function Popped(free: seq<Block>, n: nat): (r: seq<Block>)
    requires n <= |free|
  {
    seq(n, i requires 0 <= i < n => free[|free| - 1 - i])
  }

  function Allocate(p: Pool, n: nat): Pool
    requires n <= |p.free|
  {
    Pool(p.free[..|p.free| - n], p.used + Elements(Popped(p.free, n)))
  }

  function Free(p: Pool, blocks: seq<Block>): Pool {
    Pool(p.free + blocks, p.used - Elements(blocks))
  }

  function BlocksNeeded(c: Cache, blockSize: nat, id: RequestId, target: nat): nat
    requires blockSize > 0 && id in c.tables
  {
    var required := CeilDiv(target, blockSize);
    if required >= |c.tables[id]| then required - |c.tables[id]| else 0
  }

  predicate CanReserve(c: Cache, blockSize: nat, id: RequestId, target: nat)
    requires blockSize > 0 && id in c.tables
  {
    BlocksNeeded(c, blockSize, id, target) <= |c.pool.free|
  }

  function Create(c: Cache, id: RequestId): Cache { c.(tables := c.tables[id := []]) }

  function Reserve(c: Cache, blockSize: nat, id: RequestId, target: nat): Cache
    requires blockSize > 0 && id in c.tables && CanReserve(c, blockSize, id, target)
  {
    var n := BlocksNeeded(c, blockSize, id, target);
    Cache(Allocate(c.pool, n), c.tables[id := c.tables[id] + Popped(c.pool.free, n)])
  }

  function Release(c: Cache, id: RequestId): Cache {
    if id in c.tables then Cache(Free(c.pool, c.tables[id]), c.tables - {id}) else c
  }

  /** Physical slot of logical position `p`. */
  function SlotAt(table: seq<Block>, blockSize: nat, p: nat): (slot: Slot)
    requires blockSize > 0 && p / blockSize < |table|
  {
    table[p / blockSize] * blockSize + p % blockSize
  }

  /** A position's slot lies in the block that the table names for it, at the position's own offset. */
  lemma SlotIs(table: seq<Block>, blockSize: nat, p: nat)
    requires blockSize > 0 && p / blockSize < |table|
    ensures Addresses(table, blockSize, p, SlotAt(table, blockSize, p))
  {
    DivModUnique(SlotAt(table, blockSize, p), blockSize, table[p / blockSize], p % blockSize);
  }

  /** The table addresses every position below `tokens`. */
  predicate Covers(table: seq<Block>, blockSize: nat, tokens: nat)
    requires blockSize > 0
  {
    CeilDiv(tokens, blockSize) <= |table|
  }

  function SlotsOf(table: seq<Block>, blockSize: nat, start: nat, count: nat): (r: seq<Slot>)
    requires blockSize > 0 && Covers(table, blockSize, start + count)
  {
    seq(count, i requires 0 <= i < count =>
      PositionInBlocks(start + i, start + count, blockSize);
      SlotAt(table, blockSize, start + i))
  }

  /** Slot `x` is position p's own offset in the block that the table names for it. */
  ghost predicate Addresses(table: seq<Block>, blockSize: nat, p: nat, x: Slot)
    requires blockSize > 0
  {
    p / blockSize < |table| && x / blockSize == table[p / blockSize] && x % blockSize == p % blockSize
  }

  lemma SlotsAddress(table: seq<Block>, blockSize: nat, start: nat, count: nat)
    requires blockSize > 0 && Covers(table, blockSize, start + count)
    ensures forall i :: 0 <= i < count ==>
      Addresses(table, blockSize, start + i, SlotsOf(table, blockSize, start, count)[i])
  {
    hide SlotAt, CeilDiv;
    forall i | 0 <= i < count
      ensures Addresses(table, blockSize, start + i, SlotsOf(table, blockSize, start, count)[i])
    {
      PositionInBlocks(start + i, start + count, blockSize);
      SlotIs(table, blockSize, start + i);
    }
  }

  // ---------------------------------------------------------------- invariant

  /** Free stack and used set partition the physical blocks [0, n). */
  ghost predicate PoolOk(n: nat, p: Pool) {
    && Distinct(p.free)
    && (forall b <- p.free :: b < n && b !in p.used)
    && (forall b <- p.used :: b < n)
    && (forall b: nat :: b < n ==> b in p.free || b in p.used)
  }

  /** The used set is the disjoint union of the block tables. */
  ghost predicate TablesOk(c: Cache) {
    && (forall a, i :: a in c.tables && 0 <= i < |c.tables[a]| ==> c.tables[a][i] in c.pool.used)
    && (forall a, i, b, j | a in c.tables && b in c.tables && 0 <= i < |c.tables[a]| && 0 <= j < |c.tables[b]| ::
          c.tables[a][i] == c.tables[b][j] ==> a == b && i == j)
    && (forall x <- c.pool.used :: exists a :: a in c.tables && x in c.tables[a])
  }

  ghost predicate CacheOk(n: nat, c: Cache) { PoolOk(n, c.pool) && TablesOk(c) }

  lemma CreateOk(n: nat, c: Cache, id: RequestId)
    requires CacheOk(n, c) && id !in c.tables
    ensures CacheOk(n, Create(c, id))
    ensures Release(Create(c, id), id) == c
  {
    var c' := Create(c, id);
    forall x | x in c'.pool.used ensures exists a :: a in c'.tables && x in c'.tables[a] {
      var a :| a in c.tables && x in c.tables[a];
      assert a in c'.tables && x in c'.tables[a];
    }
  }

  /** Popping splits a stack of distinct blocks in two. */
  lemma StackSplit(free: seq<Block>, n: nat)
    requires n <= |free| && Distinct(free)
    ensures Distinct(Popped(free, n)) && Distinct(free[..|free| - n])
    ensures forall b :: b in free <==> b in free[..|free| - n] || b in Popped(free, n)
    ensures forall b <- free[..|free| - n] :: b !in Popped(free, n)
  {
    var popped, rest := Popped(free, n), free[..|free| - n];
    forall b | b in popped ensures b in free {
      var i :| 0 <= i < |popped| && popped[i] == b;
      assert free[|free| - 1 - i] == b;
    }
    forall b | b in free ensures b in rest || b in popped {
      var i :| 0 <= i < |free| && free[i] == b;
      if i < |rest| { assert rest[i] == b; } else { assert popped[|free| - 1 - i] == b; }
    }
    forall b | b in rest ensures b !in popped {
      var i :| 0 <= i < |rest| && rest[i] == b;
      assert free[i] == b;
    }
  }

  lemma AllocateOk(n: nat, p: Pool, count: nat)
    requires PoolOk(n, p) && count <= |p.free|
    ensures PoolOk(n, Allocate(p, count)) && Distinct(Popped(p.free, count))
    ensures forall i :: 0 <= i < count ==> Popped(p.free, count)[i] !in p.used
  {
    hide Distinct;
    StackSplit(p.free, count);
    var popped := Popped(p.free, count);
    forall i | 0 <= i < count ensures popped[i] !in p.used { assert popped[i] in popped; }
    var p' := Allocate(p, count);
    forall b | b in p'.used ensures b < n { assert b in p.used || b in popped; }
    forall b | b in p'.free ensures b < n && b !in p'.used { assert b in p.free; }
    forall b: nat | b < n ensures b in p'.free || b in p'.used { assert b in p.free || b in p.used; }
  }

  lemma ReserveOk(n: nat, c: Cache, blockSize: nat, id: RequestId, target: nat)
    requires blockSize > 0 && CacheOk(n, c) && id in c.tables && CanReserve(c, blockSize, id, target)
    ensures CacheOk(n, Reserve(c, blockSize, id, target))
    ensures |c.tables[id]| <= CeilDiv(target, blockSize)
      ==> |Reserve(c, blockSize, id, target).tables[id]| == CeilDiv(target, blockSize)
  {
    var count := BlocksNeeded(c, blockSize, id, target);
    var c' := Reserve(c, blockSize, id, target);
    AllocateOk(n, c.pool, count);
    var popped := Popped(c.pool.free, count);
    var t, t' := c.tables[id], c'.tables[id];
    forall x | x in c'.pool.used ensures exists a :: a in c'.tables && x in c'.tables[a] {
      if x in popped {
        assert x in c'.tables[id];
      } else {
        var a :| a in c.tables && x in c.tables[a];
        assert a in c'.tables && x in c'.tables[a];
      }
    }
    forall i | 0 <= i < |t'| ensures t'[i] == if i < |t| then t[i] else popped[i - |t|] {}
    forall a, i, b, j | a in c'.tables && b in c'.tables && 0 <= i < |c'.tables[a]| && 0 <= j < |c'.tables[b]|
      && c'.tables[a][i] == c'.tables[b][j]
      ensures a == b && i == j
    {
      assert a == id && i >= |t| ==> c'.tables[a][i] in popped;
      assert b == id && j >= |t| ==> c'.tables[b][j] in popped;
      assert !(a == id && i >= |t|) ==> c'.tables[a][i] == c.tables[a][i];
      assert !(b == id && j >= |t|) ==> c'.tables[b][j] == c.tables[b][j];
    }
  }

  lemma ReleaseOk(n: nat, c: Cache, id: RequestId)
    requires CacheOk(n, c) && id in c.tables
    ensures CacheOk(n, Release(c, id))
    ensures Distinct(c.tables[id]) && forall b <- c.tables[id] :: b in c.pool.used
  {
    var c', t := Release(c, id), c.tables[id];
    forall x | x in c'.pool.used ensures exists a :: a in c'.tables && x in c'.tables[a] {
      var a :| a in c.tables && x in c.tables[a];
      assert a in c'.tables && x in c'.tables[a];
    }
    forall a, i | a in c'.tables && 0 <= i < |c'.tables[a]| ensures c'.tables[a][i] in c'.pool.used {
      assert c'.tables[a] == c.tables[a];
      assert c.tables[a][i] !in t;
    }
  }

  /** No block is in two tables, or twice in one. */
  lemma BlockOwner(c: Cache, a: RequestId, i: nat, b: RequestId, j: nat)
    requires TablesOk(c) && a in c.tables && b in c.tables && i < |c.tables[a]| && j < |c.tables[b]|
    requires c.tables[a][i] == c.tables[b][j]
    ensures a == b && i == j
  {}

  /** Distinct (request, position) pairs never share a physical slot. */
  lemma SlotsDisjoint(c: Cache, blockSize: nat, a: RequestId, p: nat, b: RequestId, q: nat)
    requires TablesOk(c) && blockSize > 0 && a in c.tables && b in c.tables
    requires p / blockSize < |c.tables[a]| && q / blockSize < |c.tables[b]|
    ensures SlotAt(c.tables[a], blockSize, p) == SlotAt(c.tables[b], blockSize, q) <==> a == b && p == q
  {
    hide TablesOk;
    var i, j := p / blockSize, q / blockSize;
    DivMonotone(0, p, blockSize);
    DivMonotone(0, q, blockSize);
    SlotUnique(c.tables[a][i], p % blockSize, c.tables[b][j], q % blockSize, blockSize);
    if SlotAt(c.tables[a], blockSize, p) == SlotAt(c.tables[b], blockSize, q) {
      BlockOwner(c, a, i, b, j);
      DivModDetermine(p, q, blockSize);
    }
  }

  // ------------------------------------------------------------- block counts

  /** Sum of the table lengths of the requests in `ids`. */
  ghost function HeldBlocks(ids: seq<RequestId>, tables: map<RequestId, seq<Block>>): nat
    requires forall id <- ids :: id in tables
  {
    if ids == [] then 0 else |tables[ids[0]]| + HeldBlocks(ids[1..], tables)
  }

  lemma {:induction false} DistinctCardinality<T>(s: seq<T>)
    requires Distinct(s)
    ensures |Elements(s)| == |s|
  {
    if s != [] {
      DistinctCardinality(s[1..]);
      assert Elements(s) == Elements(s[1..]) + {s[0]};
    }
  }

  ghost function Range(n: nat): (r: set<Block>)
    ensures forall x :: x in r <==> 0 <= x < n
    ensures |r| == n
  {
    if n == 0 then {} else Range(n - 1) + {n - 1}
  }

  ghost function BlocksOf(ids: seq<RequestId>, tables: map<RequestId, seq<Block>>): set<Block>
    requires forall id <- ids :: id in tables
  {
    if ids == [] then {} else Elements(tables[ids[0]]) + BlocksOf(ids[1..], tables)
  }

  lemma {:induction false} HeldIsCardinality(c: Cache, ids: seq<RequestId>)
    requires TablesOk(c) && Distinct(ids) && forall id <- ids :: id in c.tables
    ensures |BlocksOf(ids, c.tables)| == HeldBlocks(ids, c.tables)
    ensures forall x :: x in BlocksOf(ids, c.tables) <==> exists id :: id in ids && x in c.tables[id]
  {
    if ids == [] {
    } else {
      var head, tail := ids[0], ids[1..];
      HeldIsCardinality(c, tail);
      DistinctCardinality(c.tables[head]);
      assert Elements(c.tables[head]) !! BlocksOf(tail, c.tables);
      assert forall id :: id in ids <==> id == head || id in tail;
    }
  }

  lemma PoolCardinality(n: nat, p: Pool)
    requires PoolOk(n, p)
    ensures |p.free| + |p.used| == n
  {
    var free, all := Elements(p.free), Range(n);
    DistinctCardinality(p.free);
    forall x: nat ensures x in free + p.used <==> x in all { assert x in free <==> x in p.free; }
    assert free + p.used == all;
    assert free !! p.used;
  }

  /** Exact accounting: blocks on the free stack plus blocks held by tables is the pool size. */
  lemma BlockConservation(n: nat, c: Cache, ids: seq<RequestId>)
    requires CacheOk(n, c) && Distinct(ids) && Elements(ids) == c.tables.Keys
    ensures BlocksOf(ids, c.tables) == c.pool.used
    ensures |c.pool.free| + HeldBlocks(ids, c.tables) == n
  {
    assert forall id :: id in ids <==> id in Elements(ids);
    HeldIsCardinality(c, ids);
    PoolCardinality(n, c.pool);
    forall x ensures x in BlocksOf(ids, c.tables) <==> x in c.pool.used {
      if x in c.pool.used {
        var a :| a in c.tables && x in c.tables[a];
        assert a in ids;
      }
    }
  }
}
