/** minivllm/cache.py in place: the block pool and the per-request tables as mutable objects.
    A raised exception is an `ok == false` or `None` result. */
module PagedCache {
  import opened Protocol
  import opened Arith
  import opened KVCache
  import opened Scheduling

  class BlockPool {
    const numBlocks: nat
    var free: seq<Block>
    var used: set<Block>

    ghost function State(): Pool
      reads this
    {
      Pool(free, used)
    }

    constructor (n: nat)
      ensures numBlocks == n && State() == InitialPool(n)
      ensures |free| == n && used == {} && forall i :: 0 <= i < n ==> free[i] == n - 1 - i
    {
      numBlocks := n;
      free := seq(n, i requires 0 <= i < n => n - 1 - i);
      used := {};
    }

    /** MemoryError, leaving the pool alone, when fewer than `count` blocks are free. */
    method AllocateBlocks(count: nat) returns (r: Option<seq<Block>>)
      modifies this
      ensures r.None? <==> count > |old(free)|
      ensures r.None? ==> State() == old(State())
      ensures r.Some? ==> r.value == Popped(old(free), count) && State() == Allocate(old(State()), count)
      ensures r.Some? ==> |r.value| == count && free == old(free)[..|old(free)| - count]
      ensures r.Some? ==> forall i :: 0 <= i < count ==> r.value[i] == old(free)[|old(free)| - 1 - i]
      ensures r.Some? ==> forall b :: b in used <==> b in old(used) || b in r.value
    {
      if count > |free| {
        return None;
      }
      var blocks: seq<Block> := [];
      for i := 0 to count
        invariant used == old(used) && free == old(free)[..|old(free)| - i] && blocks == Popped(old(free), i)
      {
        blocks := blocks + [free[|free| - 1]];
        free := free[..|free| - 1];
      }
      used := used + Elements(blocks);
      return Some(blocks);
    }

    /** RuntimeError at the first block that is not allocated; the blocks before it stay freed. */
    method FreeBlocks(blocks: seq<Block>) returns (ok: bool)
      modifies this
      ensures ok <==> Distinct(blocks) && forall b <- blocks :: b in old(used)
      ensures ok ==> State() == Free(old(State()), blocks)
      ensures ok ==> free == old(free) + blocks && forall b :: b in used <==> b in old(used) && b !in blocks
      ensures !ok ==> exists k :: 0 <= k < |blocks| && blocks[k] !in used && State() == Free(old(State()), blocks[..k])
    {
      for i := 0 to |blocks|
        invariant free == old(free) + blocks[..i] && used == old(used) - Elements(blocks[..i])
        invariant Distinct(blocks[..i]) && forall j :: 0 <= j < i ==> blocks[j] in old(used)
      {
        if blocks[i] !in used {
          ghost var front := blocks[..i];
          assert blocks[i] in old(used) ==> exists j :: 0 <= j < i && front[j] == blocks[i];
          assert State() == Free(old(State()), blocks[..i]);
          return false;
        }
        assert blocks[..i + 1] == blocks[..i] + [blocks[i]];
        assert forall j :: 0 <= j < i ==> blocks[..i][j] == blocks[j];
        used := used - {blocks[i]};
        free := free + [blocks[i]];
      }
      assert blocks[..|blocks|] == blocks;
      return true;
    }
  }

  class KVCacheManager {
    const blockSize: nat
    const pool: BlockPool
    var tables: map<RequestId, seq<Block>>

    ghost function State(): Cache
      reads this, pool
    {
      Cache(pool.State(), tables)
    }

    constructor (numBlocks: nat, size: nat)
      ensures blockSize == size && fresh(pool) && State() == Cache(InitialPool(numBlocks), map[])
    {
      blockSize := size;
      pool := new BlockPool(numBlocks);
      tables := map[];
    }

    method CreateTable(id: RequestId) returns (ok: bool)
      modifies this
      ensures ok <==> id !in old(tables)
      ensures State() == if ok then Create(old(State()), id) else old(State())
    {
      if id in tables {
        return false;
      }
      tables := tables[id := []];
      return true;
    }

    method MayReserve(id: RequestId, target: nat) returns (ok: bool)
      requires blockSize > 0 && id in tables
      ensures ok == CanReserve(State(), blockSize, id, target)
      ensures ok <==> target <= (|tables[id]| + |pool.free|) * blockSize
    {
      CeilDivFits(target, blockSize, |tables[id]| + |pool.free|);
      var required := CeilDiv(target, blockSize);
      var needed := if required - |tables[id]| > 0 then required - |tables[id]| else 0;
      ok := needed <= |pool.free|;
    }

    /** MemoryError exactly when the reservation does not fit. */
    method ReserveTable(id: RequestId, target: nat) returns (ok: bool)
      requires blockSize > 0 && id in tables
      modifies this, pool
      ensures ok == old(CanReserve(State(), blockSize, id, target))
      ensures ok <==> target <= (|old(tables[id])| + |old(pool.free)|) * blockSize
      ensures ok ==> id in tables && old(tables[id]) <= tables[id] && target <= |tables[id]| * blockSize
      ensures State() == if ok then Reserve(old(State()), blockSize, id, target) else old(State())
    {
      CeilDivFits(target, blockSize, |tables[id]| + |pool.free|);
      var count := BlocksNeeded(Cache(Pool(pool.free, pool.used), tables), blockSize, id, target);
      var blocks := pool.AllocateBlocks(count);
      match blocks
      case None => ok := false;
      case Some(b) =>
        tables := tables[id := tables[id] + b];
        CeilDivFits(target, blockSize, |tables[id]|);
        ok := true;
    }

    /** Physical slots of `count` positions from `start` on; the table must reach that far. */
    method Slots(id: RequestId, start: nat, count: nat) returns (slots: seq<Slot>)
      requires blockSize > 0 && id in tables && Covers(tables[id], blockSize, start + count)
      ensures slots == SlotsOf(tables[id], blockSize, start, count)
      ensures |slots| == count && forall i :: 0 <= i < count ==> Addresses(tables[id], blockSize, start + i, slots[i])
    {
      hide CeilDiv;
      ghost var all := SlotsOf(tables[id], blockSize, start, count);
      slots := [];
      for position := start to start + count
        invariant slots == all[..position - start]
      {
        PositionInBlocks(position, start + count, blockSize);
        var logicalBlock, offset := position / blockSize, position % blockSize;
        assert all[position - start] == SlotAt(tables[id], blockSize, position);
        slots := slots + [tables[id][logicalBlock] * blockSize + offset];
      }
      SlotsAddress(tables[id], blockSize, start, count);
    }

    /** Releasing an unknown id does nothing; freeing never raises while tables are disjoint. */
    method ReleaseTable(id: RequestId) returns (ok: bool)
      requires TablesOk(State())
      modifies this, pool
      ensures ok && State() == Release(old(State()), id)
    {
      if id !in tables {
        return true;
      }
      var table := tables[id];
      tables := tables - {id};
      ok := pool.FreeBlocks(table);
      assert Distinct(table) && forall b <- table :: b in old(pool.used) by {
        var c := old(State());
        assert forall i :: 0 <= i < |table| ==> c.tables[id][i] == table[i];
      }
    }
  }
}
