/** Which running requests a step schedules, and with which chunks, stated on the finished batch
    rather than on the loop of minivllm/scheduler.py that builds it. */
module Choice {
  import opened Protocol
  import opened Arith
  import opened KVCache
  import opened Scheduling
  import opened Accounting
  import opened Planning

  /** Blocks that the items add to their requests' tables. */
  ghost function BlocksTaken(blockSize: nat, items: seq<WorkerItem>): int
    requires blockSize > 0
  {
    if items == [] then 0
    else
      var last := items[|items| - 1];
      BlocksTaken(blockSize, items[..|items| - 1]) + CeilDiv(last.seqLen, blockSize) - CeilDiv(last.startPos, blockSize)
  }

  lemma BlocksTakenAppend(blockSize: nat, items: seq<WorkerItem>, item: WorkerItem)
    requires blockSize > 0
    ensures BlocksTaken(blockSize, items + [item])
      == BlocksTaken(blockSize, items) + CeilDiv(item.seqLen, blockSize) - CeilDiv(item.startPos, blockSize)
  {
    assert (items + [item])[..|items|] == items;
  }

  /** How many of the increasing positions lie before i. */
  function Rank(pos: seq<nat>, i: nat): (k: nat)
    ensures k <= |pos|
  {
    if pos == [] then 0 else if pos[|pos| - 1] < i then |pos| else Rank(pos[..|pos| - 1], i)
  }

  /** A request's chunk after the items `before` took their share of the token budget; nothing is left
      to schedule when it is not positive. */
  function Chunk(cfg: Config, r: RequestState, before: seq<WorkerItem>): int {
    Min(|r.req.prompt| + |r.output| - r.computed, cfg.maxNumBatchedTokens - TokensIn(before))
  }

  function TokensIn(items: seq<WorkerItem>): nat {
    if items == [] then 0 else TokensIn(items[..|items| - 1]) + |items[|items| - 1].tokenIds|
  }

  lemma TokensInAppend(items: seq<WorkerItem>, item: WorkerItem)
    ensures TokensIn(items + [item]) == TokensIn(items) + |item.tokenIds|
  {
    assert (items + [item])[..|items|] == items;
  }

  /** After the items `before`, the i-th running request has a chunk to compute, and the blocks it adds
      fit those that are left of `free`. */
  ghost predicate Takes(cfg: Config, s: Sched, free: nat, before: seq<WorkerItem>, i: nat)
    requires i < |s.order| && s.order[i] in s.running
  {
    var r := s.running[s.order[i]];
    var chunk := Chunk(cfg, r, before);
    && chunk > 0
    && CeilDiv(r.computed + chunk, cfg.blockSize) - CeilDiv(r.computed, cfg.blockSize)
       <= free - BlocksTaken(cfg.blockSize, before)
  }

  /** Item k is the next chunk of the request at position i of the running order. */
  ghost predicate ChunkOf(cfg: Config, s: Sched, items: seq<WorkerItem>, k: nat, i: nat)
    requires k < |items| && i < |s.order| && s.order[i] in s.running
  {
    var r := s.running[s.order[i]];
    && items[k].id == s.order[i] && items[k].startPos == r.computed
    && |items[k].tokenIds| == Chunk(cfg, r, items[..k]) && items[k].seqLen == r.computed + |items[k].tokenIds|
  }

  ghost predicate Increasing(pos: seq<nat>, n: nat) {
    (forall j, k :: 0 <= j < k < |pos| ==> pos[j] < pos[k]) && forall k :: 0 <= k < |pos| ==> pos[k] < n
  }

  /** Among the first n running requests exactly those that take a chunk after the items of the requests
      before them are scheduled, in running order; `pos` says where the items come from. */
  ghost predicate Chosen(cfg: Config, s: Sched, free: nat, items: seq<WorkerItem>, pos: seq<nat>, n: nat) {
    && n <= |s.order| && (forall i :: 0 <= i < |s.order| ==> s.order[i] in s.running)
    && |pos| == |items| && Increasing(pos, n)
    && (forall k :: 0 <= k < |items| ==> ChunkOf(cfg, s, items, k, pos[k]))
    && (forall i :: 0 <= i < n ==> (i in pos <==> Takes(cfg, s, free, items[..Rank(pos, i)], i)))
  }

  // ------------------------------------------------------------------------ the loop

  lemma RankPast(pos: seq<nat>, n: nat, i: nat)
    requires Increasing(pos, n) && n <= i
    ensures Rank(pos, i) == |pos| && i !in pos
  {}

  lemma RankAppend(pos: seq<nat>, n: nat, i: nat)
    requires i <= n
    ensures Rank(pos + [n], i) == Rank(pos, i)
  {
    assert (pos + [n])[..|pos|] == pos;
  }

  /** Passing over a request that takes nothing. */
  lemma ChosenSkip(cfg: Config, s: Sched, free: nat, items: seq<WorkerItem>, pos: seq<nat>, n: nat)
    requires Chosen(cfg, s, free, items, pos, n) && n < |s.order| && !Takes(cfg, s, free, items, n)
    ensures Chosen(cfg, s, free, items, pos, n + 1)
  {
    hide Takes, ChunkOf, Rank;
    RankPast(pos, n, n);
    assert items[..|items|] == items;
  }

  /** Scheduling a request that takes its chunk. */
  lemma ChosenTake(cfg: Config, s: Sched, free: nat, items: seq<WorkerItem>, pos: seq<nat>, n: nat, item: WorkerItem)
    requires Chosen(cfg, s, free, items, pos, n) && n < |s.order| && Takes(cfg, s, free, items, n)
    requires ChunkOf(cfg, s, items + [item], |items|, n)
    ensures Chosen(cfg, s, free, items + [item], pos + [n], n + 1)
  {
    hide Takes, Rank, Chunk;
    var items', pos' := items + [item], pos + [n];
    forall k | 0 <= k < |items'| ensures ChunkOf(cfg, s, items', k, pos'[k]) {
      if k < |items| {
        assert items'[..k] == items[..k];
        assert ChunkOf(cfg, s, items, k, pos[k]);
      }
    }
    forall i | 0 <= i < n + 1 ensures i in pos' <==> Takes(cfg, s, free, items'[..Rank(pos', i)], i) {
      RankAppend(pos, n, i);
      assert items'[..Rank(pos, i)] == items[..Rank(pos, i)];
      if i == n {
        RankPast(pos, n, n);
        assert items[..|items|] == items;
      }
    }
  }

  /** What is left of budget and pool during the loop. */
  ghost predicate Left(cfg: Config, p: Plan, free: nat) {
    && p.budget + TokensIn(p.items) == cfg.maxNumBatchedTokens
    && |p.cache.pool.free| + BlocksTaken(cfg.blockSize, p.items) == free
  }

  /** One round schedules its request exactly when it takes its chunk, and then with that chunk. */
  lemma PlanOneTakes(cfg: Config, s: Sched, p: Plan, free: nat, i: nat)
    requires i < |s.order| && s.order[i] in s.running && s.running[s.order[i]].req.id == s.order[i]
    requires s.order[i] in p.cache.tables && Left(cfg, p, free) && p.budget > 0
    requires |p.cache.tables[s.order[i]]| == CeilDiv(s.running[s.order[i]].computed, cfg.blockSize)
    ensures var p' := PlanOne(cfg, s.running[s.order[i]], p);
      && Left(cfg, p', free)
      && if Takes(cfg, s, free, p.items, i) then
           |p'.items| == |p.items| + 1 && p'.items[..|p.items|] == p.items && ChunkOf(cfg, s, p'.items, |p.items|, i)
         else p' == p
  {
    hide CeilDiv, SlotsOf;
    var r, p' := s.running[s.order[i]], PlanOne(cfg, s.running[s.order[i]], p);
    var chunk := Chunk(cfg, r, p.items);
    if chunk > 0 { CeilDivMonotone(r.computed, r.computed + chunk, cfg.blockSize); }
    if p' != p {
      var item := p'.items[|p.items|];
      assert p'.items == p.items + [item];
      TokensInAppend(p.items, item);
      BlocksTakenAppend(cfg.blockSize, p.items, item);
    }
  }

  /** Nobody takes a chunk once the budget is spent. */
  lemma {:induction false} ChosenRest(cfg: Config, s: Sched, free: nat, p: Plan, pos: seq<nat>, n: nat)
    requires Chosen(cfg, s, free, p.items, pos, n) && Left(cfg, p, free) && p.budget == 0
    ensures Chosen(cfg, s, free, p.items, pos, |s.order|)
    decreases |s.order| - n
  {
    hide Chosen;
    if n < |s.order| {
      assert s.order[n] in s.running by { ChosenRunning(cfg, s, free, p.items, pos, n); }
      ChosenSkip(cfg, s, free, p.items, pos, n);
      ChosenRest(cfg, s, free, p, pos, n + 1);
    } else {
      ChosenRunning(cfg, s, free, p.items, pos, n);
    }
  }

  lemma ChosenRunning(cfg: Config, s: Sched, free: nat, items: seq<WorkerItem>, pos: seq<nat>, n: nat)
    requires Chosen(cfg, s, free, items, pos, n)
    ensures n <= |s.order| && forall i :: 0 <= i < |s.order| ==> s.order[i] in s.running
  {}

  /** A request that has no item yet holds exactly the blocks of its computed tokens. */
  lemma PendingTable(cfg: Config, s: Sched, p: Plan, id: RequestId)
    requires PlanInv(cfg, s, p) && id in s.running && Unscheduled(p.items, id)
    ensures id in p.cache.tables && s.running[id].req.id == id
    ensures |p.cache.tables[id]| == CeilDiv(s.running[id].computed, cfg.blockSize)
  {
    hide CacheOk, RequestsOk, ItemsOk, CeilDiv, CountsOk;
  }

  lemma {:induction false} PlanFromChoice(cfg: Config, s: Sched, p: Plan, free: nat, pos: seq<nat>, i: nat)
    returns (pos': seq<nat>)
    requires PlanInv(cfg, s, p) && Left(cfg, p, free) && Chosen(cfg, s, free, p.items, pos, i)
    requires Distinct(s.order) && forall j :: i <= j < |s.order| ==> Unscheduled(p.items, s.order[j])
    ensures Chosen(cfg, s, free, PlanFrom(cfg, s, p, i).items, pos', |s.order|)
    decreases |s.order| - i
  {
    hide SchedInv, PlanOne, CountsOk, Chosen, Left, Takes, ChunkOf;
    ChosenRunning(cfg, s, free, p.items, pos, i);
    if i == |s.order| {
      pos' := pos;
    } else if p.budget == 0 {
      ChosenRest(cfg, s, free, p, pos, i);
      pos' := pos;
    } else {
      var id := s.order[i];
      PendingTable(cfg, s, p, id);
      PlanOneTakes(cfg, s, p, free, i);
      PlanOneInv(cfg, s, p, id);
      var p' := PlanOne(cfg, s.running[id], p);
      if Takes(cfg, s, free, p.items, i) {
        assert p'.items == p.items + [p'.items[|p.items|]];
        ChosenTake(cfg, s, free, p.items, pos, i, p'.items[|p.items|]);
        pos' := PlanFromChoice(cfg, s, p', free, pos + [i], i + 1);
      } else {
        ChosenSkip(cfg, s, free, p.items, pos, i);
        pos' := PlanFromChoice(cfg, s, p', free, pos, i + 1);
      }
    }
  }

  /** Continuous batching, exactly: after admission a running request gets an item if and only if tokens
      remain, some of the budget is left after the items before it, and the blocks of its chunk fit
      those that are left then; items follow the running order, with exactly those chunks. */
  lemma ScheduleChoice(cfg: Config, s: Sched) returns (pos: seq<nat>)
    requires SchedInv(cfg, s, [])
    ensures IdsOk(s)
    ensures Chosen(cfg, Admit(cfg, s), |s.cache.pool.free|, Schedule(cfg, s).1.items, pos, |Admit(cfg, s).order|)
  {
    hide SchedInv, AdmitFrom, PlanFrom, CanReserve;
    SchedInvIds(cfg, s, []);
    AdmitInv(cfg, s, |s.waiting|);
    var s1 := Admit(cfg, s);
    SchedInvIds(cfg, s1, []);
    assert s1.(cache := s1.cache) == s1;
    SamePool(cfg, s);
    pos := PlanFromChoice(cfg, s1, InitialPlan(cfg, s1), |s.cache.pool.free|, [], 0);
  }

  lemma SamePool(cfg: Config, s: Sched)
    requires SchedInv(cfg, s, [])
    ensures Admit(cfg, s).cache.pool == s.cache.pool
  {
    hide IdsOk, CacheOk, ItemsOk, SizesOk, AdmitFrom, Tried, WaitingOk, RunningOk;
    AdmissionFilter(cfg, s);
    var n: nat :| Tried(cfg, s, n) && Admitted(cfg, s, n, Admit(cfg, s));
  }
}
