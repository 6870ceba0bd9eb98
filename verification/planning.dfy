/** What admission and scheduling choose, stated without their loops. */
module Planning {
  import opened Protocol
  import opened Arith
  import opened KVCache
  import opened Scheduling
  import opened WorkerSide
  import opened Isolation
  import opened Accounting

  // ------------------------------------------------------------------- admission

  /** The first chunk of `r` fits the free blocks. */
  predicate Fits(cfg: Config, free: nat, r: RequestState) {
    CeilDiv(Min(|r.req.prompt|, cfg.maxNumBatchedTokens), cfg.blockSize) <= free
  }

  function Fitting(cfg: Config, free: nat, ws: seq<RequestState>): seq<RequestState> {
    if ws == [] then []
    else Fitting(cfg, free, ws[..|ws| - 1]) + if Fits(cfg, free, ws[|ws| - 1]) then [ws[|ws| - 1]] else []
  }

  function Misfits(cfg: Config, free: nat, ws: seq<RequestState>): seq<RequestState> {
    if ws == [] then []
    else Misfits(cfg, free, ws[..|ws| - 1]) + if Fits(cfg, free, ws[|ws| - 1]) then [] else [ws[|ws| - 1]]
  }

  /** The scheduler after trying the first `k` waiting requests. */
  ghost predicate Admitted(cfg: Config, s: Sched, k: nat, s': Sched) {
    var free := |s.cache.pool.free|;
    k <= |s.waiting| &&
    var taken := Fitting(cfg, free, s.waiting[..k]);
    && s'.cache.pool == s.cache.pool
    && s'.waiting == s.waiting[k..] + Misfits(cfg, free, s.waiting[..k])
    && |s'.order| == |s.order| + |taken|
    && s'.order[..|s.order|] == s.order
    && (forall i :: 0 <= i < |taken| ==> s'.order[|s.order| + i] == taken[i].req.id)
    && (forall id <- s.running :: id in s'.running && s'.running[id] == s.running[id])
    && (forall i :: 0 <= i < |taken| ==> taken[i].req.id in s'.running && s'.running[taken[i].req.id] == taken[i])
  }

  /** Whether the head of the queue is admitted depends on nothing but the free count. */
  lemma AdmitOneDecision(cfg: Config, s: Sched)
    requires IdsOk(s) && s.waiting != []
    ensures var r, s' := s.waiting[0], AdmitOne(cfg, s);
      if Fits(cfg, |s.cache.pool.free|, r) then
        && s'.cache.pool == s.cache.pool && s'.waiting == s.waiting[1..] && s'.order == s.order + [r.req.id]
        && s'.running == s.running[r.req.id := r] && r.req.id !in s.running
      else s' == s.(waiting := s.waiting[1..] + [r])
  {
    var r := s.waiting[0];
    assert r in s.waiting && r.req.id !in s.cache.tables;
    var c := Create(s.cache, r.req.id);
    assert |c.tables[r.req.id]| == 0;
    if !CanReserve(c, cfg.blockSize, r.req.id, FirstTarget(cfg, r)) {
      assert Release(c, r.req.id).tables == s.cache.tables;
      assert Release(c, r.req.id) == s.cache;
    }
  }

  /** `n` waiting requests are tried: admission stops at the first point where the sequence seats
      are full, or at the end of the queue. */
  ghost predicate Tried(cfg: Config, s: Sched, n: nat) {
    && n <= |s.waiting|
    && (forall j: nat :: j < n ==> |s.order| + |Fitting(cfg, |s.cache.pool.free|, s.waiting[..j])| < cfg.maxNumSeqs)
    && (n == |s.waiting| || |s.order| + |Fitting(cfg, |s.cache.pool.free|, s.waiting[..n])| == cfg.maxNumSeqs)
  }

  lemma {:induction false} AdmitFromSpec(cfg: Config, s: Sched, k: nat, sk: Sched) returns (n: nat)
    requires IdsOk(s) && IdsOk(sk) && Admitted(cfg, s, k, sk) && |sk.order| <= cfg.maxNumSeqs
    requires forall j: nat :: j < k ==> |s.order| + |Fitting(cfg, |s.cache.pool.free|, s.waiting[..j])| < cfg.maxNumSeqs
    ensures Tried(cfg, s, n) && Admitted(cfg, s, n, AdmitFrom(cfg, sk, |s.waiting| - k))
    decreases |s.waiting| - k
  {
    hide IdsOk, AdmitOne, Fits, Fitting, Misfits;
    if sk.waiting == [] || |sk.order| >= cfg.maxNumSeqs || k == |s.waiting| {
      AdmittedLength(cfg, s, k, sk);
      n := k;
    } else {
      AdmitOneIds(cfg, sk);
      AdmittedStep(cfg, s, k, sk);
      n := AdmitFromSpec(cfg, s, k + 1, AdmitOne(cfg, sk));
    }
  }

  lemma AdmittedLength(cfg: Config, s: Sched, k: nat, sk: Sched)
    requires Admitted(cfg, s, k, sk)
    ensures sk.waiting == [] ==> k == |s.waiting|
  {
    hide Fitting, Misfits;
  }

  lemma AdmittedStep(cfg: Config, s: Sched, k: nat, sk: Sched)
    requires IdsOk(s) && IdsOk(sk) && Admitted(cfg, s, k, sk) && k < |s.waiting|
    ensures sk.waiting != [] && Admitted(cfg, s, k + 1, AdmitOne(cfg, sk))
    ensures |AdmitOne(cfg, sk).order| <= |sk.order| + 1
  {
    hide AdmitOne, Fits, IdsOk;
    var free, r := |s.cache.pool.free|, s.waiting[k];
    var misfits := Misfits(cfg, free, s.waiting[..k]);
    assert sk.waiting[0] == r;
    assert s.waiting[..k + 1][..k] == s.waiting[..k] && s.waiting[..k + 1][k] == r;
    assert sk.waiting[1..] == s.waiting[k + 1..] + misfits;
    assert (s.waiting[k + 1..] + misfits) + [r] == s.waiting[k + 1..] + (misfits + [r]);
    AdmitOneDecision(cfg, sk);
    if Fits(cfg, free, r) {
      var taken := Fitting(cfg, free, s.waiting[..k]);
      assert Fitting(cfg, free, s.waiting[..k + 1]) == taken + [r];
    }
  }

  /** Admission as a filter: the pool is untouched; a prefix of the queue is tried once each, in
      order; those whose first chunk fits the free blocks join the running dict in order, and the
      others queue up behind the untried ones. */
  lemma AdmissionFilter(cfg: Config, s: Sched)
    requires IdsOk(s) && |s.order| <= cfg.maxNumSeqs
    ensures exists n: nat :: Tried(cfg, s, n) && Admitted(cfg, s, n, Admit(cfg, s))
  {
    hide AdmitFrom, IdsOk, Tried;
    assert s.waiting[..0] == [] && s.waiting[0..] + [] == s.waiting;
    assert Admitted(cfg, s, 0, s);
    var n := AdmitFromSpec(cfg, s, 0, s);
  }

  // ------------------------------------------------------------------- scheduling

  /** The chunk a request gets when the whole budget is available. */
  function FullChunk(cfg: Config, r: RequestState): int { Min(|All(r)| - r.computed, cfg.maxNumBatchedTokens) }

  /** A reservation fits exactly when the blocks of the target are held already or free. */
  lemma ReserveFits(c: Cache, blockSize: nat, id: RequestId, target: nat)
    requires blockSize > 0 && id in c.tables
    ensures CanReserve(c, blockSize, id, target) <==> CeilDiv(target, blockSize) <= |c.tables[id]| + |c.pool.free|
  {
    hide CeilDiv;
  }

  /** The i-th running request has something to compute, and its full-budget chunk fits. */
  predicate FitsAt(cfg: Config, s: Sched, c: Cache, i: nat)
    requires Keyed(s, c.tables) && i < |s.order|
  {
    var r := s.running[s.order[i]];
    && FullChunk(cfg, r) > 0
    && CeilDiv(r.computed + FullChunk(cfg, r), cfg.blockSize) <= |c.tables[s.order[i]]| + |c.pool.free|
  }

  ghost predicate SomethingFits(cfg: Config, s: Sched, c: Cache, from: nat)
    requires Keyed(s, c.tables)
  {
    exists i: nat :: from <= i < |s.order| && FitsAt(cfg, s, c, i)
  }

  /** With the whole budget left, a round schedules its request exactly when its chunk fits. */
  lemma PlanOneFits(cfg: Config, s: Sched, p: Plan, i: nat)
    requires i < |s.order| && Keyed(s, p.cache.tables) && p.items == [] && p.budget == cfg.maxNumBatchedTokens
    ensures var p' := PlanOne(cfg, s.running[s.order[i]], p);
      if FitsAt(cfg, s, p.cache, i) then p'.items != [] else p' == p
  {
    hide CeilDiv, MakeItem, Reserve;
  }

  lemma {:induction false} PlanGrows(cfg: Config, s: Sched, p: Plan, i: nat)
    requires i <= |s.order| && Keyed(s, p.cache.tables)
    ensures |p.items| <= |PlanFrom(cfg, s, p, i).items|
    decreases |s.order| - i
  {
    hide CanReserve, MakeItem, Reserve;
    if i < |s.order| && p.budget > 0 {
      PlanGrows(cfg, s, PlanOne(cfg, s.running[s.order[i]], p), i + 1);
    }
  }

  /** Nothing is scheduled exactly when no running request's chunk fits. */
  lemma {:induction false} PlanEmpty(cfg: Config, s: Sched, p: Plan, i: nat)
    requires i <= |s.order| && Keyed(s, p.cache.tables) && p.items == [] && p.budget == cfg.maxNumBatchedTokens
    ensures PlanFrom(cfg, s, p, i).items == [] <==> !SomethingFits(cfg, s, p.cache, i)
    decreases |s.order| - i
  {
    hide FitsAt, PlanOne;
    if i < |s.order| {
      var p' := PlanOne(cfg, s.running[s.order[i]], p);
      PlanOneFits(cfg, s, p, i);
      if FitsAt(cfg, s, p.cache, i) {
        PlanGrows(cfg, s, p', i + 1);
      } else {
        PlanEmpty(cfg, s, p, i + 1);
      }
    }
  }

  /** A plan without items reserved nothing. */
  lemma {:induction false} PlanNothing(cfg: Config, s: Sched, p: Plan, i: nat)
    requires i <= |s.order| && Keyed(s, p.cache.tables) && p.items == [] && PlanFrom(cfg, s, p, i).items == []
    ensures PlanFrom(cfg, s, p, i).cache == p.cache
    decreases |s.order| - i
  {
    hide CanReserve, MakeItem, Reserve;
    if i < |s.order| && p.budget > 0 {
      var p' := PlanOne(cfg, s.running[s.order[i]], p);
      PlanGrows(cfg, s, p', i + 1);
      PlanNothing(cfg, s, p', i + 1);
    }
  }

  lemma ScheduleEmpty(cfg: Config, s: Sched)
    requires SchedInv(cfg, s, [])
    ensures IdsOk(s) && Keyed(Admit(cfg, s), Admit(cfg, s).cache.tables)
    ensures Schedule(cfg, s).1.items == [] <==> !SomethingFits(cfg, Admit(cfg, s), Admit(cfg, s).cache, 0)
  {
    hide SchedInv, AdmitFrom, PlanFrom, SomethingFits;
    SchedInvIds(cfg, s, []);
    AdmitInv(cfg, s, |s.waiting|);
    var s1 := Admit(cfg, s);
    SchedInvIds(cfg, s1, []);
    PlanEmpty(cfg, s1, InitialPlan(cfg, s1), 0);
  }

  /** Only the last item may stop short of its request's tokens, and then the budget is spent. */
  ghost predicate Greedy(s: Sched, p: Plan, budget: nat) {
    && TokenCount(p.items) + p.budget == budget
    && (forall k :: 0 <= k < |p.items| ==> p.items[k].id in s.running && |p.items[k].tokenIds| > 0)
    && (forall k :: 0 <= k < |p.items| && p.items[k].seqLen != |All(s.running[p.items[k].id])| ==>
          k == |p.items| - 1 && p.budget == 0)
  }

  lemma PlanOneGreedy(cfg: Config, s: Sched, p: Plan, id: RequestId, budget: nat)
    requires Greedy(s, p, budget) && p.budget > 0 && id in s.running && s.running[id].req.id == id
    requires id in p.cache.tables
    ensures Greedy(s, PlanOne(cfg, s.running[id], p), budget)
  {
    hide CanReserve, SlotsOf, Reserve, CeilDiv, TokenCount;
    var p' := PlanOne(cfg, s.running[id], p);
    if p' != p {
      TokenCountAppend(p.items, p'.items[|p.items|]);
      assert p'.items == p.items + [p'.items[|p.items|]];
    }
  }

  lemma {:induction false} PlanFromGreedy(cfg: Config, s: Sched, p: Plan, i: nat, budget: nat)
    requires i <= |s.order| && Keyed(s, p.cache.tables) && Greedy(s, p, budget)
    ensures Greedy(s, PlanFrom(cfg, s, p, i), budget)
    decreases |s.order| - i
  {
    hide Greedy, PlanOne;
    if i < |s.order| && p.budget > 0 {
      PlanOneGreedy(cfg, s, p, s.order[i], budget);
      PlanFromGreedy(cfg, s, PlanOne(cfg, s.running[s.order[i]], p), i + 1, budget);
    }
  }

  /** Every chunk has at least one token, together they respect the token budget, and chunked
      prefill splits at most one request, the last, and only to use the budget up. */
  lemma ScheduleBudget(cfg: Config, s: Sched)
    requires SchedInv(cfg, s, [])
    ensures IdsOk(s)
    ensures var (s', p) := Schedule(cfg, s);
      && Greedy(s', p, cfg.maxNumBatchedTokens)
      && TokenCount(p.items) <= cfg.maxNumBatchedTokens
  {
    hide SchedInv, AdmitFrom, PlanFrom;
    SchedInvIds(cfg, s, []);
    AdmitInv(cfg, s, |s.waiting|);
    var s1 := Admit(cfg, s);
    SchedInvIds(cfg, s1, []);
    PlanFromGreedy(cfg, s1, InitialPlan(cfg, s1), 0, cfg.maxNumBatchedTokens);
  }

  // ---------------------------------------------------------------- batch as a whole

  /** Which item, and which of its tokens, a flattened token index belongs to. */
  lemma {:induction false} Locate(items: seq<WorkerItem>, blockSize: nat, i: nat) returns (k: nat, j: nat)
    requires blockSize > 0 && AllAccepted(items, blockSize) && i < |Flatten(items, blockSize).slotMapping|
    ensures k < |items| && j < |items[k].slotMapping| && k < |Flatten(items, blockSize).queryStartLoc|
    ensures Flatten(items, blockSize).slotMapping[i] == items[k].slotMapping[j]
    ensures i == Flatten(items, blockSize).queryStartLoc[k] + j
  {
    hide Covers, SlotsOf, CeilDiv;
    var front, last := items[..|items| - 1], items[|items| - 1];
    FlattenShape(front, blockSize);
    var n := |Flatten(front, blockSize).slotMapping|;
    if i < n {
      k, j := Locate(front, blockSize, i);
    } else {
      k, j := |items| - 1, i - n;
    }
  }

  /** All slots written by one batch are pairwise distinct. */
  lemma BatchSlotsDistinct(cfg: Config, s: Sched, items: seq<WorkerItem>)
    requires SchedInv(cfg, s, items) && AllAccepted(items, cfg.blockSize)
    ensures Distinct(Flatten(items, cfg.blockSize).slotMapping)
  {
    hide IdsOk, PoolOk, TablesOk, RequestsOk, ItemFor, SizesOk, SlotOfPosition, Flatten, ItemAccepted;
    var slots := Flatten(items, cfg.blockSize).slotMapping;
    forall a, b | 0 <= a < b < |slots| ensures slots[a] != slots[b] {
      var k, i := Locate(items, cfg.blockSize, a);
      var l, j := Locate(items, cfg.blockSize, b);
      ItemSlots(cfg, s, items, k);
      ItemSlots(cfg, s, items, l);
      if slots[a] == slots[b] {
        SlotDetermines(cfg, s, items[k].id, items[k].startPos + i, items[l].id, items[l].startPos + j, slots[a]);
      }
    }
  }

  lemma SubsetCardinality<T>(a: set<T>, b: set<T>)
    requires a <= b
    ensures |a| <= |b|
  {
    assert b == a + (b - a);
  }

  /** The guards of the kernels and of the metadata builder hold for every scheduled batch: at most
      `max_num_seqs` and at most `num_gpu_blocks` requests, block tables not empty and no wider than the
      configured metadata, and slots inside the physical cache. */
  lemma BatchGuards(cfg: Config, s: Sched, items: seq<WorkerItem>)
    requires SchedInv(cfg, s, items)
    ensures AllAccepted(items, cfg.blockSize)
    ensures |items| <= cfg.maxNumSeqs && |items| <= cfg.numGpuBlocks
    ensures forall k :: 0 <= k < |items| ==>
      0 < CeilDiv(items[k].seqLen, cfg.blockSize) <= CeilDiv(cfg.maxModelLen, cfg.blockSize)
    ensures forall k, i :: 0 <= k < |items| && 0 <= i < |items[k].slotMapping| ==>
      0 <= items[k].slotMapping[i] < cfg.numGpuBlocks * cfg.blockSize
  {
    hide TablesOk, SizesOk, CeilDiv, ItemsOk, PoolOk;
    BatchAccepted(cfg, s, items);
    BatchSize(cfg, s, items);
    BatchOccupies(cfg, s, items);
    forall k | 0 <= k < |items|
      ensures 0 < CeilDiv(items[k].seqLen, cfg.blockSize) <= CeilDiv(cfg.maxModelLen, cfg.blockSize)
    {
      ItemSlots(cfg, s, items, k);
      assert RunningOk(cfg, s.running[items[k].id]);
      CeilDivMonotone(items[k].seqLen, cfg.maxModelLen, cfg.blockSize);
      CeilDivLeast(items[k].seqLen, cfg.blockSize);
    }
    forall k, i | 0 <= k < |items| && 0 <= i < |items[k].slotMapping|
      ensures 0 <= items[k].slotMapping[i] < cfg.numGpuBlocks * cfg.blockSize
    {
      SlotPhysical(cfg, s, items, k, i);
    }
  }

  lemma BatchSize(cfg: Config, s: Sched, items: seq<WorkerItem>)
    requires IdsOk(s) && RequestsOk(cfg, s) && ItemsOk(cfg, s, items)
    ensures |items| <= cfg.maxNumSeqs
  {
    hide ItemFor, RunningOk, WaitingOk;
    var ids := seq(|items|, k requires 0 <= k < |items| => items[k].id);
    DistinctCardinality(ids);
    DistinctCardinality(s.order);
    assert Elements(ids) <= Elements(s.order);
    SubsetCardinality(Elements(ids), Elements(s.order));
  }

  /** Scheduled requests hold at least one block each, and no two share a block. */
  lemma BatchOccupies(cfg: Config, s: Sched, items: seq<WorkerItem>)
    requires CacheOk(cfg.numGpuBlocks, s.cache) && ItemsOk(cfg, s, items)
    ensures |items| <= cfg.numGpuBlocks
  {
    hide CeilDiv, MakeItem;
    forall k | 0 <= k < |items| ensures |s.cache.tables[items[k].id]| > 0 {
      assert ItemFor(cfg, s.running[items[k].id], s.cache.tables[items[k].id], items[k]);
      CeilDivLeast(items[k].seqLen, cfg.blockSize);
    }
    var first := seq(|items|, k requires 0 <= k < |items| => s.cache.tables[items[k].id][0]);
    DistinctCardinality(first);
    var all := Range(cfg.numGpuBlocks);
    forall b | b in Elements(first) ensures b in all {
      var k :| 0 <= k < |first| && first[k] == b;
      assert s.cache.tables[items[k].id][0] in s.cache.pool.used;
    }
    SubsetCardinality(Elements(first), all);
  }

  lemma SlotPhysical(cfg: Config, s: Sched, items: seq<WorkerItem>, k: nat, i: nat)
    requires CacheOk(cfg.numGpuBlocks, s.cache) && ItemsOk(cfg, s, items) && k < |items| && i < |items[k].slotMapping|
    ensures 0 <= items[k].slotMapping[i] < cfg.numGpuBlocks * cfg.blockSize
  {
    hide ItemsOk, CeilDiv;
    ItemSlots(cfg, s, items, k);
    var p := items[k].startPos + i;
    var table := s.cache.tables[items[k].id];
    assert SlotOfPosition(cfg, s, items[k].id, p, items[k].slotMapping[i]);
    DivMonotone(0, p, cfg.blockSize);
    assert table[p / cfg.blockSize] in s.cache.pool.used;
    SlotInRange(table[p / cfg.blockSize], p % cfg.blockSize, cfg.numGpuBlocks, cfg.blockSize);
  }
}
