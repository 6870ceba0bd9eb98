/** The token scheduler of minivllm/scheduler.py as functions on values, with the
    invariant every operation keeps.  `scheduler_class.dfy` holds the in-place form. */
module Scheduling {
  import opened Protocol
  import opened Arith
  import opened KVCache

  datatype RequestState = RequestState(req: EngineRequest, output: seq<Token>, computed: nat)

  function All(r: RequestState): seq<Token> { r.req.prompt + r.output }

  /** `order` and `running` together are the OrderedDict of running requests. */
  datatype Sched = Sched(
    waiting: seq<RequestState>,
    order: seq<RequestId>,
    running: map<RequestId, RequestState>,
    cache: Cache)

  function InitialPool(n: nat): Pool { Pool(seq(n, i requires 0 <= i < n => n - 1 - i), {}) }

  function Initial(cfg: Config): Sched { Sched([], [], map[], Cache(InitialPool(cfg.numGpuBlocks), map[])) }

  // --------------------------------------------------------------- operations

  /** Index of the first waiting request with this id, or |waiting|. */
  function FindWaiting(waiting: seq<RequestState>, id: RequestId): (i: nat)
    ensures i <= |waiting| && (forall k | 0 <= k < i :: waiting[k].req.id != id)
    ensures i < |waiting| ==> waiting[i].req.id == id
  {
    if waiting == [] then 0
    else if waiting[0].req.id == id then 0
    else 1 + FindWaiting(waiting[1..], id)
  }

  /** `None` is the ValueError of a duplicate id or a prompt that fills the context. */
  function AddRequest(cfg: Config, s: Sched, req: EngineRequest): Option<Sched> {
    if req.id in s.running || FindWaiting(s.waiting, req.id) < |s.waiting| then None
    else if |req.prompt| >= ContextLimit(cfg) then None
    else Some(s.(waiting := s.waiting + [RequestState(req, [], 0)]))
  }

  function FirstTarget(cfg: Config, r: RequestState): nat { Min(|r.req.prompt|, cfg.maxNumBatchedTokens) }

  /** One round of the admission loop: try the head of the waiting queue. */
  function AdmitOne(cfg: Config, s: Sched): Sched
    requires s.waiting != []
  {
    var r := s.waiting[0];
    var c := Create(s.cache, r.req.id);
    if !CanReserve(c, cfg.blockSize, r.req.id, FirstTarget(cfg, r)) then
      s.(waiting := s.waiting[1..] + [r], cache := Release(c, r.req.id))
    else
      Sched(s.waiting[1..], s.order + [r.req.id], s.running[r.req.id := r], c)
  }

  function AdmitFrom(cfg: Config, s: Sched, attempts: nat): Sched
    decreases attempts
  {
    if s.waiting == [] || |s.order| >= cfg.maxNumSeqs || attempts == 0 then s
    else AdmitFrom(cfg, AdmitOne(cfg, s), attempts - 1)
  }

  function Admit(cfg: Config, s: Sched): Sched { AdmitFrom(cfg, s, |s.waiting|) }

  /** Loop state of `schedule`. */
  datatype Plan = Plan(cache: Cache, budget: nat, items: seq<WorkerItem>, counts: map<RequestId, nat>)

  function MakeItem(cfg: Config, r: RequestState, table: seq<Block>, target: nat): WorkerItem
    requires r.computed <= target <= |All(r)| && Covers(table, cfg.blockSize, target)
  {
    WorkerItem(
      r.req.id, All(r)[r.computed..target], r.computed,
      SlotsOf(table, cfg.blockSize, r.computed, target - r.computed),
      table, target, |r.output|, target == |All(r)|, r.req.params.temperature)
  }

  /** One round of the scheduling loop for request `r`. */
  function PlanOne(cfg: Config, r: RequestState, p: Plan): (p': Plan)
    requires r.req.id in p.cache.tables
    ensures p'.cache.tables.Keys == p.cache.tables.Keys
  {
    var id := r.req.id;
    var remaining := |All(r)| - r.computed;
    if remaining <= 0 then p
    else
      var count := Min(remaining, p.budget);
      var target := r.computed + count;
      if !CanReserve(p.cache, cfg.blockSize, id, target) then p
      else
        var c := Reserve(p.cache, cfg.blockSize, id, target);
        Plan(c, p.budget - count, p.items + [MakeItem(cfg, r, c.tables[id], target)], p.counts[id := count])
  }

  /** Every key of the running dict has its state and a block table. */
  ghost predicate Keyed(s: Sched, tables: map<RequestId, seq<Block>>) {
    forall i :: 0 <= i < |s.order| ==>
      s.order[i] in s.running && s.order[i] in tables && s.running[s.order[i]].req.id == s.order[i]
  }

  function PlanFrom(cfg: Config, s: Sched, p: Plan, i: nat): (p': Plan)
    requires i <= |s.order| && Keyed(s, p.cache.tables)
    ensures p'.cache.tables.Keys == p.cache.tables.Keys
    decreases |s.order| - i
  {
    if i == |s.order| || p.budget == 0 then p
    else PlanFrom(cfg, s, PlanOne(cfg, s.running[s.order[i]], p), i + 1)
  }

  function InitialPlan(cfg: Config, s: Sched): Plan { Plan(s.cache, cfg.maxNumBatchedTokens, [], map[]) }

  /** Admission followed by the scheduling loop. */
  function Schedule(cfg: Config, s: Sched): (Sched, Plan)
    requires IdsOk(s)
  {
    AdmitIds(cfg, s, |s.waiting|);
    var s1 := Admit(cfg, s);
    var p := PlanFrom(cfg, s1, InitialPlan(cfg, s1), 0);
    (s1.(cache := p.cache), p)
  }

  function UpdateComputed(r: RequestState, count: nat): RequestState { r.(computed := r.computed + count) }

  predicate EndsWith(s: Text, t: Text) { |t| <= |s| && s[|s| - |t|..] == t }

  predicate HitsStop(m: Model, req: EngineRequest, output: seq<Token>) {
    exists t <- req.params.stop :: EndsWith(m.decode(output), t)
  }

  /** `append_token`, after `update_computed`. */
  function AppendToken(cfg: Config, m: Model, r: RequestState, token: Token): (RequestState, Option<FinishReason>) {
    if token == m.eos then (r, Some(STOP))
    else
      var r' := r.(output := r.output + [token]);
      if HitsStop(m, r'.req, r'.output) then (r', Some(STOP))
      else if |r'.output| >= r'.req.params.maxTokens then (r', Some(LENGTH))
      else if r'.computed + 1 >= ContextLimit(cfg) then (r', Some(LENGTH))
      else (r', None)
  }

  function Finish(s: Sched, id: RequestId): Sched {
    if id in s.running then
      Sched(s.waiting, Without(s.order, id), s.running - {id}, Release(s.cache, id))
    else s
  }

  /** `None` when the id is neither running nor waiting. */
  function AbortRequest(s: Sched, id: RequestId): Option<Sched> {
    if id in s.running then Some(Finish(s, id))
    else
      var i := FindWaiting(s.waiting, id);
      if i < |s.waiting| then Some(s.(waiting := s.waiting[..i] + s.waiting[i + 1..])) else None
  }

  // ---------------------------------------------------------------- invariant

  ghost predicate WaitingIds(s: Sched) {
    && (forall i, j :: 0 <= i < j < |s.waiting| ==> s.waiting[i].req.id != s.waiting[j].req.id)
    && (forall w <- s.waiting :: w.req.id !in s.running)
  }

  /** Ids are unique, and exactly the running requests have a block table. */
  ghost predicate IdsOk(s: Sched) {
    && Distinct(s.order)
    && (forall id :: id in s.order <==> id in s.running)
    && s.cache.tables.Keys == s.running.Keys
    && (forall id <- s.running :: s.running[id].req.id == id)
    && WaitingIds(s)
  }

  ghost predicate WaitingOk(cfg: Config, r: RequestState) {
    WellFormed(r.req) && r.output == [] && r.computed == 0 && |r.req.prompt| < ContextLimit(cfg)
  }

  /** The phase invariant: always something left to compute, exactly one token once decoding. */
  ghost predicate RunningOk(cfg: Config, r: RequestState) {
    && WellFormed(r.req)
    && r.computed < |All(r)| < ContextLimit(cfg)
    && (r.output != [] ==> r.computed == |All(r)| - 1)
    && |r.output| < r.req.params.maxTokens
  }

  /** `item` carries out the pending chunk of request `r`, whose table is exactly long enough. */
  ghost predicate ItemFor(cfg: Config, r: RequestState, table: seq<Block>, item: WorkerItem) {
    && r.computed < item.seqLen <= |All(r)|
    && |table| == CeilDiv(item.seqLen, cfg.blockSize)
    && item == MakeItem(cfg, r, table, item.seqLen)
  }

  ghost predicate Unscheduled(items: seq<WorkerItem>, id: RequestId) {
    forall k :: 0 <= k < |items| ==> items[k].id != id
  }

  ghost predicate RequestsOk(cfg: Config, s: Sched) {
    && |s.order| <= cfg.maxNumSeqs
    && (forall k :: 0 <= k < |s.waiting| ==> WaitingOk(cfg, s.waiting[k]))
    && (forall id <- s.running :: RunningOk(cfg, s.running[id]))
  }

  ghost predicate ItemsOk(cfg: Config, s: Sched, items: seq<WorkerItem>) {
    && (forall i, j :: 0 <= i < j < |items| ==> items[i].id != items[j].id)
    && (forall k :: 0 <= k < |items| ==> items[k].id in s.running && items[k].id in s.cache.tables)
    && (forall k :: 0 <= k < |items| ==>
          ItemFor(cfg, s.running[items[k].id], s.cache.tables[items[k].id], items[k]))
  }

  /** Every request outside the pending batch holds exactly the blocks of its computed tokens. */
  ghost predicate SizesOk(cfg: Config, s: Sched, items: seq<WorkerItem>) {
    forall id <- s.running :: id in s.cache.tables && (Unscheduled(items, id) ==>
      |s.cache.tables[id]| == CeilDiv(s.running[id].computed, cfg.blockSize))
  }

  /** The invariant while `items` are scheduled but not yet committed; `items == []` at step boundaries. */
  ghost predicate SchedInv(cfg: Config, s: Sched, items: seq<WorkerItem>) {
    && IdsOk(s)
    && CacheOk(cfg.numGpuBlocks, s.cache)
    && RequestsOk(cfg, s)
    && ItemsOk(cfg, s, items)
    && SizesOk(cfg, s, items)
  }

  lemma InitialInv(cfg: Config)
    ensures SchedInv(cfg, Initial(cfg), [])
  {
    var p := InitialPool(cfg.numGpuBlocks);
    forall b: nat | b < cfg.numGpuBlocks ensures b in p.free {
      assert p.free[cfg.numGpuBlocks - 1 - b] == b;
    }
  }

  lemma AddInv(cfg: Config, s: Sched, req: EngineRequest)
    requires SchedInv(cfg, s, []) && WellFormed(req) && AddRequest(cfg, s, req).Some?
    ensures SchedInv(cfg, AddRequest(cfg, s, req).value, [])
  {
    hide CacheOk, RunningOk, CeilDiv, ContextLimit;
  }

  lemma AdmitOneIds(cfg: Config, s: Sched)
    requires IdsOk(s) && s.waiting != []
    ensures IdsOk(AdmitOne(cfg, s))
  {
    hide CanReserve;
    var r, s' := s.waiting[0], AdmitOne(cfg, s);
    assert forall k :: 0 < k < |s.waiting| ==> s.waiting[k].req.id != r.req.id;
    assert s.waiting[0] in s.waiting && forall k :: 0 <= k < |s.waiting[1..]| ==> s.waiting[1..][k] == s.waiting[k + 1];
    if s'.order == s.order {
      assert s'.cache.tables == s.cache.tables;
    }
  }

  lemma AdmitOneInv(cfg: Config, s: Sched)
    requires SchedInv(cfg, s, []) && s.waiting != [] && |s.order| < cfg.maxNumSeqs
    ensures SchedInv(cfg, AdmitOne(cfg, s), [])
  {
    hide CacheOk, IdsOk, CanReserve, Create, Release, CeilDiv, ContextLimit;
    AdmitOneIds(cfg, s);
    AdmitOneCache(cfg, s);
    CeilDivLeast(0, cfg.blockSize);
    var r := s.waiting[0];
    assert WaitingOk(cfg, r);
    assert All(r) == r.req.prompt;
  }

  lemma AdmitOneCache(cfg: Config, s: Sched)
    requires IdsOk(s) && CacheOk(cfg.numGpuBlocks, s.cache) && s.waiting != []
    ensures var s' := AdmitOne(cfg, s);
      && CacheOk(cfg.numGpuBlocks, s'.cache)
      && (forall id <- s.cache.tables :: id in s'.cache.tables && s'.cache.tables[id] == s.cache.tables[id])
      && (s'.order == s.order ==>
            s'.cache == s.cache && s'.running == s.running && s'.waiting == s.waiting[1..] + [s.waiting[0]])
      && (s'.order != s.order ==> s.waiting[0].req.id in s'.cache.tables && s'.cache.tables[s.waiting[0].req.id] == [])
  {
    hide CanReserve, CacheOk;
    assert s.waiting[0].req.id !in s.cache.tables;
    CreateOk(cfg.numGpuBlocks, s.cache, s.waiting[0].req.id);
  }

  lemma {:induction false} AdmitIds(cfg: Config, s: Sched, attempts: nat)
    requires IdsOk(s)
    ensures IdsOk(AdmitFrom(cfg, s, attempts))
    decreases attempts
  {
    hide IdsOk, AdmitOne;
    if !(s.waiting == [] || |s.order| >= cfg.maxNumSeqs || attempts == 0) {
      AdmitOneIds(cfg, s);
      AdmitIds(cfg, AdmitOne(cfg, s), attempts - 1);
    }
  }

  lemma {:induction false} AdmitInv(cfg: Config, s: Sched, attempts: nat)
    requires SchedInv(cfg, s, [])
    ensures SchedInv(cfg, AdmitFrom(cfg, s, attempts), [])
    decreases attempts
  {
    hide SchedInv, AdmitOne;
    if !(s.waiting == [] || |s.order| >= cfg.maxNumSeqs || attempts == 0) {
      AdmitOneInv(cfg, s);
      AdmitInv(cfg, AdmitOne(cfg, s), attempts - 1);
    }
  }

  /** `counts` is the scheduled length of each item. */
  ghost predicate CountsOk(items: seq<WorkerItem>, counts: map<RequestId, nat>) {
    forall k :: 0 <= k < |items| ==> items[k].id in counts && counts[items[k].id] == |items[k].tokenIds|
  }

  ghost predicate PlanInv(cfg: Config, s: Sched, p: Plan) {
    Keyed(s, p.cache.tables) && SchedInv(cfg, s.(cache := p.cache), p.items) && CountsOk(p.items, p.counts)
  }

  lemma SchedInvIds(cfg: Config, s: Sched, items: seq<WorkerItem>)
    requires SchedInv(cfg, s, items)
    ensures IdsOk(s) && Keyed(s, s.cache.tables) && s.cache.tables.Keys == s.running.Keys
    ensures forall id <- s.running :: s.running[id].req.id == id
  {
    hide CacheOk, RequestsOk, ItemsOk, SizesOk;
  }

  /** The parts of the invariant that only look at which requests have a table. */
  lemma SameKeys(cfg: Config, s: Sched, c: Cache)
    requires IdsOk(s) && RequestsOk(cfg, s) && c.tables.Keys == s.cache.tables.Keys
    ensures IdsOk(s.(cache := c)) && RequestsOk(cfg, s.(cache := c)) && Keyed(s, c.tables)
  {
    hide RunningOk, WaitingOk;
  }

  /** Scheduling one more, so far unscheduled, request keeps the batch well formed. */
  lemma ExtendItems(cfg: Config, s: Sched, s': Sched, items: seq<WorkerItem>, item: WorkerItem)
    requires ItemsOk(cfg, s, items) && SizesOk(cfg, s, items) && Unscheduled(items, item.id)
    requires s'.running == s.running && item.id in s.running && item.id in s'.cache.tables
    requires ItemFor(cfg, s.running[item.id], s'.cache.tables[item.id], item)
    requires forall a :: a in s.cache.tables && a != item.id ==>
      a in s'.cache.tables && s'.cache.tables[a] == s.cache.tables[a]
    ensures ItemsOk(cfg, s', items + [item]) && SizesOk(cfg, s', items + [item])
  {
    hide ItemFor, CeilDiv;
    forall a | a in s'.running && Unscheduled(items + [item], a) ensures a != item.id && Unscheduled(items, a) {
      assert (items + [item])[|items|] == item;
      forall k | 0 <= k < |items| ensures items[k].id != a { assert (items + [item])[k] == items[k]; }
    }
  }

  /** What one scheduling round does when it schedules anything. */
  ghost predicate Extends(cfg: Config, r: RequestState, p: Plan, p': Plan, item: WorkerItem) {
    var id := r.req.id;
    && id in p'.cache.tables && item.id == id && ItemFor(cfg, r, p'.cache.tables[id], item)
    && p'.items == p.items + [item]
    && p'.counts == p.counts[id := |item.tokenIds|]
    && p'.budget + |item.tokenIds| == p.budget
    && p'.cache.tables.Keys == p.cache.tables.Keys
    && (forall a <- p.cache.tables :: a != id ==> p'.cache.tables[a] == p.cache.tables[a])
  }

  /** What scheduling request r reserves stays within the pool and within its tokens. */
  lemma PlanOneCache(cfg: Config, r: RequestState, p: Plan)
    requires CacheOk(cfg.numGpuBlocks, p.cache) && r.req.id in p.cache.tables && p.budget > 0
    requires |p.cache.tables[r.req.id]| == CeilDiv(r.computed, cfg.blockSize)
    ensures var p' := PlanOne(cfg, r, p);
      && CacheOk(cfg.numGpuBlocks, p'.cache)
      && (p' != p ==> |p'.items| == |p.items| + 1
                      && |p'.cache.tables[r.req.id]| == CeilDiv(p'.items[|p.items|].seqLen, cfg.blockSize))
  {
    hide CacheOk, CeilDiv, SlotsOf;
    var p' := PlanOne(cfg, r, p);
    if p' != p {
      var item := p'.items[|p.items|];
      CeilDivMonotone(r.computed, item.seqLen, cfg.blockSize);
      ReserveOk(cfg.numGpuBlocks, p.cache, cfg.blockSize, r.req.id, item.seqLen);
    }
  }

  lemma PlanOneEffect(cfg: Config, r: RequestState, p: Plan)
    requires CacheOk(cfg.numGpuBlocks, p.cache) && r.req.id in p.cache.tables && p.budget > 0
    requires |p.cache.tables[r.req.id]| == CeilDiv(r.computed, cfg.blockSize)
    ensures var p' := PlanOne(cfg, r, p);
      p' == p || (CacheOk(cfg.numGpuBlocks, p'.cache) && exists item :: Extends(cfg, r, p, p', item))
  {
    hide CacheOk, CeilDiv, SlotsOf;
    PlanOneCache(cfg, r, p);
    var p' := PlanOne(cfg, r, p);
    if p' != p { assert Extends(cfg, r, p, p', p'.items[|p.items|]); }
  }

  lemma PlanOneInv(cfg: Config, s: Sched, p: Plan, id: RequestId)
    requires PlanInv(cfg, s, p) && p.budget > 0 && id in s.running && Unscheduled(p.items, id)
    ensures PlanInv(cfg, s, PlanOne(cfg, s.running[id], p))
    ensures forall a :: a != id && Unscheduled(p.items, a) ==> Unscheduled(PlanOne(cfg, s.running[id], p).items, a)
  {
    hide CacheOk, IdsOk, ItemFor, RequestsOk, PlanOne, CeilDiv;
    SchedInvIds(cfg, s.(cache := p.cache), p.items);
    PlanOneEffect(cfg, s.running[id], p);
    var p' := PlanOne(cfg, s.running[id], p);
    if p' != p {
      var item :| Extends(cfg, s.running[id], p, p', item);
      SameKeys(cfg, s.(cache := p.cache), p'.cache);
      ExtendItems(cfg, s.(cache := p.cache), s.(cache := p'.cache), p.items, item);
    }
  }

  lemma {:induction false} PlanFromInv(cfg: Config, s: Sched, p: Plan, i: nat)
    requires PlanInv(cfg, s, p) && i <= |s.order|
    requires Distinct(s.order) && forall j :: i <= j < |s.order| ==> Unscheduled(p.items, s.order[j])
    ensures PlanInv(cfg, s, PlanFrom(cfg, s, p, i))
    decreases |s.order| - i
  {
    hide SchedInv, PlanOne, CountsOk;
    if i < |s.order| && p.budget > 0 {
      PlanOneInv(cfg, s, p, s.order[i]);
      PlanFromInv(cfg, s, PlanOne(cfg, s.running[s.order[i]], p), i + 1);
    }
  }

  /** Scheduling reserves exactly the blocks of the chunks it emits. */
  lemma ScheduleInv(cfg: Config, s: Sched)
    requires SchedInv(cfg, s, [])
    ensures var (s', p) := Schedule(cfg, s); SchedInv(cfg, s', p.items) && CountsOk(p.items, p.counts)
  {
    hide SchedInv, AdmitFrom, CanReserve;
    AdmitInv(cfg, s, |s.waiting|);
    var s1 := Admit(cfg, s);
    SchedInvIds(cfg, s1, []);
    assert s1.(cache := s1.cache) == s1;
    PlanFromInv(cfg, s1, InitialPlan(cfg, s1), 0);
  }

  /** Dropping the head of the batch while only its own request changes keeps the rest well formed. */
  lemma DropHead(cfg: Config, s: Sched, s': Sched, items: seq<WorkerItem>)
    requires items != [] && ItemsOk(cfg, s, items) && SizesOk(cfg, s, items)
    requires forall a :: a in s'.running ==> a in s.running && a in s'.cache.tables
    requires forall a :: a in s.running && a != items[0].id ==>
      && a in s'.running && a in s'.cache.tables && a in s.cache.tables
      && s'.running[a] == s.running[a] && s'.cache.tables[a] == s.cache.tables[a]
    requires items[0].id in s'.running ==>
      |s'.cache.tables[items[0].id]| == CeilDiv(s'.running[items[0].id].computed, cfg.blockSize)
    ensures ItemsOk(cfg, s', items[1..]) && SizesOk(cfg, s', items[1..])
  {
    hide ItemFor, CeilDiv;
    var id, rest := items[0].id, items[1..];
    assert forall k :: 0 <= k < |rest| ==> rest[k] == items[k + 1] && rest[k].id != id;
    forall a | a in s'.running && Unscheduled(rest, a) && a != id ensures Unscheduled(items, a) {
      forall k | 0 <= k < |items| ensures items[k].id != a { if k > 0 { assert items[k] == rest[k - 1]; } }
    }
  }

  lemma HeadTable(cfg: Config, s: Sched, items: seq<WorkerItem>)
    requires items != [] && ItemsOk(cfg, s, items)
    ensures items[0].id in s.running && items[0].id in s.cache.tables
    ensures ItemFor(cfg, s.running[items[0].id], s.cache.tables[items[0].id], items[0])
  {
    hide ItemFor;
  }

  /** Committing the head item: its request now has computed the whole chunk. */
  lemma CommitInv(cfg: Config, s: Sched, items: seq<WorkerItem>, r': RequestState)
    requires items != [] && SchedInv(cfg, s, items) && items[0].id in s.running
    requires r'.req == s.running[items[0].id].req && r'.computed == items[0].seqLen && RunningOk(cfg, r')
    ensures SchedInv(cfg, s.(running := s.running[items[0].id := r']), items[1..])
  {
    hide CacheOk, RunningOk, WaitingOk, CeilDiv, MakeItem, ItemsOk, SizesOk;
    HeadTable(cfg, s, items);
    DropHead(cfg, s, s.(running := s.running[items[0].id := r']), items);
  }

  lemma FinishKeepsIds(s: Sched, id: RequestId)
    requires IdsOk(s) && id in s.running
    ensures IdsOk(Finish(s, id)) && |Finish(s, id).order| == |s.order| - 1
  {
    hide Free, Without;
    WithoutDistinct(s.order, id);
  }

  lemma FinishIds(n: nat, s: Sched, id: RequestId)
    requires IdsOk(s) && CacheOk(n, s.cache) && id in s.running
    ensures IdsOk(Finish(s, id)) && CacheOk(n, Finish(s, id).cache) && |Finish(s, id).order| == |s.order| - 1
  {
    hide CacheOk, Without, Free;
    FinishKeepsIds(s, id);
    ReleaseOk(n, s.cache, id);
  }

  /** Finishing the head item's request returns its blocks. */
  lemma FinishHeadInv(cfg: Config, s: Sched, items: seq<WorkerItem>)
    requires items != [] && SchedInv(cfg, s, items) && items[0].id in s.running
    ensures SchedInv(cfg, Finish(s, items[0].id), items[1..])
  {
    hide CacheOk, IdsOk, RunningOk, WaitingOk, ItemFor, CeilDiv, ItemsOk, SizesOk;
    SchedInvIds(cfg, s, items);
    FinishIds(cfg.numGpuBlocks, s, items[0].id);
    DropHead(cfg, s, Finish(s, items[0].id), items);
  }

  lemma DropWaiting(s: Sched, i: nat)
    requires IdsOk(s) && i < |s.waiting|
    ensures IdsOk(s.(waiting := s.waiting[..i] + s.waiting[i + 1..]))
  {
    var w := s.waiting[..i] + s.waiting[i + 1..];
    assert forall k :: 0 <= k < |w| ==> w[k] == s.waiting[if k < i then k else k + 1];
  }

  lemma AbortInv(cfg: Config, s: Sched, id: RequestId)
    requires SchedInv(cfg, s, []) && AbortRequest(s, id).Some?
    ensures SchedInv(cfg, AbortRequest(s, id).value, [])
  {
    hide CacheOk, IdsOk, RunningOk, WaitingOk, CeilDiv;
    SchedInvIds(cfg, s, []);
    if id in s.running {
      FinishIds(cfg.numGpuBlocks, s, id);
    } else {
      DropWaiting(s, FindWaiting(s.waiting, id));
    }
  }

  /** A sampled token that does not finish the request restores the phase invariant. */
  lemma AppendOk(cfg: Config, m: Model, r: RequestState, token: Token)
    requires WellFormed(r.req) && |All(r)| < ContextLimit(cfg) && r.computed == |All(r)|
    requires AppendToken(cfg, m, r, token).1 == None
    ensures RunningOk(cfg, AppendToken(cfg, m, r, token).0)
  {}
}
