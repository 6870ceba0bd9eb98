/** minivllm/scheduler.py in place.  Every method is proved against its value form in
    `Scheduling`; none of the calls into the cache raises. */
module TokenScheduler {
  import opened Protocol
  import opened Arith
  import opened KVCache
  import opened Scheduling
  import opened PagedCache

  class Scheduler {
    const cfg: Config
    const model: Model
    const cache: KVCacheManager
    var waiting: seq<RequestState>
    var order: seq<RequestId>
    var running: map<RequestId, RequestState>

    ghost function State(): Sched
      reads this, cache, cache.pool
    {
      Sched(waiting, order, running, cache.State())
    }

    ghost predicate Wired() { cache.blockSize == cfg.blockSize }

    constructor (config: Config, m: Model)
      ensures cfg == config && model == m && fresh(cache) && fresh(cache.pool)
      ensures Wired() && State() == Initial(config)
    {
      cfg := config;
      model := m;
      cache := new KVCacheManager(config.numGpuBlocks, config.blockSize);
      waiting, order, running := [], [], map[];
    }

    method Enqueue(req: EngineRequest) returns (ok: bool)
      modifies this
      ensures ok == old(AddRequest(cfg, State(), req)).Some?
      ensures State() == if ok then old(AddRequest(cfg, State(), req)).value else old(State())
    {
      if req.id in running || FindWaiting(waiting, req.id) < |waiting| {
        return false;
      }
      var contextLimit := Min(cfg.maxModelLen, cfg.numGpuBlocks * cfg.blockSize);
      if |req.prompt| >= contextLimit {
        return false;
      }
      waiting := waiting + [RequestState(req, [], 0)];
      return true;
    }

    method AdmitWaiting()
      requires Wired() && SchedInv(cfg, State(), [])
      modifies this, cache, cache.pool
      ensures State() == Admit(cfg, old(State())) && SchedInv(cfg, State(), [])
    {
      hide SchedInv, AdmitOne;
      var attempts: nat := |waiting|;
      while waiting != [] && |order| < cfg.maxNumSeqs && attempts > 0
        invariant SchedInv(cfg, State(), [])
        invariant AdmitFrom(cfg, State(), attempts) == Admit(cfg, old(State()))
        decreases attempts
      {
        AdmitOneInv(cfg, State());
        AdmitHead();
        attempts := attempts - 1;
      }
    }

    /** One round of the admission loop. */
    method AdmitHead()
      requires Wired() && SchedInv(cfg, State(), []) && waiting != []
      modifies this, cache, cache.pool
      ensures State() == AdmitOne(cfg, old(State()))
    {
      hide CacheOk, RequestsOk, ItemsOk, SizesOk, CanReserve, CeilDiv;
      ghost var s := State();
      SchedInvCache(cfg, s);
      var request := waiting[0];
      assert request in s.waiting && request.req.id !in s.cache.tables;
      CreateOk(cfg.numGpuBlocks, s.cache, request.req.id);
      waiting := waiting[1..];
      var created := cache.CreateTable(request.req.id);
      assert created;
      var firstTarget := Min(|request.req.prompt|, cfg.maxNumBatchedTokens);
      var fits := cache.MayReserve(request.req.id, firstTarget);
      if !fits {
        TablesOfCache(cfg.numGpuBlocks, cache.State());
        var released := cache.ReleaseTable(request.req.id);
        assert released;
        waiting := waiting + [request];
      } else {
        order := order + [request.req.id];
        running := running[request.req.id := request];
      }
    }

    /** The batch of one step and the blocks reserved for it. */
    method ScheduleStep() returns (items: seq<WorkerItem>, counts: map<RequestId, nat>)
      requires Wired() && SchedInv(cfg, State(), []) && IdsOk(State())
      modifies this, cache, cache.pool
      ensures var (s, p) := Schedule(cfg, old(State())); State() == s && items == p.items && counts == p.counts
      ensures SchedInv(cfg, State(), items) && CountsOk(items, counts)
    {
      hide SchedInv, IdsOk, CanReserve, CeilDiv, AdmitFrom, PlanOne, PlanFrom, CountsOk;
      ScheduleInv(cfg, State());
      AdmitWaiting();
      ghost var s1 := State();
      SchedInvIds(cfg, s1, []);
      var budget := cfg.maxNumBatchedTokens;
      items, counts := [], map[];
      var i := 0;
      while i < |order| && budget != 0
        invariant i <= |order| && waiting == s1.waiting && order == s1.order && running == s1.running
        invariant Keyed(s1, cache.tables)
        invariant PlanFrom(cfg, s1, Plan(cache.State(), budget, items, counts), i)
          == PlanFrom(cfg, s1, InitialPlan(cfg, s1), 0)
      {
        var request := running[order[i]];
        ghost var p := Plan(cache.State(), budget, items, counts);
        PlanStep(cfg, s1, p, i);
        budget, items, counts := ScheduleOne(request, budget, items, counts);
        assert Plan(cache.State(), budget, items, counts) == PlanOne(cfg, request, p);
        i := i + 1;
      }
      PlanEnd(cfg, s1, Plan(cache.State(), budget, items, counts), i);
    }

    /** One round of the scheduling loop. */
    method ScheduleOne(request: RequestState, budget: nat, items: seq<WorkerItem>, counts: map<RequestId, nat>)
      returns (budget': nat, items': seq<WorkerItem>, counts': map<RequestId, nat>)
      requires Wired() && request.req.id in cache.tables
      modifies cache, cache.pool
      ensures Plan(cache.State(), budget', items', counts')
        == PlanOne(cfg, request, Plan(old(cache.State()), budget, items, counts))
      ensures cache.tables.Keys == old(cache.tables.Keys)
    {
      hide CeilDiv, SlotsOf;
      var id := request.req.id;
      var allTokens := request.req.prompt + request.output;
      var remaining := |allTokens| - request.computed;
      if remaining <= 0 {
        return budget, items, counts;
      }
      var count := Min(remaining, budget);
      var target := request.computed + count;
      var fits := cache.MayReserve(id, target);
      if !fits {
        return budget, items, counts;
      }
      var reserved := cache.ReserveTable(id, target);
      assert reserved;
      var start := request.computed;
      var slots := cache.Slots(id, start, count);
      var item := WorkerItem(
        id, allTokens[start..target], start, slots, cache.tables[id], target,
        |request.output|, target == |allTokens|, request.req.params.temperature);
      return budget - count, items + [item], counts[id := count];
    }

    method Advance(id: RequestId, count: nat)
      requires id in running
      modifies this`running
      ensures running == old(running)[id := UpdateComputed(old(running[id]), count)]
    {
      running := running[id := running[id].(computed := running[id].computed + count)];
    }

    /** `append_token`: stores a token unless it ends the sequence, and judges it. */
    method Append(id: RequestId, token: Token) returns (reason: Option<FinishReason>)
      requires id in running
      modifies this`running
      ensures var (r, why) := AppendToken(cfg, model, old(running[id]), token);
        running == old(running)[id := r] && reason == why
    {
      hide CeilDiv;
      var request := running[id];
      if token == model.eos {
        assert running[id := request] == running;
        return Some(STOP);
      }
      running := running[id := request.(output := request.output + [token])];
      var stopped := HitsAnyStop(running[id]);
      if stopped {
        return Some(STOP);
      }
      if |running[id].output| >= running[id].req.params.maxTokens {
        return Some(LENGTH);
      }
      var contextLimit := Min(cfg.maxModelLen, cfg.numGpuBlocks * cfg.blockSize);
      if running[id].computed + 1 >= contextLimit {
        return Some(LENGTH);
      }
      return None;
    }

    method HitsAnyStop(request: RequestState) returns (hit: bool)
      ensures hit == HitsStop(model, request.req, request.output)
    {
      var text := model.decode(request.output);
      var stops := request.req.params.stop;
      for i := 0 to |stops|
        invariant forall j :: 0 <= j < i ==> !EndsWith(text, stops[j])
      {
        if EndsWith(text, stops[i]) {
          assert stops[i] in stops;
          return true;
        }
      }
      return false;
    }

    /** Removes a running request and returns its blocks. */
    method FinishOne(id: RequestId) returns (request: Option<RequestState>)
      requires TablesOk(cache.State())
      modifies this, cache, cache.pool
      ensures State() == Finish(old(State()), id)
      ensures request == if id in old(running) then Some(old(running)[id]) else None
    {
      hide CacheOk, CeilDiv;
      if id !in running {
        return None;
      }
      request := Some(running[id]);
      running := running - {id};
      order := Without(order, id);
      var released := cache.ReleaseTable(id);
      assert released;
    }

    method AbortOne(id: RequestId) returns (ok: bool)
      requires TablesOk(cache.State())
      modifies this, cache, cache.pool
      ensures ok == old(AbortRequest(State(), id)).Some?
      ensures State() == if ok then old(AbortRequest(State(), id)).value else old(State())
    {
      if id in running {
        var request := FinishOne(id);
        return true;
      }
      var i := 0;
      while i < |waiting|
        invariant i <= |waiting| && State() == old(State())
        invariant forall k :: 0 <= k < i ==> waiting[k].req.id != id
      {
        if waiting[i].req.id == id {
          assert FindWaiting(waiting, id) == i;
          waiting := waiting[..i] + waiting[i + 1..];
          return true;
        }
        i := i + 1;
      }
      return false;
    }
  }

  lemma PlanStep(cfg: Config, s: Sched, p: Plan, i: nat)
    requires i < |s.order| && p.budget > 0 && Keyed(s, p.cache.tables)
    ensures PlanFrom(cfg, s, p, i) == PlanFrom(cfg, s, PlanOne(cfg, s.running[s.order[i]], p), i + 1)
  {}

  lemma PlanEnd(cfg: Config, s: Sched, p: Plan, i: nat)
    requires i <= |s.order| && (i == |s.order| || p.budget == 0) && Keyed(s, p.cache.tables)
    ensures PlanFrom(cfg, s, p, i) == p
  {}

  lemma SchedInvCache(cfg: Config, s: Sched)
    requires SchedInv(cfg, s, [])
    ensures CacheOk(cfg.numGpuBlocks, s.cache)
  {
    hide CacheOk, RequestsOk, ItemsOk, SizesOk, IdsOk;
  }

  lemma TablesOfCache(n: nat, c: Cache)
    requires CacheOk(n, c)
    ensures TablesOk(c)
  {
    hide TablesOk, PoolOk;
  }
}
