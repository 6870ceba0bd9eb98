/** Progress.  Without preemption it is conditional: when the worst-case block demands of all
    live requests fit the pool, every reservation succeeds and the engine drains. */
module Progress {
  import opened Protocol
  import opened Arith
  import opened KVCache
  import opened Scheduling
  import opened Isolation
  import opened Engine
  import opened EngineProofs
  import opened Runs
  import opened Totals
  import opened Accounting
  import opened Planning

  /** The most tokens a request can ever have computed: min(limit, |prompt| + max_tokens) - 1. */
  function Cap(cfg: Config, req: EngineRequest): nat {
    var n := Min(ContextLimit(cfg), |req.prompt| + req.params.maxTokens);
    if n > 0 then n - 1 else 0
  }

  /** Worst-case blocks of a request. */
  function Demand(cfg: Config, req: EngineRequest): nat { CeilDiv(Cap(cfg, req), cfg.blockSize) }

  ghost function DemandOf(cfg: Config): Weight { (r: RequestState) => Demand(cfg, r.req) }

  /** Tokens a request may still have to compute. */
  ghost function LeftOf(cfg: Config): Weight { (r: RequestState) => Cap(cfg, r.req) - r.computed }

  ghost predicate Affordable(cfg: Config, s: Sched)
    requires IdsOk(s)
  {
    Total(DemandOf(cfg), s) <= cfg.numGpuBlocks
  }

  lemma RunningWithinCap(cfg: Config, r: RequestState)
    requires RunningOk(cfg, r)
    ensures r.computed < |All(r)| <= Cap(cfg, r.req)
  {
    hide ContextLimit;
  }

  lemma WaitingWithinCap(cfg: Config, r: RequestState)
    requires WaitingOk(cfg, r)
    ensures r.computed < |r.req.prompt| <= Cap(cfg, r.req)
  {
    hide ContextLimit;
  }

  // ------------------------------------------------------------------ reservations

  /** Every table is within its request's demand. */
  ghost predicate WithinDemand(cfg: Config, s: Sched, tables: map<RequestId, seq<Block>>) {
    forall id <- s.running :: id in tables && |tables[id]| <= Demand(cfg, s.running[id].req)
  }

  lemma TablesWithinDemand(cfg: Config, s: Sched, items: seq<WorkerItem>)
    requires SchedInv(cfg, s, items)
    ensures WithinDemand(cfg, s, s.cache.tables)
  {
    hide IdsOk, CacheOk, CeilDiv, RunningOk, Cap, ItemFor;
    forall id | id in s.running ensures id in s.cache.tables && |s.cache.tables[id]| <= Demand(cfg, s.running[id].req) {
      RunningWithinCap(cfg, s.running[id]);
      if Unscheduled(items, id) {
        CeilDivMonotone(s.running[id].computed, Cap(cfg, s.running[id].req), cfg.blockSize);
      } else {
        var k :| 0 <= k < |items| && items[k].id == id;
        ItemSized(cfg, s, items, k);
        CeilDivMonotone(items[k].seqLen, Cap(cfg, s.running[id].req), cfg.blockSize);
      }
    }
  }

  lemma ItemSized(cfg: Config, s: Sched, items: seq<WorkerItem>, k: nat)
    requires ItemsOk(cfg, s, items) && k < |items|
    ensures items[k].id in s.running && items[k].id in s.cache.tables
    ensures items[k].seqLen <= |All(s.running[items[k].id])|
    ensures |s.cache.tables[items[k].id]| == CeilDiv(items[k].seqLen, cfg.blockSize)
  {
    hide CeilDiv, MakeItem;
    assert ItemFor(cfg, s.running[items[k].id], s.cache.tables[items[k].id], items[k]);
  }

  lemma {:induction false} HeldWithinDemand(cfg: Config, ids: seq<RequestId>, s: Sched,
                                            tables: map<RequestId, seq<Block>>)
    requires WithinDemand(cfg, s, tables) && forall id <- ids :: id in s.running && id in tables
    ensures HeldBlocks(ids, tables) <= SumRunning(DemandOf(cfg), ids, s.running)
  {
    hide Demand;
    if ids != [] { HeldWithinDemand(cfg, ids[1..], s, tables); }
  }

  /** Growing one table to its demand still stays within the total demand. */
  lemma {:induction false} RoomFor(cfg: Config, ids: seq<RequestId>, s: Sched, tables: map<RequestId, seq<Block>>,
                                   id: RequestId)
    requires WithinDemand(cfg, s, tables) && id in ids && forall a <- ids :: a in s.running && a in tables
    ensures HeldBlocks(ids, tables) - |tables[id]| + Demand(cfg, s.running[id].req)
      <= SumRunning(DemandOf(cfg), ids, s.running)
  {
    hide Demand;
    if ids[0] == id {
      HeldWithinDemand(cfg, ids[1..], s, tables);
    } else {
      assert id in ids[1..];
      RoomFor(cfg, ids[1..], s, tables, id);
    }
  }

  lemma {:induction false} DemandsNonNegative(cfg: Config, states: seq<RequestState>)
    ensures SumStates(DemandOf(cfg), states) >= 0
  {
    hide Demand;
    if states != [] { DemandsNonNegative(cfg, states[1..]); }
  }

  /** When demands are affordable, no reservation of a running request is ever refused, at any
      point of any scheduling round. */
  lemma ReservationSucceeds(cfg: Config, s: Sched, items: seq<WorkerItem>, id: RequestId, target: nat)
    requires SchedInv(cfg, s, items) && IdsOk(s) && Affordable(cfg, s) && id in s.running
    requires target <= |All(s.running[id])|
    ensures id in s.cache.tables && CanReserve(s.cache, cfg.blockSize, id, target)
  {
    hide CacheOk, RequestsOk, ItemsOk, SizesOk, CeilDiv, Cap, HeldBlocks, SumRunning, SumStates;
    var r := s.running[id];
    assert RunningOk(cfg, r) by { OneRunning(cfg, s, id); }
    RunningWithinCap(cfg, r);
    CeilDivMonotone(target, Cap(cfg, r.req), cfg.blockSize);
    TablesWithinDemand(cfg, s, items);
    assert Elements(s.order) == s.cache.tables.Keys;
    BlockConservation(cfg.numGpuBlocks, s.cache, s.order);
    RoomFor(cfg, s.order, s, s.cache.tables, id);
    DemandsNonNegative(cfg, s.waiting);
  }

  lemma OneRunning(cfg: Config, s: Sched, id: RequestId)
    requires RequestsOk(cfg, s) && id in s.running
    ensures RunningOk(cfg, s.running[id])
  {
    hide RunningOk, WaitingOk;
  }

  /** The head of the queue is then always admissible. */
  lemma HeadFits(cfg: Config, s: Sched)
    requires SchedInv(cfg, s, []) && IdsOk(s) && Affordable(cfg, s) && s.waiting != []
    ensures Fits(cfg, |s.cache.pool.free|, s.waiting[0])
  {
    hide CacheOk, ItemsOk, SizesOk, CeilDiv, Cap, HeldBlocks, SumRunning, RunningOk;
    var r := s.waiting[0];
    assert WaitingOk(cfg, r);
    WaitingWithinCap(cfg, r);
    CeilDivMonotone(FirstTarget(cfg, r), Cap(cfg, r.req), cfg.blockSize);
    TablesWithinDemand(cfg, s, []);
    assert Elements(s.order) == s.cache.tables.Keys;
    BlockConservation(cfg.numGpuBlocks, s.cache, s.order);
    HeldWithinDemand(cfg, s.order, s, s.cache.tables);
    DemandsNonNegative(cfg, s.waiting[1..]);
  }

  // -------------------------------------------------------------------- scheduling

  /** A turn with anything live runs something: admission leaves a running request. */
  lemma {:induction false} AdmitLeavesRunning(cfg: Config, s: Sched, attempts: nat)
    requires SchedInv(cfg, s, []) && IdsOk(s) && Affordable(cfg, s)
    requires s.order != [] || (s.waiting != [] && attempts > 0)
    ensures AdmitFrom(cfg, s, attempts).order != []
    decreases attempts
  {
    hide SchedInv, IdsOk, AdmitOne, Total, Fits;
    if !(s.waiting == [] || |s.order| >= cfg.maxNumSeqs || attempts == 0) {
      var s' := AdmitOne(cfg, s);
      HeadFits(cfg, s);
      AdmitOneDecision(cfg, s);
      AdmitOneInv(cfg, s);
      TotalAdmitOne(cfg, DemandOf(cfg), s);
      AdmitLeavesRunning(cfg, s', attempts - 1);
    }
  }

  lemma {:induction false} PlanKeepsItems(cfg: Config, s: Sched, p: Plan, i: nat)
    requires i <= |s.order| && Keyed(s, p.cache.tables)
    ensures p.items <= PlanFrom(cfg, s, p, i).items
    decreases |s.order| - i
  {
    hide CanReserve, MakeItem, Reserve;
    if i < |s.order| && p.budget > 0 {
      PlanKeepsItems(cfg, s, PlanOne(cfg, s.running[s.order[i]], p), i + 1);
    }
  }

  /** With affordable demands the head of the running dict is scheduled in every turn. */
  lemma HeadScheduled(cfg: Config, s: Sched)
    requires SchedInv(cfg, s, []) && IdsOk(s) && Affordable(cfg, s) && s.order + WaitingIdsOf(s.waiting) != []
    ensures var (s', p) := Schedule(cfg, s);
      s'.order != [] && p.items != [] && p.items[0].id == s'.order[0]
  {
    hide SchedInv, AdmitFrom, Total, SumRunning, SumStates;
    AdmitLeavesRunning(cfg, s, |s.waiting|);
    AdmitInv(cfg, s, |s.waiting|);
    TotalAdmit(cfg, DemandOf(cfg), s, |s.waiting|);
    var s1 := Admit(cfg, s);
    SchedInvIds(cfg, s1, []);
    HeadFitsAt(cfg, s1);
    hide IdsOk;
    var p0 := InitialPlan(cfg, s1);
    var p1 := PlanOne(cfg, s1.running[s1.order[0]], p0);
    PlanOneFits(cfg, s1, p0, 0);
    PlanOneHead(cfg, s1.running[s1.order[0]], p0);
    PlanKeepsItems(cfg, s1, p1, 1);
  }

  lemma PlanOneHead(cfg: Config, r: RequestState, p: Plan)
    requires r.req.id in p.cache.tables && p.items == [] && PlanOne(cfg, r, p).items != []
    ensures PlanOne(cfg, r, p).items[0].id == r.req.id
  {
    hide CanReserve, SlotsOf, Reserve, CeilDiv;
  }

  lemma HeadFitsAt(cfg: Config, s: Sched)
    requires SchedInv(cfg, s, []) && IdsOk(s) && Affordable(cfg, s) && s.order != [] && Keyed(s, s.cache.tables)
    ensures FitsAt(cfg, s, s.cache, 0)
  {
    hide CacheOk, ItemsOk, SizesOk, CanReserve, Total, ContextLimit;
    var r := s.running[s.order[0]];
    assert RunningOk(cfg, r) by { OneRunning(cfg, s, s.order[0]); }
    ReservationSucceeds(cfg, s, [], s.order[0], r.computed + FullChunk(cfg, r));
    ReserveFits(s.cache, cfg.blockSize, s.order[0], r.computed + FullChunk(cfg, r));
  }

  // ----------------------------------------------------------------------- measure

  /** What a commit does to the scheduler: the request is finished, or it advanced by `count`. */
  lemma CommitEffect(cfg: Config, m: Model, c: Core, item: WorkerItem, count: nat, sampled: map<RequestId, Token>,
                     metrics: BatchMetrics)
    requires item.id in c.sched.running
    ensures var s' := CommitItem(cfg, m, c, item, count, sampled, metrics).sched;
      var r := c.sched.running[item.id];
      || s' == Finish(c.sched, item.id)
      || exists r' ::
           && s' == c.sched.(running := c.sched.running[item.id := r'])
           && r'.req == r.req && r'.computed == r.computed + count
  {
    hide Finish, TextDelta, HitsStop, ContextLimit;
    var r := UpdateComputed(c.sched.running[item.id], count);
    if item.id in sampled {
      var (r', reason) := AppendToken(cfg, m, r, sampled[item.id]);
      FinishReplaced(c.sched, item.id, r');
      assert c.sched.(running := c.sched.running[item.id := r']).running[item.id] == r';
    } else {
      assert c.sched.(running := c.sched.running[item.id := r]).running[item.id] == r;
    }
  }

  /** Every item's request has work left. */
  ghost predicate Working(cfg: Config, s: Sched, items: seq<WorkerItem>) {
    Batched(s, items) && forall k :: 0 <= k < |items| ==>
      s.running[items[k].id].computed < Cap(cfg, s.running[items[k].id].req)
  }

  lemma FinishMeasure(cfg: Config, s: Sched, items: seq<WorkerItem>)
    requires Working(cfg, s, items) && items != []
    ensures var s' := Finish(s, items[0].id);
      && Working(cfg, s', items[1..])
      && Total(LeftOf(cfg), s') < Total(LeftOf(cfg), s) && Total(DemandOf(cfg), s') <= Total(DemandOf(cfg), s)
  {
    hide Total, Cap, Demand, Release, Without;
    TotalFinish(LeftOf(cfg), s, items[0].id);
    TotalFinish(DemandOf(cfg), s, items[0].id);
    BatchedTail(s, Finish(s, items[0].id), items);
    assert forall k :: 0 <= k < |items[1..]| ==> items[1..][k] == items[k + 1];
  }

  lemma AdvanceMeasure(cfg: Config, s: Sched, items: seq<WorkerItem>, r': RequestState, count: nat)
    requires Working(cfg, s, items) && items != [] && count > 0
    requires r'.req == s.running[items[0].id].req && r'.computed == s.running[items[0].id].computed + count
    ensures var s' := s.(running := s.running[items[0].id := r']);
      && Working(cfg, s', items[1..])
      && Total(LeftOf(cfg), s') < Total(LeftOf(cfg), s) && Total(DemandOf(cfg), s') <= Total(DemandOf(cfg), s)
  {
    hide Total, Cap, Demand;
    TotalUpdate(LeftOf(cfg), s, items[0].id, r');
    TotalUpdate(DemandOf(cfg), s, items[0].id, r');
    BatchedTail(s, s.(running := s.running[items[0].id := r']), items);
    assert forall k :: 0 <= k < |items[1..]| ==> items[1..][k] == items[k + 1];
  }

  lemma CommitMeasure(cfg: Config, m: Model, c: Core, items: seq<WorkerItem>, count: nat,
                      sampled: map<RequestId, Token>, metrics: BatchMetrics)
    requires Working(cfg, c.sched, items) && items != [] && count > 0
    ensures var s' := CommitItem(cfg, m, c, items[0], count, sampled, metrics).sched;
      && Working(cfg, s', items[1..])
      && Total(LeftOf(cfg), s') < Total(LeftOf(cfg), c.sched)
      && Total(DemandOf(cfg), s') <= Total(DemandOf(cfg), c.sched)
  {
    hide CommitItem, Total, Cap, LeftOf, DemandOf, Finish, IdsOk;
    var s, s', id := c.sched, CommitItem(cfg, m, c, items[0], count, sampled, metrics).sched, items[0].id;
    CommitEffect(cfg, m, c, items[0], count, sampled, metrics);
    if s' == Finish(s, id) {
      FinishMeasure(cfg, s, items);
    } else {
      var r' :| s' == s.(running := s.running[id := r']) && r'.req == s.running[id].req
        && r'.computed == s.running[id].computed + count;
      AdvanceMeasure(cfg, s, items, r', count);
    }
  }

  lemma {:induction false} CommitAllMeasure(cfg: Config, m: Model, c: Core, items: seq<WorkerItem>,
                                            counts: map<RequestId, nat>, sampled: map<RequestId, Token>,
                                            metrics: BatchMetrics)
    requires Working(cfg, c.sched, items) && CountsOk(items, counts)
    requires forall k :: 0 <= k < |items| ==> |items[k].tokenIds| > 0
    ensures var s' := CommitAll(cfg, m, c, items, counts, sampled, metrics).sched;
      && IdsOk(s')
      && Total(LeftOf(cfg), s') + |items| <= Total(LeftOf(cfg), c.sched)
      && Total(DemandOf(cfg), s') <= Total(DemandOf(cfg), c.sched)
    decreases |items|
  {
    hide IdsOk, Total, CommitItem, LeftOf, DemandOf, Cap;
    if items != [] {
      CommitMeasure(cfg, m, c, items, counts[items[0].id], sampled, metrics);
      var rest := items[1..];
      assert forall k :: 0 <= k < |rest| ==> rest[k] == items[k + 1];
      CommitAllMeasure(cfg, m, CommitItem(cfg, m, c, items[0], counts[items[0].id], sampled, metrics), rest, counts,
        sampled, metrics);
    }
  }

  lemma ItemsWorking(cfg: Config, s: Sched, items: seq<WorkerItem>)
    requires SchedInv(cfg, s, items)
    ensures Working(cfg, s, items) && forall k :: 0 <= k < |items| ==> |items[k].tokenIds| > 0
  {
    hide CacheOk, ItemFor, SizesOk, Cap, RunningOk, WaitingOk;
    PlanBatched(cfg, s, items);
    forall k | 0 <= k < |items|
      ensures |items[k].tokenIds| > 0 && s.running[items[k].id].computed < Cap(cfg, s.running[items[k].id].req)
    {
      ItemSlots(cfg, s, items, k);
      RunningWithinCap(cfg, s.running[items[k].id]);
    }
  }

  ghost predicate Drained(s: Sched) { s.order == [] && s.waiting == [] }

  lemma {:induction false} FailAllMeasure(cfg: Config, c: Core, items: seq<WorkerItem>)
    requires Working(cfg, c.sched, items)
    ensures var s' := FailAll(c, items).sched;
      && IdsOk(s')
      && Total(LeftOf(cfg), s') + |items| <= Total(LeftOf(cfg), c.sched)
      && Total(DemandOf(cfg), s') <= Total(DemandOf(cfg), c.sched)
    decreases |items|
  {
    hide IdsOk, Total, LeftOf, DemandOf, Cap, Finish;
    if items != [] {
      FinishMeasure(cfg, c.sched, items);
      assert FailItem(c, items[0]).sched == Finish(c.sched, items[0].id);
      FailAllMeasure(cfg, FailItem(c, items[0]), items[1..]);
    }
  }

  /** What one turn does, whatever becomes of the Worker: a turn that schedules nothing leaves the
      engine with the scheduled state; any other turn lowers the tokens left by at least one for each
      scheduled request, or ends the process. */
  lemma TurnEffect(cfg: Config, m: Model, c: Core, outcome: Outcome)
    requires SchedInv(cfg, c.sched, []) && StoreOk(cfg, m, c.sched, c.store, []) && IdsOk(c.sched)
    ensures IdsOk(Schedule(cfg, c.sched).0)
    ensures var (s, p), c' := Schedule(cfg, c.sched), TakeTurn(cfg, m, c, outcome);
      && IdsOk(c'.sched)
      && Total(DemandOf(cfg), c'.sched) <= Total(DemandOf(cfg), c.sched)
      && Total(LeftOf(cfg), c'.sched) <= Total(LeftOf(cfg), c.sched)
      && (p.items == [] ==> c' == c.(sched := s))
      && (p.items != [] && !outcome.InitFailure? ==>
            Total(LeftOf(cfg), c'.sched) + |p.items| <= Total(LeftOf(cfg), c.sched))
  {
    hide SchedInv, StoreOk, IdsOk, Schedule, CountsOk, Total, LeftOf, DemandOf, CommitAll, FailAll, Execute;
    ScheduleInv(cfg, c.sched);
    var (s, p) := Schedule(cfg, c.sched);
    SchedInvIds(cfg, s, p.items);
    TotalSchedule(cfg, LeftOf(cfg), c.sched);
    TotalSchedule(cfg, DemandOf(cfg), c.sched);
    if p.items != [] {
      var c1 := c.(sched := s, batchId := c.batchId + 1);
      ItemsWorking(cfg, s, p.items);
      match outcome
      case InitFailure =>
      case Failure(store) => FailAllMeasure(cfg, c1.(store := store), p.items);
      case Success =>
        ScheduleStore(cfg, m, c.sched, c.store);
        ExecuteOk(cfg, m, s, c.store, c1.batchId, p.items);
        var result := Execute(cfg, m, c.store, c1.batchId, p.items);
        CommitAllMeasure(cfg, m, c1.(store := result.store, outputs := c1.outputs + [Metrics(result.metrics)]),
          p.items, p.counts, result.tokens, result.metrics);
    }
  }

  /** The process ends exactly when the Worker dies under a batch. */
  lemma TurnPhase(cfg: Config, m: Model, c: Core, outcome: Outcome)
    requires SchedInv(cfg, c.sched, []) && StoreOk(cfg, m, c.sched, c.store, []) && IdsOk(c.sched) && c.phase.Looping?
    ensures var c' := TakeTurn(cfg, m, c, outcome);
      if outcome.InitFailure? && Schedule(cfg, c.sched).1.items != [] then c'.phase.Crashed? else c'.phase.Looping?
  {
    hide SchedInv, StoreOk, IdsOk, Schedule, CountsOk, CommitAll, FailAll, Execute, EmitErrors;
    ScheduleInv(cfg, c.sched);
    var (s, p) := Schedule(cfg, c.sched);
    if p.items != [] {
      var c1 := c.(sched := s, batchId := c.batchId + 1);
      match outcome
      case InitFailure =>
      case Failure(store) => FailAllLoops(c1.(store := store), p.items);
      case Success =>
        ScheduleStore(cfg, m, c.sched, c.store);
        ExecuteOk(cfg, m, s, c.store, c1.batchId, p.items);
        var result := Execute(cfg, m, c.store, c1.batchId, p.items);
        CommitAllLoops(cfg, m, c1.(store := result.store, outputs := c1.outputs + [Metrics(result.metrics)]),
          p.items, p.counts, result.tokens, result.metrics);
    }
  }

  lemma {:induction false} FailAllLoops(c: Core, items: seq<WorkerItem>)
    requires c.phase.Looping?
    ensures FailAll(c, items).phase.Looping?
    decreases |items|
  {
    hide Finish;
    if items != [] { FailAllLoops(FailItem(c, items[0]), items[1..]); }
  }

  lemma {:induction false} CommitAllLoops(cfg: Config, m: Model, c: Core, items: seq<WorkerItem>,
                                          counts: map<RequestId, nat>, sampled: map<RequestId, Token>,
                                          metrics: BatchMetrics)
    requires c.phase.Looping? && CountsOk(items, counts)
    ensures CommitAll(cfg, m, c, items, counts, sampled, metrics).phase.Looping?
    decreases |items|
  {
    hide Finish, TextDelta, AppendToken;
    if items != [] {
      assert CountsOk(items[1..], counts);
      CommitAllLoops(cfg, m, CommitItem(cfg, m, c, items[0], counts[items[0].id], sampled, metrics), items[1..], counts,
        sampled, metrics);
    }
  }

  /** One turn of an affordable engine that is not drained: the process ends, or the engine stays
      affordable and has fewer tokens left. */
  lemma TurnMeasure(cfg: Config, m: Model, c: Core, outcome: Outcome)
    requires SchedInv(cfg, c.sched, []) && StoreOk(cfg, m, c.sched, c.store, []) && c.phase.Looping?
    requires IdsOk(c.sched) && Affordable(cfg, c.sched)
    ensures var c' := TakeTurn(cfg, m, c, outcome);
      && IdsOk(c'.sched)
      && if Drained(c.sched) then c' == c
         else if outcome.InitFailure? then c'.phase.Crashed?
         else c'.phase.Looping? && Affordable(cfg, c'.sched) &&
              Total(LeftOf(cfg), c'.sched) < Total(LeftOf(cfg), c.sched)
  {
    hide SchedInv, StoreOk, IdsOk, Schedule, Total, LeftOf, DemandOf, TakeTurn;
    TurnEffect(cfg, m, c, outcome);
    TurnPhase(cfg, m, c, outcome);
    if Drained(c.sched) {
      DrainedSchedule(cfg, c.sched);
    } else {
      LiveIds(c.sched);
      HeadScheduled(cfg, c.sched);
    }
  }

  lemma LiveIds(s: Sched)
    requires !Drained(s)
    ensures s.order + WaitingIdsOf(s.waiting) != []
  {
    assert |s.order + WaitingIdsOf(s.waiting)| == |s.order| + |s.waiting|;
  }

  lemma DrainedSchedule(cfg: Config, s: Sched)
    requires IdsOk(s) && Drained(s)
    ensures Schedule(cfg, s).0 == s && Schedule(cfg, s).1.items == []
  {}

  /** The measure bounds the number of live requests. */
  lemma MeasurePositive(cfg: Config, s: Sched)
    requires SchedInv(cfg, s, []) && IdsOk(s)
    ensures Total(LeftOf(cfg), s) >= |s.waiting| + |s.order|
  {
    hide CacheOk, ItemsOk, SizesOk, Cap, RunningOk, WaitingOk;
    forall id | id in s.running ensures LeftOf(cfg)(s.running[id]) >= 1 { RunningWithinCap(cfg, s.running[id]); }
    forall k | 0 <= k < |s.waiting| ensures LeftOf(cfg)(s.waiting[k]) >= 1 { WaitingWithinCap(cfg, s.waiting[k]); }
    SumAtLeast(LeftOf(cfg), s.waiting);
    SumRunningAtLeast(LeftOf(cfg), s.order, s.running);
  }

  lemma {:induction false} SumAtLeast(f: Weight, states: seq<RequestState>)
    requires forall k :: 0 <= k < |states| ==> f(states[k]) >= 1
    ensures SumStates(f, states) >= |states|
  {
    if states != [] { SumAtLeast(f, states[1..]); }
  }

  lemma {:induction false} SumRunningAtLeast(f: Weight, order: seq<RequestId>, running: map<RequestId, RequestState>)
    requires forall id <- order :: id in running && f(running[id]) >= 1
    ensures SumRunning(f, order, running) >= |order|
  {
    if order != [] { SumRunningAtLeast(f, order[1..], running); }
  }

  lemma DrainedMeasure(cfg: Config, s: Sched)
    requires IdsOk(s) && Drained(s)
    ensures Total(LeftOf(cfg), s) == 0
  {}

  /** A lone request always qualifies. */
  lemma LoneAffordable(cfg: Config, s: Sched)
    requires IdsOk(s) && |s.waiting| + |s.order| <= 1
    ensures Affordable(cfg, s)
  {
    hide Demand;
    var f := DemandOf(cfg);
    if s.waiting != [] {
      DemandFits(cfg, s.waiting[0].req);
      assert SumStates(f, s.waiting[1..]) == 0 && SumRunning(f, s.order, s.running) == 0;
    } else if s.order != [] {
      DemandFits(cfg, s.running[s.order[0]].req);
      assert SumStates(f, s.waiting) == 0 && SumRunning(f, s.order[1..], s.running) == 0;
    }
  }

  lemma DemandFits(cfg: Config, req: EngineRequest)
    ensures Demand(cfg, req) <= cfg.numGpuBlocks
  {
    hide CeilDiv;
    MulMonotone(0, cfg.numGpuBlocks, cfg.blockSize);
    CeilDivFits(Cap(cfg, req), cfg.blockSize, cfg.numGpuBlocks);
  }
}
