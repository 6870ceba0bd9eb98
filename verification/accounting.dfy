/** Conservation laws over whole runs: completions against requests, and scheduled tokens
    against computed tokens. */
module Accounting {
  import opened Protocol
  import opened Arith
  import opened KVCache
  import opened Scheduling
  import opened WorkerSide
  import opened Isolation
  import opened Engine
  import opened EngineProofs
  import opened Runs
  import opened Totals

  ghost function One(r: RequestState): int { 1 }
  ghost function Computed(r: RequestState): int { r.computed }

  ghost predicate IsFinal(e: Event) { e.Output? && e.out.finishReason.Some? }

  /** Finished outputs on the queue. */
  ghost function Finals(events: seq<Event>): nat {
    if events == [] then 0 else Finals(events[..|events| - 1]) + if IsFinal(events[|events| - 1]) then 1 else 0
  }

  /** Tokens reported as scheduled by the batch metrics on the queue. */
  ghost function ScheduledTokens(events: seq<Event>): int {
    if events == [] then 0
    else
      var last := events[|events| - 1];
      ScheduledTokens(events[..|events| - 1]) + if last.Metrics? then last.metrics.numScheduledTokens else 0
  }

  ghost function TokenCount(items: seq<WorkerItem>): nat {
    if items == [] then 0 else |items[0].tokenIds| + TokenCount(items[1..])
  }

  lemma EventsAppend(events: seq<Event>, e: Event)
    ensures Finals(events + [e]) == Finals(events) + if IsFinal(e) then 1 else 0
    ensures ScheduledTokens(events + [e])
      == ScheduledTokens(events) + if e.Metrics? then e.metrics.numScheduledTokens else 0
  {
    assert (events + [e])[..|events|] == events;
  }

  lemma {:induction false} SumOnes(states: seq<RequestState>)
    ensures SumStates(One, states) == |states|
  {
    if states != [] { SumOnes(states[1..]); }
  }

  lemma {:induction false} SumRunningOnes(order: seq<RequestId>, running: map<RequestId, RequestState>)
    requires forall id <- order :: id in running
    ensures SumRunning(One, order, running) == |order|
  {
    if order != [] { SumRunningOnes(order[1..], running); }
  }

  lemma LiveCount(s: Sched)
    requires IdsOk(s)
    ensures Total(One, s) == |s.waiting| + |s.order|
  {
    SumOnes(s.waiting);
    SumRunningOnes(s.order, s.running);
  }

  // -------------------------------------------------------------------- ledgers

  /** Completed plus live requests. */
  ghost function Requests(c: Core): int
    requires IdsOk(c.sched)
  {
    Finals(c.outputs) + if c.phase.Crashed? then 0 else Total(One, c.sched)
  }

  /** Computed tokens of every request ever admitted, finished ones included. */
  ghost function ComputedEver(c: Core): int
    requires IdsOk(c.sched)
  {
    Total(Computed, c.sched) + SumStates(Computed, c.retired)
  }

  lemma RetireSum(f: Weight, retired: seq<RequestState>, r: RequestState)
    ensures SumStates(f, retired + [r]) == SumStates(f, retired) + f(r)
  {
    SumAppend(f, retired, [r]);
    assert SumStates(f, [r]) == f(r);
  }

  lemma FinishLedger(c: Core, id: RequestId)
    requires IdsOk(c.sched) && id in c.sched.running && c.phase.Looping?
    ensures var c' := FinishRequest(c, id);
      IdsOk(c'.sched) && Requests(c') == Requests(c) - 1 && ComputedEver(c') == ComputedEver(c)
  {
    hide IdsOk, Total, Finish;
    TotalFinish(One, c.sched, id);
    TotalFinish(Computed, c.sched, id);
    RetireSum(Computed, c.retired, c.sched.running[id]);
  }

  lemma EmitLedger(c: Core, out: RequestOutput)
    requires IdsOk(c.sched)
    ensures Requests(Emit(c, out)) == Requests(c) + if out.finishReason.Some? then 1 else 0
    ensures ComputedEver(Emit(c, out)) == ComputedEver(c)
    ensures ScheduledTokens(Emit(c, out).outputs) == ScheduledTokens(c.outputs)
  {
    hide IdsOk, Total, Finals, ScheduledTokens;
    EventsAppend(c.outputs, Output(out));
  }

  lemma UpdateLedger(c: Core, id: RequestId, r: RequestState)
    requires IdsOk(c.sched) && id in c.sched.running && r.req.id == id
    ensures var c' := c.(sched := c.sched.(running := c.sched.running[id := r]));
      && IdsOk(c'.sched) && Requests(c') == Requests(c)
      && ComputedEver(c') == ComputedEver(c) + r.computed - c.sched.running[id].computed
  {
    hide IdsOk, Total;
    TotalUpdate(One, c.sched, id, r);
    TotalUpdate(Computed, c.sched, id, r);
  }

  /** Each item's request is running and no two items share one. */
  ghost predicate Batched(s: Sched, items: seq<WorkerItem>) {
    && IdsOk(s)
    && (forall k :: 0 <= k < |items| ==> items[k].id in s.running)
    && (forall i, j :: 0 <= i < j < |items| ==> items[i].id != items[j].id)
  }

  lemma BatchedTail(s: Sched, s': Sched, items: seq<WorkerItem>)
    requires Batched(s, items) && items != [] && IdsOk(s')
    requires forall a :: a in s.running && a != items[0].id ==> a in s'.running
    ensures Batched(s', items[1..])
  {
    hide IdsOk;
    assert forall k :: 0 <= k < |items[1..]| ==> items[1..][k] == items[k + 1];
  }

  lemma CommitLedger(cfg: Config, m: Model, c: Core, items: seq<WorkerItem>, count: nat, sampled: map<RequestId, Token>,
                     metrics: BatchMetrics)
    requires Batched(c.sched, items) && items != [] && c.phase.Looping?
    ensures var c' := CommitItem(cfg, m, c, items[0], count, sampled, metrics);
      && Batched(c'.sched, items[1..]) && c'.phase.Looping?
      && Requests(c') == Requests(c)
      && ComputedEver(c') == ComputedEver(c) + count
      && ScheduledTokens(c'.outputs) == ScheduledTokens(c.outputs)
  {
    hide Total, TextDelta, AppendToken, Without, Release, ScheduledTokens, Finals;
    var id := items[0].id;
    var r := UpdateComputed(c.sched.running[id], count);
    var c' := CommitItem(cfg, m, c, items[0], count, sampled, metrics);
    if id !in sampled {
      UpdateLedger(c, id, r);
    } else {
      var token := sampled[id];
      AppendKeeps(cfg, m, r, token);
      var (r', reason) := AppendToken(cfg, m, r, token);
      UpdateLedger(c, id, r');
      var c1 := c.(sched := c.sched.(running := c.sched.running[id := r']));
      var out := RequestOutput(id, if token == m.eos then [] else [token], TextDelta(m, r.output, r'.output, token),
        reason, Some(metrics));
      EmitLedger(c1, out);
      if reason.Some? { FinishLedger(Emit(c1, out), id); }
    }
    BatchedTail(c.sched, c'.sched, items);
  }

  lemma AppendKeeps(cfg: Config, m: Model, r: RequestState, token: Token)
    ensures AppendToken(cfg, m, r, token).0.req == r.req && AppendToken(cfg, m, r, token).0.computed == r.computed
  {
    hide HitsStop, ContextLimit;
  }

  lemma {:induction false} CommitAllLedger(cfg: Config, m: Model, c: Core, items: seq<WorkerItem>,
                                           counts: map<RequestId, nat>, sampled: map<RequestId, Token>,
                                           metrics: BatchMetrics)
    requires Batched(c.sched, items) && c.phase.Looping? && CountsOk(items, counts)
    ensures var c' := CommitAll(cfg, m, c, items, counts, sampled, metrics);
      && IdsOk(c'.sched)
      && Requests(c') == Requests(c)
      && ComputedEver(c') == ComputedEver(c) + TokenCount(items)
      && ScheduledTokens(c'.outputs) == ScheduledTokens(c.outputs)
    decreases |items|
  {
    hide IdsOk, Requests, ComputedEver, ScheduledTokens, CommitItem;
    if items != [] {
      CommitLedger(cfg, m, c, items, counts[items[0].id], sampled, metrics);
      assert CountsOk(items[1..], counts);
      CommitAllLedger(cfg, m, CommitItem(cfg, m, c, items[0], counts[items[0].id], sampled, metrics), items[1..],
        counts, sampled, metrics);
    }
  }

  lemma FailLedger(c: Core, items: seq<WorkerItem>)
    requires Batched(c.sched, items) && items != [] && c.phase.Looping?
    ensures var c' := FailItem(c, items[0]);
      && Batched(c'.sched, items[1..]) && c'.phase.Looping?
      && Requests(c') == Requests(c) && ComputedEver(c') == ComputedEver(c)
      && ScheduledTokens(c'.outputs) == ScheduledTokens(c.outputs)
  {
    hide Total, Without, Release, ScheduledTokens, Finals;
    EmitLedger(c, Terminal(items[0].id, ERROR));
    FinishLedger(Emit(c, Terminal(items[0].id, ERROR)), items[0].id);
    BatchedTail(c.sched, FailItem(c, items[0]).sched, items);
  }

  lemma {:induction false} FailAllLedger(c: Core, items: seq<WorkerItem>)
    requires Batched(c.sched, items) && c.phase.Looping?
    ensures var c' := FailAll(c, items);
      && IdsOk(c'.sched) && Requests(c') == Requests(c) && ComputedEver(c') == ComputedEver(c)
      && ScheduledTokens(c'.outputs) == ScheduledTokens(c.outputs)
    decreases |items|
  {
    hide IdsOk, Requests, ComputedEver, ScheduledTokens, FailItem;
    if items != [] {
      FailLedger(c, items);
      FailAllLedger(FailItem(c, items[0]), items[1..]);
    }
  }

  lemma {:induction false} EmitErrorsLedger(outputs: seq<Event>, ids: seq<RequestId>)
    ensures Finals(EmitErrors(outputs, ids)) == Finals(outputs) + |ids|
    ensures ScheduledTokens(EmitErrors(outputs, ids)) == ScheduledTokens(outputs)
    decreases |ids|
  {
    hide Finals, ScheduledTokens;
    if ids != [] {
      var e := Output(Terminal(ids[0], ERROR));
      EventsAppend(outputs, e);
      EmitErrorsLedger(outputs + [e], ids[1..]);
    }
  }

  lemma CrashLedger(c: Core)
    requires IdsOk(c.sched) && c.phase.Looping?
    ensures Requests(Crash(c)) == Requests(c) && ComputedEver(Crash(c)) == ComputedEver(c)
    ensures ScheduledTokens(Crash(c).outputs) == ScheduledTokens(c.outputs)
  {
    hide IdsOk, Total, Finals, ScheduledTokens, EmitErrors;
    LiveCount(c.sched);
    EmitErrorsLedger(c.outputs, c.sched.order);
    EmitErrorsLedger(EmitErrors(c.outputs, c.sched.order), WaitingIdsOf(c.sched.waiting));
  }

  lemma {:induction false} FlattenTokenCount(items: seq<WorkerItem>, blockSize: nat)
    requires blockSize > 0 && AllAccepted(items, blockSize)
    ensures |Flatten(items, blockSize).inputIds| == TokenCount(items)
  {
    hide Covers, SlotsOf, CeilDiv;
    if items != [] {
      var front, last := items[..|items| - 1], items[|items| - 1];
      FlattenTokenCount(front, blockSize);
      assert items == front + [last];
      TokenCountAppend(front, last);
    }
  }

  lemma {:induction false} TokenCountAppend(items: seq<WorkerItem>, item: WorkerItem)
    ensures TokenCount(items + [item]) == TokenCount(items) + |item.tokenIds|
  {
    if items == [] {
      assert items + [item] == [item];
    } else {
      assert (items + [item])[1..] == items[1..] + [item];
      TokenCountAppend(items[1..], item);
    }
  }

  // ----------------------------------------------------------------------- turns

  lemma RespondLedger(cfg: Config, m: Model, c: Core, p: Plan, outcome: Outcome)
    requires SchedInv(cfg, c.sched, p.items) && CountsOk(p.items, p.counts) && c.phase.Looping? && p.items != []
    ensures IdsOk(c.sched)
    ensures var c' := Respond(cfg, m, c, p, outcome);
      && IdsOk(c'.sched) && Requests(c') == Requests(c)
      && ComputedEver(c') - ScheduledTokens(c'.outputs) == ComputedEver(c) - ScheduledTokens(c.outputs)
  {
    hide SchedInv, ItemsOk, CountsOk, CommitAll, FailAll, ScheduledTokens, Finals, Total, AllAccepted, Flatten;
    hide Readable, SampleFrom, AppendKv;
    SchedInvIds(cfg, c.sched, p.items);
    SchedInvParts(cfg, c.sched, p.items);
    PlanBatched(cfg, c.sched, p.items);
    hide IdsOk;
    match outcome
    case InitFailure => CrashLedger(c);
    case Failure(store) => FailAllLedger(c.(store := store), p.items);
    case Success =>
      var result := Execute(cfg, m, c.store, c.batchId, p.items);
      if result.Failed? {
        FailAllLedger(c.(store := result.store), p.items);
      } else {
        var e := Metrics(result.metrics);
        EventsAppend(c.outputs, e);
        FlattenTokenCount(p.items, cfg.blockSize);
        FlattenShape(p.items, cfg.blockSize);
        CommitAllLedger(cfg, m, c.(store := result.store, outputs := c.outputs + [e]), p.items, p.counts, result.tokens,
          result.metrics);
      }
  }

  lemma PlanBatched(cfg: Config, s: Sched, items: seq<WorkerItem>)
    requires IdsOk(s) && ItemsOk(cfg, s, items)
    ensures Batched(s, items)
  {
    hide ItemFor;
  }

  lemma TurnLedger(cfg: Config, m: Model, c: Core, outcome: Outcome)
    requires SchedInv(cfg, c.sched, []) && c.phase.Looping?
    ensures IdsOk(c.sched)
    ensures var c' := TakeTurn(cfg, m, c, outcome);
      && IdsOk(c'.sched) && Requests(c') == Requests(c)
      && ComputedEver(c') - ScheduledTokens(c'.outputs) == ComputedEver(c) - ScheduledTokens(c.outputs)
  {
    hide SchedInv, IdsOk, Schedule, CountsOk, ScheduledTokens, Finals, Total, Respond;
    SchedInvIds(cfg, c.sched, []);
    ScheduleInv(cfg, c.sched);
    var (s, p) := Schedule(cfg, c.sched);
    SchedInvIds(cfg, s, p.items);
    TotalSchedule(cfg, One, c.sched);
    TotalSchedule(cfg, Computed, c.sched);
    if p.items != [] {
      RespondLedger(cfg, m, c.(sched := s, batchId := c.batchId + 1), p, outcome);
    }
  }

  lemma HandleLedger(cfg: Config, c: Core, command: Command)
    requires IdsOk(c.sched) && !c.phase.Crashed?
    ensures var c' := Handle(cfg, c, command);
      && IdsOk(c'.sched) && Requests(c') == Requests(c) + (if command.Add? then 1 else 0)
      && ComputedEver(c') - ScheduledTokens(c'.outputs) == ComputedEver(c) - ScheduledTokens(c.outputs)
  {
    hide IdsOk, Total, ScheduledTokens, Finals, AddRequest, AbortRequest, Aborted, SumStates;
    match command
    case Shutdown =>
    case Add(req) =>
      if AddRequest(cfg, c.sched, req).Some? {
        TotalAdd(cfg, One, c.sched, req);
        TotalAdd(cfg, Computed, c.sched, req);
      } else {
        EmitLedger(c, Terminal(req.id, ERROR));
      }
    case Abort(id) =>
      if AbortRequest(c.sched, id).Some? {
        TotalAbort(One, c.sched, id);
        TotalAbort(Computed, c.sched, id);
        AbortedOne(c.sched, id);
        SumAppend(Computed, c.retired, Aborted(c.sched, id));
        var c1 := c.(sched := AbortRequest(c.sched, id).value, retired := c.retired + Aborted(c.sched, id));
        EmitLedger(c1, Terminal(id, ABORT));
      }
  }

  lemma AbortedOne(s: Sched, id: RequestId)
    requires AbortRequest(s, id).Some?
    ensures SumStates(One, Aborted(s, id)) == 1
  {
    SumOnes(Aborted(s, id));
  }

  /** In every reachable state: finished outputs emitted are the requests handed in minus those
      still waiting or running, and the tokens the batch metrics report as scheduled are exactly
      the computed tokens of all requests ever admitted. */
  lemma {:induction false} Conservation(cfg: Config, m: Model, inputs: seq<Input>)
    requires Run(cfg, m, inputs).Some?
    ensures var c := Run(cfg, m, inputs).value;
      && IdsOk(c.sched)
      && Requests(c) == |AddedOf(inputs)|
      && ScheduledTokens(c.outputs) == ComputedEver(c)
    decreases |inputs|
  {
    hide SchedInv, IdsOk, Requests, ComputedEver, ScheduledTokens, TakeTurn, Handle, CoreInv, TraceOk, TurnAllowed;
    hide WellFormed;
    if inputs == [] {
      InitialLedger(cfg);
    } else {
      var front, last := inputs[..|inputs| - 1], inputs[|inputs| - 1];
      var c0 := Run(cfg, m, front).value;
      Conservation(cfg, m, front);
      match last
      case Receive(command) =>
        HandleLedger(cfg, c0, command);
      case Turn(outcome) =>
        CoreParts(cfg, m, c0, AddedOf(front));
        TurnLedger(cfg, m, c0, outcome);
    }
  }

  /** Exactly-once completion, counted: finished outputs = requests handed in - (waiting + running). */
  lemma CompletionCount(cfg: Config, m: Model, inputs: seq<Input>)
    requires Run(cfg, m, inputs).Some?
    ensures var c := Run(cfg, m, inputs).value;
      Finals(c.outputs) == |AddedOf(inputs)| - if c.phase.Crashed? then 0 else |c.sched.waiting| + |c.sched.order|
  {
    hide IdsOk, Total, Run, Finals;
    Conservation(cfg, m, inputs);
    LiveCount(Run(cfg, m, inputs).value.sched);
  }

  ghost function BlocksOfComputed(cfg: Config): Weight { (r: RequestState) => CeilDiv(r.computed, cfg.blockSize) }

  lemma {:induction false} HeldIsCeil(cfg: Config, s: Sched, ids: seq<RequestId>)
    requires SizesOk(cfg, s, []) && forall id <- ids :: id in s.running && id in s.cache.tables
    ensures HeldBlocks(ids, s.cache.tables) == SumRunning(BlocksOfComputed(cfg), ids, s.running)
  {
    hide CeilDiv;
    if ids != [] {
      assert Unscheduled([], ids[0]);
      HeldIsCeil(cfg, s, ids[1..]);
    }
  }

  /** Exact block accounting in every reachable state: free stack and used set partition the pool,
      the used set is the disjoint union of the running tables, and free blocks plus the blocks of
      all computed tokens are the whole pool. */
  lemma ReachableBlocks(cfg: Config, m: Model, inputs: seq<Input>)
    requires Run(cfg, m, inputs).Some? && !Run(cfg, m, inputs).value.phase.Crashed?
    ensures var s := Run(cfg, m, inputs).value.sched;
      && IdsOk(s) && CacheOk(cfg.numGpuBlocks, s.cache)
      && BlocksOf(s.order, s.cache.tables) == s.cache.pool.used
      && |s.cache.pool.free| + SumRunning(BlocksOfComputed(cfg), s.order, s.running) == cfg.numGpuBlocks
  {
    hide Run, TraceOk, StoreOk, CacheOk, RequestsOk, ItemsOk, SizesOk, CeilDiv, BlocksOf, HeldBlocks, SumRunning;
    var s := Run(cfg, m, inputs).value.sched;
    assert Elements(s.order) == s.cache.tables.Keys;
    BlockConservation(cfg.numGpuBlocks, s.cache, s.order);
    HeldIsCeil(cfg, s, s.order);
  }

  /** The phase invariant of every running request in every reachable state. */
  lemma ReachablePhase(cfg: Config, m: Model, inputs: seq<Input>, id: RequestId)
    requires Run(cfg, m, inputs).Some? && !Run(cfg, m, inputs).value.phase.Crashed?
    requires id in Run(cfg, m, inputs).value.sched.running
    ensures var r := Run(cfg, m, inputs).value.sched.running[id];
      && r.computed < |All(r)| < ContextLimit(cfg)
      && (r.output != [] ==> |All(r)| - r.computed == 1)
      && |r.output| < r.req.params.maxTokens
  {
    hide Run, TraceOk, StoreOk, CacheOk, IdsOk, ItemsOk, SizesOk, ContextLimit;
    assert RunningOk(cfg, Run(cfg, m, inputs).value.sched.running[id]);
  }

  lemma CoreParts(cfg: Config, m: Model, c: Core, added: map<RequestId, EngineRequest>)
    requires ReachInv(cfg, m, c, added) && !c.phase.Crashed?
    ensures SchedInv(cfg, c.sched, [])
  {
    hide SchedInv, StoreOk, TraceOk;
  }

  lemma InitialLedger(cfg: Config)
    ensures IdsOk(Initial(cfg)) && Requests(InitialCore(cfg)) == 0 && ComputedEver(InitialCore(cfg)) == 0
    ensures ScheduledTokens(InitialCore(cfg).outputs) == 0
  {
    InitialInv(cfg);
  }
}
