/** Unconditional progress is false: a reachable state in which two running requests hold all
    blocks, each needs one more, and no turn ever changes anything again. */
module Stuck {
  import opened Protocol
  import opened Arith
  import opened KVCache
  import opened Scheduling
  import opened Isolation
  import opened Engine
  import opened EngineProofs
  import opened Runs
  import opened Planning
  import opened Progress
  import opened Completion
  import opened Liveness

  /** Two blocks of two slots. */
  const Tiny: Config := EngineConfig(2, 8, 4, 2, 2, 0)

  function Req(id: RequestId): EngineRequest { EngineRequest(id, [7, 7], SamplingParams(4, 0.0, [])) }

  function Story(a: RequestId, b: RequestId): seq<Input> {
    [Receive(Add(Req(a))), Receive(Add(Req(b))), Turn(Success)]
  }

  /** The scheduler after both prompts are prefilled and one token each was sampled. */
  ghost predicate Jammed(s: Sched, a: RequestId, b: RequestId) {
    && s.waiting == [] && s.order == [a, b]
    && a in s.running && b in s.running
    && s.running[a].req == Req(a) && s.running[a].computed == 2 && |s.running[a].output| == 1
    && s.running[b].req == Req(b) && s.running[b].computed == 2 && |s.running[b].output| == 1
  }

  lemma Sizes()
    ensures CeilDiv(0, 2) == 0 && CeilDiv(2, 2) == 1 && CeilDiv(3, 2) == 2
  {}

  lemma Limit()
    ensures ContextLimit(Tiny) == 4
  {}

  function AfterAdds(a: RequestId, b: RequestId): Sched {
    Initial(Tiny).(waiting := [RequestState(Req(a), [], 0), RequestState(Req(b), [], 0)])
  }

  lemma HandleFresh(c: Core, id: RequestId)
    requires id !in c.sched.running && FindWaiting(c.sched.waiting, id) == |c.sched.waiting|
    ensures Handle(Tiny, c, Add(Req(id))) == c.(sched := c.sched.(waiting := c.sched.waiting + [Start(id)]))
  {
    hide ContextLimit, FindWaiting;
    Limit();
    var s := c.sched.(waiting := c.sched.waiting + [Start(id)]);
    assert AddRequest(Tiny, c.sched, Req(id)) == Some(s);
  }

  lemma AddsRun(m: Model, a: RequestId, b: RequestId)
    requires a != b
    ensures Run(Tiny, m, [Receive(Add(Req(a))), Receive(Add(Req(b)))])
      == Some(InitialCore(Tiny).(sched := AfterAdds(a, b)))
  {
    hide Run, AddedOf, ReachInv, Handle, InitialPool;
    EmptyRun(m);
    HandleFresh(InitialCore(Tiny), a);
    RunAdd(Tiny, m, [], Req(a));
    var c := Handle(Tiny, InitialCore(Tiny), Add(Req(a)));
    HandleFresh(c, b);
    RunAdd(Tiny, m, [] + [Receive(Add(Req(a)))], Req(b));
    assert [] + [Receive(Add(Req(a)))] + [Receive(Add(Req(b)))] == [Receive(Add(Req(a))), Receive(Add(Req(b)))];
    assert [] + [Start(a)] + [Start(b)] == [Start(a), Start(b)];
  }

  lemma EmptyRun(m: Model)
    ensures Run(Tiny, m, []) == Some(InitialCore(Tiny)) && AddedOf([]) == map[]
  {
    hide ReachInv, Step;
  }

  function Start(id: RequestId): RequestState { RequestState(Req(id), [], 0) }

  lemma BothAdmitted(a: RequestId, b: RequestId)
    requires a != b
    ensures IdsOk(AfterAdds(a, b))
    ensures var s := Admit(Tiny, AfterAdds(a, b));
      && s.waiting == [] && s.order == [a, b] && s.running == map[a := Start(a), b := Start(b)]
      && |s.cache.pool.free| == 2
  {
    hide AdmitOne, CeilDiv;
    Sizes();
    var s0 := AfterAdds(a, b);
    assert IdsOk(s0);
    AdmitOneDecision(Tiny, s0);
    AdmitOneIds(Tiny, s0);
    var s1 := AdmitOne(Tiny, s0);
    AdmitOneDecision(Tiny, s1);
    var s2 := AdmitOne(Tiny, s1);
    assert AdmitFrom(Tiny, s2, 0) == s2;
    assert AdmitFrom(Tiny, s1, 1) == s2;
  }

  /** A request that starts with two tokens and an empty table is scheduled for both. */
  lemma PlanStart(p: Plan, id: RequestId)
    requires id in p.cache.tables && p.cache.tables[id] == [] && |p.cache.pool.free| >= 1 && p.budget >= 2
    ensures var p' := PlanOne(Tiny, Start(id), p);
      && |p'.items| == |p.items| + 1 && p'.items[..|p.items|] == p.items
      && p'.items[|p.items|].id == id && p'.items[|p.items|].seqLen == 2
      && |p'.cache.pool.free| == |p.cache.pool.free| - 1 && p'.budget == p.budget - 2
      && forall x <- p.cache.tables :: x != id ==> p'.cache.tables[x] == p.cache.tables[x]
  {
    hide CeilDiv, SlotsOf, Popped;
    Sizes();
    assert All(Start(id)) == [7, 7];
  }

  lemma EmptyTables(s: Sched, id: RequestId)
    requires SchedInv(Tiny, s, []) && id in s.running && s.running[id].computed == 0
    ensures id in s.cache.tables && s.cache.tables[id] == []
  {
    hide IdsOk, CacheOk, RequestsOk, ItemsOk, CeilDiv;
    Sizes();
  }

  /** Both requests are admitted and their whole prompts scheduled. */
  lemma BothScheduled(a: RequestId, b: RequestId)
    requires a != b && SchedInv(Tiny, AfterAdds(a, b), [])
    ensures IdsOk(AfterAdds(a, b))
    ensures var (s, p) := Schedule(Tiny, AfterAdds(a, b));
      && s.waiting == [] && s.order == [a, b] && s.running == map[a := Start(a), b := Start(b)]
      && |p.items| == 2 && p.items[0].id == a && p.items[1].id == b && p.items[0].seqLen == 2 && p.items[1].seqLen == 2
  {
    hide SchedInv, Admit, PlanOne, IdsOk;
    BothAdmitted(a, b);
    AdmitInv(Tiny, AfterAdds(a, b), 2);
    var s := Admit(Tiny, AfterAdds(a, b));
    AdmitUnfold(a, b);
    SchedInvIds(Tiny, s, []);
    EmptyTables(s, a);
    EmptyTables(s, b);
    var p0 := InitialPlan(Tiny, s);
    PlanStart(p0, a);
    var p1 := PlanOne(Tiny, Start(a), p0);
    PlanStart(p1, b);
    var p2 := PlanOne(Tiny, Start(b), p1);
    assert p2.items[0] == p2.items[..1][0];
    assert PlanFrom(Tiny, s, p2, 2) == p2;
    assert PlanFrom(Tiny, s, p1, 1) == p2;
  }

  lemma AdmitUnfold(a: RequestId, b: RequestId)
    ensures Admit(Tiny, AfterAdds(a, b)) == AdmitFrom(Tiny, AfterAdds(a, b), 2)
  {}

  /** Committing a sampled token that is not end-of-sequence leaves the request one token longer. */
  lemma CommitStart(m: Model, c: Core, item: WorkerItem, sampled: map<RequestId, Token>, metrics: BatchMetrics)
    requires item.id in c.sched.running && c.sched.running[item.id] == Start(item.id)
    requires item.id in sampled && sampled[item.id] != m.eos
    ensures var s' := CommitItem(Tiny, m, c, item, 2, sampled, metrics).sched;
      s' == c.sched.(running := c.sched.running[item.id := RequestState(Req(item.id), [sampled[item.id]], 2)])
  {
    hide TextDelta, AppendToken, Finish;
    var token := sampled[item.id];
    var r := UpdateComputed(Start(item.id), 2);
    AppendStart(m, item.id, token);
    assert AppendToken(Tiny, m, r, token) == (RequestState(Req(item.id), [token], 2), None);
  }

  lemma AppendStart(m: Model, id: RequestId, token: Token)
    requires token != m.eos
    ensures AppendToken(Tiny, m, RequestState(Req(id), [], 2), token) == (RequestState(Req(id), [token], 2), None)
  {
    hide ContextLimit, HitsStop;
    Limit();
    NoStops(m, id, [token]);
    assert [] + [token] == [token];
  }

  lemma NoStops(m: Model, id: RequestId, output: seq<Token>)
    ensures !HitsStop(m, Req(id), output)
  {}

  lemma TurnJams(m: Model, a: RequestId, b: RequestId, c: Core)
    requires a != b && NextToken(m, Req(a), []) != m.eos && NextToken(m, Req(b), []) != m.eos
    requires c.sched == AfterAdds(a, b) && SchedInv(Tiny, c.sched, []) && StoreOk(Tiny, m, c.sched, c.store, [])
    ensures Jammed(TakeTurn(Tiny, m, c, Success).sched, a, b)
  {
    hide SchedInv, StoreOk, Schedule, CountsOk, Execute, CommitItem, CommitAll;
    BothScheduled(a, b);
    ScheduleInv(Tiny, c.sched);
    ScheduleStore(Tiny, m, c.sched, c.store);
    var (s, p) := Schedule(Tiny, c.sched);
    ExecuteOk(Tiny, m, s, c.store, c.batchId + 1, p.items);
    var result := Execute(Tiny, m, c.store, c.batchId + 1, p.items);
    var c1 := c.(sched := s, batchId := c.batchId + 1, store := result.store,
      outputs := c.outputs + [Event.Metrics(result.metrics)]);
    ItemCounts(s, p);
    assert |All(Start(a))| == 2 && |All(Start(b))| == 2;
    CommitStart(m, c1, p.items[0], result.tokens, result.metrics);
    var c2 := CommitItem(Tiny, m, c1, p.items[0], 2, result.tokens, result.metrics);
    CommitStart(m, c2, p.items[1], result.tokens, result.metrics);
    var c3 := CommitItem(Tiny, m, c2, p.items[1], 2, result.tokens, result.metrics);
    TwoCommits(m, c1, p, result.tokens, result.metrics);
    assert Jammed(c3.sched, a, b);
  }

  lemma TwoCommits(m: Model, c: Core, p: Plan, sampled: map<RequestId, Token>, metrics: BatchMetrics)
    requires |p.items| == 2 && CountsOk(p.items, p.counts) && p.counts[p.items[0].id] == 2
    requires p.counts[p.items[1].id] == 2
    ensures CommitAll(Tiny, m, c, p.items, p.counts, sampled, metrics) ==
      CommitItem(Tiny, m, CommitItem(Tiny, m, c, p.items[0], 2, sampled, metrics), p.items[1], 2, sampled, metrics)
  {
    hide CommitItem;
    var c1 := CommitItem(Tiny, m, c, p.items[0], 2, sampled, metrics);
    var c2 := CommitItem(Tiny, m, c1, p.items[1], 2, sampled, metrics);
    assert p.items[1..][1..] == [] && p.items[1..][0] == p.items[1];
    assert CommitAll(Tiny, m, c2, p.items[1..][1..], p.counts, sampled, metrics) == c2;
    assert CommitAll(Tiny, m, c1, p.items[1..], p.counts, sampled, metrics) == c2;
  }

  lemma ItemCounts(s: Sched, p: Plan)
    requires SchedInv(Tiny, s, p.items) && CountsOk(p.items, p.counts) && |p.items| == 2
    requires forall k :: 0 <= k < 2 ==>
      p.items[k].seqLen == 2 && p.items[k].id in s.running && s.running[p.items[k].id].computed == 0
    ensures p.counts[p.items[0].id] == 2 && p.counts[p.items[1].id] == 2
  {
    hide IdsOk, CacheOk, RequestsOk, ItemsOk, SizesOk;
    ItemSlots(Tiny, s, p.items, 0);
    ItemSlots(Tiny, s, p.items, 1);
  }

  /** In the jammed state nothing can advance. */
  lemma JammedIsStuck(s: Sched, a: RequestId, b: RequestId)
    requires SchedInv(Tiny, s, []) && Jammed(s, a, b) && a != b
    ensures IdsOk(s) && !CanAdvance(Tiny, s)
  {
    hide SchedInv, IdsOk, FitsAt;
    SchedInvIds(Tiny, s, []);
    KeyedState(s);
    forall i: nat | i < |s.order| ensures !FitsAt(Tiny, s, s.cache, i) { JammedFits(s, a, b, i); }
  }

  lemma JammedFits(s: Sched, a: RequestId, b: RequestId, i: nat)
    requires SchedInv(Tiny, s, []) && Jammed(s, a, b) && a != b && i < 2 && Keyed(s, s.cache.tables)
    ensures !FitsAt(Tiny, s, s.cache, i)
  {
    hide SchedInv, CeilDiv;
    Sizes();
    NoFree(s, a, b);
    assert |All(s.running[s.order[i]])| == 3;
  }

  lemma NoFree(s: Sched, a: RequestId, b: RequestId)
    requires SchedInv(Tiny, s, []) && Jammed(s, a, b) && a != b
    ensures a in s.cache.tables && b in s.cache.tables
    ensures |s.cache.tables[a]| == 1 && |s.cache.tables[b]| == 1 && s.cache.pool.free == []
  {
    hide CacheOk, RequestsOk, ItemsOk, CeilDiv;
    Sizes();
    BlockConservation(2, s.cache, s.order);
    assert HeldBlocks([a, b][1..][1..], s.cache.tables) == 0;
    assert HeldBlocks([a, b][1..], s.cache.tables) == 1;
  }

  /** After two ordinary requests and one turn the engine is jammed.  It takes only that the first
      token sampled for each is not end-of-sequence. */
  lemma StoryJams(m: Model, a: RequestId, b: RequestId)
    requires a != b && NextToken(m, Req(a), []) != m.eos && NextToken(m, Req(b), []) != m.eos
    ensures Run(Tiny, m, Story(a, b)).Some?
    ensures var c := Run(Tiny, m, Story(a, b)).value;
      c.phase.Looping? && Jammed(c.sched, a, b) && IdsOk(c.sched) && !CanAdvance(Tiny, c.sched)
  {
    hide Run, SchedInv, StoreOk, TakeTurn, Jammed, AfterAdds, Initial, IdsOk, CanAdvance;
    var adds := [Receive(Add(Req(a))), Receive(Add(Req(b)))];
    AddsRun(m, a, b);
    TurnRuns(Tiny, m, adds);
    var c := Run(Tiny, m, adds).value;
    TurnJams(m, a, b, c);
    TurnLoops(Tiny, m, c);
    assert adds + [Turn(Success)] == Story(a, b);
    TurnRuns(Tiny, m, Story(a, b));
    JammedIsStuck(Run(Tiny, m, Story(a, b)).value.sched, a, b);
  }

  /** Unconditional progress fails: the engine then has live requests that no number of further turns,
      whatever becomes of the Worker, completes or even advances. */
  lemma NeverDrains(m: Model, a: RequestId, b: RequestId, more: seq<Input>)
    requires a != b && NextToken(m, Req(a), []) != m.eos && NextToken(m, Req(b), []) != m.eos
    requires OnlyTurns(more)
    ensures Run(Tiny, m, Story(a, b)).Some? && Jammed(Run(Tiny, m, Story(a, b)).value.sched, a, b)
    ensures Run(Tiny, m, Story(a, b) + more).Some? ==> Run(Tiny, m, Story(a, b) + more) == Run(Tiny, m, Story(a, b))
    ensures Run(Tiny, m, Story(a, b) + Turns(|more|)).Some?
  {
    hide Run, SchedInv, Jammed, IdsOk, CanAdvance;
    StoryJams(m, a, b);
    TurnsRun(Tiny, m, Story(a, b), |more|);
    if Run(Tiny, m, Story(a, b) + more).Some? { Persists(Tiny, m, Story(a, b), more); }
  }
}
