/** Every action of the distributed system keeps its invariant. */
module CoordinatorProofs {
  import opened Protocol
  import opened Scheduling
  import opened Engine
  import opened EngineProofs
  import opened Runs
  import opened Totals
  import opened Accounting
  import opened EventLog
  import opened Coordinator

  // --------------------------------------------------------------------- events

  lemma FinalsStep(events: seq<Event>, i: nat)
    requires i < |events|
    ensures Finals(events[..i + 1]) == Finals(events[..i]) + if IsFinal(events[i]) then 1 else 0
  {
    assert events[..i + 1] == events[..i] + [events[i]];
    EventsAppend(events[..i], events[i]);
  }

  lemma {:induction false} FinalsPrefix(events: seq<Event>, i: nat)
    requires i <= |events|
    ensures Finals(events[..i]) <= Finals(events)
    decreases |events| - i
  {
    if i < |events| {
      FinalsStep(events, i);
      FinalsPrefix(events, i + 1);
    } else {
      assert events[..i] == events;
    }
  }

  /** A final output belongs to a request this engine was given. */
  lemma FinalWasAdded(cfg: Config, m: Model, c: Core, added: map<RequestId, EngineRequest>, n: nat, id: RequestId)
    requires TracesOk(cfg, m, c, added) && FinalAmong(c.outputs, n, id)
    ensures id in added
  {
    hide TracesOk;
    var i :| 0 <= i < n && i < |c.outputs| && IsFinal(c.outputs[i]) && c.outputs[i].out.id == id;
    FinalIsLast(cfg, m, c, added, i);
  }

  lemma FinalAmongPrefix(events: seq<Event>, more: seq<Event>, n: nat, id: RequestId)
    requires events <= more && n <= |events|
    ensures FinalAmong(more, n, id) <==> FinalAmong(events, n, id)
    ensures more[..n] == events[..n]
  {
    if FinalAmong(events, n, id) {
      var i :| 0 <= i < n && i < |events| && IsFinal(events[i]) && events[i].out.id == id;
      assert more[i] == events[i];
    }
  }

  lemma FinalAmongStep(events: seq<Event>, n: nat, id: RequestId)
    requires n < |events|
    ensures FinalAmong(events, n + 1, id)
      <==> FinalAmong(events, n, id) || (IsFinal(events[n]) && events[n].out.id == id)
  {}

  // --------------------------------------------------------------------- queues

  lemma {:induction false} AddsAppend(queue: seq<Command>, command: Command)
    ensures AddsIn(queue + [command]) == AddsIn(queue) + if command.Add? then 1 else 0
  {
    if queue == [] {
      assert queue + [command] == [command];
    } else {
      assert (queue + [command])[1..] == queue[1..] + [command];
      AddsAppend(queue[1..], command);
    }
  }

  lemma QueueHasAppend(queue: seq<Command>, command: Command, id: RequestId)
    ensures QueueHas(queue + [command], id) <==> QueueHas(queue, id) || (command.Add? && command.request.id == id)
  {
    var q := queue + [command];
    assert q[|queue|] == command;
    if QueueHas(queue, id) {
      var k :| 0 <= k < |queue| && queue[k].Add? && queue[k].request.id == id;
      assert q[k] == queue[k];
    }
  }

  lemma QueueHasHead(queue: seq<Command>, id: RequestId)
    requires queue != []
    ensures QueueHas(queue, id) <==> QueueHas(queue[1..], id) || (queue[0].Add? && queue[0].request.id == id)
  {
    if QueueHas(queue, id) {
      var k :| 0 <= k < |queue| && queue[k].Add? && queue[k].request.id == id;
      if k > 0 { assert queue[1..][k - 1] == queue[k]; }
    }
    if QueueHas(queue[1..], id) {
      var k :| 0 <= k < |queue[1..]| && queue[1..][k].Add? && queue[1..][k].request.id == id;
      assert queue[k + 1] == queue[1..][k];
    }
  }

  // -------------------------------------------------------------------- engines

  lemma RankHandle(cfg: Config, m: Model, c: Core, added: map<RequestId, EngineRequest>, command: Command)
    requires RankOk(cfg, m, c, added) && !c.phase.Crashed? && Fresh(added, command)
    ensures RankOk(cfg, m, Handle(cfg, c, command), AddedBy(added, command))
    ensures c.outputs <= Handle(cfg, c, command).outputs
  {
    hide IdsOk, Requests, ScheduledTokens, ComputedEver, LogOk, TracesOk, CoreInv, WellFormed, Handle;
    CoreParts(cfg, m, c, added);
    assert ReachInv(cfg, m, Handle(cfg, c, command), AddedBy(added, command)) by {
      hide SchedInv, TurnAllowed, TakeTurn;
      StepInv(cfg, m, c, added, Receive(command));
      assert Step(cfg, m, c, Receive(command)) == Handle(cfg, c, command);
    }
    HandleLedger(cfg, c, command);
    HandleLog(cfg, c, command);
  }

  lemma RankTurn(cfg: Config, m: Model, c: Core, added: map<RequestId, EngineRequest>, outcome: Outcome)
    requires RankOk(cfg, m, c, added) && c.phase.Looping? && SchedInv(cfg, c.sched, []) && TurnAllowed(cfg, c, outcome)
    ensures RankOk(cfg, m, TakeTurn(cfg, m, c, outcome), added)
    ensures c.outputs <= TakeTurn(cfg, m, c, outcome).outputs
  {
    hide IdsOk, Requests, ScheduledTokens, ComputedEver, LogOk, TracesOk, CoreInv, WellFormed, TakeTurn, SchedInv;
    hide TurnAllowed;
    assert ReachInv(cfg, m, TakeTurn(cfg, m, c, outcome), added) by {
      StepInv(cfg, m, c, added, Turn(outcome));
      assert Step(cfg, m, c, Turn(outcome)) == TakeTurn(cfg, m, c, outcome);
    }
    TurnLedger(cfg, m, c, outcome);
    TurnLog(cfg, m, c, outcome);
  }

  // --------------------------------------------------------------------- submit

  lemma SubmitInv(cfg: Config, m: Model, g: Global, command: Command)
    requires GlobalInv(cfg, m, g) && Enabled(cfg, m, g, Submit(command))
    ensures GlobalInv(cfg, m, Apply(cfg, m, g, Submit(command)))
  {
    hide RankOk, WellFormed, QueueHas, FinalAmong, Finals, AddsIn, DistinctAdds, ClientOk, RankPlaces, RanksOk;
    var g' := Apply(cfg, m, g, Submit(command));
    ClientAppend(g, command);
    if command.Add? {
      FreshHome(g, command.request.id);
      assert g'.home == g.home[command.request.id := AtClient];
    }
    forall r | 0 <= r < |g'.cores| ensures RankPlaces(g', r) && AbortsFollow(g', r) && LoadOk(g', r) {
      assert RankPlaces(g, r) && AbortsFollow(g, r) && LoadOk(g, r);
      SubmitPlaces(g, g', r);
    }
    SubmitRanks(g, g');
  }

  /** Recording that a new request is at the client changes nothing for ranks. */
  ghost predicate HomeExtends(g: Global, g': Global) {
    && (forall id <- g.home :: id in g'.home && g'.home[id] == g.home[id])
    && (forall id <- g'.home :: id !in g.home ==> g'.home[id] == AtClient)
  }

  lemma FreshHome(g: Global, x: RequestId)
    requires x !in g.home
    ensures HomeExtends(g, g.(home := g.home[x := AtClient]))
  {}

  lemma SubmitPlaces(g: Global, g': Global, r: nat)
    requires Shape(g) && Shape(g') && r < |g.cores| && RankPlaces(g, r) && HomeExtends(g, g')
    requires g'.coord == g.coord && g'.added == g.added && g'.cores == g.cores
    ensures RankPlaces(g', r)
  {
    hide WellFormed, QueueHas, DistinctAdds;
  }

  lemma SubmitRanks(g: Global, g': Global)
    requires Shape(g) && Shape(g') && RanksOk(g) && HomeExtends(g, g')
    requires g'.coord == g.coord && g'.drained == g.drained && g'.cores == g.cores
    ensures RanksOk(g')
  {
    hide FinalAmong;
  }

  lemma ClientAppend(g: Global, command: Command)
    requires Shape(g) && ClientOk(g)
    requires command.Add? ==> WellFormed(command.request) && command.request.id !in g.home
    ensures ClientOk(g.(client := g.client + [command],
      home := if command.Add? then g.home[command.request.id := AtClient] else g.home))
  {
    hide WellFormed;
    var client := g.client + [command];
    assert client[|g.client|] == command && forall k :: 0 <= k < |g.client| ==> client[k] == g.client[k];
  }

  // ---------------------------------------------------------------------- route

  lemma ClientTail(g: Global, home: map<RequestId, Place>)
    requires Shape(g) && ClientOk(g) && g.client != []
    requires forall id :: id in g.home && !(g.client[0].Add? && id == g.client[0].request.id) ==>
      id in home && home[id] == g.home[id]
    ensures ClientOk(g.(client := g.client[1..], home := home))
  {
    hide WellFormed;
    assert forall k :: 0 <= k < |g.client[1..]| ==> g.client[1..][k] == g.client[k + 1];
  }

  /** An ADD joins the queue of the rank it is routed to. */
  lemma RouteAddPlaces(g: Global, g': Global, req: EngineRequest, x: nat, r: nat)
    requires Shape(g) && Shape(g') && r < |g.cores| == |g'.cores| && x < |g.cores| && RankPlaces(g, r)
    requires WellFormed(req) && req.id in g.home && g.home[req.id] == AtClient
    requires g'.home == g.home[req.id := Routed(x)] && g'.added == g.added
    requires g'.coord.queues == g.coord.queues[x := g.coord.queues[x] + [Add(req)]]
    ensures RankPlaces(g', r)
  {
    hide WellFormed, QueueHas;
    var queue, queue' := g.coord.queues[r], g'.coord.queues[r];
    if r == x {
      assert queue'[|queue|] == Add(req) && forall k :: 0 <= k < |queue| ==> queue'[k] == queue[k];
      forall id | id in g'.home && g'.home[id] == Routed(r) ensures QueueHas(queue', id) || id in g'.added[r] {
        QueueHasAppend(queue, Add(req), id);
      }
    }
  }

  lemma QueueGrowsAborts(g: Global, g': Global, command: Command, x: nat, r: nat)
    requires Shape(g) && Shape(g') && r < |g.cores| == |g'.cores| && x < |g.cores| && AbortsFollow(g, r)
    requires g'.added == g.added && g'.coord.queues == g.coord.queues[x := g.coord.queues[x] + [command]]
    requires command.Abort? ==> QueueHas(g.coord.queues[x], command.id) || command.id in g.added[x]
    ensures AbortsFollow(g', r)
  {
    hide QueueHas;
    if r == x {
      var queue, queue' := g.coord.queues[r], g'.coord.queues[r];
      forall k | 0 <= k < |queue'| && queue'[k].Abort?
        ensures QueueHas(queue'[..k], queue'[k].id) || queue'[k].id in g'.added[r]
      {
        assert queue'[..k] == queue[..k];
        if k == |queue| { assert queue[..k] == queue; }
      }
    }
  }

  lemma RouteAddRanks(cfg: Config, m: Model, g: Global, g': Global, id: RequestId, x: nat)
    requires GlobalInv(cfg, m, g) && Shape(g') && x < |g.cores| && id in g.home && g.home[id] == AtClient
    requires g'.home == g.home[id := Routed(x)] && g'.coord.ranks == g.coord.ranks[id := x]
    requires g'.cores == g.cores && g'.drained == g.drained
    ensures RanksOk(g')
  {
    hide RankOk, ClientOk, AbortsFollow, LoadOk, FinalAmong;
    assert RankPlaces(g, x) && RankOk(RankConfig(cfg, x), m, g.cores[x], g.added[x]);
    RankTraces(RankConfig(cfg, x), m, g.cores[x], g.added[x]);
    if FinalAmong(g.cores[x].outputs, g.drained[x], id) {
      FinalWasAdded(RankConfig(cfg, x), m, g.cores[x], g.added[x], g.drained[x], id);
    }
  }

  lemma RankTraces(cfg: Config, m: Model, c: Core, added: map<RequestId, EngineRequest>)
    requires RankOk(cfg, m, c, added)
    ensures TracesOk(cfg, m, c, added)
  {
    hide TracesOk, CoreInv, IdsOk, LogOk, Requests, ScheduledTokens, ComputedEver;
  }

  lemma RouteAddInv(cfg: Config, m: Model, g: Global)
    requires GlobalInv(cfg, m, g) && Enabled(cfg, m, g, Route) && g.client[0].Add?
    ensures GlobalInv(cfg, m, Apply(cfg, m, g, Route))
  {
    hide RankOk, WellFormed, QueueHas, FinalAmong, Finals, AddsIn, DistinctAdds, RankPlaces, RanksOk, AbortsFollow;
    var g', req, x := Apply(cfg, m, g, Route), g.client[0].request, LeastLoaded(g.coord.load);
    ClientTail(g, g'.home);
    RouteAddRanks(cfg, m, g, g', req.id, x);
    AddsAppend(g.coord.queues[x], g.client[0]);
    forall r | 0 <= r < |g'.cores| ensures RankPlaces(g', r) && AbortsFollow(g', r) && LoadOk(g', r) {
      assert RankPlaces(g, r) && AbortsFollow(g, r) && LoadOk(g, r);
      RouteAddPlaces(g, g', req, x, r);
      QueueGrowsAborts(g, g', g.client[0], x, r);
    }
  }

  lemma RouteAbortPlaces(g: Global, g': Global, id: RequestId, x: nat, r: nat)
    requires Shape(g) && Shape(g') && r < |g.cores| == |g'.cores| && x < |g.cores| && RankPlaces(g, r)
    requires g'.home == g.home && g'.added == g.added
    requires g'.coord.queues == g.coord.queues[x := g.coord.queues[x] + [Abort(id)]]
    ensures RankPlaces(g', r)
  {
    hide WellFormed, QueueHas;
    var queue, queue' := g.coord.queues[r], g'.coord.queues[r];
    if r == x {
      assert forall k :: 0 <= k < |queue| ==> queue'[k] == queue[k];
      forall a | a in g'.home && g'.home[a] == Routed(r) ensures QueueHas(queue', a) || a in g'.added[r] {
        QueueHasAppend(queue, Abort(id), a);
      }
    }
  }

  lemma RouteOtherInv(cfg: Config, m: Model, g: Global)
    requires GlobalInv(cfg, m, g) && Enabled(cfg, m, g, Route) && !g.client[0].Add?
    ensures GlobalInv(cfg, m, Apply(cfg, m, g, Route))
  {
    hide RankOk, WellFormed, QueueHas, FinalAmong, Finals, AddsIn, DistinctAdds, RankPlaces, AbortsFollow;
    var g' := Apply(cfg, m, g, Route);
    ClientTail(g, g'.home);
    if g.client[0].Abort? && g.client[0].id in g.coord.ranks {
      var id := g.client[0].id;
      var x := g.coord.ranks[id];
      AddsAppend(g.coord.queues[x], g.client[0]);
      RoutedThere(g, id, x);
      forall r | 0 <= r < |g'.cores| ensures RankPlaces(g', r) && AbortsFollow(g', r) && LoadOk(g', r) {
        assert RankPlaces(g, r) && AbortsFollow(g, r) && LoadOk(g, r);
        RouteAbortPlaces(g, g', id, x, r);
        QueueGrowsAborts(g, g', g.client[0], x, r);
      }
    } else {
      forall r | 0 <= r < |g'.cores| ensures RankPlaces(g', r) && AbortsFollow(g', r) && LoadOk(g', r) {
        assert RankPlaces(g, r) && AbortsFollow(g, r) && LoadOk(g, r);
        SubmitPlaces(g, g', r);
        AbortsSame(g, g', r);
      }
    }
  }

  lemma AbortsSame(g: Global, g': Global, r: nat)
    requires Shape(g) && Shape(g') && r < |g.cores| == |g'.cores| && AbortsFollow(g, r)
    requires g'.coord.queues == g.coord.queues && g'.added == g.added
    ensures AbortsFollow(g', r)
  {
    hide QueueHas;
  }

  lemma RoutedThere(g: Global, id: RequestId, x: nat)
    requires Shape(g) && x < |g.cores| && RankPlaces(g, x) && id in g.home && g.home[id] == Routed(x)
    ensures QueueHas(g.coord.queues[x], id) || id in g.added[x]
  {
    hide QueueHas, WellFormed, DistinctAdds;
  }

  // ---------------------------------------------------------------- engine steps

  /** An engine that only appends to its queue changes nothing about what was drained. */
  lemma GrowRanks(g: Global, g': Global, x: nat)
    requires Shape(g) && Shape(g') && RanksOk(g) && x < |g.cores| && |g'.cores| == |g.cores|
    requires g'.home == g.home && g'.coord.ranks == g.coord.ranks && g'.drained == g.drained
    requires forall r :: 0 <= r < |g.cores| ==>
      g.cores[r].outputs <= g'.cores[r].outputs && g.drained[r] <= |g.cores[r].outputs|
    ensures RanksOk(g')
  {
    hide FinalAmong;
    forall r, id: RequestId | 0 <= r < |g.cores|
      ensures FinalAmong(g'.cores[r].outputs, g'.drained[r], id) <==> FinalAmong(g.cores[r].outputs, g.drained[r], id)
    {
      FinalAmongPrefix(g.cores[r].outputs, g'.cores[r].outputs, g.drained[r], id);
    }
  }

  lemma DeliverPlaces(g: Global, g': Global, x: nat, r: nat)
    requires Shape(g) && Shape(g') && r < |g.cores| == |g'.cores| && x < |g.cores| && RankPlaces(g, r)
    requires g.coord.queues[x] != []
    requires g'.home == g.home && g'.added == g.added[x := AddedBy(g.added[x], g.coord.queues[x][0])]
    requires g'.coord.queues == g.coord.queues[x := g.coord.queues[x][1..]]
    ensures RankPlaces(g', r)
  {
    hide WellFormed, QueueHas;
    if r == x {
      var queue, queue' := g.coord.queues[r], g'.coord.queues[r];
      assert forall k :: 0 <= k < |queue'| ==> queue'[k] == queue[k + 1];
      forall id | id in g'.home && g'.home[id] == Routed(r) ensures QueueHas(queue', id) || id in g'.added[r] {
        QueueHasHead(queue, id);
      }
    }
  }

  lemma DeliverAborts(g: Global, g': Global, x: nat, r: nat)
    requires Shape(g) && Shape(g') && r < |g.cores| == |g'.cores| && x < |g.cores| && AbortsFollow(g, r)
    requires g.coord.queues[x] != []
    requires g'.added == g.added[x := AddedBy(g.added[x], g.coord.queues[x][0])]
    requires g'.coord.queues == g.coord.queues[x := g.coord.queues[x][1..]]
    ensures AbortsFollow(g', r)
  {
    hide QueueHas;
    if r == x {
      var queue, queue' := g.coord.queues[r], g'.coord.queues[r];
      forall k | 0 <= k < |queue'| && queue'[k].Abort?
        ensures QueueHas(queue'[..k], queue'[k].id) || queue'[k].id in g'.added[r]
      {
        assert queue'[k] == queue[k + 1];
        QueueHasHead(queue[..k + 1], queue'[k].id);
        assert queue[..k + 1][1..] == queue'[..k];
      }
    }
  }

  lemma GrowLoad(g: Global, g': Global, r: nat)
    requires Shape(g) && Shape(g') && r < |g.cores| == |g'.cores| && LoadOk(g, r)
    requires g.cores[r].outputs <= g'.cores[r].outputs && g'.drained[r] == g.drained[r]
    requires g'.coord.load[r] == g.coord.load[r]
    requires AddsIn(g'.coord.queues[r]) + |g'.added[r]| == AddsIn(g.coord.queues[r]) + |g.added[r]|
    ensures LoadOk(g', r)
  {
    hide AddsIn, Finals;
    assert g'.cores[r].outputs[..g.drained[r]] == g.cores[r].outputs[..g.drained[r]];
  }

  lemma DeliverInv(cfg: Config, m: Model, g: Global, x: nat)
    requires GlobalInv(cfg, m, g) && Enabled(cfg, m, g, Deliver(x))
    ensures GlobalInv(cfg, m, Apply(cfg, m, g, Deliver(x)))
  {
    hide RankOk, WellFormed, QueueHas, FinalAmong, Finals, DistinctAdds, RanksOk, AbortsFollow, Handle, ClientOk;
    hide LoadOk;
    var g', command := Apply(cfg, m, g, Deliver(x)), g.coord.queues[x][0];
    assert RankPlaces(g, x);
    RankHandle(RankConfig(cfg, x), m, g.cores[x], g.added[x], command);
    AddedCount(g.added[x], command);
    LoadBounds(g);
    GrowRanks(g, g', x);
    ClientSame(g, g');
    forall r | 0 <= r < |g'.cores| ensures RankPlaces(g', r) && AbortsFollow(g', r) && LoadOk(g', r) {
      assert RankPlaces(g, r) && AbortsFollow(g, r) && LoadOk(g, r);
      DeliverPlaces(g, g', x, r);
      DeliverAborts(g, g', x, r);
      GrowLoad(g, g', r);
    }
  }

  lemma AddedCount(added: map<RequestId, EngineRequest>, command: Command)
    requires command.Add? ==> command.request.id !in added
    ensures |AddedBy(added, command)| == |added| + if command.Add? then 1 else 0
  {}

  lemma LoadBounds(g: Global)
    requires Shape(g) && forall r :: 0 <= r < |g.cores| ==> LoadOk(g, r)
    ensures forall r :: 0 <= r < |g.cores| ==> g.drained[r] <= |g.cores[r].outputs|
  {
    hide Finals, AddsIn;
    forall r | 0 <= r < |g.cores| ensures g.drained[r] <= |g.cores[r].outputs| { assert LoadOk(g, r); }
  }

  lemma ClientSame(g: Global, g': Global)
    requires Shape(g) && Shape(g') && ClientOk(g) && g'.client == g.client && g'.home == g.home
    ensures ClientOk(g')
  {
    hide WellFormed, DistinctAdds;
  }

  lemma EngineTurnInv(cfg: Config, m: Model, g: Global, x: nat, outcome: Outcome)
    requires GlobalInv(cfg, m, g) && Enabled(cfg, m, g, EngineTurn(x, outcome))
    ensures GlobalInv(cfg, m, Apply(cfg, m, g, EngineTurn(x, outcome)))
  {
    hide RankOk, WellFormed, RanksOk, RankPlaces, AbortsFollow, TakeTurn, ClientOk, LoadOk, TurnAllowed, AddsIn;
    RankSched(cfg, m, g, x);
    var g' := Apply(cfg, m, g, EngineTurn(x, outcome));
    RankTurn(RankConfig(cfg, x), m, g.cores[x], g.added[x], outcome);
    LoadBounds(g);
    GrowRanks(g, g', x);
    ClientSame(g, g');
    forall r | 0 <= r < |g'.cores| ensures RankPlaces(g', r) && AbortsFollow(g', r) && LoadOk(g', r) {
      assert RankPlaces(g, r) && AbortsFollow(g, r) && LoadOk(g, r);
      PlacesSame(g, g', r);
      AbortsSame(g, g', r);
      GrowLoad(g, g', r);
    }
  }

  lemma PlacesSame(g: Global, g': Global, r: nat)
    requires Shape(g) && Shape(g') && r < |g.cores| == |g'.cores| && RankPlaces(g, r)
    requires g'.home == g.home && g'.added == g.added && g'.coord.queues == g.coord.queues
    ensures RankPlaces(g', r)
  {
    hide WellFormed, QueueHas, DistinctAdds;
  }

  // ---------------------------------------------------------------------- drain

  /** While a final output waits to be drained the rank's load is positive, so the clamp at zero
      never takes effect. */
  lemma LoadPositive(cfg: Config, m: Model, g: Global, x: nat)
    requires GlobalInv(cfg, m, g) && x < |g.cores| && g.drained[x] < |g.cores[x].outputs|
    requires IsFinal(g.cores[x].outputs[g.drained[x]])
    ensures g.coord.load[x] > 0
  {
    hide RanksOk, RankPlaces, AbortsFollow, ClientOk, Finals, AddsIn, ReachInv, ScheduledTokens, ComputedEver, LogOk;
    hide Total, IdsOk;
    var c := g.cores[x];
    assert RankOk(RankConfig(cfg, x), m, c, g.added[x]);
    assert LoadOk(g, x);
    FinalsStep(c.outputs, g.drained[x]);
    FinalsPrefix(c.outputs, g.drained[x] + 1);
    LiveCount(c.sched);
  }

  lemma DrainRanks(cfg: Config, m: Model, g: Global, g': Global, x: nat)
    requires GlobalInv(cfg, m, g) && Shape(g') && x < |g.cores| && g.drained[x] < |g.cores[x].outputs|
    requires g'.cores == g.cores && g'.home == g.home && g'.drained == g.drained[x := g.drained[x] + 1]
    requires var e := g.cores[x].outputs[g.drained[x]];
      g'.coord.ranks == if IsFinal(e) then g.coord.ranks - {e.out.id} else g.coord.ranks
    ensures RanksOk(g')
  {
    hide RankOk, ClientOk, AbortsFollow, LoadOk, FinalAmong;
    var events, n := g.cores[x].outputs, g.drained[x];
    forall id: RequestId
      ensures FinalAmong(events, n + 1, id)
      <==> FinalAmong(events, n, id) || (IsFinal(events[n]) && events[n].out.id == id)
    {
      FinalAmongStep(events, n, id);
    }
    if IsFinal(events[n]) {
      var id := events[n].out.id;
      FinalAmongStep(events, n, id);
      assert RankOk(RankConfig(cfg, x), m, g.cores[x], g.added[x]);
      RankTraces(RankConfig(cfg, x), m, g.cores[x], g.added[x]);
      FinalWasAdded(RankConfig(cfg, x), m, g.cores[x], g.added[x], n + 1, id);
      assert RankPlaces(g, x);
    }
  }

  lemma DrainInv(cfg: Config, m: Model, g: Global, x: nat)
    requires GlobalInv(cfg, m, g) && Enabled(cfg, m, g, Drain(x))
    ensures GlobalInv(cfg, m, Apply(cfg, m, g, Drain(x)))
  {
    hide RankOk, WellFormed, RanksOk, RankPlaces, AbortsFollow, ClientOk, FinalAmong, Finals, AddsIn;
    var g' := Apply(cfg, m, g, Drain(x));
    if IsFinal(g.cores[x].outputs[g.drained[x]]) { LoadPositive(cfg, m, g, x); }
    assert LoadOk(g, x);
    FinalsStep(g.cores[x].outputs, g.drained[x]);
    DrainRanks(cfg, m, g, g', x);
    ClientSame(g, g');
    forall r | 0 <= r < |g'.cores| ensures RankPlaces(g', r) && AbortsFollow(g', r) && LoadOk(g', r) {
      assert RankPlaces(g, r) && AbortsFollow(g, r) && LoadOk(g, r);
      PlacesSame(g, g', r);
      AbortsSame(g, g', r);
    }
  }

  /** The distributed invariant is kept by every action. */
  lemma ApplyInv(cfg: Config, m: Model, g: Global, a: Action)
    requires GlobalInv(cfg, m, g) && Enabled(cfg, m, g, a)
    ensures GlobalInv(cfg, m, Apply(cfg, m, g, a))
  {
    hide GlobalInv, Apply;
    match a
    case Submit(command) => SubmitInv(cfg, m, g, command);
    case Route => if g.client[0].Add? { RouteAddInv(cfg, m, g); } else { RouteOtherInv(cfg, m, g); }
    case Deliver(r) => DeliverInv(cfg, m, g, r);
    case EngineTurn(r, outcome) => EngineTurnInv(cfg, m, g, r, outcome);
    case Drain(r) => DrainInv(cfg, m, g, r);
    case Stop => StopInv(cfg, m, g);
  }

  /** A SHUTDOWN behind everything else moves no request. */
  lemma StopInv(cfg: Config, m: Model, g: Global)
    requires GlobalInv(cfg, m, g) && Enabled(cfg, m, g, Stop)
    ensures GlobalInv(cfg, m, Apply(cfg, m, g, Stop))
  {
    hide RankOk, WellFormed, FinalAmong, Finals, RanksOk;
    var g' := Apply(cfg, m, g, Stop);
    assert RanksOk(g') by { StopRanks(g, g'); }
    forall r | 0 <= r < |g.cores| ensures RankPlaces(g', r) && AbortsFollow(g', r) && LoadOk(g', r) {
      assert RankPlaces(g, r) && AbortsFollow(g, r) && LoadOk(g, r);
      StopRank(g, g', r);
    }
  }

  lemma StopRanks(g: Global, g': Global)
    requires Shape(g) && Shape(g') && RanksOk(g) && g'.home == g.home && g'.cores == g.cores && g'.drained == g.drained
    requires g'.coord.ranks == g.coord.ranks
    ensures RanksOk(g')
  {
    hide FinalAmong;
  }

  lemma StopRank(g: Global, g': Global, r: nat)
    requires Shape(g) && Shape(g') && r < |g.cores| == |g'.cores| && RankPlaces(g, r) && AbortsFollow(g, r)
    requires LoadOk(g, r)
    requires g'.home == g.home && g'.added == g.added && g'.cores == g.cores && g'.drained == g.drained
    requires g'.coord.load == g.coord.load
    requires g'.coord.queues[r] == g.coord.queues[r] + [Shutdown]
    ensures RankPlaces(g', r) && AbortsFollow(g', r) && LoadOk(g', r)
  {
    hide WellFormed, QueueHas, Finals, AddsIn;
    var queue, queue' := g.coord.queues[r], g'.coord.queues[r];
    AddsAppend(queue, Shutdown);
    forall id ensures QueueHas(queue', id) <==> QueueHas(queue, id) { QueueHasAppend(queue, Shutdown, id); }
    forall k | 0 <= k < |queue'| && queue'[k].Abort?
      ensures QueueHas(queue'[..k], queue'[k].id) || queue'[k].id in g'.added[r]
    {
      assert queue'[..k] == queue[..k];
    }
  }
}
