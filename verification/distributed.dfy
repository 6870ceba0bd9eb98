/** Whole runs of the data-parallel system: conservation, routing, and what the client receives. */
module Distributed {
  import opened Protocol
  import opened Scheduling
  import opened Isolation
  import opened Solo
  import opened Engine
  import opened EngineProofs
  import opened Runs
  import opened Totals
  import opened Accounting
  import opened EventLog
  import opened Coordinator
  import opened CoordinatorProofs

  /** The system after a sequence of actions, or `None` if one was not enabled. */
  ghost function RunGlobal(cfg: Config, m: Model, n: nat, actions: seq<Action>): (r: Option<Global>)
    requires n > 0
    ensures r.Some? ==> GlobalInv(cfg, m, r.value) && |r.value.cores| == n
  {
    hide GlobalInv, Enabled, Apply, InitialGlobal;
    if actions == [] then
      InitialGlobalInv(cfg, m, n);
      Some(InitialGlobal(cfg, n))
    else
      match RunGlobal(cfg, m, n, actions[..|actions| - 1])
      case None => None
      case Some(g) =>
        var a := actions[|actions| - 1];
        if Enabled(cfg, m, g, a) then
          ApplyInv(cfg, m, g, a);
          ApplySize(cfg, m, g, a);
          Some(Apply(cfg, m, g, a))
        else None
  }

  lemma ApplySize(cfg: Config, m: Model, g: Global, a: Action)
    requires GlobalInv(cfg, m, g) && Enabled(cfg, m, g, a)
    ensures |Apply(cfg, m, g, a).cores| == |g.cores|
  {
    hide RankOk, ClientOk, RanksOk, RankPlaces, AbortsFollow, LoadOk, TakeTurn, Handle;
  }

  lemma InitialGlobalInv(cfg: Config, m: Model, n: nat)
    requires n > 0
    ensures GlobalInv(cfg, m, InitialGlobal(cfg, n)) && |InitialGlobal(cfg, n).cores| == n
  {
    hide RankOk, InitialCore;
    var g := InitialGlobal(cfg, n);
    forall r | 0 <= r < n
      ensures RankOk(RankConfig(cfg, r), m, g.cores[r], g.added[r]) && RankPlaces(g, r) && AbortsFollow(g, r)
      ensures LoadOk(g, r)
    {
      InitialRank(RankConfig(cfg, r), m);
      assert InitialCore(RankConfig(cfg, r)).outputs == [] by { InitialOutputs(RankConfig(cfg, r)); }
    }
  }

  lemma InitialOutputs(cfg: Config)
    ensures InitialCore(cfg).outputs == []
  {}

  lemma InitialRank(cfg: Config, m: Model)
    ensures RankOk(cfg, m, InitialCore(cfg), map[])
  {
    hide SchedInv, StoreOk, TracesOk, IdsOk, Total;
    InitialCoreInv(cfg, m);
    InitialLedger(cfg);
  }

  // ---------------------------------------------------------------- conservation

  lemma {:induction false} FinalsSplit(events: seq<Event>, n: nat)
    requires n <= |events|
    ensures Finals(events) == Finals(events[..n]) + Finals(events[n..])
    decreases |events|
  {
    if n == |events| {
      assert events[..n] == events && events[n..] == [];
    } else {
      var front := events[..|events| - 1];
      FinalsSplit(front, n);
      assert front[..n] == events[..n];
      assert events[n..] == front[n..] + [events[|events| - 1]];
      EventsAppend(front[n..], events[|events| - 1]);
    }
  }

  /** Requests live in an engine. */
  ghost function LiveIn(c: Core): nat {
    if c.phase.Crashed? then 0 else |c.sched.waiting| + |c.sched.order|
  }

  /** Distributed conservation: each rank's load is the ADDs on their way to it, plus the requests
      live in its engine, plus its finished outputs not yet drained. */
  lemma LoadConservation(cfg: Config, m: Model, n: nat, actions: seq<Action>, r: nat)
    requires r < n && RunGlobal(cfg, m, n, actions).Some?
    ensures var g := RunGlobal(cfg, m, n, actions).value;
      && g.drained[r] <= |g.cores[r].outputs|
      && g.coord.load[r] == AddsIn(g.coord.queues[r]) + LiveIn(g.cores[r]) + Finals(g.cores[r].outputs[g.drained[r]..])
  {
    hide RunGlobal, RanksOk, RankPlaces, AbortsFollow, ClientOk, Finals, AddsIn, ReachInv, ScheduledTokens;
    hide ComputedEver, LogOk, Total, IdsOk;
    var g := RunGlobal(cfg, m, n, actions).value;
    assert RankOk(RankConfig(cfg, r), m, g.cores[r], g.added[r]);
    assert LoadOk(g, r);
    LiveCount(g.cores[r].sched);
    FinalsSplit(g.cores[r].outputs, g.drained[r]);
  }

  /** The clamp of rank_load at zero never takes effect. */
  lemma ClampNeverTaken(cfg: Config, m: Model, n: nat, actions: seq<Action>, r: nat)
    requires r < n && RunGlobal(cfg, m, n, actions).Some?
    requires var g := RunGlobal(cfg, m, n, actions).value;
      g.drained[r] < |g.cores[r].outputs| && IsFinal(g.cores[r].outputs[g.drained[r]])
    ensures RunGlobal(cfg, m, n, actions).value.coord.load[r] > 0
  {
    hide RunGlobal, GlobalInv;
    LoadPositive(cfg, m, RunGlobal(cfg, m, n, actions).value, r);
  }

  /** A completed request's final output is on its engine's queue. */
  lemma ClosedHasFinal(cfg: Config, m: Model, c: Core, added: map<RequestId, EngineRequest>, id: RequestId)
    requires TracesOk(cfg, m, c, added) && id in added
    ensures LiveView(c, id).None? <==> FinalAmong(c.outputs, |c.outputs|, id)
  {
    hide TraceOf, LiveView, StreamOk, Unfinished, SoloOutput, SoloReason;
    var t := TraceOf(c.outputs, id);
    assert TraceOk(cfg, m, added, id, LiveView(c, id), t);
    if LiveView(c, id).None? {
      var i := TraceSource(c.outputs, id, |t| - 1);
      assert IsFinal(c.outputs[i]);
    }
    if FinalAmong(c.outputs, |c.outputs|, id) {
      var i :| 0 <= i < |c.outputs| && IsFinal(c.outputs[i]) && c.outputs[i].out.id == id;
      FinalIsLast(cfg, m, c, added, i);
    }
  }

  /** The final output of `id` waits to be drained. */
  ghost predicate FinalAfter(events: seq<Event>, n: nat, id: RequestId) {
    exists i :: n <= i < |events| && IsFinal(events[i]) && events[i].out.id == id
  }

  lemma OneFinal(cfg: Config, m: Model, c: Core, added: map<RequestId, EngineRequest>, id: RequestId, i: nat, j: nat)
    requires TracesOk(cfg, m, c, added) && i < |c.outputs| && IsFinal(c.outputs[i]) && c.outputs[i].out.id == id
    requires j < |c.outputs| && IsFinal(c.outputs[j]) && c.outputs[j].out.id == id
    ensures i == j
  {
    hide TracesOk;
    if i < j {
      OnlyLastIsFinal(cfg, m, c, added, i, j);
    } else if j < i {
      OnlyLastIsFinal(cfg, m, c, added, j, i);
    }
  }

  /** In an engine, a request is live, or its one final output is either drained or waiting. */
  lemma Undrained(cfg: Config, m: Model, c: Core, added: map<RequestId, EngineRequest>, n: nat, id: RequestId)
    requires TracesOk(cfg, m, c, added) && id in added && n <= |c.outputs|
    ensures !FinalAmong(c.outputs, n, id) <==> LiveView(c, id).Some? || FinalAfter(c.outputs, n, id)
  {
    hide TracesOk, LiveView;
    ClosedHasFinal(cfg, m, c, added, id);
    if FinalAmong(c.outputs, |c.outputs|, id) {
      var i :| 0 <= i < |c.outputs| && IsFinal(c.outputs[i]) && c.outputs[i].out.id == id;
      if FinalAmong(c.outputs, n, id) && FinalAfter(c.outputs, n, id) {
        var j :| 0 <= j < n && IsFinal(c.outputs[j]) && c.outputs[j].out.id == id;
        var k :| n <= k < |c.outputs| && IsFinal(c.outputs[k]) && c.outputs[k].out.id == id;
        OneFinal(cfg, m, c, added, id, j, k);
      }
      assert FinalAmong(c.outputs, n, id) || FinalAfter(c.outputs, n, id);
    }
  }

  lemma NotAddedNoFinal(cfg: Config, m: Model, c: Core, added: map<RequestId, EngineRequest>, n: nat, id: RequestId)
    requires TracesOk(cfg, m, c, added) && id !in added
    ensures !FinalAmong(c.outputs, n, id) && !FinalAfter(c.outputs, n, id)
  {
    hide TracesOk;
    if FinalAmong(c.outputs, n, id) { FinalWasAdded(cfg, m, c, added, n, id); }
    if FinalAfter(c.outputs, n, id) {
      assert FinalAmong(c.outputs, |c.outputs|, id);
      FinalWasAdded(cfg, m, c, added, |c.outputs|, id);
    }
  }

  /** request_ranks maps an id to r exactly while its ADD is queued to r, the request is live in
      engine r, or its final output waits to be drained from r. */
  lemma RoutingExact(cfg: Config, m: Model, n: nat, actions: seq<Action>, id: RequestId, r: nat)
    requires r < n && RunGlobal(cfg, m, n, actions).Some?
    ensures var g := RunGlobal(cfg, m, n, actions).value;
      (id in g.coord.ranks && g.coord.ranks[id] == r) <==>
      (|| QueueHas(g.coord.queues[r], id)
       || (id in g.added[r] && LiveView(g.cores[r], id).Some?)
       || FinalAfter(g.cores[r].outputs, g.drained[r], id))
  {
    hide RunGlobal, AbortsFollow, ClientOk, Finals, AddsIn, RankOk, LiveView, TracesOk, FinalAmong, FinalAfter;
    hide QueueHas;
    var g := RunGlobal(cfg, m, n, actions).value;
    var c := g.cores[r];
    assert RankPlaces(g, r) && LoadOk(g, r) && RankOk(RankConfig(cfg, r), m, c, g.added[r]);
    RankTraces(RankConfig(cfg, r), m, c, g.added[r]);
    QueuedHere(g, r, id);
    if id in g.added[r] {
      Undrained(RankConfig(cfg, r), m, c, g.added[r], g.drained[r], id);
    } else {
      NotAddedNoFinal(RankConfig(cfg, r), m, c, g.added[r], g.drained[r], id);
    }
  }

  /** An ABORT reaches its request: while the request is queued to rank r or live in engine r, routing an
      ABORT of it puts the command last in that rank's queue. */
  lemma AbortReaches(cfg: Config, m: Model, n: nat, actions: seq<Action>, id: RequestId, r: nat)
    requires r < n && RunGlobal(cfg, m, n, actions).Some?
    requires var g := RunGlobal(cfg, m, n, actions).value;
      && g.client != [] && g.client[0] == Abort(id)
      && (QueueHas(g.coord.queues[r], id) || (id in g.added[r] && LiveView(g.cores[r], id).Some?))
    ensures var c := RunGlobal(cfg, m, n, actions).value.coord;
      && |c.load| == |c.queues| && (forall x <- c.ranks :: c.ranks[x] < |c.queues|)
      && QueuedLast(c, RouteCommand(c, Abort(id)), r, Abort(id))
  {
    hide RunGlobal, AbortsFollow, ClientOk, Finals, AddsIn, RankOk, LiveView, FinalAmong, FinalAfter, QueueHas, RanksOk;
    hide RankPlaces, LoadOk;
    RoutingExact(cfg, m, n, actions, id, r);
    RouteEffect(RunGlobal(cfg, m, n, actions).value.coord, Abort(id));
  }

  lemma QueuedHere(g: Global, r: nat, id: RequestId)
    requires Shape(g) && r < |g.cores| && RankPlaces(g, r)
    ensures QueueHas(g.coord.queues[r], id) ==> id in g.home && g.home[id] == Routed(r) && id !in g.added[r]
  {}

  /** When an engine takes an ABORT off its queue, it has handled the matching ADD before. */
  lemma AbortAfterAdd(cfg: Config, m: Model, n: nat, actions: seq<Action>, r: nat)
    requires r < n && RunGlobal(cfg, m, n, actions).Some?
    requires var q := RunGlobal(cfg, m, n, actions).value.coord.queues[r]; q != [] && q[0].Abort?
    ensures var g := RunGlobal(cfg, m, n, actions).value; g.coord.queues[r][0].id in g.added[r]
  {
    hide RunGlobal, RanksOk, RankPlaces, ClientOk, LoadOk, RankOk;
    var g := RunGlobal(cfg, m, n, actions).value;
    assert AbortsFollow(g, r);
    assert g.coord.queues[r][..0] == [];
  }

  // ------------------------------------------------------ what the client receives

  /** The client's stream for a request is the drained part of its engine's stream. */
  ghost predicate StreamOf(g: Global, id: RequestId)
    requires Shape(g)
  {
    TraceOf(g.coord.out, id) ==
      if id in g.home && g.home[id].Routed? && g.home[id].rank < |g.cores|
        && g.drained[g.home[id].rank] <= |g.cores[g.home[id].rank].outputs|
      then TraceOf(g.cores[g.home[id].rank].outputs[..g.drained[g.home[id].rank]], id)
      else []
  }

  /** Outputs about a request appear only in the engine it was routed to. */
  lemma TraceAtHome(cfg: Config, m: Model, g: Global, r: nat, i: nat)
    requires GlobalInv(cfg, m, g) && r < |g.cores| && i < |g.cores[r].outputs| && g.cores[r].outputs[i].Output?
    ensures var id := g.cores[r].outputs[i].out.id; id in g.home && g.home[id] == Routed(r)
  {
    hide RanksOk, AbortsFollow, ClientOk, LoadOk, RankOk, TraceOf, OpenTrace, ClosedTrace, LiveView;
    var c, id := g.cores[r], g.cores[r].outputs[i].out.id;
    assert RankPlaces(g, r) && RankOk(RankConfig(cfg, r), m, c, g.added[r]);
    RankTraces(RankConfig(cfg, r), m, c, g.added[r]);
    assert TraceOk(RankConfig(cfg, r), m, g.added[r], id, LiveView(c, id), TraceOf(c.outputs, id));
    TraceAt(c.outputs, i);
    TracePrefix(c.outputs, i + 1, id);
  }

  lemma DrainStream(cfg: Config, m: Model, g: Global, x: nat, id: RequestId)
    requires GlobalInv(cfg, m, g) && Enabled(cfg, m, g, Drain(x)) && StreamOf(g, id)
    ensures Shape(Apply(cfg, m, g, Drain(x))) && StreamOf(Apply(cfg, m, g, Drain(x)), id)
  {
    hide RankOk, RanksOk, AbortsFollow, RankPlaces, ClientOk, LoadOk, TraceOf;
    var events, k := g.cores[x].outputs, g.drained[x];
    TraceAppend(g.coord.out, events[k], id);
    TraceAppend(events[..k], events[k], id);
    assert events[..k + 1] == events[..k] + [events[k]];
    if events[k].Output? { TraceAtHome(cfg, m, g, x, k); }
  }

  lemma StreamStep(cfg: Config, m: Model, g: Global, a: Action, id: RequestId)
    requires GlobalInv(cfg, m, g) && Enabled(cfg, m, g, a) && StreamOf(g, id)
    requires GlobalInv(cfg, m, Apply(cfg, m, g, a))
    ensures StreamOf(Apply(cfg, m, g, a), id)
  {
    hide RankOk, RanksOk, AbortsFollow, RankPlaces, TraceOf, TakeTurn, Handle, TurnAllowed, WellFormed, Finals, AddsIn;
    hide DistinctAdds;
    var g' := Apply(cfg, m, g, a);
    match a
    case Submit(command) =>
    case Route =>
      if g.client[0].Add? && g.client[0].request.id == id { RoutedEmpty(cfg, m, g, id, LeastLoaded(g.coord.load)); }
    case Deliver(x) =>
      assert LoadOk(g, x);
      DeliverGrows(cfg, m, g, x);
      assert g'.cores[x].outputs[..g.drained[x]] == g.cores[x].outputs[..g.drained[x]];
    case EngineTurn(x, outcome) =>
      assert LoadOk(g, x);
      TurnGrows(cfg, m, g, x, outcome);
      assert g'.cores[x].outputs[..g.drained[x]] == g.cores[x].outputs[..g.drained[x]];
    case Drain(x) =>
      DrainStream(cfg, m, g, x, id);
    case Stop =>
  }

  lemma DeliverGrows(cfg: Config, m: Model, g: Global, x: nat)
    requires GlobalInv(cfg, m, g) && Enabled(cfg, m, g, Deliver(x))
    ensures g.cores[x].outputs <= Apply(cfg, m, g, Deliver(x)).cores[x].outputs
  {
    hide RankOk, RanksOk, AbortsFollow, ClientOk, LoadOk, Handle, WellFormed;
    assert RankPlaces(g, x) && RankOk(RankConfig(cfg, x), m, g.cores[x], g.added[x]);
    RankHandle(RankConfig(cfg, x), m, g.cores[x], g.added[x], g.coord.queues[x][0]);
  }

  lemma TurnGrows(cfg: Config, m: Model, g: Global, x: nat, outcome: Outcome)
    requires GlobalInv(cfg, m, g) && Enabled(cfg, m, g, EngineTurn(x, outcome))
    ensures g.cores[x].outputs <= Apply(cfg, m, g, EngineTurn(x, outcome)).cores[x].outputs
  {
    hide RankOk, RanksOk, AbortsFollow, ClientOk, LoadOk, RankPlaces, TakeTurn, TurnAllowed;
    RankSched(cfg, m, g, x);
    assert RankOk(RankConfig(cfg, x), m, g.cores[x], g.added[x]);
    RankTurn(RankConfig(cfg, x), m, g.cores[x], g.added[x], outcome);
  }

  /** An engine has said nothing about a request that is still at the client. */
  lemma RoutedEmpty(cfg: Config, m: Model, g: Global, id: RequestId, x: nat)
    requires GlobalInv(cfg, m, g) && x < |g.cores| && id in g.home && g.home[id] == AtClient
    ensures g.drained[x] <= |g.cores[x].outputs| && TraceOf(g.cores[x].outputs[..g.drained[x]], id) == []
  {
    hide RanksOk, AbortsFollow, ClientOk, RankOk, TraceOf, OpenTrace, ClosedTrace, LiveView, Finals, AddsIn;
    assert RankPlaces(g, x) && LoadOk(g, x) && RankOk(RankConfig(cfg, x), m, g.cores[x], g.added[x]);
    RankTraces(RankConfig(cfg, x), m, g.cores[x], g.added[x]);
    assert TraceOk(RankConfig(cfg, x), m, g.added[x], id, LiveView(g.cores[x], id), TraceOf(g.cores[x].outputs, id));
    TracePrefix(g.cores[x].outputs, g.drained[x], id);
  }

  lemma {:induction false} StreamsOk(cfg: Config, m: Model, n: nat, actions: seq<Action>, id: RequestId)
    requires n > 0 && RunGlobal(cfg, m, n, actions).Some?
    ensures StreamOf(RunGlobal(cfg, m, n, actions).value, id)
    decreases |actions|
  {
    hide GlobalInv, Enabled, Apply, StreamOf;
    if actions == [] {
      InitialStream(cfg, m, n, id);
    } else {
      var front := actions[..|actions| - 1];
      StreamsOk(cfg, m, n, front, id);
      StreamStep(cfg, m, RunGlobal(cfg, m, n, front).value, actions[|actions| - 1], id);
    }
  }

  lemma InitialStream(cfg: Config, m: Model, n: nat, id: RequestId)
    requires n > 0
    ensures Shape(InitialGlobal(cfg, n)) && StreamOf(InitialGlobal(cfg, n), id)
  {
    hide InitialCore;
  }

  /** The solo run depends on the configuration only through the context limit, which all ranks share. */
  lemma SameSolo(cfg: Config, m: Model, req: EngineRequest, r: nat)
    requires WellFormed(req)
    ensures SoloOutput(RankConfig(cfg, r), m, req) == SoloOutput(cfg, m, req)
    ensures SoloReason(RankConfig(cfg, r), m, req) == SoloReason(cfg, m, req)
  {
    hide Generated, HitsStop;
    assert ContextLimit(RankConfig(cfg, r)) == ContextLimit(cfg);
    hide ContextLimit;
    SameSearch(cfg, m, req, r, 1);
  }

  lemma {:induction false} SameSearch(cfg: Config, m: Model, req: EngineRequest, r: nat, k: nat)
    requires 0 < k <= req.params.maxTokens && ContextLimit(RankConfig(cfg, r)) == ContextLimit(cfg)
    ensures SearchLength(RankConfig(cfg, r), m, req, k) == SearchLength(cfg, m, req, k)
    decreases req.params.maxTokens - k
  {
    hide Generated, HitsStop, ContextLimit;
    assert Verdict(RankConfig(cfg, r), m, req, k) == Verdict(cfg, m, req, k);
    if Verdict(cfg, m, req, k).None? { SameSearch(cfg, m, req, r, k + 1); }
  }
}
