/** What a client receives, end to end: submitted requests travel unchanged through client queue,
    coordinator and engine, and their streams are those of running alone. */
module EndToEnd {
  import opened Protocol
  import opened Solo
  import opened Engine
  import opened EngineProofs
  import opened Runs
  import opened Coordinator
  import opened CoordinatorProofs
  import opened Distributed

  /** The requests that clients submitted, by id. */
  ghost function SubmittedOf(actions: seq<Action>): map<RequestId, EngineRequest> {
    if actions == [] then map[]
    else
      var front, last := SubmittedOf(actions[..|actions| - 1]), actions[|actions| - 1];
      if last.Submit? then AddedBy(front, last.command) else front
  }

  /** Every ADD in the queue is as submitted. */
  ghost predicate Carries(queue: seq<Command>, submitted: map<RequestId, EngineRequest>) {
    forall k :: 0 <= k < |queue| && queue[k].Add? ==>
      queue[k].request.id in submitted && submitted[queue[k].request.id] == queue[k].request
  }

  ghost predicate Unaltered(added: map<RequestId, EngineRequest>, submitted: map<RequestId, EngineRequest>) {
    forall id <- added :: id in submitted && submitted[id] == added[id]
  }

  /** No request is altered on its way. */
  ghost predicate Intact(g: Global, submitted: map<RequestId, EngineRequest>)
    requires Shape(g)
  {
    && g.home.Keys == submitted.Keys
    && (forall id <- submitted :: WellFormed(submitted[id]) && submitted[id].id == id)
    && Carries(g.client, submitted)
    && (forall r :: 0 <= r < |g.cores| ==> Carries(g.coord.queues[r], submitted))
    && (forall r :: 0 <= r < |g.cores| ==> Unaltered(g.added[r], submitted))
  }

  lemma CarriesMore(queue: seq<Command>, submitted: map<RequestId, EngineRequest>, command: Command)
    requires Carries(queue, submitted) && (command.Add? ==> command.request.id !in submitted)
    ensures Carries(queue, AddedBy(submitted, command)) && Carries(queue + [command], AddedBy(submitted, command))
  {}

  lemma SubmitIntact(cfg: Config, m: Model, g: Global, command: Command, submitted: map<RequestId, EngineRequest>)
    requires GlobalInv(cfg, m, g) && Enabled(cfg, m, g, Submit(command)) && Intact(g, submitted)
    requires Shape(Apply(cfg, m, g, Submit(command)))
    ensures Intact(Apply(cfg, m, g, Submit(command)), AddedBy(submitted, command))
  {
    hide RankOk, RanksOk, AbortsFollow, RankPlaces, LoadOk, WellFormed, ClientOk, Carries;
    CarriesMore(g.client, submitted, command);
    forall r | 0 <= r < |g.cores|
      ensures Carries(g.coord.queues[r], AddedBy(submitted, command))
      ensures Unaltered(g.added[r], AddedBy(submitted, command))
    {
      CarriesMore(g.coord.queues[r], submitted, command);
      assert Unaltered(g.added[r], submitted);
    }
  }

  lemma RouteIntact(cfg: Config, m: Model, g: Global, submitted: map<RequestId, EngineRequest>)
    requires GlobalInv(cfg, m, g) && Enabled(cfg, m, g, Route) && Intact(g, submitted) && Shape(Apply(cfg, m, g, Route))
    ensures Intact(Apply(cfg, m, g, Route), submitted)
  {
    hide RankOk, RanksOk, AbortsFollow, RankPlaces, LoadOk, WellFormed, LeastLoaded, Unaltered, DistinctAdds;
    var g' := Apply(cfg, m, g, Route);
    forall r | 0 <= r < |g.cores| ensures Carries(g'.coord.queues[r], submitted) {
      assert Carries(g.coord.queues[r], submitted);
      assert g'.coord.queues[r] == g.coord.queues[r] || g'.coord.queues[r] == g.coord.queues[r] + [g.client[0]];
    }
  }

  lemma DeliverIntact(cfg: Config, m: Model, g: Global, x: nat, submitted: map<RequestId, EngineRequest>)
    requires GlobalInv(cfg, m, g) && Enabled(cfg, m, g, Deliver(x)) && Intact(g, submitted)
    requires Shape(Apply(cfg, m, g, Deliver(x)))
    ensures Intact(Apply(cfg, m, g, Deliver(x)), submitted)
  {
    hide RankOk, RanksOk, AbortsFollow, RankPlaces, LoadOk, WellFormed, ClientOk, Handle;
    assert Carries(g.coord.queues[x], submitted) && Unaltered(g.added[x], submitted);
  }

  lemma IntactStep(cfg: Config, m: Model, g: Global, a: Action, submitted: map<RequestId, EngineRequest>)
    requires GlobalInv(cfg, m, g) && Enabled(cfg, m, g, a) && Intact(g, submitted)
    requires GlobalInv(cfg, m, Apply(cfg, m, g, a))
    ensures Intact(Apply(cfg, m, g, a), if a.Submit? then AddedBy(submitted, a.command) else submitted)
  {
    hide RankOk, RanksOk, AbortsFollow, RankPlaces, LoadOk, ClientOk, TakeTurn, TurnAllowed, WellFormed, Unaltered;
    hide AddedBy;
    match a
    case Submit(command) => SubmitIntact(cfg, m, g, command, submitted);
    case Route => RouteIntact(cfg, m, g, submitted);
    case Deliver(x) => DeliverIntact(cfg, m, g, x, submitted);
    case EngineTurn(x, outcome) =>
    case Drain(x) =>
    case Stop =>
  }

  /** In every reachable state all requests in transit and in the engines are those submitted. */
  lemma {:induction false} RequestsIntact(cfg: Config, m: Model, n: nat, actions: seq<Action>)
    requires n > 0 && RunGlobal(cfg, m, n, actions).Some?
    ensures Shape(RunGlobal(cfg, m, n, actions).value)
    ensures Intact(RunGlobal(cfg, m, n, actions).value, SubmittedOf(actions))
    decreases |actions|
  {
    hide GlobalInv, Enabled, Apply, Intact, InitialGlobal;
    if actions == [] {
      InitialIntact(cfg, n);
    } else {
      var front, a := actions[..|actions| - 1], actions[|actions| - 1];
      RequestsIntact(cfg, m, n, front);
      var g := RunGlobal(cfg, m, n, front).value;
      IntactStep(cfg, m, g, a, SubmittedOf(front));
      InvShape(cfg, m, Apply(cfg, m, g, a));
    }
  }

  lemma InvShape(cfg: Config, m: Model, g: Global)
    requires GlobalInv(cfg, m, g)
    ensures Shape(g)
  {}

  lemma InitialIntact(cfg: Config, n: nat)
    requires n > 0
    ensures Shape(InitialGlobal(cfg, n)) && Intact(InitialGlobal(cfg, n), map[])
  {
    hide InitialCore;
  }

  // ---------------------------------------------------------------------------- streams

  lemma {:induction false} StreamedPrefix(t: seq<RequestOutput>, t': seq<RequestOutput>)
    requires t <= t'
    ensures Streamed(t) <= Streamed(t') && StreamedText(t) <= StreamedText(t')
  {
    if t == t' {
    } else {
      StreamedPrefix(t, t'[..|t'| - 1]);
    }
  }

  /** The engine of a request, its trace there, and the drained part of it that the client has. */
  lemma HomeTrace(cfg: Config, m: Model, n: nat, actions: seq<Action>, id: RequestId) returns (r: nat)
    requires n > 0 && RunGlobal(cfg, m, n, actions).Some?
    requires TraceOf(RunGlobal(cfg, m, n, actions).value.coord.out, id) != []
    ensures var g := RunGlobal(cfg, m, n, actions).value;
      && r < |g.cores| == |g.added| && id in g.added[r]
      && TraceOf(g.coord.out, id) <= TraceOf(g.cores[r].outputs, id)
      && TraceOk(RankConfig(cfg, r), m, g.added[r], id, LiveView(g.cores[r], id), TraceOf(g.cores[r].outputs, id))
  {
    hide RunGlobal, AbortsFollow, ClientOk, LoadOk, RankOk, RanksOk, LiveView, TraceOf, OpenTrace, ClosedTrace;
    var g := RunGlobal(cfg, m, n, actions).value;
    StreamsOk(cfg, m, n, actions, id);
    r := g.home[id].rank;
    var c := g.cores[r];
    assert RankPlaces(g, r) && RankOk(RankConfig(cfg, r), m, c, g.added[r]);
    RankTraces(RankConfig(cfg, r), m, c, g.added[r]);
    TracePrefix(c.outputs, g.drained[r], id);
    assert TraceOk(RankConfig(cfg, r), m, g.added[r], id, LiveView(c, id), TraceOf(c.outputs, id));
  }

  /** End to end: through client queue, load balancing, any number of engines and any interleaving, a
      client whose stream ends with STOP or LENGTH received exactly the tokens of running the request it
      submitted alone, for the same reason, with right text if and only if decoding appends along them. */
  lemma ClientSeesSolo(cfg: Config, m: Model, n: nat, actions: seq<Action>, id: RequestId)
    requires n > 0 && RunGlobal(cfg, m, n, actions).Some?
    requires var t := TraceOf(RunGlobal(cfg, m, n, actions).value.coord.out, id);
      t != [] && (t[|t| - 1].finishReason == Some(STOP) || t[|t| - 1].finishReason == Some(LENGTH))
    ensures id in SubmittedOf(actions) && WellFormed(SubmittedOf(actions)[id])
    ensures var t, req := TraceOf(RunGlobal(cfg, m, n, actions).value.coord.out, id), SubmittedOf(actions)[id];
      && Streamed(t) == SoloOutput(cfg, m, req)
      && t[|t| - 1].finishReason == Some(SoloReason(cfg, m, req))
      && (InStep(m, t) <==> Appends(m, SoloOutput(cfg, m, req)))
      && (Appends(m, SoloOutput(cfg, m, req)) ==> StreamedText(t) == m.decode(SoloOutput(cfg, m, req)))
  {
    hide RunGlobal, GlobalInv, LiveView, TraceOf, SoloOutput, SoloReason, Streamed, StreamedText, Appends, Unfinished;
    hide WellFormed, DeltaTexts, InStep;
    var g := RunGlobal(cfg, m, n, actions).value;
    var t := TraceOf(g.coord.out, id);
    var r := HomeTrace(cfg, m, n, actions, id);
    RequestsIntact(cfg, m, n, actions);
    assert Unaltered(g.added[r], SubmittedOf(actions));
    var t' := TraceOf(g.cores[r].outputs, id);
    assert t'[|t| - 1] == t[|t| - 1];
    var front := t'[..|t'| - 1];
    assert forall k :: 0 <= k < |front| ==> front[k] == t'[k];
    assert t == t';
    SameSolo(cfg, m, SubmittedOf(actions)[id], r);
    TextExact(m, t);
    InStepEnd(m, t);
  }

  /** At every moment what a client has received is a prefix of running its request alone. */
  lemma ClientSeesPrefix(cfg: Config, m: Model, n: nat, actions: seq<Action>, id: RequestId)
    requires n > 0 && RunGlobal(cfg, m, n, actions).Some? && id in SubmittedOf(actions)
    ensures WellFormed(SubmittedOf(actions)[id])
    ensures var t, req := TraceOf(RunGlobal(cfg, m, n, actions).value.coord.out, id), SubmittedOf(actions)[id];
      && Streamed(t) <= SoloOutput(cfg, m, req)
      && (Appends(m, SoloOutput(cfg, m, req)) ==> StreamedText(t) <= m.decode(SoloOutput(cfg, m, req)))
  {
    hide RunGlobal, GlobalInv, LiveView, TraceOf, TraceOk, SoloOutput, Streamed, StreamedText, Appends, WellFormed;
    hide InStep;
    var g, req := RunGlobal(cfg, m, n, actions).value, SubmittedOf(actions)[id];
    RequestsIntact(cfg, m, n, actions);
    var t := TraceOf(g.coord.out, id);
    if t == [] {
      NothingStreamed();
    } else {
      var r := HomeTrace(cfg, m, n, actions, id);
      assert Unaltered(g.added[r], SubmittedOf(actions));
      StreamedPrefix(t, TraceOf(g.cores[r].outputs, id));
      TracePrefixOfSolo(RankConfig(cfg, r), m, g.added[r], id, LiveView(g.cores[r], id),
        TraceOf(g.cores[r].outputs, id));
      SameSolo(cfg, m, req, r);
    }
  }

  lemma NothingStreamed() ensures Streamed([]) == [] && StreamedText([]) == [] {}

  /** No client receives anything for a request that was not submitted. */
  lemma NothingUnsubmitted(cfg: Config, m: Model, n: nat, actions: seq<Action>, id: RequestId)
    requires n > 0 && RunGlobal(cfg, m, n, actions).Some? && id !in SubmittedOf(actions)
    ensures TraceOf(RunGlobal(cfg, m, n, actions).value.coord.out, id) == []
  {
    hide RunGlobal, GlobalInv, LiveView, TraceOf, TraceOk;
    RequestsIntact(cfg, m, n, actions);
    var g := RunGlobal(cfg, m, n, actions).value;
    forall r | 0 <= r < |g.cores| ensures id !in g.added[r] { assert Unaltered(g.added[r], SubmittedOf(actions)); }
    if TraceOf(g.coord.out, id) != [] {
      var r := HomeTrace(cfg, m, n, actions, id);
    }
  }
}
