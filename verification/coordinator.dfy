/** The data-parallel coordinator (minivllm/engine/dp_coordinator.py) with its client queue, N
    engines and FIFO queues in both directions, as one distributed state machine. */
module Coordinator {
  import opened Protocol
  import opened Scheduling
  import opened Isolation
  import opened Engine
  import opened EngineProofs
  import opened Runs
  import opened Accounting
  import opened EventLog

  // --------------------------------------------------------------- coordinator

  /** Coordinator state: request_ranks, rank_load, the rank command queues, the output queue. */
  datatype Coord = Coord(ranks: map<RequestId, nat>, load: seq<nat>, queues: seq<seq<Command>>, out: seq<Event>)

  /** The first rank of least load. */
  function LeastLoaded(load: seq<nat>): (r: nat)
    requires load != []
    ensures r < |load|
    ensures forall j :: 0 <= j < |load| ==> load[r] <= load[j]
    ensures forall j :: 0 <= j < r ==> load[r] < load[j]
  {
    if |load| == 1 then 0
    else
      var n := |load| - 1;
      var best := LeastLoaded(load[..n]);
      if load[n] < load[best] then n else best
  }

  /** `_handle_command`; SHUTDOWN only sets a flag. */
  function RouteCommand(c: Coord, command: Command): Coord
    requires |c.load| == |c.queues| > 0 && forall id <- c.ranks :: c.ranks[id] < |c.queues|
  {
    match command
    case Add(req) =>
      var r := LeastLoaded(c.load);
      c.(ranks := c.ranks[req.id := r], load := c.load[r := c.load[r] + 1],
        queues := c.queues[r := c.queues[r] + [command]])
    case Abort(id) =>
      if id in c.ranks then c.(queues := c.queues[c.ranks[id] := c.queues[c.ranks[id]] + [command]]) else c
    case Shutdown => c
  }

  /** `command` is now last in rank r's queue, and no other queue changed. */
  ghost predicate QueuedLast(c: Coord, c': Coord, r: nat, command: Command) {
    && r < |c.queues| == |c'.queues| && c'.queues[r] == c.queues[r] + [command]
    && forall x :: 0 <= x < |c.queues| && x != r ==> c'.queues[x] == c.queues[x]
  }

  /** The ADD went to rank r, which had the least load and now has one more. */
  ghost predicate AddRouted(c: Coord, c': Coord, id: RequestId, r: nat) {
    && r < |c.load| && (forall x :: 0 <= x < |c.load| ==> c.load[r] <= c.load[x])
    && c'.load == c.load[r := c.load[r] + 1] && c'.ranks == c.ranks[id := r]
  }

  lemma RouteAdd(c: Coord, command: Command) returns (r: nat)
    requires |c.load| == |c.queues| > 0 && (forall id <- c.ranks :: c.ranks[id] < |c.queues|) && command.Add?
    ensures var c' := RouteCommand(c, command);
      QueuedLast(c, c', r, command) && AddRouted(c, c', command.request.id, r) && c'.out == c.out
  {
    r := LeastLoaded(c.load);
    hide LeastLoaded;
  }

  /** An ADD goes to the end of the queue of a least loaded rank, which is noted as its rank and counts
      one more; an ABORT of a routed id goes to the end of that id's rank's queue; nothing else reaches a
      rank, and nothing is put out. */
  lemma RouteEffect(c: Coord, command: Command)
    requires |c.load| == |c.queues| > 0 && forall id <- c.ranks :: c.ranks[id] < |c.queues|
    ensures var c' := RouteCommand(c, command);
      match command
      case Add(req) => c'.out == c.out && exists r :: QueuedLast(c, c', r, command) && AddRouted(c, c', req.id, r)
      case Abort(id) =>
        && c'.out == c.out && c'.load == c.load && c'.ranks == c.ranks
        && if id in c.ranks then QueuedLast(c, c', c.ranks[id], command) else c'.queues == c.queues
      case Shutdown => c' == c
  {
    hide LeastLoaded, QueuedLast, AddRouted;
    match command
    case Add(_) => var r := RouteAdd(c, command);
    case Abort(id) => if id in c.ranks { RouteAbort(c, id); }
    case Shutdown =>
  }

  lemma RouteAbort(c: Coord, id: RequestId)
    requires |c.load| == |c.queues| > 0 && (forall x <- c.ranks :: c.ranks[x] < |c.queues|) && id in c.ranks
    ensures QueuedLast(c, RouteCommand(c, Abort(id)), c.ranks[id], Abort(id))
  {}

  /** One round of `_drain_rank_outputs` for rank r. */
  function DrainEvent(c: Coord, r: nat, e: Event): Coord
    requires r < |c.load|
  {
    var c' := c.(out := c.out + [e]);
    if e.Output? && e.out.finishReason.Some? then
      c'.(ranks := c.ranks - {e.out.id}, load := c.load[r := if c.load[r] > 0 then c.load[r] - 1 else 0])
    else c'
  }

  // -------------------------------------------------------------- global system

  /** Where a submitted request went. */
  datatype Place = AtClient | Routed(rank: nat)

  /** The coordinator's loop: running, told to shut down, or ended with a SHUTDOWN to every rank. */
  datatype Life = Open | Closing | Closed

  /** `drained[r]` outputs of engine r were taken so far; `added[r]` and `home` are histories. */
  datatype Global = Global(
    client: seq<Command>,
    coord: Coord,
    cores: seq<Core>,
    drained: seq<nat>,
    added: seq<map<RequestId, EngineRequest>>,
    home: map<RequestId, Place>,
    life: Life)

  datatype Action =
    | Submit(command: Command)
    | Route
    | Deliver(rank: nat)
    | EngineTurn(rank: nat, outcome: Outcome)
    | Drain(rank: nat)
    | Stop

  function RankConfig(cfg: Config, r: nat): Config { cfg.(rank := r) }

  function InitialGlobal(cfg: Config, n: nat): Global {
    Global([], Coord(map[], seq(n, _ => 0), seq(n, _ => []), []),
           seq(n, r requires 0 <= r < n => InitialCore(RankConfig(cfg, r))), seq(n, _ => 0), seq(n, _ => map[]), map[],
             Open)
  }

  /** An action is enabled when its queue has something to take.  Clients submit well-formed requests
      under new ids.  After a SHUTDOWN the coordinator routes and drains on until its loop test ends
      it; engines handle whatever is still queued to them. */
  ghost predicate Enabled(cfg: Config, m: Model, g: Global, a: Action)
    requires GlobalInv(cfg, m, g)
  {
    match a
    case Submit(command) =>
      command.Add? ==> WellFormed(command.request) && command.request.id !in g.home
    case Route => g.client != [] && !g.life.Closed?
    case Deliver(r) => r < |g.cores| && g.coord.queues[r] != [] && !g.cores[r].phase.Crashed?
    case EngineTurn(r, outcome) =>
      r < |g.cores| && g.cores[r].phase.Looping? && IdsOk(g.cores[r].sched)
        && TurnAllowed(RankConfig(cfg, r), g.cores[r], outcome)
    case Drain(r) => r < |g.cores| && g.drained[r] < |g.cores[r].outputs| && !g.life.Closed?
    case Stop => g.life.Closing?
  }

  /** A SHUTDOWN at the end of every rank's queue. */
  function Broadcast(queues: seq<seq<Command>>): (r: seq<seq<Command>>)
    ensures |r| == |queues|
  {
    seq(|queues|, r requires 0 <= r < |queues| => queues[r] + [Shutdown])
  }

  ghost function Apply(cfg: Config, m: Model, g: Global, a: Action): Global
    requires GlobalInv(cfg, m, g) && Enabled(cfg, m, g, a)
  {
    match a
    case Submit(command) =>
      g.(client := g.client + [command],
        home := if command.Add? then g.home[command.request.id := AtClient] else g.home)
    case Route =>
      var command := g.client[0];
      var coord := RouteCommand(g.coord, command);
      g.(client := g.client[1..], coord := coord,
         home := if command.Add? then g.home[command.request.id := Routed(LeastLoaded(g.coord.load))] else g.home,
         life := if command.Shutdown? then Closing else g.life)
    case Deliver(r) =>
      var command := g.coord.queues[r][0];
      g.(coord := g.coord.(queues := g.coord.queues[r := g.coord.queues[r][1..]]),
         cores := g.cores[r := Handle(RankConfig(cfg, r), g.cores[r], command)],
         added := g.added[r := AddedBy(g.added[r], command)])
    case EngineTurn(r, outcome) =>
      RankSched(cfg, m, g, r);
      g.(cores := g.cores[r := TakeTurn(RankConfig(cfg, r), m, g.cores[r], outcome)])
    case Drain(r) =>
      g.(coord := DrainEvent(g.coord, r, g.cores[r].outputs[g.drained[r]]), drained := g.drained[r := g.drained[r] + 1])
    case Stop => g.(coord := g.coord.(queues := Broadcast(g.coord.queues)), life := Closed)
  }

  // ------------------------------------------------------------------ invariant

  /** One engine: its own invariant, its ledgers and its log. */
  ghost predicate RankOk(cfg: Config, m: Model, c: Core, added: map<RequestId, EngineRequest>) {
    && ReachInv(cfg, m, c, added)
    && IdsOk(c.sched)
    && Requests(c) == |added|
    && ScheduledTokens(c.outputs) == ComputedEver(c)
    && LogOk(cfg.rank, c.batchId, c.outputs)
  }

  /** ADD commands in a queue. */
  ghost function AddsIn(queue: seq<Command>): nat {
    if queue == [] then 0 else AddsIn(queue[1..]) + if queue[0].Add? then 1 else 0
  }

  /** The final output of `id` is among the first n events. */
  ghost predicate FinalAmong(events: seq<Event>, n: nat, id: RequestId) {
    exists i :: 0 <= i < n && i < |events| && IsFinal(events[i]) && events[i].out.id == id
  }

  ghost predicate QueueHas(queue: seq<Command>, id: RequestId) {
    exists k :: 0 <= k < |queue| && queue[k].Add? && queue[k].request.id == id
  }

  ghost predicate DistinctAdds(queue: seq<Command>) {
    forall i, j :: 0 <= i < j < |queue| && queue[i].Add? && queue[j].Add? ==> queue[i].request.id != queue[j].request.id
  }

  ghost predicate Shape(g: Global) {
    var n := |g.cores|;
    && n > 0 && |g.coord.load| == |g.coord.queues| == |g.drained| == |g.added| == n
    && (forall id <- g.coord.ranks :: g.coord.ranks[id] < n)
  }

  /** Commands waiting at the client are routed nowhere yet. */
  ghost predicate ClientOk(g: Global) {
    && DistinctAdds(g.client)
    && (forall k :: 0 <= k < |g.client| && g.client[k].Add? ==>
          WellFormed(g.client[k].request) && g.client[k].request.id in g.home
            && g.home[g.client[k].request.id] == AtClient)
  }

  /** Rank r's queue and engine hold exactly the requests routed to r. */
  ghost predicate RankPlaces(g: Global, r: nat)
    requires Shape(g) && r < |g.cores|
  {
    var queue, added := g.coord.queues[r], g.added[r];
    && DistinctAdds(queue)
    && (forall k :: 0 <= k < |queue| && queue[k].Add? ==>
          && WellFormed(queue[k].request) && queue[k].request.id !in added
          && queue[k].request.id in g.home && g.home[queue[k].request.id] == Routed(r))
    && (forall id <- added :: id in g.home && g.home[id] == Routed(r))
    && (forall id <- g.home :: g.home[id] == Routed(r) ==> QueueHas(queue, id) || id in added)
  }

  /** An ABORT never overtakes its ADD: the ADD is ahead of it in the same queue, or already handled
      by the same engine. */
  ghost predicate AbortsFollow(g: Global, r: nat)
    requires Shape(g) && r < |g.cores|
  {
    var queue := g.coord.queues[r];
    forall k :: 0 <= k < |queue| && queue[k].Abort? ==>
      QueueHas(queue[..k], queue[k].id) || queue[k].id in g.added[r]
  }

  /** rank_load counts what was routed to r and not yet seen finished. */
  ghost predicate LoadOk(g: Global, r: nat)
    requires Shape(g) && r < |g.cores|
  {
    && g.drained[r] <= |g.cores[r].outputs|
    && g.coord.load[r] + Finals(g.cores[r].outputs[..g.drained[r]]) == AddsIn(g.coord.queues[r]) + |g.added[r]|
  }

  /** request_ranks is exactly the routed requests whose final output was not drained. */
  ghost predicate RanksOk(g: Global)
    requires Shape(g)
  {
    && (forall id <- g.coord.ranks ::
          && id in g.home && g.home[id] == Routed(g.coord.ranks[id])
          && !FinalAmong(g.cores[g.coord.ranks[id]].outputs, g.drained[g.coord.ranks[id]], id))
    && (forall id <- g.home :: g.home[id].Routed? ==>
          && g.home[id].rank < |g.cores|
          && (id in g.coord.ranks || FinalAmong(g.cores[g.home[id].rank].outputs, g.drained[g.home[id].rank], id)))
  }

  ghost predicate GlobalInv(cfg: Config, m: Model, g: Global) {
    && Shape(g)
    && ClientOk(g)
    && RanksOk(g)
    && (forall r :: 0 <= r < |g.cores| ==> RankOk(RankConfig(cfg, r), m, g.cores[r], g.added[r]))
    && (forall r :: 0 <= r < |g.cores| ==> RankPlaces(g, r))
    && (forall r :: 0 <= r < |g.cores| ==> AbortsFollow(g, r))
    && (forall r :: 0 <= r < |g.cores| ==> LoadOk(g, r))
  }

  lemma RankSched(cfg: Config, m: Model, g: Global, r: nat)
    requires GlobalInv(cfg, m, g) && r < |g.cores|
    ensures IdsOk(g.cores[r].sched)
    ensures g.cores[r].phase.Looping? ==> SchedInv(RankConfig(cfg, r), g.cores[r].sched, [])
  {
    hide ClientOk, RanksOk, RankPlaces, AbortsFollow, LoadOk, SchedInv, StoreOk, TracesOk, IdsOk;
    assert RankOk(RankConfig(cfg, r), m, g.cores[r], g.added[r]);
  }
}
