/** minivllm/engine/dp_coordinator.py in place, proved against `Coordinator.RouteCommand`
    and `Coordinator.DrainEvent`. */
module CoordinatorLoop {
  import opened Protocol
  import opened Coordinator

  /** Draining a run of events from one rank. */
  function DrainEvents(c: Coord, r: nat, events: seq<Event>): (c': Coord)
    requires r < |c.load|
    ensures |c'.load| == |c.load| && c'.queues == c.queues && c'.out == c.out + events
  {
    if events == [] then c
    else DrainEvent(DrainEvents(c, r, events[..|events| - 1]), r, events[|events| - 1])
  }

  class DPCoordinator {
    var requestRanks: map<RequestId, nat>
    var rankLoad: seq<nat>
    var rankCommandQueues: seq<seq<Command>>
    var outputQueue: seq<Event>
    var shutdown: bool

    ghost function State(): Coord
      reads this
    {
      Coord(requestRanks, rankLoad, rankCommandQueues, outputQueue)
    }

    ghost predicate Valid()
      reads this
    {
      |rankLoad| == |rankCommandQueues| > 0 && forall id <- requestRanks :: requestRanks[id] < |rankCommandQueues|
    }

    constructor (n: nat)
      requires n > 0
      ensures Valid() && !shutdown && State() == Coord(map[], seq(n, _ => 0), seq(n, _ => []), [])
    {
      requestRanks, rankLoad, rankCommandQueues, outputQueue, shutdown :=
        map[], seq(n, _ => 0), seq(n, _ => []), [], false;
    }

    /** `min(range(n), key=rank_load.__getitem__)`. */
    method PickRank() returns (rank: nat)
      requires rankLoad != []
      ensures rank == LeastLoaded(rankLoad)
    {
      rank := 0;
      for i := 1 to |rankLoad|
        invariant rank == LeastLoaded(rankLoad[..i])
      {
        assert rankLoad[..i + 1][..i] == rankLoad[..i];
        if rankLoad[i] < rankLoad[rank] { rank := i; }
      }
      assert rankLoad[..|rankLoad|] == rankLoad;
    }

    method HandleCommand(command: Command)
      requires Valid()
      modifies this
      ensures Valid() && State() == RouteCommand(old(State()), command)
      ensures shutdown == (old(shutdown) || command.Shutdown?)
    {
      match command
      case Shutdown =>
        shutdown := true;
      case Add(request) =>
        var rank := PickRank();
        requestRanks := requestRanks[request.id := rank];
        rankLoad := rankLoad[rank := rankLoad[rank] + 1];
        rankCommandQueues := rankCommandQueues[rank := rankCommandQueues[rank] + [command]];
      case Abort(id) =>
        if id in requestRanks {
          var rank := requestRanks[id];
          rankCommandQueues := rankCommandQueues[rank := rankCommandQueues[rank] + [command]];
        }
    }

    /** The draining loop over what one rank's queue holds. */
    method DrainRank(rank: nat, events: seq<Event>)
      requires Valid() && rank < |rankLoad|
      modifies this
      ensures Valid() && State() == DrainEvents(old(State()), rank, events) && shutdown == old(shutdown)
    {
      for i := 0 to |events|
        invariant Valid() && |rankLoad| == |old(rankLoad)| && shutdown == old(shutdown)
        invariant State() == DrainEvents(old(State()), rank, events[..i])
      {
        assert events[..i + 1][..i] == events[..i] && events[..i + 1][i] == events[i];
        outputQueue := outputQueue + [events[i]];
        if events[i].Output? && events[i].out.finishReason.Some? {
          requestRanks := requestRanks - {events[i].out.id};
          rankLoad := rankLoad[rank := if rankLoad[rank] > 0 then rankLoad[rank] - 1 else 0];
        }
      }
      assert events[..|events|] == events;
    }

    /** The end of `run`: a SHUTDOWN to every rank. */
    method CloseRanks()
      requires Valid()
      modifies this`rankCommandQueues
      ensures Valid() && State() == old(State()).(queues := Broadcast(old(rankCommandQueues)))
      ensures |rankCommandQueues| == |old(rankCommandQueues)|
      ensures forall r :: 0 <= r < |rankCommandQueues| ==>
        rankCommandQueues[r] == old(rankCommandQueues[r]) + [Shutdown]
    {
      var queues := rankCommandQueues;
      for rank := 0 to |queues|
        invariant Valid() && |rankCommandQueues| == |queues|
        invariant forall r :: 0 <= r < |queues| ==>
          rankCommandQueues[r] == if r < rank then queues[r] + [Shutdown] else queues[r]
      {
        rankCommandQueues := rankCommandQueues[rank := rankCommandQueues[rank] + [Shutdown]];
      }
      assert rankCommandQueues == Broadcast(queues);
    }
  }
}
