/** Termination of whole runs: with affordable demands and no new requests an engine drains, and the
    requests it drains are completed. */
module Completion {
  import opened Protocol
  import opened KVCache
  import opened Scheduling
  import opened Isolation
  import opened Solo
  import opened Engine
  import opened EngineProofs
  import opened Runs
  import opened Totals
  import opened Progress

  // --------------------------------------------------------------------------- turns

  function Turns(n: nat): seq<Input> { seq(n, _ => Turn(Success)) }

  /** A turn is always possible while the loop runs. */
  lemma TurnRuns(cfg: Config, m: Model, inputs: seq<Input>)
    requires Run(cfg, m, inputs).Some? && Run(cfg, m, inputs).value.phase.Looping?
    ensures var c := Run(cfg, m, inputs).value;
      && SchedInv(cfg, c.sched, []) && StoreOk(cfg, m, c.sched, c.store, []) && IdsOk(c.sched)
      && Run(cfg, m, inputs + [Turn(Success)]) == Some(TakeTurn(cfg, m, c, Success))
  {
    hide SchedInv, StoreOk, TraceOk, TakeTurn, WellFormed, IdsOk;
    var c := Run(cfg, m, inputs).value;
    SchedInvIds(cfg, c.sched, []);
    assert (inputs + [Turn(Success)])[..|inputs|] == inputs;
  }

  lemma TurnLoops(cfg: Config, m: Model, c: Core)
    requires SchedInv(cfg, c.sched, []) && StoreOk(cfg, m, c.sched, c.store, []) && c.phase.Looping?
    ensures TakeTurn(cfg, m, c, Success).phase.Looping?
  {
    hide SchedInv, StoreOk, TakeTurn, IdsOk;
    SchedInvIds(cfg, c.sched, []);
    TurnPhase(cfg, m, c, Success);
  }

  /** Any number of successful turns can follow. */
  lemma {:induction false} TurnsRun(cfg: Config, m: Model, inputs: seq<Input>, n: nat)
    requires Run(cfg, m, inputs).Some? && Run(cfg, m, inputs).value.phase.Looping?
    ensures Run(cfg, m, inputs + Turns(n)).Some? && Run(cfg, m, inputs + Turns(n)).value.phase.Looping?
    decreases n
  {
    hide SchedInv, StoreOk, IdsOk, Run, TakeTurn;
    if n == 0 {
      assert inputs + Turns(0) == inputs;
    } else {
      TurnRuns(cfg, m, inputs);
      TurnLoops(cfg, m, Run(cfg, m, inputs).value);
      TurnsRun(cfg, m, inputs + [Turn(Success)], n - 1);
      assert inputs + [Turn(Success)] + Turns(n - 1) == inputs + Turns(n);
    }
  }

  // ---------------------------------------------------------------------- termination

  /** Aborts, a shutdown and turns with any outcome, but no new request. */
  predicate NoAdds(more: seq<Input>) { forall i :: 0 <= i < |more| ==> !(more[i].Receive? && more[i].command.Add?) }

  function TurnsIn(more: seq<Input>): nat {
    if more == [] then 0 else TurnsIn(more[1..]) + if more[0].Turn? then 1 else 0
  }

  lemma AbortedLeft(cfg: Config, s: Sched, id: RequestId)
    requires SchedInv(cfg, s, []) && AbortRequest(s, id).Some?
    ensures SumStates(LeftOf(cfg), Aborted(s, id)) >= 0 && SumStates(DemandOf(cfg), Aborted(s, id)) >= 0
  {
    hide IdsOk, CacheOk, ItemsOk, SizesOk, RunningOk, WaitingOk, Cap, Demand;
    var states := Aborted(s, id);
    assert states[1..] == [];
    if id in s.running {
      RunningWithinCap(cfg, s.running[id]);
    } else {
      assert states[0] == s.waiting[FindWaiting(s.waiting, id)];
      WaitingWithinCap(cfg, states[0]);
    }
  }

  /** A command other than ADD adds nothing to compute and keeps demands affordable. */
  lemma CommandMeasure(cfg: Config, c: Core, command: Command)
    requires SchedInv(cfg, c.sched, []) && IdsOk(c.sched) && !command.Add? && !c.phase.Crashed?
    ensures var c' := Handle(cfg, c, command);
      && IdsOk(c'.sched) && !c'.phase.Crashed?
      && Total(LeftOf(cfg), c'.sched) <= Total(LeftOf(cfg), c.sched)
      && Total(DemandOf(cfg), c'.sched) <= Total(DemandOf(cfg), c.sched)
  {
    hide SchedInv, IdsOk, Total, LeftOf, DemandOf, AbortRequest;
    if command.Abort? && AbortRequest(c.sched, command.id).Some? {
      TotalAbort(LeftOf(cfg), c.sched, command.id);
      TotalAbort(DemandOf(cfg), c.sched, command.id);
      AbortedLeft(cfg, c.sched, command.id);
    }
  }

  /** Nothing is live any more. */
  ghost predicate Done(c: Core) { c.phase.Crashed? || Drained(c.sched) }

  /** A crashed process takes no further input. */
  lemma CrashedEnds(cfg: Config, m: Model, inputs: seq<Input>, more: seq<Input>)
    requires Run(cfg, m, inputs).Some? && Run(cfg, m, inputs).value.phase.Crashed? && Run(cfg, m, inputs + more).Some?
    ensures more == []
  {
    hide Run;
    assert (inputs + more)[..|inputs|] == inputs;
    if more != [] { RunStep(cfg, m, inputs + more, |inputs|); }
  }

  /** The first of some further inputs. */
  lemma FirstStep(cfg: Config, m: Model, inputs: seq<Input>, more: seq<Input>)
    requires more != [] && Run(cfg, m, inputs).Some? && Run(cfg, m, inputs + more).Some?
    ensures var c, next := Run(cfg, m, inputs).value, inputs + [more[0]];
      && inputs + more == next + more[1..]
      && !c.phase.Crashed? && (more[0].Turn? ==> c.phase.Looping?)
      && SchedInv(cfg, c.sched, []) && StoreOk(cfg, m, c.sched, c.store, []) && IdsOk(c.sched)
      && Run(cfg, m, next) == Some(Step(cfg, m, c, more[0]))
  {
    hide SchedInv, StoreOk, IdsOk, Run, Step, TracesOk;
    var all, next := inputs + more, inputs + [more[0]];
    assert all == next + more[1..];
    RunStep(cfg, m, all, |inputs|);
    assert all[..|inputs|] == inputs && all[..|inputs| + 1] == next;
    SchedInvIds(cfg, Run(cfg, m, inputs).value.sched, []);
  }

  /** One step of an affordable engine that receives no new request. */
  lemma StepMeasure(cfg: Config, m: Model, c: Core, input: Input)
    requires SchedInv(cfg, c.sched, []) && StoreOk(cfg, m, c.sched, c.store, []) && IdsOk(c.sched)
    requires Affordable(cfg, c.sched)
    requires !c.phase.Crashed? && (input.Turn? ==> c.phase.Looping?) && NoAdds([input])
    ensures var c' := Step(cfg, m, c, input);
      c'.phase.Crashed? ||
      (&& IdsOk(c'.sched) && Affordable(cfg, c'.sched) && Total(LeftOf(cfg), c'.sched) <= Total(LeftOf(cfg), c.sched)
       && (input.Turn? && !Drained(c.sched) ==> Total(LeftOf(cfg), c'.sched) < Total(LeftOf(cfg), c.sched)))
  {
    hide SchedInv, StoreOk, IdsOk, Total, LeftOf, DemandOf, TakeTurn, Handle;
    match input
    case Receive(command) =>
      assert [input][0] == input;
      CommandMeasure(cfg, c, command);
    case Turn(outcome) => TurnMeasure(cfg, m, c, outcome);
  }

  /** Conditional termination: from any reachable state in which the worst-case demands fit the pool,
      every continuation without new requests, with any aborts, Worker failures and shutdowns, has
      nothing left alive once it holds as many turns as the live requests have tokens to compute. */
  lemma {:induction false} Drains(cfg: Config, m: Model, inputs: seq<Input>, more: seq<Input>)
    requires Run(cfg, m, inputs).Some? && Run(cfg, m, inputs + more).Some? && NoAdds(more)
    requires !Run(cfg, m, inputs).value.phase.Crashed?
    requires var s := Run(cfg, m, inputs).value.sched;
      IdsOk(s) && Affordable(cfg, s) && Total(LeftOf(cfg), s) <= TurnsIn(more)
    ensures Done(Run(cfg, m, inputs + more).value)
    decreases |more|
  {
    hide SchedInv, StoreOk, IdsOk, Run, Step, Total, LeftOf, DemandOf, TracesOk;
    var c := Run(cfg, m, inputs).value;
    if more == [] {
      assert inputs + more == inputs;
      MeasurePositive(cfg, c.sched);
    } else {
      FirstStep(cfg, m, inputs, more);
      var next := inputs + [more[0]];
      StepMeasure(cfg, m, c, more[0]);
      if Run(cfg, m, next).value.phase.Crashed? {
        CrashedEnds(cfg, m, next, more[1..]);
        assert inputs + more == next;
      } else {
        if Drained(c.sched) { DrainedMeasure(cfg, c.sched); }
        Drains(cfg, m, next, more[1..]);
      }
    }
  }

  // ----------------------------------------------------------------------- completion

  /** No output so far cut request id short: whatever ended it was a STOP or a LENGTH. */
  ghost predicate NotCut(events: seq<Event>, id: RequestId) {
    forall i :: 0 <= i < |events| && events[i].Output? && events[i].out.id == id && events[i].out.finishReason.Some? ==>
      events[i].out.finishReason == Some(STOP) || events[i].out.finishReason == Some(LENGTH)
  }

  /** Nothing of a live request's stream is final. */
  lemma LiveNotCut(cfg: Config, m: Model, c: Core, added: map<RequestId, EngineRequest>, id: RequestId)
    requires TracesOk(cfg, m, c, added) && LiveView(c, id).Some?
    ensures id in added && LiveView(c, id).value.req == added[id] && NotCut(c.outputs, id)
  {
    hide TraceOf, LiveView, StreamOk, Unfinished;
    var t := TraceOf(c.outputs, id);
    assert TraceOk(cfg, m, added, id, LiveView(c, id), t);
    forall i | 0 <= i < |c.outputs| && c.outputs[i].Output? && c.outputs[i].out.id == id
      ensures c.outputs[i].out.finishReason.None?
    {
      TraceAt(c.outputs, i);
      TracePrefix(c.outputs, i + 1, id);
      assert t[|TraceOf(c.outputs[..i], id)|] == c.outputs[i].out;
    }
  }

  lemma CommitItemNotCut(cfg: Config, m: Model, c: Core, item: WorkerItem, count: nat, sampled: map<RequestId, Token>,
                         metrics: BatchMetrics, id: RequestId)
    requires NotCut(c.outputs, id)
    ensures NotCut(CommitItem(cfg, m, c, item, count, sampled, metrics).outputs, id)
  {
    hide Finish, TextDelta, HitsStop, ContextLimit;
  }

  lemma {:induction false} CommitAllNotCut(cfg: Config, m: Model, c: Core, items: seq<WorkerItem>,
                                           counts: map<RequestId, nat>, sampled: map<RequestId, Token>,
                                           metrics: BatchMetrics, id: RequestId)
    requires NotCut(c.outputs, id) && forall k :: 0 <= k < |items| ==> items[k].id in counts
    ensures NotCut(CommitAll(cfg, m, c, items, counts, sampled, metrics).outputs, id)
    decreases |items|
  {
    hide CommitItem, NotCut;
    if items != [] {
      CommitItemNotCut(cfg, m, c, items[0], counts[items[0].id], sampled, metrics, id);
      CommitAllNotCut(cfg, m, CommitItem(cfg, m, c, items[0], counts[items[0].id], sampled, metrics),
                      items[1..], counts, sampled, metrics, id);
    }
  }

  lemma SuccessNotCut(cfg: Config, m: Model, c: Core, id: RequestId)
    requires SchedInv(cfg, c.sched, []) && StoreOk(cfg, m, c.sched, c.store, []) && IdsOk(c.sched)
    requires NotCut(c.outputs, id)
    ensures NotCut(TakeTurn(cfg, m, c, Success).outputs, id)
  {
    hide SchedInv, StoreOk, IdsOk, Schedule, CommitAll, Execute;
    ScheduleInv(cfg, c.sched);
    var (s, p) := Schedule(cfg, c.sched);
    if p.items != [] {
      ScheduleStore(cfg, m, c.sched, c.store);
      ExecuteOk(cfg, m, s, c.store, c.batchId + 1, p.items);
      var result := Execute(cfg, m, c.store, c.batchId + 1, p.items);
      CommitAllNotCut(cfg, m,
        c.(sched := s, batchId := c.batchId + 1, store := result.store,
          outputs := c.outputs + [Metrics(result.metrics)]),
        p.items, p.counts, result.tokens, result.metrics, id);
    }
  }

  /** Every turn succeeds, no request is added, and id itself is not aborted. */
  predicate Undisturbed(more: seq<Input>, id: RequestId) {
    forall i :: 0 <= i < |more| ==>
      match more[i]
      case Turn(outcome) => outcome.Success?
      case Receive(Add(_)) => false
      case Receive(Abort(x)) => x != id
      case Receive(Shutdown) => true
  }

  lemma StepNotCut(cfg: Config, m: Model, c: Core, input: Input, id: RequestId)
    requires SchedInv(cfg, c.sched, []) && StoreOk(cfg, m, c.sched, c.store, []) && IdsOk(c.sched)
    requires NotCut(c.outputs, id)
    requires !c.phase.Crashed? && (input.Turn? ==> c.phase.Looping?) && Undisturbed([input], id)
    ensures NotCut(Step(cfg, m, c, input).outputs, id) && !Step(cfg, m, c, input).phase.Crashed?
  {
    hide SchedInv, StoreOk, IdsOk, TakeTurn, AbortRequest;
    assert [input][0] == input;
    if input.Turn? {
      SuccessNotCut(cfg, m, c, id);
      TurnPhase(cfg, m, c, Success);
    }
  }

  lemma {:induction false} RunNotCut(cfg: Config, m: Model, inputs: seq<Input>, more: seq<Input>, id: RequestId)
    requires Run(cfg, m, inputs).Some? && Run(cfg, m, inputs + more).Some? && Undisturbed(more, id)
    requires !Run(cfg, m, inputs).value.phase.Crashed? && NotCut(Run(cfg, m, inputs).value.outputs, id)
    ensures NotCut(Run(cfg, m, inputs + more).value.outputs, id) && !Run(cfg, m, inputs + more).value.phase.Crashed?
    ensures AddedOf(inputs + more) == AddedOf(inputs)
    decreases |more|
  {
    hide SchedInv, StoreOk, IdsOk, Run, Step, NotCut;
    if more == [] {
      assert inputs + more == inputs;
    } else {
      FirstStep(cfg, m, inputs, more);
      assert [more[0]][0] == more[0];
      StepNotCut(cfg, m, Run(cfg, m, inputs).value, more[0], id);
      assert (inputs + [more[0]])[..|inputs|] == inputs;
      RunNotCut(cfg, m, inputs + [more[0]], more[1..], id);
    }
  }

  /** Safety and liveness together: under the premises of `Drains`, a live request that is not aborted,
      and whose Worker does not fail, ends with exactly its solo output and for the solo reason. */
  lemma Completes(cfg: Config, m: Model, inputs: seq<Input>, more: seq<Input>, id: RequestId)
    requires Run(cfg, m, inputs).Some? && Run(cfg, m, inputs + more).Some? && Undisturbed(more, id)
    requires var s := Run(cfg, m, inputs).value.sched;
      IdsOk(s) && Affordable(cfg, s) && Total(LeftOf(cfg), s) <= TurnsIn(more)
    requires LiveView(Run(cfg, m, inputs).value, id).Some?
    ensures id in AddedOf(inputs) && WellFormed(AddedOf(inputs)[id])
    ensures var t, req := TraceOf(Run(cfg, m, inputs + more).value.outputs, id), AddedOf(inputs)[id];
      && t != [] && t[|t| - 1].finishReason == Some(SoloReason(cfg, m, req))
      && Streamed(t) == SoloOutput(cfg, m, req)
  {
    hide SchedInv, StoreOk, IdsOk, Run, Total, LeftOf, DemandOf, TraceOf, SoloOutput, SoloReason, Streamed, WellFormed;
    hide Unfinished, NotCut;
    var c, added := Run(cfg, m, inputs).value, AddedOf(inputs);
    LiveNotCut(cfg, m, c, added, id);
    Drains(cfg, m, inputs, more);
    RunNotCut(cfg, m, inputs, more, id);
    var c' := Run(cfg, m, inputs + more).value;
    DrainedView(cfg, c', id);
    var t := TraceOf(c'.outputs, id);
    assert TraceOk(cfg, m, added, id, LiveView(c', id), t);
    var i := TraceSource(c'.outputs, id, |t| - 1);
    EventNotCut(c'.outputs, i, id);
  }

  lemma EventNotCut(events: seq<Event>, i: nat, id: RequestId)
    requires NotCut(events, id) && i < |events| && events[i].Output? && events[i].out.id == id
    ensures var reason := events[i].out.finishReason; reason.Some? ==> reason.value.STOP? || reason.value.LENGTH?
  {}

  lemma DrainedView(cfg: Config, c: Core, id: RequestId)
    requires Drained(c.sched) && SchedInv(cfg, c.sched, [])
    ensures LiveView(c, id).None?
  {
    hide CacheOk, RequestsOk, ItemsOk, SizesOk;
  }

  // --------------------------------------------------------------------- shutdown

  /** A SHUTDOWN ends the turns: whatever follows it are commands already queued, and no batch is planned,
      executed or written any more. */
  lemma {:induction false} ShutdownQuiet(cfg: Config, m: Model, inputs: seq<Input>, more: seq<Input>)
    requires Run(cfg, m, inputs + [Receive(Shutdown)]).Some?
    requires Run(cfg, m, inputs + [Receive(Shutdown)] + more).Some?
    ensures forall i :: 0 <= i < |more| ==> more[i].Receive?
    ensures var c, c' := Run(cfg, m, inputs).value, Run(cfg, m, inputs + [Receive(Shutdown)] + more).value;
      && Run(cfg, m, inputs).Some?
      && c'.phase == ShutDown && c'.store == c.store && c'.batchId == c.batchId
      && c'.sched.cache.pool.used <= c.sched.cache.pool.used
    decreases |more|
  {
    hide Run, SchedInv, AddRequest, AbortRequest;
    var all := inputs + [Receive(Shutdown)] + more;
    if more == [] {
      assert all == inputs + [Receive(Shutdown)];
      RunStep(cfg, m, all, |inputs|);
      assert all[..|inputs|] == inputs && all[..|inputs| + 1] == all;
    } else {
      var front, last := more[..|more| - 1], more[|more| - 1];
      var n := |all| - 1;
      RunStep(cfg, m, all, n);
      assert all[..n] == inputs + [Receive(Shutdown)] + front && all[..n + 1] == all && all[n] == last;
      ShutdownQuiet(cfg, m, inputs, front);
      var c := Run(cfg, m, all[..n]).value;
      CommandUses(cfg, c, last.command);
    }
  }

  lemma CommandUses(cfg: Config, c: Core, command: Command)
    ensures Handle(cfg, c, command).sched.cache.pool.used <= c.sched.cache.pool.used
  {
    hide Without;
  }
}
