/** The shape of one engine's output queue: which batch metrics appear where. */
module EventLog {
  import opened Protocol
  import opened Scheduling
  import opened WorkerSide
  import opened Isolation
  import opened Engine

  ghost predicate Reported(events: seq<Event>, n: nat, x: BatchMetrics) {
    exists i :: 0 <= i < n && i < |events| && events[i] == Metrics(x)
  }

  /** Batch metrics carry this rank, strictly increasing batch ids and a consistent split, and
      every copy attached to an output repeats metrics already on the queue. */
  ghost predicate LogOk(rank: nat, batchId: nat, events: seq<Event>) {
    && (forall i :: 0 <= i < |events| && events[i].Metrics? ==>
          && events[i].metrics.rank == rank && events[i].metrics.batchId <= batchId
          && events[i].metrics.numPrefillTokens + events[i].metrics.numDecodeTokens
            == events[i].metrics.numScheduledTokens)
    && (forall i, j :: 0 <= i < j < |events| && events[i].Metrics? && events[j].Metrics? ==>
          events[i].metrics.batchId < events[j].metrics.batchId)
    && (forall j :: 0 <= j < |events| && events[j].Output? && events[j].out.metrics.Some? ==>
          Reported(events, j, events[j].out.metrics.value))
  }

  /** Only outputs are appended, carrying no metrics or a copy of `x`. */
  ghost predicate Appends(before: seq<Event>, after: seq<Event>, x: Option<BatchMetrics>) {
    && before <= after
    && (forall i :: |before| <= i < |after| ==>
          after[i].Output? && (after[i].out.metrics.None? || after[i].out.metrics == x))
  }

  lemma AppendsLog(rank: nat, batchId: nat, before: seq<Event>, after: seq<Event>, x: Option<BatchMetrics>)
    requires LogOk(rank, batchId, before) && Appends(before, after, x)
    requires x.Some? ==> Reported(before, |before|, x.value)
    ensures LogOk(rank, batchId, after)
  {
    forall j | 0 <= j < |after| && after[j].Output? && after[j].out.metrics.Some?
      ensures Reported(after, j, after[j].out.metrics.value)
    {
      if j < |before| {
        assert before[j] == after[j];
        var i :| 0 <= i < j && i < |before| && before[i] == Metrics(before[j].out.metrics.value);
        assert after[i] == before[i];
      } else {
        var i :| 0 <= i < |before| && before[i] == Metrics(x.value);
        assert after[i] == before[i];
      }
    }
  }

  lemma MetricsLog(rank: nat, batchId: nat, events: seq<Event>, x: BatchMetrics)
    requires LogOk(rank, batchId, events) && x.rank == rank && x.batchId == batchId + 1
    requires x.numPrefillTokens + x.numDecodeTokens == x.numScheduledTokens
    ensures LogOk(rank, batchId + 1, events + [Metrics(x)]) && Reported(events + [Metrics(x)], |events| + 1, x)
  {
    var after := events + [Metrics(x)];
    assert after[|events|] == Metrics(x);
    forall j | 0 <= j < |after| && after[j].Output? && after[j].out.metrics.Some?
      ensures Reported(after, j, after[j].out.metrics.value)
    {
      assert after[j] == events[j];
      var i :| 0 <= i < j && i < |events| && events[i] == Metrics(events[j].out.metrics.value);
      assert after[i] == events[i];
    }
  }

  lemma AppendsTransitive(a: seq<Event>, b: seq<Event>, c: seq<Event>, x: Option<BatchMetrics>)
    requires Appends(a, b, x) && Appends(b, c, x)
    ensures Appends(a, c, x)
  {
    assert forall i :: |a| <= i < |b| ==> c[i] == b[i];
  }

  lemma {:induction false} CommitAllAppends(cfg: Config, m: Model, c: Core, items: seq<WorkerItem>,
                                            counts: map<RequestId, nat>, sampled: map<RequestId, Token>,
                                            x: BatchMetrics)
    requires CountsOk(items, counts)
    ensures var c' := CommitAll(cfg, m, c, items, counts, sampled, x);
      Appends(c.outputs, c'.outputs, Some(x)) && c'.batchId == c.batchId
    decreases |items|
  {
    hide AppendToken, Finish, TextDelta;
    if items != [] {
      var c1 := CommitItem(cfg, m, c, items[0], counts[items[0].id], sampled, x);
      assert Appends(c.outputs, c1.outputs, Some(x));
      assert CountsOk(items[1..], counts);
      CommitAllAppends(cfg, m, c1, items[1..], counts, sampled, x);
      AppendsTransitive(c.outputs, c1.outputs, CommitAll(cfg, m, c, items, counts, sampled, x).outputs, Some(x));
    }
  }

  lemma {:induction false} FailAllAppends(c: Core, items: seq<WorkerItem>)
    ensures Appends(c.outputs, FailAll(c, items).outputs, None) && FailAll(c, items).batchId == c.batchId
    decreases |items|
  {
    hide Finish;
    if items != [] {
      var c1 := FailItem(c, items[0]);
      FailAllAppends(c1, items[1..]);
      AppendsTransitive(c.outputs, c1.outputs, FailAll(c, items).outputs, None);
    }
  }

  lemma {:induction false} EmitErrorsAppends(outputs: seq<Event>, ids: seq<RequestId>)
    ensures Appends(outputs, EmitErrors(outputs, ids), None)
    decreases |ids|
  {
    if ids != [] {
      var o := outputs + [Output(Terminal(ids[0], ERROR))];
      EmitErrorsAppends(o, ids[1..]);
      AppendsTransitive(outputs, o, EmitErrors(outputs, ids), None);
    }
  }

  /** Every engine step only appends to the queue and keeps the log well formed. */
  lemma RespondLog(cfg: Config, m: Model, c: Core, p: Plan, outcome: Outcome)
    requires CountsOk(p.items, p.counts) && c.batchId > 0 && LogOk(cfg.rank, c.batchId - 1, c.outputs)
    ensures var c' := Respond(cfg, m, c, p, outcome);
      c.outputs <= c'.outputs && c'.batchId == c.batchId && LogOk(cfg.rank, c'.batchId, c'.outputs)
  {
    hide LogOk, CommitAll, FailAll, Reported, SampleFrom, AppendKv, Readable, Flatten, AllAccepted, EmitErrors;
    LogLater(cfg.rank, c.batchId - 1, c.batchId, c.outputs);
    match outcome
    case InitFailure =>
      var mid := EmitErrors(c.outputs, c.sched.order);
      EmitErrorsAppends(c.outputs, c.sched.order);
      EmitErrorsAppends(mid, WaitingIdsOf(c.sched.waiting));
      AppendsTransitive(c.outputs, mid, Crash(c).outputs, None);
      AppendsLog(cfg.rank, c.batchId, c.outputs, Crash(c).outputs, None);
    case Failure(store) =>
      FailAllAppends(c.(store := store), p.items);
      AppendsLog(cfg.rank, c.batchId, c.outputs, FailAll(c.(store := store), p.items).outputs, None);
    case Success =>
      var result := Execute(cfg, m, c.store, c.batchId, p.items);
      if result.Failed? {
        FailAllAppends(c.(store := result.store), p.items);
        AppendsLog(cfg.rank, c.batchId, c.outputs, FailAll(c.(store := result.store), p.items).outputs, None);
      } else {
        var x := result.metrics;
        MetricsLog(cfg.rank, c.batchId - 1, c.outputs, x);
        var c1 := c.(store := result.store, outputs := c.outputs + [Metrics(x)]);
        CommitAllAppends(cfg, m, c1, p.items, p.counts, result.tokens, x);
        AppendsLog(cfg.rank, c.batchId, c1.outputs, CommitAll(cfg, m, c1, p.items, p.counts, result.tokens, x).outputs,
          Some(x));
      }
  }

  lemma LogLater(rank: nat, batchId: nat, later: nat, events: seq<Event>)
    requires LogOk(rank, batchId, events) && batchId <= later
    ensures LogOk(rank, later, events)
  {
    hide Reported;
  }

  lemma TurnLog(cfg: Config, m: Model, c: Core, outcome: Outcome)
    requires SchedInv(cfg, c.sched, []) && LogOk(cfg.rank, c.batchId, c.outputs)
    ensures var c' := TakeTurn(cfg, m, c, outcome); c.outputs <= c'.outputs && LogOk(cfg.rank, c'.batchId, c'.outputs)
  {
    hide SchedInv, LogOk, Schedule, CountsOk, Respond;
    SchedInvIds(cfg, c.sched, []);
    ScheduleInv(cfg, c.sched);
    var (s, p) := Schedule(cfg, c.sched);
    if p.items != [] {
      RespondLog(cfg, m, c.(sched := s, batchId := c.batchId + 1), p, outcome);
    }
  }

  lemma HandleLog(cfg: Config, c: Core, command: Command)
    requires LogOk(cfg.rank, c.batchId, c.outputs)
    ensures var c' := Handle(cfg, c, command); c.outputs <= c'.outputs && LogOk(cfg.rank, c'.batchId, c'.outputs)
  {
    hide LogOk, AddRequest, AbortRequest;
    AppendsLog(cfg.rank, c.batchId, c.outputs, Handle(cfg, c, command).outputs, None);
  }
}
