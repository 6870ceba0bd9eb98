/** What one command, one turn and one crash do to the engine, stated on the states before and after
    rather than on the code that takes the step. */
module Effects {
  import opened Protocol
  import opened Arith
  import opened KVCache
  import opened Scheduling
  import opened WorkerSide
  import opened Isolation
  import opened Solo
  import opened Engine
  import opened EngineProofs
  import opened Accounting

  // --------------------------------------------------------------------- commands

  /** The only output of a step is this one. */
  ghost predicate Reported(c: Core, c': Core, id: RequestId, reason: FinishReason) {
    c'.outputs == c.outputs + [Output(RequestOutput(id, [], [], Some(reason), None))]
  }

  /** Every other request is as before. */
  ghost predicate OthersKept(s: Sched, s': Sched, id: RequestId) {
    forall other: RequestId | other != id :: ViewOf(s', other) == ViewOf(s, other)
  }

  /** A request is refused, with one error and nothing else, exactly when it is live already or its
      prompt leaves no room for a token; otherwise it joins the end of the queue without output. */
  lemma AddEffect(cfg: Config, c: Core, req: EngineRequest)
    requires IdsOk(c.sched)
    ensures var c' := Handle(cfg, c, Add(req));
      if ViewOf(c.sched, req.id).Some? || Full(cfg, |req.prompt|) then
        Reported(c, c', req.id, ERROR) && c' == c.(outputs := c'.outputs)
      else
        && c'.sched.waiting == c.sched.waiting + [RequestState(req, [], 0)]
        && c' == c.(sched := c.sched.(waiting := c'.sched.waiting))
  {}

  /** An abort ends a live request, running or waiting, with exactly one output, and leaves every other
      request as it is; an abort of anything else does nothing. */
  lemma AbortEffect(cfg: Config, c: Core, id: RequestId)
    requires IdsOk(c.sched)
    ensures var c' := Handle(cfg, c, Abort(id));
      if ViewOf(c.sched, id).Some? then
        && Reported(c, c', id, ABORT) && ViewOf(c'.sched, id).None? && OthersKept(c.sched, c'.sched, id)
        && c'.store == c.store && c'.batchId == c.batchId && c'.phase == c.phase
      else c' == c
  {
    hide IdsOk, Finish;
    if AbortRequest(c.sched, id).Some? {
      AbortView(c.sched, id, id);
      forall other: RequestId | other != id
        ensures ViewOf(AbortRequest(c.sched, id).value, other) == ViewOf(c.sched, other)
      {
        AbortView(c.sched, id, other);
      }
    }
  }

  // ------------------------------------------------------------------ order of the rest

  /** Removing a key keeps the others in their order. */
  lemma {:induction false} WithoutSplit<T>(before: seq<T>, x: T, behind: seq<T>)
    requires x !in before
    ensures Without(before + [x] + behind, x) == before + behind
  {
    var s := before + [x] + behind;
    if before == [] {
      assert s[1..] == behind;
    } else {
      assert s[1..] == before[1..] + [x] + behind && s[0] == before[0];
      WithoutSplit(before[1..], x, behind);
      assert before == [before[0]] + before[1..];
    }
  }

  lemma FirstOnly<T>(before: seq<T>, x: T, behind: seq<T>)
    requires Distinct(before + [x] + behind)
    ensures x !in before
  {
    var s := before + [x] + behind;
    forall i | 0 <= i < |before| ensures before[i] != x { assert s[i] == before[i] && s[|before|] == x; }
  }

  /** Finishing or aborting a running request takes it out of the running order, gives its blocks back
      on top of the free stack in table order, and moves nothing else. */
  lemma FinishEffect(s: Sched, id: RequestId, before: seq<RequestId>, behind: seq<RequestId>)
    requires IdsOk(s) && s.order == before + [id] + behind
    ensures id in s.running && id in s.cache.tables
    ensures var s' := Finish(s, id);
      && AbortRequest(s, id) == Some(s')
      && s'.order == before + behind && s'.waiting == s.waiting
      && s'.cache.pool.free == s.cache.pool.free + s.cache.tables[id]
      && s'.cache.tables.Keys == s'.running.Keys == s.running.Keys - {id}
      && (forall a <- s'.running :: s'.running[a] == s.running[a] && s'.cache.tables[a] == s.cache.tables[a])
  {
    assert s.order[|before|] == id;
    FirstOnly(before, id, behind);
    WithoutSplit(before, id, behind);
  }

  /** Aborting a waiting request takes it out of the queue and moves nothing else. */
  lemma DropEffect(s: Sched, id: RequestId, before: seq<RequestState>, w: RequestState, behind: seq<RequestState>)
    requires IdsOk(s) && s.waiting == before + [w] + behind && w.req.id == id
    ensures AbortRequest(s, id) == Some(s.(waiting := before + behind))
  {
    assert s.waiting[|before|] == w && w in s.waiting;
    var i := FindWaiting(s.waiting, id);
    forall j | 0 <= j < |before| ensures before[j].req.id != id { assert s.waiting[j] == before[j]; }
    assert i == |before|;
    assert s.waiting[..i] == before && s.waiting[i + 1..] == behind;
  }

  // ------------------------------------------------------------------------- a turn

  /** Token count of the items that decode: one token of a request with output. */
  function DecodeCount(items: seq<WorkerItem>): nat {
    if items == [] then 0
    else
      var last := items[|items| - 1];
      DecodeCount(items[..|items| - 1]) + if |last.tokenIds| == 1 && last.generatedCount > 0 then |last.tokenIds| else 0
  }

  function AllCount(items: seq<WorkerItem>): nat {
    if items == [] then 0 else AllCount(items[..|items| - 1]) + |items[|items| - 1].tokenIds|
  }

  lemma SumWhereAppend(starts: seq<nat>, flags: seq<bool>, next: nat, flag: bool)
    requires |starts| == |flags| + 1
    ensures SumWhere(starts + [next], flags + [flag])
      == SumWhere(starts, flags) + if flag then next as int - starts[|flags|] else 0
  {
    assert (starts + [next])[..|flags| + 1] == starts && (flags + [flag])[..|flags|] == flags;
  }

  /** The flattened batch counts its items, its tokens, and the tokens of its decoding items. */
  lemma {:induction false} FlattenCounts(items: seq<WorkerItem>, blockSize: nat)
    requires blockSize > 0 && AllAccepted(items, blockSize)
    ensures var b := Flatten(items, blockSize);
      && Shaped(b, |items|) && |b.requestIds| == |items|
      && |b.inputIds| == AllCount(items) && DecodeTokens(b) == DecodeCount(items)
  {
    hide Covers, SlotsOf, CeilDiv, SumWhere, Sorted;
    FlattenShape(items, blockSize);
    if items == [] {
      NoWidth();
    } else {
      var front, last := items[..|items| - 1], items[|items| - 1];
      FlattenCounts(front, blockSize);
      var b := Flatten(front, blockSize);
      SumWhereAppend(b.queryStartLoc, b.isDecode, |b.inputIds| + |last.tokenIds|,
                     |last.tokenIds| == 1 && last.generatedCount > 0);
    }
  }

  lemma NoWidth() ensures SumWhere([0], []) == 0 {}

  /** The metrics of a batch, in terms of its items. */
  ghost predicate Measures(cfg: Config, batchId: nat, items: seq<WorkerItem>, x: BatchMetrics) {
    && x.batchId == batchId && x.rank == cfg.rank && x.numRequests == |items|
    && x.numScheduledTokens == AllCount(items) && x.numDecodeTokens == DecodeCount(items)
    && x.numPrefillTokens == AllCount(items) - DecodeCount(items)
  }

  /** The output of an item that completes its request's tokens. */
  ghost predicate ReportOf(m: Model, s: Sched, item: WorkerItem, x: BatchMetrics, e: Event)
    requires item.id in s.running
  {
    var r := s.running[item.id];
    var token := NextToken(m, r.req, r.output);
    && e.Output? && e.out.id == item.id && e.out.metrics == Some(x)
    && e.out.tokenIds == (if token == m.eos then [] else [token])
  }

  /** What a batch reports after its metrics: one output for each item that completes its request's
      tokens, in batch order, with the token of the sequential run and the batch's metrics. */
  ghost predicate Reports(m: Model, s: Sched, items: seq<WorkerItem>, x: BatchMetrics, events: seq<Event>)
    requires forall k :: 0 <= k < |items| ==> items[k].id in s.running
  {
    if items == [] then events == []
    else if items[0].seqLen == |All(s.running[items[0].id])| then
      events != [] && ReportOf(m, s, items[0], x, events[0]) && Reports(m, s, items[1..], x, events[1..])
    else Reports(m, s, items[1..], x, events)
  }

  /** The result loop touches its own item's request only. */
  lemma CommitKeeps(cfg: Config, m: Model, c: Core, item: WorkerItem, count: nat, sampled: map<RequestId, Token>,
                    x: BatchMetrics, id: RequestId)
    requires id != item.id
    ensures var c' := CommitItem(cfg, m, c, item, count, sampled, x);
      id in c.sched.running ==> id in c'.sched.running && c'.sched.running[id] == c.sched.running[id]
  {
    hide AppendToken, TextDelta, Release, Without;
  }

  lemma CommitReport(cfg: Config, m: Model, c: Core, item: WorkerItem, count: nat, sampled: map<RequestId, Token>,
                     x: BatchMetrics)
    requires item.id in c.sched.running
    ensures var c' := CommitItem(cfg, m, c, item, count, sampled, x);
      if item.id in sampled then
        && |c'.outputs| == |c.outputs| + 1 && c'.outputs[..|c.outputs|] == c.outputs
        && var e := c'.outputs[|c.outputs|];
        && e.Output? && e.out.id == item.id && e.out.metrics == Some(x)
        && e.out.tokenIds == (if sampled[item.id] == m.eos then [] else [sampled[item.id]])
      else c'.outputs == c.outputs
  {
    hide AppendToken, TextDelta, Release, Without;
  }

  /** The requests of the remaining items are still as they were when the batch was sampled. */
  ghost predicate Untouched(s: Sched, now: Sched, items: seq<WorkerItem>) {
    forall k :: 0 <= k < |items| ==>
      items[k].id in s.running && items[k].id in now.running && now.running[items[k].id] == s.running[items[k].id]
  }

  lemma CommitUntouched(cfg: Config, m: Model, c: Core, s: Sched, items: seq<WorkerItem>, count: nat,
                        sampled: map<RequestId, Token>, x: BatchMetrics)
    requires items != [] && Untouched(s, c.sched, items)
    requires forall i, j :: 0 <= i < j < |items| ==> items[i].id != items[j].id
    ensures Untouched(s, CommitItem(cfg, m, c, items[0], count, sampled, x).sched, items[1..])
  {
    hide CommitItem;
    forall k | 0 < k < |items|
      ensures var c' := CommitItem(cfg, m, c, items[0], count, sampled, x);
        items[k].id in c'.sched.running && c'.sched.running[items[k].id] == s.running[items[k].id]
    {
      CommitKeeps(cfg, m, c, items[0], count, sampled, x, items[k].id);
    }
  }

  lemma {:induction false} CommitReports(cfg: Config, m: Model, c: Core, s: Sched, items: seq<WorkerItem>,
                                         counts: map<RequestId, nat>, sampled: map<RequestId, Token>, x: BatchMetrics)
    returns (events: seq<Event>)
    requires Untouched(s, c.sched, items) && SampledOk(m, s, items, sampled) && CountsOk(items, counts)
    requires forall i, j :: 0 <= i < j < |items| ==> items[i].id != items[j].id
    ensures CommitAll(cfg, m, c, items, counts, sampled, x).outputs == c.outputs + events
    ensures Reports(m, s, items, x, events)
    decreases |items|
  {
    if items == [] {
      events := [];
    } else {
      hide CommitItem, NextToken, Untouched;
      var item, rest := items[0], items[1..];
      var c' := CommitItem(cfg, m, c, item, counts[item.id], sampled, x);
      assert item.id in c.sched.running by { HeadUntouched(s, c.sched, items); }
      CommitReport(cfg, m, c, item, counts[item.id], sampled, x);
      CommitUntouched(cfg, m, c, s, items, counts[item.id], sampled, x);
      assert CountsOk(rest, counts) && SampledOk(m, s, rest, sampled);
      events := CommitReports(cfg, m, c', s, rest, counts, sampled, x);
      if item.id in sampled {
        var e := c'.outputs[|c.outputs|];
        assert ReportOf(m, s, item, x, e) && c'.outputs == c.outputs + [e];
        assert ([e] + events)[1..] == events;
        events := [e] + events;
      }
    }
  }

  lemma HeadUntouched(s: Sched, now: Sched, items: seq<WorkerItem>)
    requires items != [] && Untouched(s, now, items)
    ensures items[0].id in now.running
  {}

  /** One error per item, in batch order. */
  ghost function ErrorsOf(ids: seq<RequestId>): seq<Event> {
    seq(|ids|, k requires 0 <= k < |ids| => Output(RequestOutput(ids[k], [], [], Some(ERROR), None)))
  }

  ghost function ItemIds(items: seq<WorkerItem>): seq<RequestId> {
    seq(|items|, k requires 0 <= k < |items| => items[k].id)
  }

  lemma {:induction false} EmitErrorsAll(outputs: seq<Event>, ids: seq<RequestId>)
    ensures EmitErrors(outputs, ids) == outputs + ErrorsOf(ids)
    decreases |ids|
  {
    if ids != [] {
      EmitErrorsAll(outputs + [Output(Terminal(ids[0], ERROR))], ids[1..]);
      assert ErrorsOf(ids) == [Output(Terminal(ids[0], ERROR))] + ErrorsOf(ids[1..]);
    }
  }

  /** A failed batch reports one error per item, in order, and ends exactly the requests of its items. */
  lemma {:induction false} FailEffect(c: Core, items: seq<WorkerItem>, id: RequestId)
    requires IdsOk(c.sched) && forall k :: 0 <= k < |items| ==> items[k].id in c.sched.running
    requires forall i, j :: 0 <= i < j < |items| ==> items[i].id != items[j].id
    ensures var c' := FailAll(c, items);
      && c'.outputs == c.outputs + ErrorsOf(ItemIds(items))
      && ViewOf(c'.sched, id) == if id in ItemIds(items) then None else ViewOf(c.sched, id)
    decreases |items|
  {
    hide Finish, ViewOf, IdsOk;
    if items != [] {
      var item, rest := items[0], items[1..];
      var c' := FailItem(c, item);
      FinishKeepsIds(c.sched, item.id);
      FinishView(c.sched, item.id, id);
      forall k | 0 <= k < |rest| ensures rest[k].id in c'.sched.running { FinishKeeps(c.sched, item.id, rest[k].id); }
      FailEffect(c', rest, id);
      assert ItemIds(items) == [item.id] + ItemIds(rest);
      assert ErrorsOf(ItemIds(items)) == [Output(Terminal(item.id, ERROR))] + ErrorsOf(ItemIds(rest));
      assert id in ItemIds(items) <==> id == item.id || id in ItemIds(rest);
    }
  }

  lemma FinishKeeps(s: Sched, id: RequestId, other: RequestId)
    requires id in s.running && other in s.running && other != id
    ensures other in Finish(s, id).running
  {}

  /** A crash reports one error per running, then per waiting request, in queue order, and changes
      nothing else but the phase. */
  lemma CrashEffect(c: Core)
    ensures Crash(c)
      == c.(outputs := c.outputs + ErrorsOf(c.sched.order + WaitingIdsOf(c.sched.waiting)), phase := Crashed)
  {
    EmitErrorsAll(c.outputs, c.sched.order);
    EmitErrorsAll(c.outputs + ErrorsOf(c.sched.order), WaitingIdsOf(c.sched.waiting));
    assert ErrorsOf(c.sched.order + WaitingIdsOf(c.sched.waiting))
      == ErrorsOf(c.sched.order) + ErrorsOf(WaitingIdsOf(c.sched.waiting));
  }

  /** Everything a successful turn puts on the output queue: the metrics of its batch, then one output
      for each item that completed its request's tokens; and a turn without items puts nothing. */
  lemma TurnReports(cfg: Config, m: Model, c: Core) returns (x: BatchMetrics, events: seq<Event>)
    requires SchedInv(cfg, c.sched, []) && StoreOk(cfg, m, c.sched, c.store, []) && IdsOk(c.sched)
    ensures var (s, p) := Schedule(cfg, c.sched);
      && (p.items == [] ==> TakeTurn(cfg, m, c, Success).outputs == c.outputs)
      && (p.items != [] ==>
            && (forall k :: 0 <= k < |p.items| ==> p.items[k].id in s.running)
            && Measures(cfg, c.batchId + 1, p.items, x) && Reports(m, s, p.items, x, events)
            && TakeTurn(cfg, m, c, Success).outputs == c.outputs + [Metrics(x)] + events)
  {
    hide SchedInv, IdsOk, StoreOk, Schedule, CommitAll, Reports, Flatten, AppendBatch, SampleFrom, SampledOk;
    hide AllAccepted;
    hide Readable, CountsOk, DecodeTokens;
    ScheduleInv(cfg, c.sched);
    ScheduleStore(cfg, m, c.sched, c.store);
    var (s, p) := Schedule(cfg, c.sched);
    x, events := BatchMetrics(0, 0, 0, 0, 0, 0), [];
    if p.items != [] {
      ExecuteOk(cfg, m, s, c.store, c.batchId + 1, p.items);
      var r := Execute(cfg, m, c.store, c.batchId + 1, p.items);
      x := r.metrics;
      FlattenCounts(p.items, cfg.blockSize);
      ScheduledRunning(cfg, s, p.items);
      events := CommitReports(cfg, m,
        c.(sched := s, batchId := c.batchId + 1, store := r.store, outputs := c.outputs + [Metrics(x)]), s, p.items,
        p.counts, r.tokens, x);
    }
  }

  lemma ScheduledRunning(cfg: Config, s: Sched, items: seq<WorkerItem>)
    requires SchedInv(cfg, s, items)
    ensures forall k :: 0 <= k < |items| ==> items[k].id in s.running
    ensures forall i, j :: 0 <= i < j < |items| ==> items[i].id != items[j].id
  {
    hide IdsOk, CacheOk, RequestsOk, SizesOk, ItemFor;
  }

  // ------------------------------------------------------------------------- texts

  /** A streamed delta completes the decoded text when decoding appends, and is the decoding of its token
      alone when it does not. */
  lemma DeltaIs(m: Model, before: seq<Token>, token: Token)
    ensures var previous, current := m.decode(before), m.decode(before + [token]);
      var delta := TextDelta(m, before, before + [token], token);
      if |previous| <= |current| && current[..|previous|] == previous then previous + delta == current
      else delta == m.decode([token])
  {}
}
