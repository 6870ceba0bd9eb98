/** The Worker and the EngineCore loop in place, proved against `Isolation.Execute`,
    `Engine.Handle`, `Engine.TakeTurn` and `Runs.Run`. */
module EngineLoop {
  import opened Protocol
  import opened Arith
  import opened KVCache
  import opened Scheduling
  import opened WorkerSide
  import opened Isolation
  import opened Engine
  import opened EngineProofs
  import opened Runs
  import opened TokenScheduler

  /** An item without tokens, with another number of slots than tokens, whose sequence does not end with
      its tokens, or whose blocks do not reach its end. */
  predicate Malformed(item: WorkerItem, blockSize: nat) {
    || item.tokenIds == [] || |item.slotMapping| != |item.tokenIds|
    || item.startPos + |item.tokenIds| != item.seqLen || |item.blockTable| * blockSize < item.seqLen
  }

  lemma MalformedIff(items: seq<WorkerItem>, blockSize: nat)
    requires blockSize > 0
    ensures AllAccepted(items, blockSize) <==> !exists k :: 0 <= k < |items| && Malformed(items[k], blockSize)
  {
    hide CeilDiv;
    forall k | 0 <= k < |items| ensures ItemAccepted(items[k], blockSize) <==> !Malformed(items[k], blockSize) {
      CeilDivFits(items[k].seqLen, blockSize, |items[k].blockTable|);
    }
  }

  datatype Reply = Tokens(tokens: map<RequestId, Token>, metrics: BatchMetrics) | Error

  /** One Worker with its slot-indexed cache. */
  class Worker {
    const cfg: Config
    const model: Model
    var store: Store

    constructor (config: Config, m: Model)
      ensures cfg == config && model == m && store == map[]
    {
      cfg, model, store := config, m, map[];
    }

    /** `GPUInputBatch.from_worker_batch`. */
    method FlattenBatch(items: seq<WorkerItem>) returns (r: Option<GPUInputBatch>)
      ensures r == FromWorkerBatch(items, cfg.blockSize)
      ensures r.None? <==> items == [] || exists k :: 0 <= k < |items| && Malformed(items[k], cfg.blockSize)
    {
      MalformedIff(items, cfg.blockSize);
      hide Covers, Extend, Malformed;
      if items == [] {
        return None;
      }
      var b := EmptyBatch;
      for i := 0 to |items|
        invariant AllAccepted(items[..i], cfg.blockSize) && b == Flatten(items[..i], cfg.blockSize)
      {
        if !ItemAccepted(items[i], cfg.blockSize) {
          return None;
        }
        assert items[..i + 1][..i] == items[..i];
        b := Extend(b, items[i], cfg.blockSize);
      }
      assert items[..|items|] == items;
      var tables := PadAll(b.blockTables);
      return Some(b.(blockTables := tables));
    }

    method PadAll(raw: seq<seq<int>>) returns (tables: seq<seq<int>>)
      ensures tables == PadTables(raw)
    {
      var width := 0;
      for i := 0 to |raw|
        invariant width == MaxWidth(raw[..i])
      {
        assert raw[..i + 1][..i] == raw[..i];
        if |raw[i]| > width { width := |raw[i]|; }
      }
      assert raw[..|raw|] == raw;
      tables := [];
      for i := 0 to |raw|
        invariant |tables| == i && forall k :: 0 <= k < i ==> tables[k] == PadTable(raw[k], width)
      {
        tables := tables + [PadTable(raw[i], width)];
      }
    }

    /** `append_kv`; ValueError on unequal lengths.  Each token's value comes from the model, which
        reads the token's context slots. */
    method Append(tokens: seq<Token>, slots: seq<Slot>, contexts: seq<seq<Slot>>) returns (ok: bool)
      requires |contexts| == |tokens|
      modifies this
      ensures ok <==> |tokens| == |slots|
      ensures store == if ok then AppendKv(model, old(store), tokens, slots, contexts) else old(store)
    {
      if |tokens| != |slots| {
        return false;
      }
      for i := 0 to |tokens|
        invariant store == AppendKv(model, old(store), tokens[..i], slots[..i], contexts[..i])
      {
        assert tokens[..i + 1][..i] == tokens[..i] && slots[..i + 1][..i] == slots[..i];
        assert contexts[..i + 1][..i] == contexts[..i];
        store := store[slots[i] := model.embed(tokens[i], Look(store, contexts[i]))];
      }
      assert tokens[..|tokens|] == tokens && slots[..|slots|] == slots && contexts[..|contexts|] == contexts;
      return true;
    }

    /** Whether every context slot can be read; a missing one is the KeyError of the kernels. */
    method CanRead(slots: seq<Slot>) returns (ok: bool)
      ensures ok <==> forall i :: 0 <= i < |slots| ==> slots[i] in store
    {
      for i := 0 to |slots|
        invariant forall j :: 0 <= j < i ==> slots[j] in store
      {
        if slots[i] !in store { return false; }
      }
      return true;
    }

    method SampleAll(b: GPUInputBatch) returns (sampled: map<RequestId, Token>)
      requires Readable(b, store)
      ensures sampled == SampleFrom(model, b, store, 0, map[])
    {
      sampled := map[];
      for k := 0 to |b.requestIds|
        invariant SampleFrom(model, b, store, k, sampled) == SampleFrom(model, b, store, 0, map[])
      {
        if b.sampleIndices[k] >= 0 {
          ReadableSlice(b, store, k);
          var query := Query(b.requestIds[k], Gather(store, ContextSlots(b, k)), b.generatedCounts[k],
            b.temperatures[k]);
          sampled := sampled[b.requestIds[k] := model.sample(query)];
        }
      }
    }

    /** One turn of the worker loop on a batch. */
    method ExecuteBatch(batchId: nat, items: seq<WorkerItem>) returns (reply: Reply)
      modifies this
      ensures match Execute(cfg, model, old(store), batchId, items)
        case Failed(s) => store == s && reply == Error
        case Sampled(s, t, x) => store == s && reply == Tokens(t, x)
    {
      hide AppendKv, SampleFrom, AllAccepted, Sorted, TokenContexts, RequestContexts;
      var flat := FlattenBatch(items);
      if flat.None? {
        return Error;
      }
      var b := flat.value;
      FlattenShape(items, cfg.blockSize);
      ghost var raw := Flatten(items, cfg.blockSize);
      PaddingContexts(raw, b.blockTables, |raw.requestIds|);
      var appended := Append(b.inputIds, b.slotMapping, TokenContexts(b, |b.requestIds|));
      var readable := CanRead(b.contextSlotMapping);
      if !readable {
        return Error;
      }
      var tokens := SampleAll(b);
      PaddingIrrelevant(model, raw, b.blockTables, store, 0, map[]);
      var decode := DecodeTokens(b);
      var metrics := BatchMetrics(batchId, cfg.rank, |b.requestIds|, |b.inputIds|, |b.inputIds| - decode, decode);
      return Tokens(tokens, metrics);
    }
  }

  /** Sampling does not look at the padded block tables. */
  lemma {:induction false} PaddingIrrelevant(m: Model, b: GPUInputBatch, tables: seq<seq<int>>, store: Store, k: nat,
                                             sampled: map<RequestId, Token>)
    requires Readable(b, store) && Readable(b.(blockTables := tables), store) && k <= |b.requestIds|
    ensures SampleFrom(m, b.(blockTables := tables), store, k, sampled) == SampleFrom(m, b, store, k, sampled)
    decreases |b.requestIds| - k
  {
    if k < |b.requestIds| {
      ReadableSlice(b, store, k);
      var next := if b.sampleIndices[k] < 0 then sampled
        else sampled[b.requestIds[k] := m.sample(Query(b.requestIds[k], Gather(store, ContextSlots(b, k)),
          b.generatedCounts[k], b.temperatures[k]))];
      PaddingIrrelevant(m, b, tables, store, k + 1, next);
    }
  }

  class EngineCore {
    const cfg: Config
    const model: Model
    const scheduler: Scheduler
    const worker: Worker
    var batchId: nat
    var outputs: seq<Event>
    var phase: Phase
    ghost var retired: seq<RequestState>

    ghost predicate Wired() {
      scheduler.cfg == cfg && scheduler.model == model && scheduler.Wired() && worker.cfg == cfg
        && worker.model == model
    }

    ghost function Repr(): set<object> {
      {this, scheduler, scheduler.cache, scheduler.cache.pool, worker}
    }

    ghost function State(): Core
      reads Repr()
    {
      Core(scheduler.State(), worker.store, batchId, outputs, retired, phase)
    }

    constructor (config: Config, m: Model)
      ensures cfg == config && model == m && Wired() && fresh(Repr()) && State() == InitialCore(config)
    {
      cfg, model := config, m;
      scheduler := new Scheduler(config, m);
      worker := new Worker(config, m);
      batchId, outputs, phase, retired := 0, [], Looping, [];
    }

    method EmitError(id: RequestId)
      modifies this`outputs
      ensures outputs == old(outputs) + [Output(Terminal(id, ERROR))]
    {
      outputs := outputs + [Output(RequestOutput(id, [], [], Some(ERROR), None))];
    }

    method HandleCommand(command: Command)
      requires Wired() && TablesOk(scheduler.cache.State())
      modifies Repr()
      ensures State() == Handle(cfg, old(State()), command)
    {
      hide TablesOk, AddRequest, AbortRequest;
      match command
      case Shutdown =>
        phase := ShutDown;
      case Add(request) =>
        var added := scheduler.Enqueue(request);
        if !added { EmitError(request.id); }
      case Abort(id) =>
        ghost var removed := Aborted(scheduler.State(), id);
        var aborted := scheduler.AbortOne(id);
        if aborted {
          retired := retired + removed;
          outputs := outputs + [Output(RequestOutput(id, [], [], Some(ABORT), None))];
        }
    }

    /** One round of the result loop. */
    method CommitOne(item: WorkerItem, count: nat, sampled: map<RequestId, Token>, metrics: BatchMetrics)
      requires Wired() && CacheOk(cfg.numGpuBlocks, scheduler.cache.State())
      modifies Repr()
      ensures State() == CommitItem(cfg, model, old(State()), item, count, sampled, metrics)
      ensures CacheOk(cfg.numGpuBlocks, scheduler.cache.State())
    {
      hide CacheOk, AppendToken, UpdateComputed, FinishRequest;
      if item.id !in scheduler.running {
        return;
      }
      scheduler.Advance(item.id, count);
      if item.id !in sampled {
        return;
      }
      var token := sampled[item.id];
      var before := scheduler.running[item.id].output;
      var reason := scheduler.Append(item.id, token);
      var after := scheduler.running[item.id].output;
      var previous, current := model.decode(before), model.decode(after);
      var text := if previous <= current then current[|previous|..] else model.decode([token]);
      var output := RequestOutput(item.id, if token == model.eos then [] else [token], text, reason, Some(metrics));
      outputs := outputs + [Output(output)];
      ghost var c, r := old(State()),
        AppendToken(cfg, model, UpdateComputed(old(scheduler.running[item.id]), count), token).0;
      assert State() == Emit(c.(sched := c.sched.(running := c.sched.running[item.id := r])), output);
      if reason.Some? { Retire(item.id); }
    }

    method Retire(id: RequestId)
      requires Wired() && CacheOk(cfg.numGpuBlocks, scheduler.cache.State()) && id in scheduler.running
      modifies Repr()
      ensures State() == FinishRequest(old(State()), id)
      ensures CacheOk(cfg.numGpuBlocks, scheduler.cache.State())
    {
      hide CacheOk, TablesOk, Free;
      TablesOfCache(cfg.numGpuBlocks, scheduler.cache.State());
      ghost var c := scheduler.cache.State();
      if id in c.tables { ReleaseOk(cfg.numGpuBlocks, c, id); }
      var request := scheduler.FinishOne(id);
      retired := retired + [request.value];
    }

    method CommitBatch(items: seq<WorkerItem>, counts: map<RequestId, nat>, sampled: map<RequestId, Token>,
                       metrics: BatchMetrics)
      requires Wired() && CacheOk(cfg.numGpuBlocks, scheduler.cache.State())
      requires forall k :: 0 <= k < |items| ==> items[k].id in counts
      modifies Repr()
      ensures State() == CommitAll(cfg, model, old(State()), items, counts, sampled, metrics)
    {
      hide CacheOk, CommitItem;
      assert items[0..] == items;
      for i := 0 to |items|
        invariant CacheOk(cfg.numGpuBlocks, scheduler.cache.State())
        invariant forall k :: 0 <= k < |items[i..]| ==> items[i..][k].id in counts
        invariant CommitAll(cfg, model, State(), items[i..], counts, sampled, metrics)
          == CommitAll(cfg, model, old(State()), items, counts, sampled, metrics)
      {
        assert items[i..][0] == items[i] && items[i..][1..] == items[i + 1..];
        CommitOne(items[i], counts[items[i].id], sampled, metrics);
      }
    }

    method FailBatch(items: seq<WorkerItem>)
      requires Wired() && CacheOk(cfg.numGpuBlocks, scheduler.cache.State())
      modifies Repr()
      ensures State() == FailAll(old(State()), items)
    {
      hide CacheOk, Finish;
      assert items[0..] == items;
      for i := 0 to |items|
        invariant CacheOk(cfg.numGpuBlocks, scheduler.cache.State())
        invariant FailAll(State(), items[i..]) == FailAll(old(State()), items)
      {
        assert items[i..][0] == items[i] && items[i..][1..] == items[i + 1..];
        EmitError(items[i].id);
        if items[i].id in scheduler.running {
          Retire(items[i].id);
        }
      }
    }

    /** The handler around the loop: the process ends with an error for every request. */
    method ReportCrash()
      modifies this
      ensures State() == Crash(old(State()))
    {
      assert scheduler.order[0..] == scheduler.order;
      ghost var start := outputs;
      for i := 0 to |scheduler.order|
        invariant EmitErrors(outputs, scheduler.order[i..]) == EmitErrors(start, scheduler.order)
        invariant State() == old(State()).(outputs := outputs)
      {
        assert scheduler.order[i..][1..] == scheduler.order[i + 1..];
        EmitError(scheduler.order[i]);
      }
      ghost var ids, middle := WaitingIdsOf(scheduler.waiting), outputs;
      assert ids[0..] == ids;
      for i := 0 to |scheduler.waiting|
        invariant EmitErrors(outputs, ids[i..]) == EmitErrors(middle, ids)
        invariant State() == old(State()).(outputs := outputs)
      {
        assert ids[i..][1..] == ids[i + 1..];
        EmitError(scheduler.waiting[i].req.id);
      }
      phase := Crashed;
    }

    /** `_execute_schedule`; `outcome` is what becomes of the Worker. */
    method ExecuteSchedule(outcome: Outcome)
      requires Wired() && SchedInv(cfg, scheduler.State(), []) && IdsOk(scheduler.State())
      modifies Repr()
      ensures State() == TakeTurn(cfg, model, old(State()), outcome)
    {
      hide SchedInv, IdsOk, Schedule, CountsOk, CacheOk, CommitAll, FailAll, Crash, Execute;
      ghost var c := State();
      ScheduleInv(cfg, c.sched);
      var items, counts := scheduler.ScheduleStep();
      ghost var p := Schedule(cfg, c.sched).1;
      if items == [] {
        return;
      }
      batchId := batchId + 1;
      BatchCache(cfg, scheduler.State(), items);
      BatchCounts(items, counts);
      match outcome
      case InitFailure => ReportCrash();
      case Failure(store) =>
        worker.store := store;
        FailBatch(items);
      case Success =>
        var reply := worker.ExecuteBatch(batchId, items);
        if reply.Error? {
          FailBatch(items);
        } else {
          outputs := outputs + [Metrics(reply.metrics)];
          CommitBatch(items, counts, reply.tokens, reply.metrics);
        }
    }

    /** The `run` loop over any legal history of commands and worker outcomes. */
    method RunLoop(inputs: seq<Input>)
      requires Wired() && State() == InitialCore(cfg) && Run(cfg, model, inputs).Some?
      modifies Repr()
      ensures State() == Run(cfg, model, inputs).value
    {
      hide SchedInv, StoreOk, TraceOk, TakeTurn, Handle, WellFormed, TurnAllowed, IdsOk;
      assert inputs[..|inputs|] == inputs && inputs[..0] == [];
      for i := 0 to |inputs|
        invariant Run(cfg, model, inputs[..i]) == Some(State())
      {
        RunStep(cfg, model, inputs, i);
        ghost var c := State();
        match inputs[i]
        case Receive(command) =>
          TablesOfSched(cfg, c.sched);
          HandleCommand(command);
        case Turn(outcome) =>
          SchedInvIds(cfg, c.sched, []);
          ExecuteSchedule(outcome);
      }
    }
  }

  lemma BatchCache(cfg: Config, s: Sched, items: seq<WorkerItem>)
    requires SchedInv(cfg, s, items)
    ensures CacheOk(cfg.numGpuBlocks, s.cache)
  {
    hide CacheOk, IdsOk, RequestsOk, ItemsOk, SizesOk;
  }

  lemma TablesOfSched(cfg: Config, s: Sched)
    requires SchedInv(cfg, s, [])
    ensures TablesOk(s.cache)
  {
    hide TablesOk, PoolOk, IdsOk, RequestsOk, ItemsOk, SizesOk;
  }

  lemma BatchCounts(items: seq<WorkerItem>, counts: map<RequestId, nat>)
    requires CountsOk(items, counts)
    ensures forall k :: 0 <= k < |items| ==> items[k].id in counts
  {}
}
