/** Every step of the engine keeps the invariant. */
module EngineProofs {
  import opened Protocol
  import opened Arith
  import opened KVCache
  import opened Scheduling
  import opened WorkerSide
  import opened Isolation
  import opened Solo
  import opened Engine

  // --------------------------------------------------------------------- views

  lemma FindUnique(s: Sched, k: nat)
    requires WaitingIds(s) && k < |s.waiting|
    ensures FindWaiting(s.waiting, s.waiting[k].req.id) == k
  {}

  /** A waiting queue with the same members shows the same views. */
  lemma SameWaiting(s: Sched, s': Sched, id: RequestId)
    requires WaitingIds(s) && WaitingIds(s') && s'.running == s.running
    requires forall w: RequestState :: w.req.id == id ==> (w in s'.waiting <==> w in s.waiting)
    ensures ViewOf(s', id) == ViewOf(s, id)
  {
    var i := FindWaiting(s.waiting, id);
    if i < |s.waiting| {
      assert s.waiting[i] in s'.waiting;
      var k :| 0 <= k < |s'.waiting| && s'.waiting[k] == s.waiting[i];
      FindUnique(s', k);
    }
  }

  lemma AddView(s: Sched, r: RequestState, id: RequestId)
    requires IdsOk(s) && r.req.id !in s.running && FindWaiting(s.waiting, r.req.id) == |s.waiting|
    ensures ViewOf(s.(waiting := s.waiting + [r]), id)
      == if id == r.req.id then Some(View(r.req, r.output)) else ViewOf(s, id)
  {
    var s' := s.(waiting := s.waiting + [r]);
    assert WaitingIds(s');
    if id == r.req.id {
      assert s'.waiting[|s.waiting|] == r;
      FindUnique(s', |s.waiting|);
    } else {
      SameWaiting(s, s', id);
    }
  }

  lemma AdmitOneView(cfg: Config, s: Sched, id: RequestId)
    requires IdsOk(s) && s.waiting != []
    ensures ViewOf(AdmitOne(cfg, s), id) == ViewOf(s, id)
  {
    hide CanReserve, Create, Release;
    var r, s' := s.waiting[0], AdmitOne(cfg, s);
    AdmitOneIds(cfg, s);
    FindUnique(s, 0);
    assert s.waiting == [r] + s.waiting[1..];
    if s'.order == s.order {
      SameWaiting(s, s', id);
    } else if id == r.req.id {
    } else {
      SameWaiting(s, s.(waiting := s.waiting[1..]), id);
      assert s'.waiting == s.waiting[1..];
    }
  }

  lemma {:induction false} AdmitView(cfg: Config, s: Sched, attempts: nat, id: RequestId)
    requires IdsOk(s)
    ensures ViewOf(AdmitFrom(cfg, s, attempts), id) == ViewOf(s, id)
    decreases attempts
  {
    hide IdsOk, AdmitOne, ViewOf;
    if !(s.waiting == [] || |s.order| >= cfg.maxNumSeqs || attempts == 0) {
      AdmitOneView(cfg, s, id);
      AdmitOneIds(cfg, s);
      AdmitView(cfg, AdmitOne(cfg, s), attempts - 1, id);
    }
  }

  /** Scheduling moves requests between queues but changes no request. */
  lemma ScheduleView(cfg: Config, s: Sched, id: RequestId)
    requires IdsOk(s)
    ensures ViewOf(Schedule(cfg, s).0, id) == ViewOf(s, id)
  {
    hide AdmitFrom, PlanFrom;
    AdmitView(cfg, s, |s.waiting|, id);
  }

  lemma FinishView(s: Sched, x: RequestId, id: RequestId)
    requires IdsOk(s) && x in s.running
    ensures ViewOf(Finish(s, x), id) == if id == x then None else ViewOf(s, id)
  {
    hide Release, Without;
    assert forall w <- s.waiting :: w.req.id != x;
  }

  lemma Remaining(ws: seq<RequestState>, i: nat, w: RequestState)
    requires i < |ws| && w != ws[i]
    ensures w in ws[..i] + ws[i + 1..] <==> w in ws
  {
    assert ws == ws[..i] + [ws[i]] + ws[i + 1..];
  }

  /** Dropping the i-th waiting request hides it and no other. */
  lemma DroppedView(s: Sched, i: nat, id: RequestId)
    requires IdsOk(s) && i < |s.waiting|
    ensures var s' := s.(waiting := s.waiting[..i] + s.waiting[i + 1..]);
      ViewOf(s', id) == if id == s.waiting[i].req.id then None else ViewOf(s, id)
  {
    var x := s.waiting[i].req.id;
    var s' := s.(waiting := s.waiting[..i] + s.waiting[i + 1..]);
    DropWaiting(s, i);
    if id != x {
      forall w: RequestState | w.req.id == id
        ensures w in s'.waiting <==> w in s.waiting
      {
        Remaining(s.waiting, i, w);
      }
      SameWaiting(s, s', id);
    } else {
      assert s.waiting[i] in s.waiting;
      forall k | 0 <= k < |s'.waiting| ensures s'.waiting[k].req.id != x {
        assert s'.waiting[k] == s.waiting[if k < i then k else k + 1];
      }
    }
  }

  lemma AbortView(s: Sched, x: RequestId, id: RequestId)
    requires IdsOk(s) && AbortRequest(s, x).Some?
    ensures ViewOf(AbortRequest(s, x).value, id) == if id == x then None else ViewOf(s, id)
    ensures ViewOf(s, x).Some?
  {
    hide IdsOk, Finish;
    if x in s.running {
      FinishView(s, x, id);
    } else {
      DroppedView(s, FindWaiting(s.waiting, x), id);
    }
  }

  // -------------------------------------------------------------------- traces

  /** Only request x's view and trace change. */
  ghost predicate OnlyChanges(c: Core, c': Core, x: RequestId) {
    && (forall id: RequestId {:trigger LiveView(c', id)} | id != x :: LiveView(c', id) == LiveView(c, id))
    && (forall id: RequestId {:trigger TraceOf(c'.outputs, id)} | id != x ::
          TraceOf(c'.outputs, id) == TraceOf(c.outputs, id))
  }

  lemma TracesChange(cfg: Config, m: Model, c: Core, c': Core, added: map<RequestId, EngineRequest>,
                     added': map<RequestId, EngineRequest>, x: RequestId)
    requires TracesOk(cfg, m, c, added) && OnlyChanges(c, c', x)
    requires forall id: RequestId | id != x ::
      (id in added' <==> id in added) && (id in added ==> added'[id] == added[id])
    requires TraceOk(cfg, m, added', x, LiveView(c', x), TraceOf(c'.outputs, x))
    ensures TracesOk(cfg, m, c', added')
  {
    hide OpenTrace, ClosedTrace, LiveView, TraceOf;
    forall id: RequestId ensures TraceOk(cfg, m, added', id, LiveView(c', id), TraceOf(c'.outputs, id)) {
      if id != x {
        assert TraceOk(cfg, m, added, id, LiveView(c, id), TraceOf(c.outputs, id));
      }
    }
  }

  lemma OpenStart(cfg: Config, m: Model, req: EngineRequest)
    ensures OpenTrace(cfg, m, req, [], [])
  {
    UnfinishedStart(cfg, m, req);
  }

  /** A final output without tokens closes an open trace. */
  lemma CloseTrace(cfg: Config, m: Model, req: EngineRequest, output: seq<Token>, t: seq<RequestOutput>, id: RequestId,
                   reason: FinishReason)
    requires WellFormed(req) && OpenTrace(cfg, m, req, output, t) && (reason.ABORT? || reason.ERROR?)
    ensures ClosedTrace(cfg, m, req, t + [Terminal(id, reason)])
  {
    hide Unfinished, Streamed, StreamedText, DeltaTexts;
    StreamAppend(t, Terminal(id, reason));
    DeltaAppend(m, t, Terminal(id, reason));
    var t' := t + [Terminal(id, reason)];
    assert t'[..|t|] == t;
    assert StreamOk(m, t', output);
  }

  // --------------------------------------------------------------------- store

  /** Requests that keep their state and table keep their tokens. */
  lemma StoreDropHead(cfg: Config, m: Model, s: Sched, s': Sched, store: Store, items: seq<WorkerItem>)
    requires items != [] && StoreOk(cfg, m, s, store, items)
    requires forall i, j :: 0 <= i < j < |items| ==> items[i].id != items[j].id
    requires forall a :: a in s'.running ==> a in s.running && a in s'.cache.tables
    requires forall a :: a in s.running && a != items[0].id ==>
      && a in s'.running && a in s'.cache.tables && a in s.cache.tables
      && s'.running[a] == s.running[a] && s'.cache.tables[a] == s.cache.tables[a]
    requires items[0].id in s'.running ==> RequestHeld(cfg, m, s', store, items[0].id, s'.running[items[0].id].computed)
    ensures StoreOk(cfg, m, s', store, items[1..])
  {
    hide Holds;
    forall k | 0 <= k < |items[1..]| ensures RequestHeld(cfg, m, s', store, items[1..][k].id, items[1..][k].seqLen) {
      assert items[1..][k] == items[k + 1];
      assert RequestHeld(cfg, m, s, store, items[k + 1].id, items[k + 1].seqLen);
    }
    forall a | a in s'.running ensures RequestHeld(cfg, m, s', store, a, s'.running[a].computed) {
      if a != items[0].id { assert RequestHeld(cfg, m, s, store, a, s.running[a].computed); }
    }
  }

  lemma StoreShrinks(cfg: Config, m: Model, s: Sched, s': Sched, store: Store)
    requires StoreOk(cfg, m, s, store, [])
    requires forall a :: a in s'.running ==>
      && a in s.running && a in s'.cache.tables && a in s.cache.tables
      && s'.running[a] == s.running[a] && s'.cache.tables[a] == s.cache.tables[a]
    ensures StoreOk(cfg, m, s', store, [])
  {
    hide Holds;
    forall a | a in s'.running ensures RequestHeld(cfg, m, s', store, a, s'.running[a].computed) {
      assert RequestHeld(cfg, m, s, store, a, s.running[a].computed);
    }
  }

  /** Held tokens stay held when the token sequence is extended. */
  lemma HeldExtends(cfg: Config, m: Model, s: Sched, s': Sched, store: Store, id: RequestId, upto: nat)
    requires RequestHeld(cfg, m, s, store, id, upto) && id in s'.running && id in s'.cache.tables
    requires All(s.running[id]) <= All(s'.running[id]) && s'.cache.tables[id] == s.cache.tables[id]
    ensures RequestHeld(cfg, m, s', store, id, upto)
  {
    hide All, Holds;
    DenseExtends(m, All(s.running[id]), All(s'.running[id]));
    HoldsPrefix(store, cfg.blockSize, ValuesOf(m, s, id), ValuesOf(m, s', id), s.cache.tables[id], upto);
  }

  lemma DenseExtends(m: Model, tokens: seq<Token>, tokens': seq<Token>)
    requires tokens <= tokens'
    ensures Dense(m, tokens) <= Dense(m, tokens')
  {
    assert tokens == tokens'[..|tokens|];
    DensePrefix(m, tokens', |tokens|);
  }

  lemma HoldsPrefix(store: Store, blockSize: nat, values: seq<Value>, values': seq<Value>, table: seq<Block>, upto: nat)
    requires blockSize > 0 && Holds(store, blockSize, values, table, upto) && values <= values'
    ensures Holds(store, blockSize, values', table, upto)
  {
    forall p: nat | p < upto ensures HeldAt(store, blockSize, values', table, p) {
      assert HeldAt(store, blockSize, values, table, p);
    }
  }

  // ------------------------------------------------------------------ commands

  ghost function AddedBy(added: map<RequestId, EngineRequest>, command: Command): map<RequestId, EngineRequest> {
    if command.Add? then added[command.request.id := command.request] else added
  }

  /** What the environment promises: well-formed requests under fresh ids. */
  ghost predicate Fresh(added: map<RequestId, EngineRequest>, command: Command) {
    command.Add? ==> WellFormed(command.request) && command.request.id !in added
  }

  lemma AddTraces(cfg: Config, m: Model, c: Core, added: map<RequestId, EngineRequest>, req: EngineRequest)
    requires IdsOk(c.sched) && TracesOk(cfg, m, c, added) && !c.phase.Crashed? && Fresh(added, Add(req))
    ensures TracesOk(cfg, m, Handle(cfg, c, Add(req)), AddedBy(added, Add(req)))
  {
    hide OpenTrace, ClosedTrace, IdsOk;
    var c' := Handle(cfg, c, Add(req));
    assert TraceOk(cfg, m, added, req.id, LiveView(c, req.id), TraceOf(c.outputs, req.id));
    OpenStart(cfg, m, req);
    forall id: RequestId ensures
      && (id != req.id ==> LiveView(c', id) == LiveView(c, id))
      && (id != req.id ==> TraceOf(c'.outputs, id) == TraceOf(c.outputs, id))
    {
      if |req.prompt| >= ContextLimit(cfg) {
        TraceAppend(c.outputs, Output(Terminal(req.id, ERROR)), id);
      } else {
        AddView(c.sched, RequestState(req, [], 0), id);
      }
    }
    assert OnlyChanges(c, c', req.id);
    if |req.prompt| >= ContextLimit(cfg) {
      CloseTrace(cfg, m, req, [], [], req.id, ERROR);
      TraceAppend(c.outputs, Output(Terminal(req.id, ERROR)), req.id);
    } else {
      AddView(c.sched, RequestState(req, [], 0), req.id);
    }
    TracesChange(cfg, m, c, c', added, AddedBy(added, Add(req)), req.id);
  }

  lemma AbortTraces(cfg: Config, m: Model, c: Core, added: map<RequestId, EngineRequest>, x: RequestId)
    requires IdsOk(c.sched) && TracesOk(cfg, m, c, added) && !c.phase.Crashed?
    requires forall id <- added :: WellFormed(added[id])
    ensures TracesOk(cfg, m, Handle(cfg, c, Abort(x)), added)
  {
    hide Unfinished, DeltaTexts, ClosedTrace, IdsOk, AbortRequest, ViewOf, TraceOf;
    var c' := Handle(cfg, c, Abort(x));
    if AbortRequest(c.sched, x).Some? {
      assert TraceOk(cfg, m, added, x, LiveView(c, x), TraceOf(c.outputs, x));
      forall id: RequestId ensures
        && (id != x ==> LiveView(c', id) == LiveView(c, id))
        && (id != x ==> TraceOf(c'.outputs, id) == TraceOf(c.outputs, id))
      {
        AbortView(c.sched, x, id);
        TraceAppend(c.outputs, Output(Terminal(x, ABORT)), id);
      }
      AbortView(c.sched, x, x);
      TraceAppend(c.outputs, Output(Terminal(x, ABORT)), x);
      CloseTrace(cfg, m, added[x], LiveView(c, x).value.output, TraceOf(c.outputs, x), x, ABORT);
      TracesChange(cfg, m, c, c', added, added, x);
    }
  }

  /** Commands keep the invariant. */
  lemma HandleInv(cfg: Config, m: Model, c: Core, added: map<RequestId, EngineRequest>, command: Command)
    requires CoreInv(cfg, m, c, added, []) && !c.phase.Crashed? && Fresh(added, command)
    requires forall id <- added :: WellFormed(added[id])
    ensures CoreInv(cfg, m, Handle(cfg, c, command), AddedBy(added, command), [])
  {
    hide SchedInv, StoreOk, TraceOk, AddRequest, AbortRequest, LiveView;
    SchedInvIds(cfg, c.sched, []);
    match command
    case Shutdown =>
      ShutdownViews(c);
    case Add(req) =>
      AddTraces(cfg, m, c, added, req);
      if AddRequest(cfg, c.sched, req).Some? {
        AddInv(cfg, c.sched, req);
        AddStore(cfg, m, c.sched, c.store, req);
      }
    case Abort(id) =>
      AbortTraces(cfg, m, c, added, id);
      if AbortRequest(c.sched, id).Some? {
        AbortInv(cfg, c.sched, id);
        AbortStore(cfg, m, c.sched, c.store, id);
      }
  }

  lemma ShutdownViews(c: Core)
    requires !c.phase.Crashed?
    ensures forall id: RequestId :: LiveView(c.(phase := ShutDown), id) == LiveView(c, id)
  {
    hide ViewOf;
  }

  lemma AddStore(cfg: Config, m: Model, s: Sched, store: Store, req: EngineRequest)
    requires StoreOk(cfg, m, s, store, []) && AddRequest(cfg, s, req).Some?
    ensures StoreOk(cfg, m, AddRequest(cfg, s, req).value, store, [])
  {
    hide Holds;
    StoreShrinks(cfg, m, s, AddRequest(cfg, s, req).value, store);
  }

  lemma AbortStore(cfg: Config, m: Model, s: Sched, store: Store, id: RequestId)
    requires IdsOk(s) && StoreOk(cfg, m, s, store, []) && AbortRequest(s, id).Some?
    ensures StoreOk(cfg, m, AbortRequest(s, id).value, store, [])
  {
    hide Holds, Without, Free;
    StoreShrinks(cfg, m, s, AbortRequest(s, id).value, store);
  }

  // ------------------------------------------------------------------- commits

  /** The head request after its chunk, before any token is appended. */
  ghost function Advanced(s: Sched, item: WorkerItem): RequestState
    requires item.id in s.running
  {
    UpdateComputed(s.running[item.id], |item.tokenIds|)
  }

  lemma AdvancedOk(cfg: Config, s: Sched, items: seq<WorkerItem>)
    requires SchedInv(cfg, s, items) && items != []
    ensures items[0].id in s.running
    ensures var r := Advanced(s, items[0]);
      && r.computed == items[0].seqLen <= |All(r)| && WellFormed(r.req) && r.req.id == items[0].id
      && |All(r)| < ContextLimit(cfg) && |r.output| < r.req.params.maxTokens
      && (r.computed < |All(r)| ==> RunningOk(cfg, r))
  {
    hide CacheOk, SizesOk, ItemFor, CeilDiv, ContextLimit;
    ItemSlots(cfg, s, items, 0);
    assert RunningOk(cfg, s.running[items[0].id]);
  }

  /** The tail of the batch is still to be sampled as before. */
  lemma SampledTail(m: Model, s: Sched, s': Sched, items: seq<WorkerItem>, sampled: map<RequestId, Token>)
    requires items != [] && SampledOk(m, s, items, sampled)
    requires forall i, j :: 0 <= i < j < |items| ==> items[i].id != items[j].id
    requires forall a :: a in s.running && a != items[0].id ==> a in s'.running && s'.running[a] == s.running[a]
    ensures SampledOk(m, s', items[1..], sampled)
  {
    hide All, NextToken;
    assert forall k :: 0 <= k < |items[1..]| ==> items[1..][k] == items[k + 1];
  }

  /** Replacing the head request's state by `r'` and dropping it from the batch. */
  lemma ReplaceHead(cfg: Config, m: Model, s: Sched, store: Store, items: seq<WorkerItem>,
                    sampled: map<RequestId, Token>, r': RequestState)
    requires items != [] && SchedInv(cfg, s, items) && StoreOk(cfg, m, s, store, items)
    requires SampledOk(m, s, items, sampled)
    requires items[0].id in s.running && r'.req == s.running[items[0].id].req
    requires s.running[items[0].id].output <= r'.output
    requires r'.computed == items[0].seqLen && RunningOk(cfg, r')
    ensures var s' := s.(running := s.running[items[0].id := r']);
      SchedInv(cfg, s', items[1..]) && StoreOk(cfg, m, s', store, items[1..]) && SampledOk(m, s', items[1..], sampled)
  {
    hide CacheOk, RequestsOk, SizesOk, ItemFor, RequestHeld, SampledOk, RunningOk;
    var s' := s.(running := s.running[items[0].id := r']);
    CommitInv(cfg, s, items, r');
    SampledTail(m, s, s', items, sampled);
    assert RequestHeld(cfg, m, s, store, items[0].id, items[0].seqLen);
    HeldExtends(cfg, m, s, s', store, items[0].id, items[0].seqLen);
    StoreDropHead(cfg, m, s, s', store, items);
  }

  /** Finishing the head request and dropping it from the batch. */
  lemma FinishHead(cfg: Config, m: Model, s: Sched, store: Store, items: seq<WorkerItem>,
                   sampled: map<RequestId, Token>)
    requires items != [] && SchedInv(cfg, s, items) && StoreOk(cfg, m, s, store, items)
    requires SampledOk(m, s, items, sampled)
    requires items[0].id in s.running
    ensures var s' := Finish(s, items[0].id);
      SchedInv(cfg, s', items[1..]) && StoreOk(cfg, m, s', store, items[1..]) && SampledOk(m, s', items[1..], sampled)
  {
    hide CacheOk, RequestsOk, SizesOk, ItemFor, RequestHeld, SampledOk, Without, Free;
    var s' := Finish(s, items[0].id);
    FinishHeadInv(cfg, s, items);
    SampledTail(m, s, s', items, sampled);
    StoreDropHead(cfg, m, s, s', store, items);
  }

  /** Finishing a request does not depend on the state being finished. */
  lemma FinishReplaced(s: Sched, id: RequestId, r: RequestState)
    requires id in s.running
    ensures Finish(s.(running := s.running[id := r]), id) == Finish(s, id)
  {
    assert s.running[id := r] - {id} == s.running - {id};
  }

  /** Streaming one token appends it to the output, with its text delta. */
  lemma StreamToken(cfg: Config, m: Model, t: seq<RequestOutput>, r: RequestState, token: Token, out: RequestOutput)
    requires StreamOk(m, t, r.output)
    requires out.tokenIds == (if token == m.eos then [] else [token])
    requires out.text == TextDelta(m, r.output, AppendToken(cfg, m, r, token).0.output, token)
    ensures StreamOk(m, t + [out], AppendToken(cfg, m, r, token).0.output)
  {
    hide HitsStop, ContextLimit, Streamed, StreamedText, DeltaTexts;
    StreamAppend(t, out);
    DeltaAppend(m, t, out);
  }

  /** The trace of the head request after its sampled token is streamed. */
  lemma TokenTrace(cfg: Config, m: Model, t: seq<RequestOutput>, r: RequestState, out: RequestOutput)
    requires WellFormed(r.req) && r.computed == |All(r)| && |r.output| < r.req.params.maxTokens
    requires OpenTrace(cfg, m, r.req, r.output, t)
    requires var token := NextToken(m, r.req, r.output);
      && out.tokenIds == (if token == m.eos then [] else [token])
      && out.text == TextDelta(m, r.output, AppendToken(cfg, m, r, token).0.output, token)
      && out.finishReason == AppendToken(cfg, m, r, token).1
    ensures var (r', reason) := AppendToken(cfg, m, r, NextToken(m, r.req, r.output));
      if reason.None? then OpenTrace(cfg, m, r.req, r'.output, t + [out])
      else ClosedTrace(cfg, m, r.req, t + [out])
  {
    hide HitsStop, ContextLimit, Unfinished, StreamOk, SoloReason, SoloOutput, TextDelta;
    var token := NextToken(m, r.req, r.output);
    AppendIsSolo(cfg, m, r, token);
    StreamToken(cfg, m, t, r, token, out);
    assert (t + [out])[..|t|] == t;
  }

  /** The output emitted for a sampled item. */
  ghost function TokenOutput(cfg: Config, m: Model, r: RequestState, token: Token,
                             metrics: BatchMetrics): RequestOutput {
    var (r', reason) := AppendToken(cfg, m, r, token);
    RequestOutput(r.req.id, if token == m.eos then [] else [token], TextDelta(m, r.output, r'.output, token), reason,
      Some(metrics))
  }

  lemma CommitTraces(cfg: Config, m: Model, c: Core, added: map<RequestId, EngineRequest>, item: WorkerItem,
                     token: Token, metrics: BatchMetrics, c': Core)
    requires IdsOk(c.sched) && TracesOk(cfg, m, c, added) && c.phase.Looping? && item.id in c.sched.running
    requires var r := Advanced(c.sched, item);
      && WellFormed(r.req) && r.computed == |All(r)| && |r.output| < r.req.params.maxTokens
      && r.req.id == item.id && token == NextToken(m, r.req, r.output)
      && c'.outputs == c.outputs + [Output(TokenOutput(cfg, m, r, token, metrics))]
      && c'.phase.Looping?
      && var (r', reason) := AppendToken(cfg, m, r, token);
      c'.sched == (if reason.Some? then Finish(c.sched, item.id)
        else c.sched.(running := c.sched.running[item.id := r']))
    ensures TracesOk(cfg, m, c', added)
  {
    hide OpenTrace, ClosedTrace, IdsOk, TraceOf, NextToken, TextDelta, HitsStop, ContextLimit, WellFormed, Finish;
    var r, x := Advanced(c.sched, item), item.id;
    var (r', reason) := AppendToken(cfg, m, r, token);
    var out := TokenOutput(cfg, m, r, token, metrics);
    assert TraceOk(cfg, m, added, x, LiveView(c, x), TraceOf(c.outputs, x));
    forall id: RequestId ensures
      && (id != x ==> LiveView(c', id) == LiveView(c, id))
      && (id != x ==> TraceOf(c'.outputs, id) == TraceOf(c.outputs, id))
    {
      TraceAppend(c.outputs, Output(out), id);
      if reason.Some? { FinishView(c.sched, x, id); }
    }
    TraceAppend(c.outputs, Output(out), x);
    TokenTrace(cfg, m, TraceOf(c.outputs, x), r, out);
    if reason.Some? { FinishView(c.sched, x, x); }
    TracesChange(cfg, m, c, c', added, added, x);
  }

  /** One round of the result loop moves the head item out of the pending batch. */
  lemma CommitItemInv(cfg: Config, m: Model, c: Core, added: map<RequestId, EngineRequest>, items: seq<WorkerItem>,
                      sampled: map<RequestId, Token>, metrics: BatchMetrics)
    requires CoreInv(cfg, m, c, added, items) && items != [] && c.phase.Looping?
    requires SampledOk(m, c.sched, items, sampled)
    ensures var c' := CommitItem(cfg, m, c, items[0], |items[0].tokenIds|, sampled, metrics);
      && CoreInv(cfg, m, c', added, items[1..]) && SampledOk(m, c'.sched, items[1..], sampled) && c'.phase.Looping?
      && items[0].id in c.sched.running
  {
    hide SchedInv, StoreOk, TraceOk, TextDelta, HitsStop, ContextLimit, NextToken, WellFormed, Finish;
    var item := items[0];
    SchedInvIds(cfg, c.sched, items);
    AdvancedOk(cfg, c.sched, items);
    var r := Advanced(c.sched, item);
    var c' := CommitItem(cfg, m, c, item, |item.tokenIds|, sampled, metrics);
    if item.id !in sampled {
      ReplaceHead(cfg, m, c.sched, c.store, items, sampled, r);
      SilentTraces(cfg, m, c, added, item);
    } else {
      var token := sampled[item.id];
      var (r', reason) := AppendToken(cfg, m, r, token);
      if reason.Some? {
        FinishHead(cfg, m, c.sched, c.store, items, sampled);
        FinishReplaced(c.sched, item.id, r');
      } else {
        AppendOk(cfg, m, r, token);
        ReplaceHead(cfg, m, c.sched, c.store, items, sampled, r');
      }
      CommitTraces(cfg, m, c, added, item, token, metrics, c');
    }
  }

  lemma SilentTraces(cfg: Config, m: Model, c: Core, added: map<RequestId, EngineRequest>, item: WorkerItem)
    requires TracesOk(cfg, m, c, added) && item.id in c.sched.running
    ensures TracesOk(cfg, m, c.(sched := c.sched.(running := c.sched.running[item.id := Advanced(c.sched, item)])),
      added)
  {
    hide TraceOk, TraceOf;
    var c' := c.(sched := c.sched.(running := c.sched.running[item.id := Advanced(c.sched, item)]));
    assert forall id: RequestId :: LiveView(c', id) == LiveView(c, id);
  }

  lemma {:induction false} CommitAllInv(cfg: Config, m: Model, c: Core, added: map<RequestId, EngineRequest>,
                                        items: seq<WorkerItem>, counts: map<RequestId, nat>,
                                        sampled: map<RequestId, Token>, metrics: BatchMetrics)
    requires CoreInv(cfg, m, c, added, items) && c.phase.Looping? && SampledOk(m, c.sched, items, sampled)
    requires CountsOk(items, counts)
    ensures var c' := CommitAll(cfg, m, c, items, counts, sampled, metrics);
      CoreInv(cfg, m, c', added, []) && c'.phase.Looping?
    decreases |items|
  {
    hide CoreInv, SampledOk, CommitItem;
    if items != [] {
      CommitItemInv(cfg, m, c, added, items, sampled, metrics);
      assert CountsOk(items[1..], counts);
      CommitAllInv(cfg, m, CommitItem(cfg, m, c, items[0], counts[items[0].id], sampled, metrics), added, items[1..],
        counts, sampled, metrics);
    }
  }

  // ------------------------------------------------------------------ failures

  /** The invariant of the error loop: nothing is assumed about the chunks being written. */
  ghost predicate FailInv(cfg: Config, m: Model, c: Core, added: map<RequestId, EngineRequest>,
                          items: seq<WorkerItem>) {
    && SchedInv(cfg, c.sched, items) && StoreOk(cfg, m, c.sched, c.store, []) && TracesOk(cfg, m, c, added)
    && c.phase.Looping? && (forall id <- added :: WellFormed(added[id]))
  }

  lemma FailTraces(cfg: Config, m: Model, c: Core, added: map<RequestId, EngineRequest>, x: RequestId)
    requires IdsOk(c.sched) && TracesOk(cfg, m, c, added) && c.phase.Looping? && x in c.sched.running
    requires forall id <- added :: WellFormed(added[id])
    ensures TracesOk(cfg, m, FinishRequest(Emit(c, Terminal(x, ERROR)), x), added)
  {
    hide OpenTrace, ClosedTrace, IdsOk, ViewOf, TraceOf, Finish;
    var c' := FinishRequest(Emit(c, Terminal(x, ERROR)), x);
    assert TraceOk(cfg, m, added, x, LiveView(c, x), TraceOf(c.outputs, x));
    forall id: RequestId ensures
      && (id != x ==> LiveView(c', id) == LiveView(c, id))
      && (id != x ==> TraceOf(c'.outputs, id) == TraceOf(c.outputs, id))
    {
      FinishView(c.sched, x, id);
      TraceAppend(c.outputs, Output(Terminal(x, ERROR)), id);
    }
    FinishView(c.sched, x, x);
    RunningView(c.sched, x);
    TraceAppend(c.outputs, Output(Terminal(x, ERROR)), x);
    CloseTrace(cfg, m, added[x], LiveView(c, x).value.output, TraceOf(c.outputs, x), x, ERROR);
    TracesChange(cfg, m, c, c', added, added, x);
  }

  lemma RunningView(s: Sched, x: RequestId)
    requires x in s.running
    ensures ViewOf(s, x).Some?
  {}

  lemma FailItemInv(cfg: Config, m: Model, c: Core, added: map<RequestId, EngineRequest>, items: seq<WorkerItem>)
    requires FailInv(cfg, m, c, added, items) && items != []
    ensures FailInv(cfg, m, FailItem(c, items[0]), added, items[1..]) && items[0].id in c.sched.running
  {
    hide SchedInv, StoreOk, TraceOk, WellFormed, Finish;
    SchedInvIds(cfg, c.sched, items);
    AdvancedOk(cfg, c.sched, items);
    FailTraces(cfg, m, c, added, items[0].id);
    FinishHeadInv(cfg, c.sched, items);
    FinishStore(cfg, m, c.sched, c.store, items[0].id);
  }

  lemma FinishStore(cfg: Config, m: Model, s: Sched, store: Store, id: RequestId)
    requires IdsOk(s) && StoreOk(cfg, m, s, store, []) && id in s.running
    ensures StoreOk(cfg, m, Finish(s, id), store, [])
  {
    hide Holds, Without, Free;
    StoreShrinks(cfg, m, s, Finish(s, id), store);
  }

  lemma {:induction false} FailAllInv(cfg: Config, m: Model, c: Core, added: map<RequestId, EngineRequest>,
                                      items: seq<WorkerItem>)
    requires FailInv(cfg, m, c, added, items)
    ensures FailInv(cfg, m, FailAll(c, items), added, [])
    decreases |items|
  {
    hide FailInv, FailItem;
    if items != [] {
      FailItemInv(cfg, m, c, added, items);
      FailAllInv(cfg, m, FailItem(c, items[0]), added, items[1..]);
    }
  }

  lemma {:induction false} EmitErrorsTrace(outputs: seq<Event>, ids: seq<RequestId>, id: RequestId)
    requires Distinct(ids)
    ensures TraceOf(EmitErrors(outputs, ids), id) ==
      TraceOf(outputs, id) + (if id in ids then [Terminal(id, ERROR)] else [])
    decreases |ids|
  {
    hide TraceOf;
    if ids != [] {
      TraceAppend(outputs, Output(Terminal(ids[0], ERROR)), id);
      EmitErrorsTrace(outputs + [Output(Terminal(ids[0], ERROR))], ids[1..], id);
      assert ids == [ids[0]] + ids[1..];
    }
  }

  lemma CrashTrace(c: Core, id: RequestId)
    requires IdsOk(c.sched)
    ensures TraceOf(Crash(c).outputs, id) ==
      TraceOf(c.outputs, id) + (if ViewOf(c.sched, id).Some? then [Terminal(id, ERROR)] else [])
  {
    hide TraceOf, EmitErrors;
    var ids := WaitingIdsOf(c.sched.waiting);
    assert Distinct(ids);
    EmitErrorsTrace(c.outputs, c.sched.order, id);
    EmitErrorsTrace(EmitErrors(c.outputs, c.sched.order), ids, id);
    var i := FindWaiting(c.sched.waiting, id);
    if i < |c.sched.waiting| { assert ids[i] == id; }
    if id in ids {
      var k :| 0 <= k < |ids| && ids[k] == id;
      assert c.sched.waiting[k].req.id == id && c.sched.waiting[k] in c.sched.waiting;
    }
  }

  lemma CrashInv(cfg: Config, m: Model, c: Core, added: map<RequestId, EngineRequest>)
    requires IdsOk(c.sched) && TracesOk(cfg, m, c, added) && c.phase.Looping?
    requires forall id <- added :: WellFormed(added[id])
    ensures TracesOk(cfg, m, Crash(c), added)
  {
    hide OpenTrace, ClosedTrace, IdsOk, ViewOf, TraceOf, EmitErrors;
    forall id: RequestId ensures TraceOk(cfg, m, added, id, LiveView(Crash(c), id), TraceOf(Crash(c).outputs, id)) {
      var t := TraceOf(c.outputs, id);
      assert TraceOk(cfg, m, added, id, LiveView(c, id), t);
      CrashTrace(c, id);
      if LiveView(c, id).Some? {
        CloseTrace(cfg, m, added[id], LiveView(c, id).value.output, t, id, ERROR);
      } else {
        assert t + [] == t;
      }
    }
  }

  // --------------------------------------------------------------------- turns

  lemma MetricsTraces(cfg: Config, m: Model, c: Core, added: map<RequestId, EngineRequest>, metrics: BatchMetrics)
    requires TracesOk(cfg, m, c, added)
    ensures TracesOk(cfg, m, c.(outputs := c.outputs + [Metrics(metrics)]), added)
  {
    hide TraceOk, TraceOf, ViewOf;
    var c' := c.(outputs := c.outputs + [Metrics(metrics)]);
    forall id: RequestId ensures TraceOk(cfg, m, added, id, LiveView(c', id), TraceOf(c'.outputs, id)) {
      TraceAppend(c.outputs, Metrics(metrics), id);
      assert TraceOk(cfg, m, added, id, LiveView(c, id), TraceOf(c.outputs, id));
    }
  }

  /** What the Worker may do to the store when it fails. */
  ghost predicate OutcomeOk(store: Store, items: seq<WorkerItem>, outcome: Outcome) {
    outcome.Failure? ==> WritesOnly(store, outcome.store, items)
  }

  lemma RespondInv(cfg: Config, m: Model, c: Core, added: map<RequestId, EngineRequest>, p: Plan, outcome: Outcome)
    requires FailInv(cfg, m, c, added, p.items) && CountsOk(p.items, p.counts) && p.items != []
    requires OutcomeOk(c.store, p.items, outcome)
    ensures var c' := Respond(cfg, m, c, p, outcome);
      TracesOk(cfg, m, c', added) && (!c'.phase.Crashed? ==> CoreInv(cfg, m, c', added, []))
    ensures outcome.InitFailure? <==> Respond(cfg, m, c, p, outcome).phase.Crashed?
  {
    hide SchedInv, StoreOk, TraceOk, CountsOk, Execute, CommitAll, FailAll, WritesOnly, WellFormed;
    SchedInvIds(cfg, c.sched, p.items);
    match outcome
    case InitFailure =>
      CrashInv(cfg, m, c, added);
    case Failure(store) =>
      SchedInvParts(cfg, c.sched, p.items);
      PartialWriteOk(cfg, m, c.sched, c.store, store, p.items);
      StoreViews(c, store);
      FailAllInv(cfg, m, c.(store := store), added, p.items);
    case Success =>
      ExecuteOk(cfg, m, c.sched, c.store, c.batchId, p.items);
      var result := Execute(cfg, m, c.store, c.batchId, p.items);
      StoreViews(c, result.store);
      MetricsTraces(cfg, m, c.(store := result.store), added, result.metrics);
      CommitAllInv(cfg, m, c.(store := result.store, outputs := c.outputs + [Metrics(result.metrics)]),
        added, p.items, p.counts, result.tokens, result.metrics);
  }

  lemma StoreViews(c: Core, store: Store)
    ensures forall id: RequestId :: LiveView(c.(store := store), id) == LiveView(c, id)
  {}

  lemma SchedInvParts(cfg: Config, s: Sched, items: seq<WorkerItem>)
    requires SchedInv(cfg, s, items)
    ensures TablesOk(s.cache) && ItemsOk(cfg, s, items)
  {
    hide IdsOk, PoolOk, TablesOk, RequestsOk, ItemsOk, SizesOk;
  }

  /** Scheduling itself leaves the store's promises in place. */
  lemma ScheduleStore(cfg: Config, m: Model, s: Sched, store: Store)
    requires SchedInv(cfg, s, []) && StoreOk(cfg, m, s, store, [])
    ensures StoreOk(cfg, m, Schedule(cfg, s).0, store, [])
  {
    hide SchedInv, StoreOk, AdmitFrom, PlanFrom, CanReserve;
    AdmitInv(cfg, s, |s.waiting|);
    AdmitStore(cfg, m, s, store, |s.waiting|);
    var s1 := Admit(cfg, s);
    SchedInvIds(cfg, s, []);
    SchedInvIds(cfg, s1, []);
    assert s1.(cache := s1.cache) == s1;
    PlanFromGrows(cfg, s1, InitialPlan(cfg, s1), 0);
    StoreGrows(cfg, m, s1, Schedule(cfg, s).0, store);
  }

  lemma {:induction false} AdmitStore(cfg: Config, m: Model, s: Sched, store: Store, attempts: nat)
    requires SchedInv(cfg, s, []) && StoreOk(cfg, m, s, store, [])
    ensures StoreOk(cfg, m, AdmitFrom(cfg, s, attempts), store, [])
    decreases attempts
  {
    hide SchedInv, StoreOk, AdmitOne;
    if !(s.waiting == [] || |s.order| >= cfg.maxNumSeqs || attempts == 0) {
      AdmitOneInv(cfg, s);
      AdmitOneStore(cfg, m, s, store);
      AdmitStore(cfg, m, AdmitOne(cfg, s), store, attempts - 1);
    }
  }

  lemma AdmitOneStore(cfg: Config, m: Model, s: Sched, store: Store)
    requires SchedInv(cfg, s, []) && StoreOk(cfg, m, s, store, []) && s.waiting != [] && |s.order| < cfg.maxNumSeqs
    ensures StoreOk(cfg, m, AdmitOne(cfg, s), store, [])
  {
    hide CanReserve, CacheOk, IdsOk, CeilDiv, Holds, Release, Dense, SizesOk, ItemsOk, FirstTarget;
    var r, s' := s.waiting[0], AdmitOne(cfg, s);
    SchedInvIds(cfg, s, []);
    AdmitOneCache(cfg, s);
    assert WaitingOk(cfg, r);
    NothingHeld(store, cfg.blockSize, Dense(m, All(r)), []);
    forall a | a in s'.running ensures RequestHeld(cfg, m, s', store, a, s'.running[a].computed) {
      if a in s.running { assert RequestHeld(cfg, m, s, store, a, s.running[a].computed); }
    }
  }

  lemma NothingHeld(store: Store, blockSize: nat, values: seq<Value>, table: seq<Block>)
    requires blockSize > 0
    ensures Holds(store, blockSize, values, table, 0)
  {}

  /** Block tables only grow while the schedule is planned. */
  ghost predicate TablesGrow(c: Cache, c': Cache) {
    c.tables.Keys == c'.tables.Keys && forall a <- c.tables :: c.tables[a] <= c'.tables[a]
  }

  lemma {:induction false} PlanFromGrows(cfg: Config, s: Sched, p: Plan, i: nat)
    requires i <= |s.order| && Keyed(s, p.cache.tables)
    ensures TablesGrow(p.cache, PlanFrom(cfg, s, p, i).cache)
    decreases |s.order| - i
  {
    hide CanReserve, CeilDiv, SlotsOf, Popped;
    if i < |s.order| && p.budget > 0 {
      var p' := PlanOne(cfg, s.running[s.order[i]], p);
      assert TablesGrow(p.cache, p'.cache);
      PlanFromGrows(cfg, s, p', i + 1);
    }
  }

  lemma StoreGrows(cfg: Config, m: Model, s: Sched, s': Sched, store: Store)
    requires StoreOk(cfg, m, s, store, []) && s'.running == s.running && TablesGrow(s.cache, s'.cache)
    ensures StoreOk(cfg, m, s', store, [])
  {
    forall a | a in s'.running ensures RequestHeld(cfg, m, s', store, a, s'.running[a].computed) {
      assert RequestHeld(cfg, m, s, store, a, s.running[a].computed);
      HoldsGrow(store, cfg.blockSize, ValuesOf(m, s, a), s.cache.tables[a], s'.cache.tables[a], s.running[a].computed);
    }
  }

  lemma HoldsGrow(store: Store, blockSize: nat, values: seq<Value>, table: seq<Block>, table': seq<Block>, upto: nat)
    requires blockSize > 0 && Holds(store, blockSize, values, table, upto) && table <= table'
    ensures Holds(store, blockSize, values, table', upto)
  {
    hide HeldAt;
    forall p: nat | p < upto
      ensures HeldAt(store, blockSize, values, table', p)
    {
      HeldGrows(store, blockSize, values, table, table', p);
    }
  }

  lemma HeldGrows(store: Store, blockSize: nat, values: seq<Value>, table: seq<Block>, table': seq<Block>, p: nat)
    requires blockSize > 0 && p < |values| && HeldAt(store, blockSize, values, table, p) && table <= table'
    ensures HeldAt(store, blockSize, values, table', p)
  {
    Arith.DivMonotone(0, p, blockSize);
    assert table'[p / blockSize] == table[p / blockSize];
  }

  lemma ScheduleFailInv(cfg: Config, m: Model, c: Core, added: map<RequestId, EngineRequest>)
    requires CoreInv(cfg, m, c, added, []) && c.phase.Looping? && forall id <- added :: WellFormed(added[id])
    ensures IdsOk(c.sched)
    ensures var (s, p) := Schedule(cfg, c.sched);
      FailInv(cfg, m, c.(sched := s), added, p.items) && CountsOk(p.items, p.counts)
  {
    hide SchedInv, StoreOk, TraceOk, CountsOk, TraceOf, ViewOf, Schedule, WellFormed;
    SchedInvIds(cfg, c.sched, []);
    ScheduleInv(cfg, c.sched);
    ScheduleStore(cfg, m, c.sched, c.store);
    var c' := c.(sched := Schedule(cfg, c.sched).0);
    forall id: RequestId ensures TraceOk(cfg, m, added, id, LiveView(c', id), TraceOf(c'.outputs, id)) {
      ScheduleView(cfg, c.sched, id);
      assert TraceOk(cfg, m, added, id, LiveView(c, id), TraceOf(c.outputs, id));
    }
  }

  ghost predicate TurnAllowed(cfg: Config, c: Core, outcome: Outcome)
    requires IdsOk(c.sched)
  {
    OutcomeOk(c.store, Schedule(cfg, c.sched).1.items, outcome)
  }

  lemma TurnInv(cfg: Config, m: Model, c: Core, added: map<RequestId, EngineRequest>, outcome: Outcome)
    requires CoreInv(cfg, m, c, added, []) && c.phase.Looping? && forall id <- added :: WellFormed(added[id])
    requires IdsOk(c.sched) && TurnAllowed(cfg, c, outcome)
    ensures var c' := TakeTurn(cfg, m, c, outcome);
      TracesOk(cfg, m, c', added) && (!c'.phase.Crashed? ==> CoreInv(cfg, m, c', added, []))
  {
    hide SchedInv, StoreOk, TraceOk, CountsOk, Schedule, WellFormed, Respond, OutcomeOk, LiveView;
    ScheduleFailInv(cfg, m, c, added);
    var (s, p) := Schedule(cfg, c.sched);
    if p.items != [] {
      var c1 := c.(sched := s, batchId := c.batchId + 1);
      BatchViews(c.(sched := s), c.batchId + 1);
      RespondInv(cfg, m, c1, added, p, outcome);
    }
  }

  lemma BatchViews(c: Core, batchId: nat)
    ensures forall id: RequestId :: LiveView(c.(batchId := batchId), id) == LiveView(c, id)
  {}
}
