/** Whole runs of one engine: every interleaving of commands, turns and worker outcomes. */
module Runs {
  import opened Protocol
  import opened KVCache
  import opened Scheduling
  import opened WorkerSide
  import opened Isolation
  import opened Solo
  import opened Engine
  import opened EngineProofs

  /** The requests handed to the engine so far, by id. */
  ghost function AddedOf(inputs: seq<Input>): map<RequestId, EngineRequest> {
    if inputs == [] then map[]
    else
      var front, last := AddedOf(inputs[..|inputs| - 1]), inputs[|inputs| - 1];
      if last.Receive? then AddedBy(front, last.command) else front
  }

  /** The environment's obligations for the next input: requests are well formed and their ids new,
      turns are taken only while the loop runs, and a failing Worker writes only slots of the batch it was given. */
  ghost predicate Allowed(cfg: Config, c: Core, added: map<RequestId, EngineRequest>, input: Input)
    requires SchedInv(cfg, c.sched, [])
  {
    SchedInvIds(cfg, c.sched, []);
    match input
    case Receive(command) => Fresh(added, command)
    case Turn(outcome) => c.phase.Looping? && TurnAllowed(cfg, c, outcome)
  }

  ghost predicate ReachInv(cfg: Config, m: Model, c: Core, added: map<RequestId, EngineRequest>) {
    && TracesOk(cfg, m, c, added)
    && (!c.phase.Crashed? ==> CoreInv(cfg, m, c, added, []))
    && (forall id <- added :: WellFormed(added[id]))
  }

  lemma StepInv(cfg: Config, m: Model, c: Core, added: map<RequestId, EngineRequest>, input: Input)
    requires ReachInv(cfg, m, c, added) && !c.phase.Crashed? && SchedInv(cfg, c.sched, [])
    requires Allowed(cfg, c, added, input)
    ensures ReachInv(cfg, m, Step(cfg, m, c, input), if input.Receive? then AddedBy(added, input.command) else added)
  {
    hide SchedInv, StoreOk, TraceOk, TakeTurn, Handle, WellFormed, TurnAllowed;
    SchedInvIds(cfg, c.sched, []);
    match input
    case Receive(command) => HandleInv(cfg, m, c, added, command);
    case Turn(outcome) => TurnInv(cfg, m, c, added, outcome);
  }

  /** The engine after a sequence of inputs, or `None` if the environment broke its side. */
  ghost function Run(cfg: Config, m: Model, inputs: seq<Input>): (r: Option<Core>)
    ensures r.Some? ==> ReachInv(cfg, m, r.value, AddedOf(inputs))
  {
    hide SchedInv, StoreOk, TraceOk, Step, WellFormed;
    if inputs == [] then
      InitialCoreInv(cfg, m);
      Some(InitialCore(cfg))
    else
      var front, last := inputs[..|inputs| - 1], inputs[|inputs| - 1];
      match Run(cfg, m, front)
      case None => None
      case Some(c) =>
        if !c.phase.Crashed? && Allowed(cfg, c, AddedOf(front), last) then
          StepInv(cfg, m, c, AddedOf(front), last);
          Some(Step(cfg, m, c, last))
        else None
  }

  /** Every prefix of a run is a run, and its next state is one step on. */
  lemma {:induction false} RunStep(cfg: Config, m: Model, inputs: seq<Input>, i: nat)
    requires Run(cfg, m, inputs).Some? && i < |inputs|
    ensures Run(cfg, m, inputs[..i]).Some? && Run(cfg, m, inputs[..i + 1]).Some?
    ensures var c := Run(cfg, m, inputs[..i]).value;
      && !c.phase.Crashed? && (inputs[i].Turn? ==> c.phase.Looping?) && SchedInv(cfg, c.sched, [])
      && Run(cfg, m, inputs[..i + 1]).value == Step(cfg, m, c, inputs[i])
    decreases |inputs|
  {
    hide SchedInv, StoreOk, TraceOk, Step, WellFormed, Fresh, TurnAllowed;
    if i + 1 < |inputs| {
      var front := inputs[..|inputs| - 1];
      assert front[..i] == inputs[..i] && front[..i + 1] == inputs[..i + 1] && front[i] == inputs[i];
      RunStep(cfg, m, front, i);
    } else {
      assert inputs[..i + 1] == inputs;
    }
  }

  /** Handing in a fresh, well-formed request extends the run. */
  lemma RunAdd(cfg: Config, m: Model, inputs: seq<Input>, req: EngineRequest)
    requires Run(cfg, m, inputs).Some? && !Run(cfg, m, inputs).value.phase.Crashed?
    requires WellFormed(req) && req.id !in AddedOf(inputs)
    ensures Run(cfg, m, inputs + [Receive(Add(req))]) == Some(Handle(cfg, Run(cfg, m, inputs).value, Add(req)))
    ensures AddedOf(inputs + [Receive(Add(req))]) == AddedOf(inputs)[req.id := req]
  {
    hide SchedInv, StoreOk, TraceOk, Handle, WellFormed;
    assert (inputs + [Receive(Add(req))])[..|inputs|] == inputs;
  }

  // ------------------------------------------------------ refinement of the solo run

  lemma {:induction false} TracePrefix(events: seq<Event>, i: nat, id: RequestId)
    requires i <= |events|
    ensures TraceOf(events[..i], id) <= TraceOf(events, id)
    decreases |events|
  {
    if i < |events| {
      TracePrefix(events[..|events| - 1], i, id);
      assert events[..|events| - 1][..i] == events[..i];
    } else {
      assert events[..i] == events;
    }
  }

  lemma TraceAt(events: seq<Event>, i: nat)
    requires i < |events| && events[i].Output?
    ensures TraceOf(events[..i + 1], events[i].out.id) == TraceOf(events[..i], events[i].out.id) + [events[i].out]
  {
    assert events[..i + 1] == events[..i] + [events[i]];
    TraceAppend(events[..i], events[i], events[i].out.id);
  }

  /** The event behind an entry of a trace. */
  lemma {:induction false} TraceSource(events: seq<Event>, id: RequestId, k: nat) returns (i: nat)
    requires k < |TraceOf(events, id)|
    ensures i < |events| && events[i].Output? && events[i].out.id == id && events[i].out == TraceOf(events, id)[k]
  {
    var front, last := events[..|events| - 1], events[|events| - 1];
    if last.Output? && last.out.id == id && k == |TraceOf(front, id)| {
      i := |events| - 1;
    } else {
      i := TraceSource(front, id, k);
    }
  }

  /** A trace of a reachable state has a final output only at its end. */
  lemma FinalIsLast(cfg: Config, m: Model, c: Core, added: map<RequestId, EngineRequest>, i: nat)
    requires TracesOk(cfg, m, c, added) && i < |c.outputs| && c.outputs[i].Output?
    requires c.outputs[i].out.finishReason.Some?
    ensures var id := c.outputs[i].out.id;
      && TraceOf(c.outputs[..i + 1], id) == TraceOf(c.outputs, id)
      && id in added && LiveView(c, id).None? && ClosedTrace(cfg, m, added[id], TraceOf(c.outputs, id))
  {
    hide TraceOf, LiveView, StreamOk, Unfinished, SoloOutput, SoloReason;
    var id := c.outputs[i].out.id;
    var t, t' := TraceOf(c.outputs[..i + 1], id), TraceOf(c.outputs, id);
    TracePrefix(c.outputs, i + 1, id);
    TraceAt(c.outputs, i);
    assert TraceOk(cfg, m, added, id, LiveView(c, id), t');
    assert t[|t| - 1] == c.outputs[i].out;
    assert t'[|t| - 1] == c.outputs[i].out;
    var front := t'[..|t'| - 1];
    assert forall k :: 0 <= k < |front| ==> front[k] == t'[k];
  }

  // ------------------------------------------------------------------ streamed text

  /** The text sent is the decoding of the tokens sent. */
  ghost predicate TextRight(m: Model, t: seq<RequestOutput>) { StreamedText(t) == m.decode(Streamed(t)) }

  /** So it is after every output. */
  ghost predicate InStep(m: Model, t: seq<RequestOutput>) {
    forall k :: 0 <= k <= |t| ==> TextRight(m, t[..k])
  }

  lemma InStepFront(m: Model, t: seq<RequestOutput>)
    requires t != []
    ensures InStep(m, t) <==> InStep(m, t[..|t| - 1]) && TextRight(m, t)
  {
    hide TextRight;
    var front := t[..|t| - 1];
    assert t[..|t|] == t;
    if InStep(m, t) {
      forall k | 0 <= k <= |front| ensures TextRight(m, front[..k]) { assert front[..k] == t[..k]; }
    }
    if InStep(m, front) && TextRight(m, t) {
      forall k | 0 <= k <= |t| ensures TextRight(m, t[..k]) {
        if k <= |front| { assert t[..k] == front[..k]; }
      }
    }
  }

  /** One more token stays in step exactly when its decoding only appends. */
  lemma DeltaExact(m: Model, text: Text, before: seq<Token>, token: Token)
    requires text == m.decode(before)
    ensures text + TextDelta(m, before, before + [token], token) == m.decode(before + [token])
      <==> m.decode(before) <= m.decode(before + [token])
  {}

  /** Exactly when the streamed text is right: decoding must append along the streamed tokens, which is
      the guard of the fallback that sends a token's own decoding instead. */
  lemma {:induction false} TextExact(m: Model, t: seq<RequestOutput>)
    requires DeltaTexts(m, t)
    ensures InStep(m, t) <==> Appends(m, Streamed(t))
  {
    if t == [] {
      assert t[..0] == [];
    } else {
      hide Appends, InStep, TextDelta;
      var front, out := t[..|t| - 1], t[|t| - 1];
      TextExact(m, front);
      InStepFront(m, t);
      var s := Streamed(front);
      if out.tokenIds == [] {
        assert Streamed(t) == s && StreamedText(t) == StreamedText(front);
        InStepEnd(m, front);
      } else {
        var token := out.tokenIds[0];
        assert out.tokenIds == [token] && Streamed(t) == s + [token];
        if Appends(m, s + [token]) { AppendsFront(m, s, token); }
        if InStep(m, front) {
          InStepEnd(m, front);
          DeltaExact(m, StreamedText(front), s, token);
          if m.decode(s) <= m.decode(s + [token]) { AppendsMore(m, s, token); }
        }
      }
    }
  }

  lemma InStepEnd(m: Model, t: seq<RequestOutput>)
    ensures InStep(m, t) ==> StreamedText(t) == m.decode(Streamed(t))
  {
    assert t[..|t|] == t;
  }

  lemma TraceDeltas(cfg: Config, m: Model, added: map<RequestId, EngineRequest>, id: RequestId, view: Option<View>,
                    t: seq<RequestOutput>)
    requires TraceOk(cfg, m, added, id, view, t)
    ensures DeltaTexts(m, t)
  {
    hide Unfinished, SoloOutput, SoloReason, Streamed, DeltaText;
  }

  /** In every reachable state, for every request: text and tokens sent are in step if and only if
      decoding appends along the tokens sent. */
  lemma TextInStep(cfg: Config, m: Model, inputs: seq<Input>, id: RequestId)
    requires Run(cfg, m, inputs).Some?
    ensures var t := TraceOf(Run(cfg, m, inputs).value.outputs, id);
      InStep(m, t) <==> Appends(m, Streamed(t))
  {
    hide Run, CoreInv, TraceOf, LiveView, TraceOk, InStep, Appends, Streamed, DeltaTexts;
    var c := Run(cfg, m, inputs).value;
    var t := TraceOf(c.outputs, id);
    assert TraceOk(cfg, m, AddedOf(inputs), id, LiveView(c, id), t);
    TraceDeltas(cfg, m, AddedOf(inputs), id, LiveView(c, id), t);
    TextExact(m, t);
  }

  /** The refinement theorem.  Whatever the interleaving of commands, turns, worker failures,
      budgets and block sizes: a request that the engine reports as finished by STOP or LENGTH has
      streamed exactly the tokens of running it alone on a dense sequence, for the same reason, and
      its text was right at every output if and only if decoding appends along that solo output. */
  lemma RefinesSolo(cfg: Config, m: Model, inputs: seq<Input>, i: nat)
    requires Run(cfg, m, inputs).Some? && i < |Run(cfg, m, inputs).value.outputs|
    requires var e := Run(cfg, m, inputs).value.outputs[i];
      e.Output? && (e.out.finishReason == Some(STOP) || e.out.finishReason == Some(LENGTH))
    ensures var c, added := Run(cfg, m, inputs).value, AddedOf(inputs);
      var out := c.outputs[i].out;
      var t := TraceOf(c.outputs[..i + 1], out.id);
      && out.id in added && WellFormed(added[out.id])
      && Streamed(t) == SoloOutput(cfg, m, added[out.id])
      && out.finishReason == Some(SoloReason(cfg, m, added[out.id]))
      && (InStep(m, t) <==> Appends(m, SoloOutput(cfg, m, added[out.id])))
      && (Appends(m, SoloOutput(cfg, m, added[out.id])) ==>
            StreamedText(t) == m.decode(SoloOutput(cfg, m, added[out.id])))
  {
    hide TraceOf, CoreInv, TraceOk, Run, SoloOutput, SoloReason, Streamed, StreamedText, Appends, InStep, DeltaTexts;
    var c, added := Run(cfg, m, inputs).value, AddedOf(inputs);
    FinalIsLast(cfg, m, c, added, i);
    TraceAt(c.outputs, i);
    var t := TraceOf(c.outputs[..i + 1], c.outputs[i].out.id);
    TextExact(m, t);
    InStepEnd(m, t);
  }

  lemma UnfinishedIsPrefix(cfg: Config, m: Model, req: EngineRequest, output: seq<Token>)
    requires WellFormed(req) && Unfinished(cfg, m, req, output)
    ensures output <= SoloOutput(cfg, m, req)
  {
    hide Verdict;
    var n := SoloLength(cfg, m, req);
    assert |output| < n;
    GeneratedPrefix(m, req, |output|, n - 1);
    GeneratedPrefix(m, req, n - 1, n);
  }

  lemma {:induction false} GeneratedPrefix(m: Model, req: EngineRequest, j: nat, k: nat)
    requires j <= k
    ensures Generated(m, req, j) <= Generated(m, req, k)
    decreases k
  {
    if j < k { GeneratedPrefix(m, req, j, k - 1); }
  }

  lemma {:induction false} AppendsPrefix(m: Model, a: seq<Token>, b: seq<Token>)
    requires Appends(m, b) && a <= b
    ensures Appends(m, a) && m.decode(a) <= m.decode(b)
  {
    hide Appends;
    if a != b {
      var n := |b| - 1;
      assert b[..n] + [b[n]] == b;
      AppendsFront(m, b[..n], b[n]);
      AppendsPrefix(m, a, b[..n]);
    }
  }

  /** A request's trace streams a prefix of its solo output, in tokens and in text. */
  lemma TracePrefixOfSolo(cfg: Config, m: Model, added: map<RequestId, EngineRequest>, id: RequestId,
                          view: Option<View>, t: seq<RequestOutput>)
    requires id in added && WellFormed(added[id]) && TraceOk(cfg, m, added, id, view, t)
    ensures Streamed(t) <= SoloOutput(cfg, m, added[id])
    ensures InStep(m, t) <==> Appends(m, Streamed(t))
    ensures Appends(m, SoloOutput(cfg, m, added[id])) ==> StreamedText(t) <= m.decode(SoloOutput(cfg, m, added[id]))
  {
    hide SoloOutput, SoloReason, Streamed, StreamedText, Appends, Unfinished, WellFormed, DeltaTexts, InStep;
    TraceDeltas(cfg, m, added, id, view, t);
    TextExact(m, t);
    InStepEnd(m, t);
    if view.Some? {
      UnfinishedIsPrefix(cfg, m, added[id], view.value.output);
    } else if !(t[|t| - 1].finishReason.value.STOP? || t[|t| - 1].finishReason.value.LENGTH?) {
      var output :| Unfinished(cfg, m, added[id], output) && StreamOk(m, t, output);
      UnfinishedIsPrefix(cfg, m, added[id], output);
    }
    if Appends(m, SoloOutput(cfg, m, added[id])) { AppendsPrefix(m, Streamed(t), SoloOutput(cfg, m, added[id])); }
  }

  /** At every moment, what a client has been sent for a request is a prefix of its solo output:
      no batching decision, abort or failure ever leaks a token of another request. */
  lemma StreamsPrefixOfSolo(cfg: Config, m: Model, inputs: seq<Input>, id: RequestId)
    requires Run(cfg, m, inputs).Some? && id in AddedOf(inputs)
    ensures WellFormed(AddedOf(inputs)[id])
    ensures var t, req := TraceOf(Run(cfg, m, inputs).value.outputs, id), AddedOf(inputs)[id];
      && Streamed(t) <= SoloOutput(cfg, m, req)
      && (Appends(m, SoloOutput(cfg, m, req)) ==> StreamedText(t) <= m.decode(SoloOutput(cfg, m, req)))
  {
    hide TraceOf, CoreInv, Run, SoloOutput, Streamed, StreamedText, Appends, LiveView, TraceOk;
    var c, added := Run(cfg, m, inputs).value, AddedOf(inputs);
    assert TraceOk(cfg, m, added, id, LiveView(c, id), TraceOf(c.outputs, id));
    TracePrefixOfSolo(cfg, m, added, id, LiveView(c, id), TraceOf(c.outputs, id));
  }

  /** An output followed by another one for the same request is not final. */
  lemma OnlyLastIsFinal(cfg: Config, m: Model, c: Core, added: map<RequestId, EngineRequest>, i: nat, j: nat)
    requires TracesOk(cfg, m, c, added) && i < j < |c.outputs|
    requires c.outputs[i].Output? && c.outputs[j].Output? && c.outputs[i].out.id == c.outputs[j].out.id
    ensures c.outputs[i].out.finishReason.None?
  {
    hide TraceOf, TraceOk, ClosedTrace, LiveView;
    var id := c.outputs[i].out.id;
    TraceAt(c.outputs, j);
    TracePrefix(c.outputs, j + 1, id);
    TracePrefix(c.outputs[..j], i + 1, id);
    assert c.outputs[..j][..i + 1] == c.outputs[..i + 1];
    if c.outputs[i].out.finishReason.Some? {
      FinalIsLast(cfg, m, c, added, i);
    }
  }

  /** Exactly-once completion: after a request's final output nothing more is sent for it. */
  lemma NothingAfterFinal(cfg: Config, m: Model, inputs: seq<Input>, i: nat, j: nat)
    requires Run(cfg, m, inputs).Some? && i < j < |Run(cfg, m, inputs).value.outputs|
    requires var o := Run(cfg, m, inputs).value.outputs; o[i].Output? && o[j].Output? && o[i].out.id == o[j].out.id
    ensures Run(cfg, m, inputs).value.outputs[i].out.finishReason.None?
  {
    hide CoreInv, TraceOk, Run;
    OnlyLastIsFinal(cfg, m, Run(cfg, m, inputs).value, AddedOf(inputs), i, j);
  }

  // --------------------------------------------------------------- state invariants

  /** KV isolation over whole runs: the slot that a block table gives to a computed position holds the
      value that this position has when the request's tokens up to it are run alone, whatever was
      freed, reused or half written before. */
  lemma KVIsolation(cfg: Config, m: Model, inputs: seq<Input>, id: RequestId, p: nat)
    requires Run(cfg, m, inputs).Some? && !Run(cfg, m, inputs).value.phase.Crashed?
    requires var s := Run(cfg, m, inputs).value.sched; id in s.running && p < s.running[id].computed
    ensures var c := Run(cfg, m, inputs).value;
      && id in c.sched.cache.tables && p / cfg.blockSize < |c.sched.cache.tables[id]|
      && p < |All(c.sched.running[id])|
      && var slot := SlotAt(c.sched.cache.tables[id], cfg.blockSize, p);
      slot in c.store && c.store[slot] == Dense(m, All(c.sched.running[id])[..p + 1])[p]
  {
    hide SchedInv, TraceOk, Run, SlotAt;
    var c := Run(cfg, m, inputs).value;
    assert RequestHeld(cfg, m, c.sched, c.store, id, c.sched.running[id].computed);
    assert HeldAt(c.store, cfg.blockSize, ValuesOf(m, c.sched, id), c.sched.cache.tables[id], p);
    DensePrefix(m, All(c.sched.running[id]), p + 1);
  }

  /** Every batch planned in a reachable state meets what the theorems about one batch ask for: its
      items fit the scheduler's state, and the store holds every computed token's value. */
  lemma ReachableBatch(cfg: Config, m: Model, inputs: seq<Input>)
    requires Run(cfg, m, inputs).Some? && !Run(cfg, m, inputs).value.phase.Crashed?
    ensures var c := Run(cfg, m, inputs).value;
      && IdsOk(c.sched)
      && var (s, p) := Schedule(cfg, c.sched);
      SchedInv(cfg, s, p.items) && StoreOk(cfg, m, s, c.store, [])
  {
    hide SchedInv, IdsOk, StoreOk, Schedule, TraceOk, Run;
    var c := Run(cfg, m, inputs).value;
    SchedInvIds(cfg, c.sched, []);
    ScheduleInv(cfg, c.sched);
    ScheduleStore(cfg, m, c.sched, c.store);
  }
}
