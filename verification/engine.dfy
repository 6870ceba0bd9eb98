/** EngineCore (minivllm/engine/core.py) as a step machine over commands and worker
    outcomes, with the whole output queue kept as history. */
module Engine {
  import opened Protocol
  import opened Scheduling
  import opened WorkerSide
  import opened Isolation
  import opened Solo

  /** The `run` loop is looping, was shut down, or died on a worker that never initialised. */
  datatype Phase = Looping | ShutDown | Crashed

  /** `retired` is the history of request states popped by `finish` or dropped by `abort`. */
  datatype Core = Core(
    sched: Sched,
    store: Store,
    batchId: nat,
    outputs: seq<Event>,
    retired: seq<RequestState>,
    phase: Phase)

  /** How the Worker answers a batch: it runs, it fails after writing some of the batch's slots,
      or it reports that it never came up (batch id -1). */
  datatype Outcome = Success | Failure(store: Store) | InitFailure

  datatype Input = Receive(command: Command) | Turn(outcome: Outcome)

  function InitialCore(cfg: Config): Core { Core(Initial(cfg), map[], 0, [], [], Looping) }

  // --------------------------------------------------------------------- steps

  function Terminal(id: RequestId, reason: FinishReason): RequestOutput {
    RequestOutput(id, [], [], Some(reason), None)
  }

  function Emit(c: Core, out: RequestOutput): Core { c.(outputs := c.outputs + [Output(out)]) }

  function FinishRequest(c: Core, id: RequestId): Core {
    if id in c.sched.running then
      c.(sched := Finish(c.sched, id), retired := c.retired + [c.sched.running[id]])
    else c
  }

  /** The state an abort removes. */
  function Aborted(s: Sched, id: RequestId): seq<RequestState> {
    if id in s.running then [s.running[id]]
    else
      var i := FindWaiting(s.waiting, id);
      if i < |s.waiting| then [s.waiting[i]] else []
  }

  function Handle(cfg: Config, c: Core, command: Command): Core {
    match command
    case Shutdown => c.(phase := ShutDown)
    case Add(req) =>
      (match AddRequest(cfg, c.sched, req)
       case Some(s) => c.(sched := s)
       case None => Emit(c, Terminal(req.id, ERROR)))
    case Abort(id) =>
      (match AbortRequest(c.sched, id)
       case Some(s) => Emit(c.(sched := s, retired := c.retired + Aborted(c.sched, id)), Terminal(id, ABORT))
       case None => c)
  }

  /** The streamed text delta, with the fallback for tokenizers whose decoding is not a prefix. */
  function TextDelta(m: Model, before: seq<Token>, after: seq<Token>, token: Token): Text {
    var previous, current := m.decode(before), m.decode(after);
    if previous <= current then current[|previous|..] else m.decode([token])
  }

  /** One round of the result loop: advance the computed count and append a sampled token. */
  function CommitItem(cfg: Config, m: Model, c: Core, item: WorkerItem, count: nat, sampled: map<RequestId, Token>,
                      metrics: BatchMetrics): Core {
    if item.id !in c.sched.running then c
    else
      var r := UpdateComputed(c.sched.running[item.id], count);
      if item.id !in sampled then c.(sched := c.sched.(running := c.sched.running[item.id := r]))
      else
        var token := sampled[item.id];
        var (r', reason) := AppendToken(cfg, m, r, token);
        var out := RequestOutput(
          item.id, if token == m.eos then [] else [token], TextDelta(m, r.output, r'.output, token), reason,
            Some(metrics));
        var c' := Emit(c.(sched := c.sched.(running := c.sched.running[item.id := r'])), out);
        if reason.Some? then FinishRequest(c', item.id) else c'
  }

  function CommitAll(cfg: Config, m: Model, c: Core, items: seq<WorkerItem>, counts: map<RequestId, nat>,
                     sampled: map<RequestId, Token>, metrics: BatchMetrics): Core
    requires forall k :: 0 <= k < |items| ==> items[k].id in counts
    decreases |items|
  {
    if items == [] then c
    else CommitAll(cfg, m, CommitItem(cfg, m, c, items[0], counts[items[0].id], sampled, metrics), items[1..], counts,
      sampled, metrics)
  }

  /** A failed batch: every item's request is reported and finished. */
  function FailItem(c: Core, item: WorkerItem): Core { FinishRequest(Emit(c, Terminal(item.id, ERROR)), item.id) }

  function FailAll(c: Core, items: seq<WorkerItem>): Core
    decreases |items|
  {
    if items == [] then c else FailAll(FailItem(c, items[0]), items[1..])
  }

  function EmitErrors(outputs: seq<Event>, ids: seq<RequestId>): seq<Event>
    decreases |ids|
  {
    if ids == [] then outputs else EmitErrors(outputs + [Output(Terminal(ids[0], ERROR))], ids[1..])
  }

  function WaitingIdsOf(waiting: seq<RequestState>): seq<RequestId> {
    seq(|waiting|, i requires 0 <= i < |waiting| => waiting[i].req.id)
  }

  /** The `except` arm of `run`: an error for every running, then every waiting request. */
  function Crash(c: Core): Core {
    c.(outputs := EmitErrors(EmitErrors(c.outputs, c.sched.order), WaitingIdsOf(c.sched.waiting)), phase := Crashed)
  }

  ghost function Respond(cfg: Config, m: Model, c: Core, p: Plan, outcome: Outcome): Core
    requires CountsOk(p.items, p.counts)
  {
    match outcome
    case InitFailure => Crash(c)
    case Failure(store) => FailAll(c.(store := store), p.items)
    case Success =>
      match Execute(cfg, m, c.store, c.batchId, p.items)
      case Failed(store) => FailAll(c.(store := store), p.items)
      case Sampled(store, tokens, metrics) =>
        CommitAll(cfg, m, c.(store := store, outputs := c.outputs + [Metrics(metrics)]), p.items, p.counts, tokens,
          metrics)
  }

  /** `_execute_schedule`. */
  ghost function TakeTurn(cfg: Config, m: Model, c: Core, outcome: Outcome): Core
    requires SchedInv(cfg, c.sched, [])
  {
    ScheduleInv(cfg, c.sched);
    var (s, p) := Schedule(cfg, c.sched);
    if p.items == [] then c.(sched := s)
    else Respond(cfg, m, c.(sched := s, batchId := c.batchId + 1), p, outcome)
  }

  /** One event of the run loop.  Commands queued behind a SHUTDOWN are still handled by the draining
      loop that took it, but no further turn is taken; a crashed process does nothing. */
  ghost function Step(cfg: Config, m: Model, c: Core, input: Input): Core
    requires SchedInv(cfg, c.sched, [])
  {
    match input
    case Receive(command) => if c.phase.Crashed? then c else Handle(cfg, c, command)
    case Turn(outcome) => if c.phase.Looping? then TakeTurn(cfg, m, c, outcome) else c
  }

  // -------------------------------------------------------------------- traces

  /** The outputs of one request, in order. */
  ghost function TraceOf(events: seq<Event>, id: RequestId): seq<RequestOutput> {
    if events == [] then []
    else
      var front, last := events[..|events| - 1], events[|events| - 1];
      if last.Output? && last.out.id == id then TraceOf(front, id) + [last.out] else TraceOf(front, id)
  }

  lemma TraceAppend(events: seq<Event>, e: Event, id: RequestId)
    ensures TraceOf(events + [e], id) ==
      if e.Output? && e.out.id == id then TraceOf(events, id) + [e.out] else TraceOf(events, id)
  {
    assert (events + [e])[..|events|] == events;
  }

  /** Concatenation of the streamed token ids. */
  ghost function Streamed(t: seq<RequestOutput>): seq<Token> {
    if t == [] then [] else Streamed(t[..|t| - 1]) + t[|t| - 1].tokenIds
  }

  ghost function StreamedText(t: seq<RequestOutput>): Text {
    if t == [] then [] else StreamedText(t[..|t| - 1]) + t[|t| - 1].text
  }

  lemma StreamAppend(t: seq<RequestOutput>, out: RequestOutput)
    ensures Streamed(t + [out]) == Streamed(t) + out.tokenIds
    ensures StreamedText(t + [out]) == StreamedText(t) + out.text
  {
    assert (t + [out])[..|t|] == t;
  }

  /** Along this output decoding one more token only appends text, as it always does with the
      character tokenizer. */
  ghost predicate Appends(m: Model, output: seq<Token>) {
    m.decode([]) == [] && forall k :: 0 <= k < |output| ==> m.decode(output[..k]) <= m.decode(output[..k + 1])
  }

  lemma AppendsFront(m: Model, s: seq<Token>, t: Token)
    requires Appends(m, s + [t])
    ensures Appends(m, s) && m.decode(s) <= m.decode(s + [t])
  {
    var all := s + [t];
    assert all[..|s|] == s && all[..|s| + 1] == all;
    forall k | 0 <= k < |s| ensures m.decode(s[..k]) <= m.decode(s[..k + 1]) {
      assert all[..k] == s[..k] && all[..k + 1] == s[..k + 1];
    }
  }

  lemma AppendsMore(m: Model, s: seq<Token>, t: Token)
    requires Appends(m, s) && m.decode(s) <= m.decode(s + [t])
    ensures Appends(m, s + [t])
  {
    var all := s + [t];
    assert all[..|s|] == s && all[..|s| + 1] == all;
    forall k | 0 <= k < |all| ensures m.decode(all[..k]) <= m.decode(all[..k + 1]) {
      if k < |s| { assert all[..k] == s[..k] && all[..k + 1] == s[..k + 1]; }
    }
  }

  /** An output's text is the delta of its own token after `before`, and empty without one. */
  ghost predicate DeltaText(m: Model, before: seq<Token>, out: RequestOutput) {
    if out.tokenIds == [] then out.text == []
    else |out.tokenIds| == 1 && out.text == TextDelta(m, before, before + out.tokenIds, out.tokenIds[0])
  }

  ghost predicate DeltaTexts(m: Model, t: seq<RequestOutput>) {
    t == [] || (DeltaTexts(m, t[..|t| - 1]) && DeltaText(m, Streamed(t[..|t| - 1]), t[|t| - 1]))
  }

  lemma DeltaAppend(m: Model, t: seq<RequestOutput>, out: RequestOutput)
    requires DeltaTexts(m, t) && DeltaText(m, Streamed(t), out)
    ensures DeltaTexts(m, t + [out])
  {
    assert (t + [out])[..|t|] == t;
  }

  ghost predicate AllOpen(t: seq<RequestOutput>) { forall i :: 0 <= i < |t| ==> t[i].finishReason.None? }

  /** The tokens streamed so far are exactly `output`, each with the text delta it gave. */
  ghost predicate StreamOk(m: Model, t: seq<RequestOutput>, output: seq<Token>) {
    Streamed(t) == output && DeltaTexts(m, t)
  }

  /** A live request has streamed its output so far and nothing final. */
  ghost predicate OpenTrace(cfg: Config, m: Model, req: EngineRequest, output: seq<Token>, t: seq<RequestOutput>) {
    AllOpen(t) && StreamOk(m, t, output) && Unfinished(cfg, m, req, output)
  }

  /** A completed request's trace ends with its only final output.  If it stopped by itself, it
      streamed exactly the solo output and gave the solo reason; if it was cut short by an abort
      or an error, it streamed a prefix of the solo run. */
  ghost predicate ClosedTrace(cfg: Config, m: Model, req: EngineRequest, t: seq<RequestOutput>) {
    && WellFormed(req)
    && t != [] && AllOpen(t[..|t| - 1]) && t[|t| - 1].finishReason.Some?
    && var reason := t[|t| - 1].finishReason.value;
    if reason.STOP? || reason.LENGTH? then
      reason == SoloReason(cfg, m, req) && StreamOk(m, t, SoloOutput(cfg, m, req))
    else
      exists output :: Unfinished(cfg, m, req, output) && StreamOk(m, t, output)
  }

  // ----------------------------------------------------------------- invariant

  /** What the scheduler holds for a request. */
  datatype View = View(req: EngineRequest, output: seq<Token>)

  ghost function ViewOf(s: Sched, id: RequestId): Option<View> {
    if id in s.running then Some(View(s.running[id].req, s.running[id].output))
    else
      var i := FindWaiting(s.waiting, id);
      if i < |s.waiting| then Some(View(s.waiting[i].req, s.waiting[i].output)) else None
  }

  ghost function LiveView(c: Core, id: RequestId): Option<View> {
    if c.phase.Crashed? then None else ViewOf(c.sched, id)
  }

  ghost predicate TraceOk(cfg: Config, m: Model, added: map<RequestId, EngineRequest>, id: RequestId,
                          view: Option<View>, t: seq<RequestOutput>) {
    if id !in added then view.None? && t == []
    else if view.Some? then view.value.req == added[id] && OpenTrace(cfg, m, added[id], view.value.output, t)
    else ClosedTrace(cfg, m, added[id], t)
  }

  ghost predicate TracesOk(cfg: Config, m: Model, c: Core, added: map<RequestId, EngineRequest>) {
    forall id: RequestId :: TraceOk(cfg, m, added, id, LiveView(c, id), TraceOf(c.outputs, id))
  }

  /** The inductive invariant; `items` are the scheduled but uncommitted chunks. */
  ghost predicate CoreInv(cfg: Config, m: Model, c: Core, added: map<RequestId, EngineRequest>,
                          items: seq<WorkerItem>) {
    && SchedInv(cfg, c.sched, items)
    && StoreOk(cfg, m, c.sched, c.store, items)
    && TracesOk(cfg, m, c, added)
  }

  lemma InitialCoreInv(cfg: Config, m: Model)
    ensures CoreInv(cfg, m, InitialCore(cfg), map[], [])
  {
    InitialInv(cfg);
  }
}
