/** The client's deduplicated batch metrics (`_route_outputs` in minivllm/engine/client.py) and
    what they add up to over whole runs of the distributed system. */
module ClientMetrics {
  import opened Protocol
  import opened Scheduling
  import opened Engine
  import opened EngineProofs
  import opened Runs
  import opened Accounting
  import opened EventLog
  import opened Coordinator
  import opened Distributed

  type Measure = BatchMetrics -> int

  const Batches: Measure := (x: BatchMetrics) => 1
  const Scheduled: Measure := (x: BatchMetrics) => x.numScheduledTokens
  const Prefill: Measure := (x: BatchMetrics) => x.numPrefillTokens
  const Decode: Measure := (x: BatchMetrics) => x.numDecodeTokens

  function MetricsIn(e: Event): Option<BatchMetrics> {
    match e
    case Metrics(x) => Some(x)
    case Output(out) => out.metrics
  }

  function Key(x: BatchMetrics): (nat, nat) { (x.rank, x.batchId) }

  /** Keys of the batches whose metrics were seen, in any copy. */
  function Seen(events: seq<Event>): set<(nat, nat)> {
    if events == [] then {}
    else
      var x := MetricsIn(events[|events| - 1]);
      Seen(events[..|events| - 1]) + if x.Some? then {Key(x.value)} else {}
  }

  /** Sum of `f` over the batches, each counted at its first copy. */
  function Deduped(f: Measure, events: seq<Event>): int {
    if events == [] then 0
    else
      var front, x := events[..|events| - 1], MetricsIn(events[|events| - 1]);
      Deduped(f, front) + if x.Some? && Key(x.value) !in Seen(front) then f(x.value) else 0
  }

  class EngineCoreClient {
    var seenBatches: set<(nat, nat)>
    var totalBatches: int
    var totalScheduledTokens: int
    var totalPrefillTokens: int
    var totalDecodeTokens: int

    constructor ()
      ensures seenBatches == {} && totalBatches == totalScheduledTokens == totalPrefillTokens == totalDecodeTokens == 0
    {
      seenBatches := {};
      totalBatches, totalScheduledTokens, totalPrefillTokens, totalDecodeTokens := 0, 0, 0, 0;
    }

    /** The routing loop over everything received; every total counts each batch once. */
    method RouteOutputs(events: seq<Event>)
      requires seenBatches == {} && totalBatches == totalScheduledTokens == totalPrefillTokens == totalDecodeTokens == 0
      modifies this
      ensures seenBatches == Seen(events)
      ensures totalBatches == Deduped(Batches, events)
      ensures totalScheduledTokens == Deduped(Scheduled, events)
      ensures totalPrefillTokens == Deduped(Prefill, events)
      ensures totalDecodeTokens == Deduped(Decode, events)
    {
      for i := 0 to |events|
        invariant seenBatches == Seen(events[..i])
        invariant totalBatches == Deduped(Batches, events[..i])
        invariant totalScheduledTokens == Deduped(Scheduled, events[..i])
        invariant totalPrefillTokens == Deduped(Prefill, events[..i])
        invariant totalDecodeTokens == Deduped(Decode, events[..i])
      {
        assert events[..i + 1][..i] == events[..i] && events[..i + 1][i] == events[i];
        var metrics := MetricsIn(events[i]);
        if metrics.Some? {
          var x := metrics.value;
          var key := (x.rank, x.batchId);
          if key !in seenBatches {
            seenBatches := seenBatches + {key};
            totalBatches := totalBatches + 1;
            totalScheduledTokens := totalScheduledTokens + x.numScheduledTokens;
            totalPrefillTokens := totalPrefillTokens + x.numPrefillTokens;
            totalDecodeTokens := totalDecodeTokens + x.numDecodeTokens;
          }
        }
      }
      assert events[..|events|] == events;
    }
  }

  // ------------------------------------------------------------------ per engine

  /** Sum of `f` over the batch metrics an engine put on its queue. */
  ghost function MetricSum(f: Measure, events: seq<Event>): int {
    if events == [] then 0
    else
      var last := events[|events| - 1];
      MetricSum(f, events[..|events| - 1]) + if last.Metrics? then f(last.metrics) else 0
  }

  lemma MetricSumAppend(f: Measure, events: seq<Event>, e: Event)
    ensures MetricSum(f, events + [e]) == MetricSum(f, events) + if e.Metrics? then f(e.metrics) else 0
  {
    assert (events + [e])[..|events|] == events;
  }

  lemma {:induction false} ScheduledIsSum(events: seq<Event>)
    ensures MetricSum(Scheduled, events) == ScheduledTokens(events)
  {
    if events != [] { ScheduledIsSum(events[..|events| - 1]); }
  }

  /** Batch b of rank r is among the drained metrics. */
  ghost predicate DrainedBatch(events: seq<Event>, n: nat, b: nat) {
    exists i :: 0 <= i < n && i < |events| && events[i].Metrics? && events[i].metrics.batchId == b
  }

  ghost function SumSeq(values: seq<int>): int {
    if values == [] then 0 else values[0] + SumSeq(values[1..])
  }

  lemma {:induction false} SumSeqUpdate(values: seq<int>, i: nat, v: int)
    requires i < |values|
    ensures SumSeq(values[i := v]) == SumSeq(values) - values[i] + v
  {
    if i == 0 {
      assert values[i := v][1..] == values[1..];
    } else {
      assert values[i := v][1..] == values[1..][i - 1 := v];
      SumSeqUpdate(values[1..], i - 1, v);
    }
  }

  /** What each rank has reported and the coordinator has forwarded. */
  ghost function Forwarded(f: Measure, g: Global): seq<int>
    requires Shape(g) && forall r :: 0 <= r < |g.cores| ==> g.drained[r] <= |g.cores[r].outputs|
  {
    seq(|g.cores|, r requires 0 <= r < |g.cores| => MetricSum(f, g.cores[r].outputs[..g.drained[r]]))
  }

  /** The client has seen exactly the forwarded batches, and its total is theirs. */
  ghost predicate TotalsOk(f: Measure, g: Global) {
    && Shape(g) && (forall r :: 0 <= r < |g.cores| ==> g.drained[r] <= |g.cores[r].outputs|)
    && (forall k :: k in Seen(g.coord.out) ==>
          k.0 < |g.cores| && DrainedBatch(g.cores[k.0].outputs, g.drained[k.0], k.1))
    && (forall r: nat, b: nat :: r < |g.cores| && DrainedBatch(g.cores[r].outputs, g.drained[r], b) ==>
          (r, b) in Seen(g.coord.out))
    && Deduped(f, g.coord.out) == SumSeq(Forwarded(f, g))
  }

  // ------------------------------------------------------------------ preservation

  lemma SeenAppend(f: Measure, events: seq<Event>, e: Event)
    ensures var x := MetricsIn(e);
      && Seen(events + [e]) == Seen(events) + (if x.Some? then {Key(x.value)} else {})
      && Deduped(f, events + [e])
        == Deduped(f, events) + if x.Some? && Key(x.value) !in Seen(events) then f(x.value) else 0
  {
    assert (events + [e])[..|events|] == events;
  }

  /** An engine that appends to its queue changes nothing that was forwarded. */
  lemma TotalsGrow(f: Measure, g: Global, g': Global)
    requires TotalsOk(f, g) && Shape(g') && |g'.cores| == |g.cores| && g'.coord.out == g.coord.out
    requires g'.drained == g.drained
    requires forall r :: 0 <= r < |g.cores| ==> g.cores[r].outputs <= g'.cores[r].outputs
    ensures TotalsOk(f, g')
  {
    hide Seen, Deduped, MetricSum;
    forall r: nat, b: nat | r < |g.cores|
      ensures DrainedBatch(g'.cores[r].outputs, g'.drained[r], b) <==> DrainedBatch(g.cores[r].outputs, g.drained[r], b)
    {
      DrainedPrefix(g.cores[r].outputs, g'.cores[r].outputs, g.drained[r], b);
    }
    forall r | 0 <= r < |g.cores| ensures g'.cores[r].outputs[..g.drained[r]] == g.cores[r].outputs[..g.drained[r]] {}
    assert Forwarded(f, g') == Forwarded(f, g);
  }

  lemma DrainedPrefix(events: seq<Event>, more: seq<Event>, n: nat, b: nat)
    requires events <= more && n <= |events|
    ensures DrainedBatch(more, n, b) <==> DrainedBatch(events, n, b)
  {
    if DrainedBatch(events, n, b) {
      var i :| 0 <= i < n && i < |events| && events[i].Metrics? && events[i].metrics.batchId == b;
      assert more[i] == events[i];
    }
  }

  lemma DrainedStep(events: seq<Event>, n: nat, b: nat)
    requires n < |events|
    ensures DrainedBatch(events, n + 1, b)
      <==> DrainedBatch(events, n, b) || (events[n].Metrics? && events[n].metrics.batchId == b)
  {}

  /** Metrics drained from a rank are new; a copy attached to an output was seen before. */
  lemma FirstCopy(rank: nat, batchId: nat, events: seq<Event>, n: nat)
    requires LogOk(rank, batchId, events) && n < |events| && MetricsIn(events[n]).Some?
    ensures var x := MetricsIn(events[n]).value;
      x.rank == rank && (DrainedBatch(events, n, x.batchId) <==> events[n].Output?)
  {
    if events[n].Output? {
      var x := events[n].out.metrics.value;
      assert Reported(events, n, x);
      var i :| 0 <= i < n && i < |events| && events[i] == Metrics(x);
      assert events[i].Metrics?;
    }
  }

  /** `g'` is `g` after rank x's next event is forwarded. */
  ghost predicate Forwards(g: Global, g': Global, x: nat) {
    && Shape(g) && Shape(g') && x < |g.cores| && g.drained[x] < |g.cores[x].outputs|
    && g'.cores == g.cores && g'.drained == g.drained[x := g.drained[x] + 1]
    && g'.coord.out == g.coord.out + [g.cores[x].outputs[g.drained[x]]]
  }

  lemma ForwardedStep(f: Measure, g: Global, g': Global, x: nat)
    requires TotalsOk(f, g) && Forwards(g, g', x)
    ensures forall r :: 0 <= r < |g'.cores| ==> g'.drained[r] <= |g'.cores[r].outputs|
    ensures var e := g.cores[x].outputs[g.drained[x]];
      SumSeq(Forwarded(f, g')) == SumSeq(Forwarded(f, g)) + if e.Metrics? then f(e.metrics) else 0
  {
    hide Seen, Deduped, MetricSum, DrainedBatch;
    var events, n := g.cores[x].outputs, g.drained[x];
    assert events[..n + 1] == events[..n] + [events[n]];
    MetricSumAppend(f, events[..n], events[n]);
    assert Forwarded(f, g') == Forwarded(f, g)[x := MetricSum(f, events[..n + 1])];
    SumSeqUpdate(Forwarded(f, g), x, MetricSum(f, events[..n + 1]));
  }

  lemma ForwardsTotals(f: Measure, g: Global, g': Global, x: nat)
    requires TotalsOk(f, g) && Forwards(g, g', x) && LogOk(x, g.cores[x].batchId, g.cores[x].outputs)
    ensures TotalsOk(f, g')
  {
    hide Seen, Deduped, MetricSum, DrainedBatch, SumSeq, LogOk, Forwarded;
    var events, n := g.cores[x].outputs, g.drained[x];
    var e := events[n];
    ForwardedStep(f, g, g', x);
    SeenAppend(f, g.coord.out, e);
    if MetricsIn(e).Some? { FirstCopy(x, g.cores[x].batchId, events, n); }
    forall b: nat
      ensures DrainedBatch(events, n + 1, b) <==> DrainedBatch(events, n, b) || (e.Metrics? && e.metrics.batchId == b)
    {
      DrainedStep(events, n, b);
    }
  }

  lemma DrainForwards(cfg: Config, m: Model, g: Global, x: nat)
    requires GlobalInv(cfg, m, g) && Enabled(cfg, m, g, Drain(x))
    ensures Forwards(g, Apply(cfg, m, g, Drain(x)), x)
  {
    hide RankOk, RanksOk, RankPlaces, AbortsFollow, ClientOk, LoadOk;
  }

  lemma DrainTotals(cfg: Config, m: Model, f: Measure, g: Global, x: nat)
    requires GlobalInv(cfg, m, g) && Enabled(cfg, m, g, Drain(x)) && TotalsOk(f, g)
    ensures TotalsOk(f, Apply(cfg, m, g, Drain(x)))
  {
    hide GlobalInv, Enabled, Apply, TotalsOk, LogOk;
    DrainForwards(cfg, m, g, x);
    RankLog(cfg, m, g, x);
    ForwardsTotals(f, g, Apply(cfg, m, g, Drain(x)), x);
  }

  lemma RankLog(cfg: Config, m: Model, g: Global, x: nat)
    requires GlobalInv(cfg, m, g) && x < |g.cores|
    ensures LogOk(x, g.cores[x].batchId, g.cores[x].outputs)
  {
    hide RanksOk, RankPlaces, AbortsFollow, ClientOk, LoadOk, ReachInv, IdsOk, Requests, ScheduledTokens, ComputedEver;
    hide LogOk;
    assert RankOk(RankConfig(cfg, x), m, g.cores[x], g.added[x]);
  }

  lemma TotalsStep(cfg: Config, m: Model, f: Measure, g: Global, a: Action)
    requires GlobalInv(cfg, m, g) && Enabled(cfg, m, g, a) && TotalsOk(f, g)
    requires GlobalInv(cfg, m, Apply(cfg, m, g, a))
    ensures TotalsOk(f, Apply(cfg, m, g, a))
  {
    hide RankOk, RanksOk, RankPlaces, AbortsFollow, ClientOk, LoadOk, TakeTurn, Handle, TurnAllowed, WellFormed;
    hide TotalsOk;
    if a.Drain? {
      DrainTotals(cfg, m, f, g, a.rank);
    } else {
      if a.Deliver? { DeliverGrows(cfg, m, g, a.rank); }
      if a.EngineTurn? { TurnGrows(cfg, m, g, a.rank, a.outcome); }
      TotalsGrow(f, g, Apply(cfg, m, g, a));
    }
  }

  lemma {:induction false} ClientTotals(cfg: Config, m: Model, f: Measure, n: nat, actions: seq<Action>)
    requires n > 0 && RunGlobal(cfg, m, n, actions).Some?
    ensures TotalsOk(f, RunGlobal(cfg, m, n, actions).value)
    decreases |actions|
  {
    hide GlobalInv, Enabled, Apply, TotalsOk, InitialGlobal;
    if actions == [] {
      InitialTotals(cfg, f, n);
    } else {
      var front := actions[..|actions| - 1];
      ClientTotals(cfg, m, f, n, front);
      TotalsStep(cfg, m, f, RunGlobal(cfg, m, n, front).value, actions[|actions| - 1]);
    }
  }

  lemma InitialTotals(cfg: Config, f: Measure, n: nat)
    requires n > 0
    ensures TotalsOk(f, InitialGlobal(cfg, n))
  {
    hide InitialCore;
    var g := InitialGlobal(cfg, n);
    forall r | 0 <= r < n ensures MetricSum(f, g.cores[r].outputs[..g.drained[r]]) == 0 {
      assert g.cores[r].outputs[..0] == [];
    }
    ZeroSum(Forwarded(f, g));
  }

  lemma {:induction false} ZeroSum(values: seq<int>)
    requires forall i :: 0 <= i < |values| ==> values[i] == 0
    ensures SumSeq(values) == 0
  {
    if values != [] { ZeroSum(values[1..]); }
  }

  ghost predicate AllDrained(g: Global)
    requires Shape(g)
  {
    forall r :: 0 <= r < |g.cores| ==> g.drained[r] == |g.cores[r].outputs|
  }

  ghost function ComputedEverywhere(g: Global): seq<int>
    requires forall r :: 0 <= r < |g.cores| ==> IdsOk(g.cores[r].sched)
  {
    seq(|g.cores|, r requires 0 <= r < |g.cores| => ComputedEver(g.cores[r]))
  }

  /** Metrics conservation: however the copies of batch metrics were duplicated and interleaved, once
      everything is drained the client's scheduled total is the number of tokens computed for all
      requests ever admitted on any rank. */
  lemma MetricsConservation(cfg: Config, m: Model, n: nat, actions: seq<Action>)
    requires n > 0 && RunGlobal(cfg, m, n, actions).Some? && AllDrained(RunGlobal(cfg, m, n, actions).value)
    ensures var g := RunGlobal(cfg, m, n, actions).value;
      && (forall r :: 0 <= r < n ==> IdsOk(g.cores[r].sched))
      && Deduped(Scheduled, g.coord.out) == SumSeq(ComputedEverywhere(g))
  {
    hide RunGlobal, RanksOk, RankPlaces, AbortsFollow, ClientOk, LoadOk, Deduped, Seen, MetricSum, ComputedEver, IdsOk;
    hide ReachInv, ScheduledTokens, LogOk, Requests;
    var g := RunGlobal(cfg, m, n, actions).value;
    var f := Scheduled;
    ClientTotals(cfg, m, f, n, actions);
    forall r | 0 <= r < n
      ensures IdsOk(g.cores[r].sched) && MetricSum(f, g.cores[r].outputs[..g.drained[r]]) == ComputedEver(g.cores[r])
    {
      assert RankOk(RankConfig(cfg, r), m, g.cores[r], g.added[r]);
      assert g.cores[r].outputs[..g.drained[r]] == g.cores[r].outputs;
      ScheduledIsSum(g.cores[r].outputs);
    }
    assert Forwarded(f, g) == ComputedEverywhere(g);
  }

  lemma {:induction false} SumSeqAdd(a: seq<int>, b: seq<int>, c: seq<int>)
    requires |a| == |b| == |c| && forall i :: 0 <= i < |a| ==> a[i] + b[i] == c[i]
    ensures SumSeq(a) + SumSeq(b) == SumSeq(c)
  {
    if a != [] { SumSeqAdd(a[1..], b[1..], c[1..]); }
  }

  /** Prefill and decode tokens that a part of an engine's log reports. */
  ghost function PrefillIn(events: seq<Event>): int {
    if events == [] then 0
    else
      var last := events[|events| - 1];
      PrefillIn(events[..|events| - 1]) + if last.Metrics? then last.metrics.numPrefillTokens else 0
  }

  ghost function DecodeIn(events: seq<Event>): int {
    if events == [] then 0
    else
      var last := events[|events| - 1];
      DecodeIn(events[..|events| - 1]) + if last.Metrics? then last.metrics.numDecodeTokens else 0
  }

  lemma {:induction false} PhasesAreSums(events: seq<Event>)
    ensures MetricSum(Prefill, events) == PrefillIn(events) && MetricSum(Decode, events) == DecodeIn(events)
  {
    if events != [] { PhasesAreSums(events[..|events| - 1]); }
  }

  /** The client's prefill and decode totals are those of the batches drained from all ranks, each batch
      once. */
  lemma PhaseTotals(cfg: Config, m: Model, n: nat, actions: seq<Action>, prefill: seq<int>, decode: seq<int>)
    requires n > 0 && RunGlobal(cfg, m, n, actions).Some? && |prefill| == |decode| == n
    requires forall r :: 0 <= r < n ==> DrainedPhases(RunGlobal(cfg, m, n, actions).value, r, prefill[r], decode[r])
    ensures var out := RunGlobal(cfg, m, n, actions).value.coord.out;
      Deduped(Prefill, out) == SumSeq(prefill) && Deduped(Decode, out) == SumSeq(decode)
  {
    hide RunGlobal, GlobalInv, Deduped, Seen, MetricSum, SumSeq, PrefillIn, DecodeIn;
    var g := RunGlobal(cfg, m, n, actions).value;
    ClientTotals(cfg, m, Prefill, n, actions);
    ClientTotals(cfg, m, Decode, n, actions);
    forall r | 0 <= r < n ensures Forwarded(Prefill, g)[r] == prefill[r] && Forwarded(Decode, g)[r] == decode[r] {
      assert DrainedPhases(g, r, prefill[r], decode[r]);
      PhasesAreSums(g.cores[r].outputs[..g.drained[r]]);
    }
    assert Forwarded(Prefill, g) == prefill && Forwarded(Decode, g) == decode;
  }

  /** What rank r reported of each phase in the part of its log that was drained. */
  ghost predicate DrainedPhases(g: Global, r: nat, prefill: int, decode: int) {
    && r < |g.cores| && r < |g.drained| && g.drained[r] <= |g.cores[r].outputs|
    && prefill == PrefillIn(g.cores[r].outputs[..g.drained[r]])
    && decode == DecodeIn(g.cores[r].outputs[..g.drained[r]])
  }

  /** An engine's log splits every batch into prefill and decode tokens. */
  lemma {:induction false} LogSplits(rank: nat, batchId: nat, events: seq<Event>, n: nat)
    requires LogOk(rank, batchId, events) && n <= |events|
    ensures MetricSum(Prefill, events[..n]) + MetricSum(Decode, events[..n]) == MetricSum(Scheduled, events[..n])
  {
    if n > 0 {
      LogSplits(rank, batchId, events, n - 1);
      assert events[..n] == events[..n - 1] + [events[n - 1]];
      MetricSumAppend(Prefill, events[..n - 1], events[n - 1]);
      MetricSumAppend(Decode, events[..n - 1], events[n - 1]);
      MetricSumAppend(Scheduled, events[..n - 1], events[n - 1]);
    }
  }

  /** In every reachable state the client's prefill and decode totals add up to its scheduled total. */
  lemma SplitTotals(cfg: Config, m: Model, n: nat, actions: seq<Action>)
    requires n > 0 && RunGlobal(cfg, m, n, actions).Some?
    ensures var out := RunGlobal(cfg, m, n, actions).value.coord.out;
      Deduped(Prefill, out) + Deduped(Decode, out) == Deduped(Scheduled, out)
  {
    hide RunGlobal, GlobalInv, Deduped, Seen, MetricSum, LogOk;
    var g := RunGlobal(cfg, m, n, actions).value;
    ClientTotals(cfg, m, Prefill, n, actions);
    ClientTotals(cfg, m, Decode, n, actions);
    ClientTotals(cfg, m, Scheduled, n, actions);
    forall r | 0 <= r < |g.cores|
      ensures Forwarded(Prefill, g)[r] + Forwarded(Decode, g)[r] == Forwarded(Scheduled, g)[r]
    {
      RankLog(cfg, m, g, r);
      LogSplits(r, g.cores[r].batchId, g.cores[r].outputs, g.drained[r]);
    }
    SumSeqAdd(Forwarded(Prefill, g), Forwarded(Decode, g), Forwarded(Scheduled, g));
  }
}
