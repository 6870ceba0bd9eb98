/** Exactly when the scheduler advances, and what every run without further commands comes to. */
module Liveness {
  import opened Protocol
  import opened Arith
  import opened KVCache
  import opened Scheduling
  import opened Isolation
  import opened Engine
  import opened EngineProofs
  import opened Runs
  import opened Totals
  import opened Planning
  import opened Progress
  import opened Completion

  /** Some running request's next chunk fits the free blocks, or a seat is free and some waiting
      request's first chunk fits. */
  ghost predicate CanAdvance(cfg: Config, s: Sched)
    requires IdsOk(s)
  {
    || SomethingFits(cfg, s, s.cache, 0)
    || (|s.order| < cfg.maxNumSeqs && exists k :: 0 <= k < |s.waiting| && Fits(cfg, |s.cache.pool.free|, s.waiting[k]))
  }

  lemma {:induction false} FittingSome(cfg: Config, free: nat, ws: seq<RequestState>)
    ensures (Fitting(cfg, free, ws) != []) <==> exists k :: 0 <= k < |ws| && Fits(cfg, free, ws[k])
    ensures Fitting(cfg, free, ws) != [] ==>
      exists k :: 0 <= k < |ws| && ws[k] == Fitting(cfg, free, ws)[0] && Fits(cfg, free, ws[k])
  {
    hide Fits;
    if ws != [] {
      var front := ws[..|ws| - 1];
      FittingSome(cfg, free, front);
      assert forall k :: 0 <= k < |front| ==> front[k] == ws[k];
      if Fitting(cfg, free, front) != [] {
        var k :| 0 <= k < |front| && front[k] == Fitting(cfg, free, front)[0] && Fits(cfg, free, front[k]);
        assert ws[k] == Fitting(cfg, free, ws)[0];
      } else if Fits(cfg, free, ws[|ws| - 1]) {
        assert Fitting(cfg, free, ws)[0] == ws[|ws| - 1];
      }
    }
  }

  /** Whether a running request's chunk fits depends on its computed count and the free count alone. */
  lemma FitsAtSame(cfg: Config, s: Sched, a: Sched, i: nat)
    requires SchedInv(cfg, s, []) && SchedInv(cfg, a, []) && Keyed(s, s.cache.tables) && Keyed(a, a.cache.tables)
    requires i < |s.order| <= |a.order| && a.order[i] == s.order[i] && a.cache.pool == s.cache.pool
    requires a.order[i] in a.running && s.order[i] in s.running && a.running[a.order[i]] == s.running[s.order[i]]
    ensures FitsAt(cfg, a, a.cache, i) <==> FitsAt(cfg, s, s.cache, i)
  {
    hide IdsOk, CacheOk, RequestsOk, ItemsOk, CeilDiv;
    assert Unscheduled([], s.order[i]);
  }

  /** A request admitted just now has its first chunk scheduled, if nothing before it is. */
  lemma AdmittedFits(cfg: Config, s: Sched, n: nat, a: Sched)
    requires SchedInv(cfg, s, []) && SchedInv(cfg, a, []) && Keyed(a, a.cache.tables) && Admitted(cfg, s, n, a)
    requires Fitting(cfg, |s.cache.pool.free|, s.waiting[..n]) != []
    ensures SomethingFits(cfg, a, a.cache, 0)
  {
    hide IdsOk, CacheOk, ItemsOk, Fitting, Misfits, RunningOk, ContextLimit;
    var free := |s.cache.pool.free|;
    var taken := Fitting(cfg, free, s.waiting[..n]);
    FittingSome(cfg, free, s.waiting[..n]);
    var k :| 0 <= k < n && s.waiting[..n][k] == taken[0] && Fits(cfg, free, s.waiting[..n][k]);
    var r := s.waiting[k];
    assert WaitingOk(cfg, r) && taken[0] == r;
    var i := |s.order|;
    assert a.order[i] == r.req.id && a.running[a.order[i]] == r;
    FreshFits(cfg, a, r, i);
  }

  lemma FreshFits(cfg: Config, a: Sched, r: RequestState, i: nat)
    requires SchedInv(cfg, a, []) && Keyed(a, a.cache.tables) && i < |a.order| && a.order[i] in a.running
    requires a.running[a.order[i]] == r
    requires WaitingOk(cfg, r) && Fits(cfg, |a.cache.pool.free|, r)
    ensures FitsAt(cfg, a, a.cache, i)
  {
    hide IdsOk, CacheOk, ItemsOk, RequestsOk, ContextLimit, CeilDiv;
    assert Unscheduled([], a.order[i]);
    CeilDivLeast(0, cfg.blockSize);
  }

  /** A turn schedules something exactly when the state before it can advance. */
  lemma AdvancesIff(cfg: Config, s: Sched)
    requires SchedInv(cfg, s, []) && IdsOk(s)
    ensures Schedule(cfg, s).1.items != [] <==> CanAdvance(cfg, s)
  {
    hide SchedInv, Schedule, Fits, FitsAt, Fitting, Misfits, Admit;
    ScheduleEmpty(cfg, s);
    var n, a := AdmitFacts(cfg, s);
    var free := |s.cache.pool.free|;
    var taken := Fitting(cfg, free, s.waiting[..n]);
    FittingSome(cfg, free, s.waiting[..n]);
    if taken != [] {
      AdmittedFits(cfg, s, n, a);
      assert |s.order| < cfg.maxNumSeqs by { assert s.waiting[..0] == []; NothingFitting(cfg, free); assert 0 < n; }
      var k :| 0 <= k < n && s.waiting[..n][k] == taken[0] && Fits(cfg, free, s.waiting[..n][k]);
      assert Fits(cfg, free, s.waiting[k]);
    } else {
      forall i | 0 <= i < |s.order|
        ensures FitsAt(cfg, a, a.cache, i) <==> FitsAt(cfg, s, s.cache, i)
      {
        FitsAtSame(cfg, s, a, i);
      }
      if |s.order| < cfg.maxNumSeqs {
        assert s.waiting[..n] == s.waiting;
      }
    }
  }

  lemma NothingFitting(cfg: Config, free: nat) ensures Fitting(cfg, free, []) == [] {}

  lemma AdmitFacts(cfg: Config, s: Sched) returns (n: nat, a: Sched)
    requires SchedInv(cfg, s, []) && IdsOk(s)
    ensures a == Admit(cfg, s) && SchedInv(cfg, a, []) && Keyed(s, s.cache.tables) && Keyed(a, a.cache.tables)
    ensures Tried(cfg, s, n) && Admitted(cfg, s, n, a) && |s.order| <= cfg.maxNumSeqs
    ensures forall i :: 0 <= i < |s.order| ==>
      s.order[i] in s.running && s.order[i] in a.running && a.running[s.order[i]] == s.running[s.order[i]]
  {
    hide CacheOk, ItemsOk, SizesOk, AdmitFrom, Fitting, Misfits, RunningOk, WaitingOk;
    AdmissionFilter(cfg, s);
    AdmitInv(cfg, s, |s.waiting|);
    a := Admit(cfg, s);
    n :| Tried(cfg, s, n) && Admitted(cfg, s, n, Admit(cfg, s));
  }

  // ------------------------------------------------------------------------- stuck states

  /** With a free seat and nothing that fits, admission turns the queue round once. */
  lemma {:induction false} RotateAll(cfg: Config, s: Sched, k: nat)
    requires IdsOk(s) && k <= |s.waiting| && |s.order| < cfg.maxNumSeqs
    requires forall j :: 0 <= j < |s.waiting| ==> !Fits(cfg, |s.cache.pool.free|, s.waiting[j])
    requires IdsOk(s.(waiting := s.waiting[k..] + s.waiting[..k]))
    ensures AdmitFrom(cfg, s.(waiting := s.waiting[k..] + s.waiting[..k]), |s.waiting| - k) == s
    decreases |s.waiting| - k
  {
    hide IdsOk, AdmitOne, Fits;
    var sk := s.(waiting := s.waiting[k..] + s.waiting[..k]);
    if k == |s.waiting| {
      assert sk.waiting == s.waiting;
    } else {
      assert sk.waiting[0] == s.waiting[k];
      AdmitOneDecision(cfg, sk);
      AdmitOneIds(cfg, sk);
      assert sk.waiting[1..] + [sk.waiting[0]] == s.waiting[k + 1..] + s.waiting[..k + 1];
      assert AdmitOne(cfg, sk) == s.(waiting := s.waiting[k + 1..] + s.waiting[..k + 1]);
      RotateAll(cfg, s, k + 1);
    }
  }

  /** A state that cannot advance is left exactly as it is. */
  lemma StuckStays(cfg: Config, s: Sched)
    requires SchedInv(cfg, s, []) && IdsOk(s) && !CanAdvance(cfg, s)
    ensures Schedule(cfg, s).1.items == [] && Schedule(cfg, s).0 == s
  {
    hide SchedInv, Fits, FitsAt, PlanFrom, SomethingFits, AdmitOne, IdsOk;
    AdvancesIff(cfg, s);
    if |s.order| < cfg.maxNumSeqs {
      assert s.waiting[0..] + s.waiting[..0] == s.waiting;
      RotateAll(cfg, s, 0);
    }
    assert Admit(cfg, s) == s;
    KeyedState(s);
    PlanNothing(cfg, s, InitialPlan(cfg, s), 0);
  }

  lemma KeyedState(s: Sched)
    requires IdsOk(s)
    ensures Keyed(s, s.cache.tables)
  {}

  /** One turn, whatever becomes of the Worker: if the state cannot advance nothing at all changes;
      otherwise the process ends, if the Worker dies, or the tokens left strictly drop. */
  lemma TurnExact(cfg: Config, m: Model, c: Core, outcome: Outcome)
    requires SchedInv(cfg, c.sched, []) && StoreOk(cfg, m, c.sched, c.store, []) && IdsOk(c.sched) && c.phase.Looping?
    ensures var c' := TakeTurn(cfg, m, c, outcome);
      && IdsOk(c'.sched)
      && if !CanAdvance(cfg, c.sched) then c' == c
         else if outcome.InitFailure? then c'.phase.Crashed?
         else c'.phase.Looping? && Total(LeftOf(cfg), c'.sched) < Total(LeftOf(cfg), c.sched)
  {
    hide SchedInv, StoreOk, IdsOk, Schedule, TakeTurn, Total, LeftOf, DemandOf, CanAdvance;
    AdvancesIff(cfg, c.sched);
    TurnEffect(cfg, m, c, outcome);
    TurnPhase(cfg, m, c, outcome);
    if !CanAdvance(cfg, c.sched) { StuckStays(cfg, c.sched); }
  }

  // ----------------------------------------------------------------------------- whole runs

  /** Turns of a continuation that are taken from a state that can advance. */
  ghost function Productive(cfg: Config, m: Model, inputs: seq<Input>, more: seq<Input>): nat
    decreases |more|
  {
    if more == [] then 0
    else
      var r := Run(cfg, m, inputs);
      Productive(cfg, m, inputs + [more[0]], more[1..])
      + if more[0].Turn? && r.Some? && IdsOk(r.value.sched) && CanAdvance(cfg, r.value.sched) then 1 else 0
  }

  /** A state that can advance has something left to compute. */
  lemma AdvanceLeft(cfg: Config, s: Sched)
    requires SchedInv(cfg, s, []) && IdsOk(s) && CanAdvance(cfg, s)
    ensures Total(LeftOf(cfg), s) >= 1
  {
    hide SchedInv, IdsOk, Total, LeftOf, CanAdvance;
    MeasurePositive(cfg, s);
    if Drained(s) { DrainedStays(cfg, s); }
  }

  /** From every reachable state, however aborts, Worker failures and turns interleave, without new
      requests at most as many turns do anything as there are tokens left to compute. */
  lemma {:induction false} WorkBounded(cfg: Config, m: Model, inputs: seq<Input>, more: seq<Input>)
    requires Run(cfg, m, inputs).Some? && Run(cfg, m, inputs + more).Some? && NoAdds(more)
    requires !Run(cfg, m, inputs).value.phase.Crashed? && IdsOk(Run(cfg, m, inputs).value.sched)
    ensures Productive(cfg, m, inputs, more) <= Total(LeftOf(cfg), Run(cfg, m, inputs).value.sched)
    decreases |more|
  {
    hide SchedInv, StoreOk, IdsOk, Run, TakeTurn, Handle, Total, LeftOf, CanAdvance;
    var c := Run(cfg, m, inputs).value;
    if more == [] {
      assert inputs + more == inputs;
      LeftNonNegative(cfg, m, inputs);
    } else {
      FirstStep(cfg, m, inputs, more);
      var next := inputs + [more[0]];
      match more[0] {
        case Receive(command) => CommandMeasure(cfg, c, command);
        case Turn(outcome) =>
          TurnExact(cfg, m, c, outcome);
          if CanAdvance(cfg, c.sched) { AdvanceLeft(cfg, c.sched); }
      }
      if Run(cfg, m, next).value.phase.Crashed? {
        CrashedEnds(cfg, m, next, more[1..]);
        assert Productive(cfg, m, next, []) == 0;
      } else {
        WorkBounded(cfg, m, next, more[1..]);
      }
    }
  }

  lemma LeftNonNegative(cfg: Config, m: Model, inputs: seq<Input>)
    requires Run(cfg, m, inputs).Some? && !Run(cfg, m, inputs).value.phase.Crashed?
    ensures IdsOk(Run(cfg, m, inputs).value.sched) && Total(LeftOf(cfg), Run(cfg, m, inputs).value.sched) >= 0
  {
    hide SchedInv, IdsOk, StoreOk, TracesOk, Total, LeftOf;
    var s := Run(cfg, m, inputs).value.sched;
    SchedInvIds(cfg, s, []);
    MeasurePositive(cfg, s);
  }

  predicate OnlyTurns(more: seq<Input>) { forall i :: 0 <= i < |more| ==> more[i].Turn? }

  /** From every reachable state, without further commands and whatever becomes of the Worker, the
      engine comes within as many turns as tokens are left to a state that cannot advance, or ends. */
  lemma {:induction false} Settles(cfg: Config, m: Model, inputs: seq<Input>, more: seq<Input>)
    requires Run(cfg, m, inputs).Some? && Run(cfg, m, inputs + more).Some? && OnlyTurns(more)
    requires !Run(cfg, m, inputs).value.phase.Crashed?
    requires var s := Run(cfg, m, inputs).value.sched; IdsOk(s) && Total(LeftOf(cfg), s) <= |more|
    ensures var c' := Run(cfg, m, inputs + more).value;
      c'.phase.Crashed? || (IdsOk(c'.sched) && !CanAdvance(cfg, c'.sched))
    decreases |more|
  {
    hide SchedInv, StoreOk, IdsOk, Run, TakeTurn, Total, LeftOf, CanAdvance;
    var c := Run(cfg, m, inputs).value;
    if more == [] {
      assert inputs + more == inputs;
      LeftAtRest(cfg, m, inputs);
    } else {
      FirstStep(cfg, m, inputs, more);
      var next := inputs + [more[0]];
      TurnExact(cfg, m, c, more[0].outcome);
      if !CanAdvance(cfg, c.sched) {
        Persists(cfg, m, inputs, more);
      } else if Run(cfg, m, next).value.phase.Crashed? {
        CrashedEnds(cfg, m, next, more[1..]);
        assert inputs + more == next;
      } else {
        Settles(cfg, m, next, more[1..]);
      }
    }
  }

  lemma LeftAtRest(cfg: Config, m: Model, inputs: seq<Input>)
    requires Run(cfg, m, inputs).Some? && !Run(cfg, m, inputs).value.phase.Crashed?
    requires var s := Run(cfg, m, inputs).value.sched; IdsOk(s) && Total(LeftOf(cfg), s) <= 0
    ensures !CanAdvance(cfg, Run(cfg, m, inputs).value.sched)
  {
    hide SchedInv, IdsOk, StoreOk, TracesOk, Total, LeftOf, CanAdvance;
    MeasurePositive(cfg, Run(cfg, m, inputs).value.sched);
    DrainedStays(cfg, Run(cfg, m, inputs).value.sched);
  }

  lemma DrainedStays(cfg: Config, s: Sched)
    requires IdsOk(s) && Drained(s)
    ensures !CanAdvance(cfg, s)
  {}

  /** A state that cannot advance persists, whole, through any number of turns. */
  lemma {:induction false} Persists(cfg: Config, m: Model, inputs: seq<Input>, more: seq<Input>)
    requires Run(cfg, m, inputs).Some? && Run(cfg, m, inputs + more).Some? && OnlyTurns(more)
    requires IdsOk(Run(cfg, m, inputs).value.sched) && !CanAdvance(cfg, Run(cfg, m, inputs).value.sched)
    ensures Run(cfg, m, inputs + more) == Run(cfg, m, inputs)
    decreases |more|
  {
    hide SchedInv, StoreOk, IdsOk, Run, TakeTurn, CanAdvance;
    if more == [] {
      assert inputs + more == inputs;
    } else {
      FirstStep(cfg, m, inputs, more);
      TurnExact(cfg, m, Run(cfg, m, inputs).value, more[0].outcome);
      Persists(cfg, m, inputs + [more[0]], more[1..]);
    }
  }

  /** After as many turns as tokens are left nothing changes any more: without further commands the
      engine drains at all only if it has drained by then, and otherwise stays stuck for ever. */
  lemma DrainsExactly(cfg: Config, m: Model, inputs: seq<Input>, more: seq<Input>, later: seq<Input>)
    requires Run(cfg, m, inputs).Some? && !Run(cfg, m, inputs).value.phase.Crashed?
    requires var s := Run(cfg, m, inputs).value.sched; IdsOk(s) && Total(LeftOf(cfg), s) <= |more|
    requires Run(cfg, m, inputs + more).Some? && Run(cfg, m, inputs + more + later).Some? && OnlyTurns(more)
    requires OnlyTurns(later)
    ensures Run(cfg, m, inputs + more + later) == Run(cfg, m, inputs + more)
  {
    hide SchedInv, IdsOk, Run, Total, LeftOf, CanAdvance;
    Settles(cfg, m, inputs, more);
    if Run(cfg, m, inputs + more).value.phase.Crashed? {
      CrashedEnds(cfg, m, inputs + more, later);
      assert inputs + more + later == inputs + more;
    } else {
      Persists(cfg, m, inputs + more, later);
    }
  }
}
