/** The text clause at its limit: with a decoder whose second token rewrites the first character the
    streamed text is wrong. */
module Divergence {
  import opened Protocol
  import opened Scheduling
  import opened Isolation
  import opened Solo
  import opened Engine
  import opened Runs
  import opened Totals
  import opened Progress
  import opened Completion

  const Small: Config := EngineConfig(1, 8, 8, 4, 2, 0)

  function Req(id: RequestId): EngineRequest { EngineRequest(id, [7], SamplingParams(2, 0.0, [])) }

  /** Two tokens make up one character; the first alone is shown as a replacement character. */
  function Rewriting(tokens: seq<Token>): Text {
    if tokens == [] then [] else if |tokens| == 1 then [65533] else [233]
  }

  const Pairs: Model := Model(0, (tokens: seq<Token>) => Rewriting(tokens),
    (token: Token, before: seq<Option<Value>>) => [], (q: Query) => 5)

  lemma Verdicts(id: RequestId)
    ensures Generated(Pairs, Req(id), 1) == [5] && Generated(Pairs, Req(id), 2) == [5, 5]
    ensures Verdict(Small, Pairs, Req(id), 1).None? && Verdict(Small, Pairs, Req(id), 2) == Some(LENGTH)
  {
    assert Generated(Pairs, Req(id), 0) == [];
    assert Generated(Pairs, Req(id), 1) == [5];
    assert Generated(Pairs, Req(id), 2) == [5, 5];
    assert ContextLimit(Small) == 8;
  }

  lemma SoloPair(id: RequestId)
    ensures WellFormed(Req(id)) && SoloOutput(Small, Pairs, Req(id)) == [5, 5]
  {
    Verdicts(id);
    SoloLengthIs(Small, Pairs, Req(id), 2);
  }

  lemma NotAppending()
    ensures !Appends(Pairs, [5, 5])
  {
    var output: seq<Token> := [5, 5];
    assert output[..1] == [5] && output[..2] == [5, 5];
    assert Pairs.decode(output[..1]) == [65533] && Pairs.decode(output[..2]) == [233];
    var one, two: Text := [65533], [233];
    assert one[0] != two[0];
    assert !(Pairs.decode(output[..1]) <= Pairs.decode(output[..1 + 1]));
  }

  /** A lone request runs to its end with the right tokens, and its text goes wrong on the way. */
  lemma TextDiverges(id: RequestId) returns (n: nat)
    ensures var inputs := [Receive(Add(Req(id)))] + Turns(n);
      && Run(Small, Pairs, inputs).Some?
      && var t := TraceOf(Run(Small, Pairs, inputs).value.outputs, id);
      Streamed(t) == SoloOutput(Small, Pairs, Req(id)) && !InStep(Pairs, t)
  {
    hide Run, Total, LeftOf, IdsOk, SchedInv, TraceOf, Streamed, InStep, SoloOutput, Appends;
    var inputs := [Receive(Add(Req(id)))];
    OneAdded(id);
    var c := Run(Small, Pairs, inputs).value;
    LoneAffordable(Small, c.sched);
    LeftNat(id);
    n := Total(LeftOf(Small), c.sched);
    TurnsRun(Small, Pairs, inputs, n);
    AllTurns(n);
    Completes(Small, Pairs, inputs, Turns(n), id);
    SoloPair(id);
    NotAppending();
    TextInStep(Small, Pairs, inputs + Turns(n), id);
  }

  lemma OneAdded(id: RequestId)
    ensures var inputs := [Receive(Add(Req(id)))];
      && Run(Small, Pairs, inputs).Some? && AddedOf(inputs) == map[id := Req(id)]
      && var c := Run(Small, Pairs, inputs).value;
      && c.phase.Looping? && SchedInv(Small, c.sched, []) && IdsOk(c.sched)
      && |c.sched.waiting| + |c.sched.order| <= 1 && LiveView(c, id).Some?
  {
    hide Run, SchedInv, StoreOk, TracesOk;
    EmptyRun();
    RunAdd(Small, Pairs, [], Req(id));
    assert [] + [Receive(Add(Req(id)))] == [Receive(Add(Req(id)))];
    assert ContextLimit(Small) == 8;
    var c := Run(Small, Pairs, [Receive(Add(Req(id)))]).value;
    SchedInvIds(Small, c.sched, []);
  }

  lemma EmptyRun()
    ensures Run(Small, Pairs, []) == Some(InitialCore(Small)) && AddedOf([]) == map[]
  {
    hide ReachInv, Step;
  }

  lemma LeftNat(id: RequestId)
    requires Run(Small, Pairs, [Receive(Add(Req(id)))]).Some?
    requires var c := Run(Small, Pairs, [Receive(Add(Req(id)))]).value; SchedInv(Small, c.sched, []) && IdsOk(c.sched)
    ensures Total(LeftOf(Small), Run(Small, Pairs, [Receive(Add(Req(id)))]).value.sched) >= 0
  {
    hide Run, SchedInv, IdsOk, Total, LeftOf;
    MeasurePositive(Small, Run(Small, Pairs, [Receive(Add(Req(id)))]).value.sched);
  }

  lemma {:induction false} AllTurns(n: nat)
    ensures TurnsIn(Turns(n)) == n && NoAdds(Turns(n))
    ensures forall id: RequestId :: Undisturbed(Turns(n), id)
  {
    if n > 0 {
      assert Turns(n)[1..] == Turns(n - 1);
      AllTurns(n - 1);
    }
  }
}
