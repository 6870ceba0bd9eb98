/** The reference behaviour: one request generating alone on a dense token sequence,
    with no scheduler, no batching and no paged cache. */
module Solo {
  import opened Protocol
  import opened Scheduling
  import opened Isolation

  /** The first `k` tokens sampled one after the other, whatever they are. */
  ghost function Generated(m: Model, req: EngineRequest, k: nat): (g: seq<Token>)
    ensures |g| == k
  {
    if k == 0 then [] else
      var g := Generated(m, req, k - 1);
      g + [NextToken(m, req, g)]
  }

  /** Some stop string ends the decoded text. */
  ghost predicate Stopped(m: Model, req: EngineRequest, output: seq<Token>) {
    exists t: Text, u: Text :: t in req.params.stop && m.decode(output) == u + t
  }

  /** The scheduler's test is that one. */
  lemma StopIff(m: Model, req: EngineRequest, output: seq<Token>)
    ensures HitsStop(m, req, output) <==> Stopped(m, req, output)
  {
    var text := m.decode(output);
    if HitsStop(m, req, output) {
      var t :| t in req.params.stop && EndsWith(text, t);
      assert text == text[..|text| - |t|] + t;
    }
    if Stopped(m, req, output) {
      var t: Text, u: Text :| t in req.params.stop && text == u + t;
      assert text[|u|..] == t && EndsWith(text, t);
    }
  }

  /** A sequence of n tokens leaves no room for another one: not in the model's context, or not in the
      whole pool. */
  ghost predicate Full(cfg: Config, n: nat) { n >= cfg.maxModelLen || n >= cfg.numGpuBlocks * cfg.blockSize }

  /** Whether, and why, generation ends with the k-th sampled token: end-of-sequence, a stop
      string, the token limit, or the context limit. */
  ghost function Verdict(cfg: Config, m: Model, req: EngineRequest, k: nat): Option<FinishReason>
    requires k > 0
  {
    var g := Generated(m, req, k);
    if g[k - 1] == m.eos || Stopped(m, req, g) then Some(STOP)
    else if k >= req.params.maxTokens || Full(cfg, |req.prompt| + k) then Some(LENGTH)
    else None
  }

  /** The first k at which a verdict falls. */
  ghost function SearchLength(cfg: Config, m: Model, req: EngineRequest, k: nat): (n: nat)
    requires 0 < k <= req.params.maxTokens
    ensures k <= n <= req.params.maxTokens && Verdict(cfg, m, req, n).Some?
    ensures forall j :: k <= j < n ==> Verdict(cfg, m, req, j).None?
    decreases req.params.maxTokens - k
  {
    if Verdict(cfg, m, req, k).Some? then k else SearchLength(cfg, m, req, k + 1)
  }

  ghost function SoloLength(cfg: Config, m: Model, req: EngineRequest): nat
    requires WellFormed(req)
  {
    SearchLength(cfg, m, req, 1)
  }

  ghost function SoloReason(cfg: Config, m: Model, req: EngineRequest): FinishReason
    requires WellFormed(req)
  {
    Verdict(cfg, m, req, SoloLength(cfg, m, req)).value
  }

  /** The end-of-sequence token itself is not part of the output. */
  ghost function SoloOutput(cfg: Config, m: Model, req: EngineRequest): seq<Token>
    requires WellFormed(req)
  {
    var n := SoloLength(cfg, m, req);
    var g := Generated(m, req, n);
    if g[n - 1] == m.eos then g[..n - 1] else g
  }

  /** `output` is what the solo run has produced after |output| tokens, with no verdict so far. */
  ghost predicate Unfinished(cfg: Config, m: Model, req: EngineRequest, output: seq<Token>) {
    && output == Generated(m, req, |output|)
    && (forall k :: 0 < k <= |output| ==> Verdict(cfg, m, req, k).None?)
  }

  lemma UnfinishedStart(cfg: Config, m: Model, req: EngineRequest)
    ensures Unfinished(cfg, m, req, [])
  {}

  /** The least k with a verdict is the solo length. */
  lemma SoloLengthIs(cfg: Config, m: Model, req: EngineRequest, n: nat)
    requires WellFormed(req) && 0 < n <= req.params.maxTokens && Verdict(cfg, m, req, n).Some?
    requires forall k :: 0 < k < n ==> Verdict(cfg, m, req, k).None?
    ensures SoloLength(cfg, m, req) == n
  {
    hide Verdict;
  }

  /** Appending the solo run's next token to an unfinished request gives exactly the solo
      verdict: it goes on unfinished, or it ends with the solo output and reason. */
  lemma AppendIsSolo(cfg: Config, m: Model, r: RequestState, token: Token)
    requires WellFormed(r.req) && r.computed == |All(r)| && |r.output| < r.req.params.maxTokens
    requires Unfinished(cfg, m, r.req, r.output) && token == NextToken(m, r.req, r.output)
    ensures var (r', reason) := AppendToken(cfg, m, r, token);
      && (reason.None? ==> Unfinished(cfg, m, r.req, r'.output))
      && (reason.Some? ==> reason.value == SoloReason(cfg, m, r.req) && r'.output == SoloOutput(cfg, m, r.req))
  {
    hide HitsStop, Stopped;
    StopIff(m, r.req, r.output + [token]);
    var n := |r.output| + 1;
    var (r', reason) := AppendToken(cfg, m, r, token);
    var g := Generated(m, r.req, n);
    assert g == r.output + [token];
    if token == m.eos {
      assert Verdict(cfg, m, r.req, n) == Some(STOP);
      SoloLengthIs(cfg, m, r.req, n);
      assert g[..n - 1] == r.output;
    } else {
      assert r'.output == g && Verdict(cfg, m, r.req, n) == reason;
      if reason.Some? { SoloLengthIs(cfg, m, r.req, n); }
    }
  }
}
