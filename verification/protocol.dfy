/** Shared vocabulary: configuration, requests, worker messages and output events
    (minivllm/config.py, minivllm/protocol.py). */
module Protocol {

  datatype Option<+T> = None | Some(value: T)

  /** Request ids are only ever compared for equality. */
  type RequestId(==, !new)

  type Token = int

  /** Text as code points; Python strings may hold surrogates, Dafny chars may not. */
  type Text = seq<int>

  /** Blocks and slots of the paged cache. */
  type Block = nat
  type Slot = int

  datatype SamplingParams = SamplingParams(maxTokens: nat, temperature: real, stop: seq<Text>)

  datatype EngineRequest = EngineRequest(id: RequestId, prompt: seq<Token>, params: SamplingParams)

  /** What `SamplingParams` validates on construction and `EngineCoreClient.submit`
      guarantees about the prompt it sends. */
  predicate WellFormed(req: EngineRequest) {
    |req.prompt| > 0 && req.params.maxTokens > 0 && (forall t <- req.params.stop :: |t| > 0)
  }

  datatype EngineConfig = EngineConfig(
    maxNumSeqs: nat,
    maxNumBatchedTokens: nat,
    maxModelLen: nat,
    blockSize: nat,
    numGpuBlocks: nat,
    rank: nat)

  /** `EngineConfig.__post_init__` refuses non-positive sizes. */
  type Config = c: EngineConfig |
      c.maxNumSeqs > 0 && c.maxNumBatchedTokens > 0 && c.maxModelLen > 0 && c.blockSize > 0 && c.numGpuBlocks > 0
    witness EngineConfig(1, 1, 1, 1, 1, 0)

  function Min(a: int, b: int): int { if a <= b then a else b }

  function ContextLimit(cfg: Config): nat {
    Min(cfg.maxModelLen, cfg.numGpuBlocks * cfg.blockSize)
  }

  /** Everything the Worker keeps at one cache slot: key and value vectors of all layers. */
  type Value = seq<real>

  /** What one sampling call may depend on.  The values are whatever the kernels read back
      through the context slots. */
  datatype Query = Query(id: RequestId, context: seq<Value>, generatedCount: nat, temperature: real)

  /** The tokenizer and the model, as arbitrary functions.  `embed` gives the value of a token from
      what is read at the slots of the positions before it; `None` is a slot never written. */
  datatype Model = Model(
    eos: Token,
    decode: seq<Token> -> Text,
    embed: (Token, seq<Option<Value>>) -> Value,
    sample: Query -> Token)

  datatype FinishReason = STOP | LENGTH | ABORT | ERROR

  datatype WorkerItem = WorkerItem(
    id: RequestId,
    tokenIds: seq<Token>,
    startPos: nat,
    slotMapping: seq<Slot>,
    blockTable: seq<Block>,
    seqLen: nat,
    generatedCount: nat,
    shouldSample: bool,
    temperature: real)

  datatype BatchMetrics = BatchMetrics(
    batchId: nat,
    rank: nat,
    numRequests: nat,
    numScheduledTokens: nat,
    numPrefillTokens: int,
    numDecodeTokens: int)

  /** A finished output is one that carries a finish reason. */
  datatype RequestOutput = RequestOutput(
    id: RequestId,
    tokenIds: seq<Token>,
    text: Text,
    finishReason: Option<FinishReason>,
    metrics: Option<BatchMetrics>)

  /** What an EngineCore puts on its output queue. */
  datatype Event = Metrics(metrics: BatchMetrics) | Output(out: RequestOutput)

  datatype Command = Add(request: EngineRequest) | Abort(id: RequestId) | Shutdown

  ghost predicate Distinct<T>(s: seq<T>) {
    forall i, j :: 0 <= i < j < |s| ==> s[i] != s[j]
  }

  /** `s` without the first occurrence of `x`, the effect of removing a key from an OrderedDict. */
  function Without<T(==)>(s: seq<T>, x: T): (r: seq<T>)
  {
    if s == [] then [] else if s[0] == x then s[1..] else [s[0]] + Without(s[1..], x)
  }

  lemma {:induction false} WithoutDistinct<T>(s: seq<T>, x: T)
    requires Distinct(s)
    ensures Distinct(Without(s, x))
    ensures forall y :: y in Without(s, x) <==> y in s && y != x
    ensures |Without(s, x)| == if x in s then |s| - 1 else |s|
  {
    if s == [] {
    } else if s[0] == x {
      assert forall y :: y in s <==> y == s[0] || y in s[1..];
    } else {
      WithoutDistinct(s[1..], x);
      var t := Without(s[1..], x);
      assert forall i :: 0 <= i < |t| ==> t[i] in t;
      assert forall y :: y in s <==> y == s[0] || y in s[1..];
    }
  }
}
