/** The text-generation client wrapper: model lookup and configuration merge, the
    generator that filters the SDK's chunk stream, and the adapter that frames the
    generator's fragments into newline-delimited records on an HTTP body. */
module Gemini {
  import opened Wrappers
  import JsonString
  import Lines

  // ---------------------------------------------------------------------------
  // Models and generation configuration
  // ---------------------------------------------------------------------------

  /** The keys of `GEMINI_MODELS`. */
  datatype ModelKey = TextGeneration | Pro

  /** `GEMINI_MODELS[key]`. */
  function ModelName(key: ModelKey): string
  {
    match key
    case TextGeneration => "gemini-1.5-flash"
    case Pro => "gemini-1.5-pro"
  }

  /** A configuration value: the numbers are opaque here, only their identity matters. */
  datatype ConfigValue = Number(n: real) | Text(s: string)

  type Config = map<string, ConfigValue>

  /** `DEFAULT_GENERATION_CONFIG`. */
  const DefaultConfig: Config :=
    map["temperature" := Number(0.7), "topP" := Number(0.95), "topK" := Number(64.0),
        "maxOutputTokens" := Number(8192.0), "responseMimeType" := Text("text/plain")]

  /** `Partial<typeof DEFAULT_GENERATION_CONFIG>`: only default keys, each with a value
      of the default's kind. */
  predicate IsPartialConfig(c: Config)
  {
    forall k :: k in c ==> k in DefaultConfig && c[k].Number? == DefaultConfig[k].Number?
  }

  /** What `getGenerativeModel` is asked for. */
  datatype Model = Model(name: string, config: Config)

  /** `createGeminiModel`: the model named by `key`, with `{...DEFAULT_GENERATION_CONFIG,
      ...overrides}` as configuration. */
  function CreateGeminiModel(key: ModelKey := TextGeneration, overrides: Config := map[]): (m: Model)
    requires IsPartialConfig(overrides)
    ensures key == TextGeneration ==> m.name == "gemini-1.5-flash"
    ensures key == Pro ==> m.name == "gemini-1.5-pro"
    ensures m.config.Keys == DefaultConfig.Keys && IsPartialConfig(m.config)
    ensures forall k :: k in overrides ==> m.config[k] == overrides[k]
    ensures forall k :: k in DefaultConfig && k !in overrides ==> m.config[k] == DefaultConfig[k]
  {
    Model(ModelName(key), DefaultConfig + overrides)
  }

  /** The arguments of one `generateStreamingText(prompt, model, overrides)` call. */
  datatype GenerationRequest = GenerationRequest(prompt: string, model: ModelKey, overrides: Config)

  // ---------------------------------------------------------------------------
  // generateStreamingText: the generator over the SDK's chunk stream
  // ---------------------------------------------------------------------------

  /** What the SDK delivers for one `generateContentStream` call: the text of each chunk,
      in order, and whether it raises after them (raising before any chunk, including
      `generateContentStream` itself rejecting, is `fails` with no chunks). */
  datatype Upstream = Upstream(chunks: seq<string>, fails: bool)

  /** One resumption of the generator: a yielded fragment, normal completion, or a throw. */
  datatype Step = Yield(text: string) | Done | Throw(message: string)

  /** The only error the generator ever throws, whatever the SDK raised. */
  const GenerationError: string := "Failed to generate text with Gemini"

  /** The chunk texts that pass the `if (chunkText)` test, in upstream order. */
  function NonEmpty(chunks: seq<string>): seq<string>
  {
    if chunks == [] then []
    else (if chunks[0] == "" then [] else [chunks[0]]) + NonEmpty(chunks[1..])
  }

  /** The generator object `generateStreamingText` returns. Its body does not run when it
      is created but on each pull, up to the next `yield`. */
  class TextGenerator {
    const request: GenerationRequest
    const model: Model
    const upstream: Upstream
    /** Number of SDK chunks the body has read so far. */
    var consumed: nat
    /** The body has returned or thrown. */
    var finished: bool

    ghost predicate Valid()
      reads this
    {
      consumed <= |upstream.chunks|
    }

    /** The fragments the generator will still yield. */
    ghost function Pending(): seq<string>
      reads this
      requires Valid()
    {
      if finished then [] else NonEmpty(upstream.chunks[consumed..])
    }

    /** The generator will throw once its pending fragments are exhausted. */
    ghost function WillThrow(): bool
      reads this
    {
      !finished && upstream.fails
    }

    /** Calling `generateStreamingText(request...)`, whose SDK call will deliver `upstream`. */
    constructor (request: GenerationRequest, upstream: Upstream)
      requires IsPartialConfig(request.overrides)
      ensures Valid() && this.request == request && this.upstream == upstream
      ensures model == CreateGeminiModel(request.model, request.overrides)
      ensures Pending() == NonEmpty(upstream.chunks) && WillThrow() == upstream.fails
    {
      this.request := request;
      this.model := CreateGeminiModel(request.model, request.overrides);
      this.upstream := upstream;
      consumed := 0;
      finished := false;
      new;
      assert upstream.chunks[0..] == upstream.chunks;
    }

    /** Runs the body until it yields the next non-empty chunk text, completes, or maps
        the SDK's failure to `GenerationError`. */
    method Next() returns (step: Step)
      requires Valid()
      modifies this
      ensures Valid()
      ensures old(Pending()) != [] ==>
        step == Yield(old(Pending())[0]) && Pending() == old(Pending())[1..] && WillThrow() == old(WillThrow())
      ensures old(Pending()) == [] ==>
        finished && step == (if old(WillThrow()) then Throw(GenerationError) else Done)
    {
      if finished {
        return Done;
      }
      while consumed < |upstream.chunks| && upstream.chunks[consumed] == ""
        invariant consumed <= |upstream.chunks| && !finished
        invariant NonEmpty(upstream.chunks[consumed..]) == old(Pending())
        decreases |upstream.chunks| - consumed
      {
        assert upstream.chunks[consumed..][1..] == upstream.chunks[consumed + 1..];
        consumed := consumed + 1;
      }
      if consumed < |upstream.chunks| {
        ghost var rest := upstream.chunks[consumed..];
        assert rest[1..] == upstream.chunks[consumed + 1..];
        assert NonEmpty(rest) == [rest[0]] + NonEmpty(rest[1..]);
        step := Yield(upstream.chunks[consumed]);
        consumed := consumed + 1;
        assert upstream.chunks[consumed..] == rest[1..];

      } else {
        finished := true;
        step := if upstream.fails then Throw(GenerationError) else Done;
      }
    }
  }

  lemma {:induction false} NonEmptyAppend(a: seq<string>, b: seq<string>)
    ensures NonEmpty(a + b) == NonEmpty(a) + NonEmpty(b)
  {
    if a != [] {
      assert (a + b)[0] == a[0];
      assert (a + b)[1..] == a[1..] + b;
      NonEmptyAppend(a[1..], b);
      var h := if a[0] == "" then [] else [a[0]];
      calc {
        NonEmpty(a + b);
        h + NonEmpty(a[1..] + b);
        h + (NonEmpty(a[1..]) + NonEmpty(b));
        (h + NonEmpty(a[1..])) + NonEmpty(b);
      }
    } else {
      assert a + b == b;
    }
  }

  /** The generator yields exactly the non-empty chunk texts: each yielded text is a
      non-empty chunk, every non-empty chunk is yielded, and the order is the upstream's
      (filtering distributes over concatenation). */
  lemma {:induction false} NonEmptyIsFilter(chunks: seq<string>)
    ensures forall t :: t in NonEmpty(chunks) <==> t in chunks && t != ""
    ensures forall a, b :: chunks == a + b ==> NonEmpty(chunks) == NonEmpty(a) + NonEmpty(b)
    ensures (forall i :: 0 <= i < |chunks| ==> chunks[i] != "") ==> NonEmpty(chunks) == chunks
  {
    if chunks != [] {
      NonEmptyIsFilter(chunks[1..]);
      assert chunks == [chunks[0]] + chunks[1..];
    }
    forall a, b | chunks == a + b ensures NonEmpty(chunks) == NonEmpty(a) + NonEmpty(b) {
      NonEmptyAppend(a, b);
    }
  }

  // ---------------------------------------------------------------------------
  // createGeminiStreamingResponse: framing
  // ---------------------------------------------------------------------------

  /** The record for one fragment, before its line feed: `0:` and the fragment as a JSON string. */
  function ContentRecord(fragment: string): string
  {
    "0:" + JsonString.Quote(fragment)
  }

  /** The terminal error record: `2:` and `JSON.stringify({ error: "Stream error" })`. */
  const ErrorRecord: string := "2:{\"error\":\"Stream error\"}"

  /** The records a run produces: one content record per fragment, in order, then the
      error record if the generator threw. */
  function Records(fragments: seq<string>, failed: bool): seq<string>
  {
    seq(|fragments|, i requires 0 <= i < |fragments| => ContentRecord(fragments[i]))
    + (if failed then [ErrorRecord] else [])
  }

  /** The chunks enqueued on the body: each record followed by a line feed. */
  function Framed(records: seq<string>): seq<string>
  {
    seq(|records|, i requires 0 <= i < |records| => records[i] + "\n")
  }

  /** The text a client receives: the enqueued chunks one after the other. */
  function Concat(chunks: seq<string>): string
  {
    if chunks == [] then [] else chunks[0] + Concat(chunks[1..])
  }

  /** `Content-Type: text/plain`, `Cache-Control: no-cache`, `Connection: keep-alive`. */
  const StreamHeaders: seq<(string, string)> :=
    [("Content-Type", "text/plain"), ("Cache-Control", "no-cache"), ("Connection", "keep-alive")]

  /** The controller of the response's `ReadableStream`: what has been enqueued and how
      often `close` was called. */
  class StreamController {
    var enqueued: seq<string>
    var closeCalls: nat

    constructor ()
      ensures enqueued == [] && closeCalls == 0
    {
      enqueued := [];
      closeCalls := 0;
    }

    /** `controller.enqueue`: the stream rejects chunks once it is closed. */
    method Enqueue(chunk: string)
      requires closeCalls == 0
      modifies this
      ensures enqueued == old(enqueued) + [chunk] && closeCalls == old(closeCalls)
    {
      enqueued := enqueued + [chunk];
    }

    /** `controller.close`. */
    method Close()
      modifies this
      ensures enqueued == old(enqueued) && closeCalls == old(closeCalls) + 1
    {
      closeCalls := closeCalls + 1;
    }
  }

  lemma FramedContentSnoc(fragments: seq<string>, f: string)
    ensures Framed(Records(fragments + [f], false)) == Framed(Records(fragments, false)) + ["0:" + JsonString.Quote(f) + "\n"]
  {
  }

  lemma FramedPrefixSnoc(fragments: seq<string>, n: nat)
    requires n < |fragments|
    ensures Framed(Records(fragments[..n + 1], false))
      == Framed(Records(fragments[..n], false)) + ["0:" + JsonString.Quote(fragments[n]) + "\n"]
  {
    assert fragments[..n + 1] == fragments[..n] + [fragments[n]];
    FramedContentSnoc(fragments[..n], fragments[n]);
  }

  lemma FramedErrorSnoc(fragments: seq<string>)
    ensures Framed(Records(fragments, true)) == Framed(Records(fragments, false)) + [ErrorRecord + "\n"]
  {
  }

  lemma FramedRun(fragments: seq<string>, failed: bool)
    ensures Framed(Records(fragments, failed))
      == Framed(Records(fragments, false)) + (if failed then [ErrorRecord + "\n"] else [])
  {
    if failed {
      FramedErrorSnoc(fragments);
    } else {
      assert Framed(Records(fragments, failed)) == Framed(Records(fragments, false)) + [];
    }
  }

  /** `createGeminiStreamingResponse`: pulls every fragment from the generator, enqueues
      one `0:` line for each, one `2:` line if the generator throws, and closes the
      stream exactly once in every case. */
  method CreateGeminiStreamingResponse(gen: TextGenerator)
    returns (status: int, headers: seq<(string, string)>, body: StreamController)
    requires gen.Valid()
    modifies gen
    ensures fresh(body) && status == 200 && headers == StreamHeaders
    ensures body.enqueued == Framed(Records(old(gen.Pending()), old(gen.WillThrow())))
    ensures body.closeCalls == 1
    ensures gen.Valid() && gen.Pending() == [] && !gen.WillThrow()
  {
    body := new StreamController();
    ghost var all, fails := gen.Pending(), gen.WillThrow();
    var outcome := EnqueueFragments(gen, body);
    FramedRun(all, fails);
    if outcome.Throw? {
      body.Enqueue(ErrorRecord + "\n");
    }
    body.Close();
    status, headers := 200, StreamHeaders;
  }

  /** The `for await` loop of `createGeminiStreamingResponse`: one `0:` line per fragment,
      until the generator completes or throws. */
  method EnqueueFragments(gen: TextGenerator, body: StreamController) returns (outcome: Step)
    requires gen.Valid() && body.enqueued == [] && body.closeCalls == 0
    modifies gen, body
    ensures body.enqueued == Framed(Records(old(gen.Pending()), false)) && body.closeCalls == 0
    ensures outcome == if old(gen.WillThrow()) then Throw(GenerationError) else Done
    ensures gen.Valid() && gen.Pending() == [] && !gen.WillThrow()
  {
    ghost var all, fails := gen.Pending(), gen.WillThrow();
    ghost var n := 0;
    outcome := gen.Next();
    while outcome.Yield?
      invariant gen.Valid() && body.closeCalls == 0 && n <= |all|
      invariant outcome.Yield? ==>
        n < |all| && outcome.text == all[n] && gen.Pending() == all[n + 1..] && gen.WillThrow() == fails
      invariant !outcome.Yield? ==> n == |all| && outcome == (if fails then Throw(GenerationError) else Done) && gen.finished
      invariant body.enqueued == Framed(Records(all[..n], false))
      decreases |all| - n
    {
      EnqueueContent(body, outcome.text, all, n);
      n := n + 1;
      outcome := gen.Next();
    }
    assert all[..n] == all;
  }

  /** One pass of the loop: `controller.enqueue` of the `0:` line for the n-th fragment
      extends the body from the first n fragments' lines to the first n+1. */
  method EnqueueContent(body: StreamController, text: string, ghost fragments: seq<string>, ghost n: nat)
    requires n < |fragments| && text == fragments[n] && body.closeCalls == 0
    requires body.enqueued == Framed(Records(fragments[..n], false))
    modifies body
    ensures body.enqueued == Framed(Records(fragments[..n + 1], false)) && body.closeCalls == 0
  {
    FramedPrefixSnoc(fragments, n);
    body.Enqueue("0:" + JsonString.Quote(text) + "\n");
  }

  /** A route's `createGeminiStreamingResponse(generateStreamingText(request...))` when the
      SDK delivers `upstream`: the body is framed from the non-empty chunks, with a `2:`
      line if the SDK failed at any point, including before the first chunk. */
  method StreamGeneration(request: GenerationRequest, upstream: Upstream)
    returns (status: int, headers: seq<(string, string)>, body: StreamController)
    requires IsPartialConfig(request.overrides)
    ensures fresh(body) && status == 200 && headers == StreamHeaders
    ensures body.enqueued == Framed(Records(NonEmpty(upstream.chunks), upstream.fails))
    ensures body.closeCalls == 1
  {
    var gen := new TextGenerator(request, upstream);
    status, headers, body := CreateGeminiStreamingResponse(gen);
  }

  // ---------------------------------------------------------------------------
  // What a client reads back
  // ---------------------------------------------------------------------------

  /** What a client has received: the fragments, and whether an error record ended them. */
  datatype Received = Received(fragments: seq<string>, errored: bool)

  /** A client reading records: `0:` records carry a JSON string; an error record may only
      come last; anything else is malformed. */
  function ParseRecords(records: seq<string>): Option<Received>
  {
    if records == [] then Some(Received([], false))
    else if records[0] == ErrorRecord then (if |records| == 1 then Some(Received([], true)) else None)
    else if |records[0]| >= 2 && records[0][..2] == "0:" then
      match (JsonString.Unquote(records[0][2..]), ParseRecords(records[1..]))
      case (Some(f), Some(rest)) => Some(Received([f] + rest.fragments, rest.errored))
      case _ => None
    else None
  }

  /** A client reading a whole body: split at line feeds, then parse the records. */
  function ParseBody(body: string): Option<Received>
  {
    ParseRecords(Lines.Split(body))
  }

  /** The records of a run are n content records in input order, then exactly one error
      record when and only when the generator failed; an error record never comes before
      a content record, and an empty successful run produces nothing. */
  lemma RecordsShape(fragments: seq<string>, failed: bool)
    ensures |Records(fragments, failed)| == |fragments| + (if failed then 1 else 0)
    ensures forall i :: 0 <= i < |fragments| ==> Records(fragments, failed)[i] == "0:" + JsonString.Quote(fragments[i])
    ensures failed ==> Records(fragments, failed)[|fragments|] == ErrorRecord
    ensures forall i :: 0 <= i < |Records(fragments, failed)| && Records(fragments, failed)[i] == ErrorRecord ==>
      failed && i == |fragments|
    ensures !failed && fragments == [] ==> Records(fragments, failed) == []
  {
    var r := Records(fragments, failed);
    forall i | 0 <= i < |fragments| ensures r[i] != ErrorRecord {
      assert r[i][0] == '0' && ErrorRecord[0] == '2';
    }
  }

  /** No record contains a line feed, so every enqueued chunk is exactly one line. */
  lemma RecordsAreSingleLines(fragments: seq<string>, failed: bool)
    ensures forall i :: 0 <= i < |Records(fragments, failed)| ==> '\n' !in Records(fragments, failed)[i]
  {
    var r := Records(fragments, failed);
    forall i | 0 <= i < |r| ensures '\n' !in r[i] {
      if i < |fragments| {
        JsonString.QuotePrintable(fragments[i]);
        assert r[i] == "0:" + JsonString.Quote(fragments[i]);
      }
    }
  }

  lemma {:induction false} ConcatFramed(records: seq<string>)
    ensures Concat(Framed(records)) == Lines.Terminated(records)
  {
    if records != [] {
      assert Framed(records)[1..] == Framed(records[1..]);
      ConcatFramed(records[1..]);
    }
  }

  lemma {:induction false} ParseRecordsOf(fragments: seq<string>, failed: bool)
    ensures ParseRecords(Records(fragments, failed)) == Some(Received(fragments, failed))
  {
    var r := Records(fragments, failed);
    if fragments == [] {
      assert r == (if failed then [ErrorRecord] else []);
    } else {
      assert r[1..] == Records(fragments[1..], failed);
      assert r[0] == "0:" + JsonString.Quote(fragments[0]);
      assert r[0][..2] == "0:" && r[0][2..] == JsonString.Quote(fragments[0]);
      assert r[0] != ErrorRecord by { assert r[0][0] != ErrorRecord[0]; }
      JsonString.UnquoteQuote(fragments[0]);
      ParseRecordsOf(fragments[1..], failed);
      assert [fragments[0]] + fragments[1..] == fragments;
    }
  }

  /** Round trip of the wire format: a client that splits the body at line feeds and
      decodes each record recovers the fragments in order and sees whether the stream
      ended with an error. */
  lemma BodyRoundTrip(fragments: seq<string>, failed: bool)
    ensures ParseBody(Concat(Framed(Records(fragments, failed)))) == Some(Received(fragments, failed))
  {
    ConcatFramed(Records(fragments, failed));
    RecordsAreSingleLines(fragments, failed);
    Lines.SplitTerminated(Records(fragments, failed));
    ParseRecordsOf(fragments, failed);
  }

  /** A failure before the SDK delivers any text still yields a successful response: the
      body holds the single error record and nothing else. */
  lemma FailureBeforeFirstChunk(upstream: Upstream)
    requires upstream.fails && forall i :: 0 <= i < |upstream.chunks| ==> upstream.chunks[i] == ""
    ensures Concat(Framed(Records(NonEmpty(upstream.chunks), upstream.fails))) == ErrorRecord + "\n"
    ensures ParseBody(ErrorRecord + "\n") == Some(Received([], true))
  {
    NonEmptyOfBlanks(upstream.chunks);
    var framed := Framed(Records([], true));
    assert framed == [ErrorRecord + "\n"];
    assert Concat(framed) == ErrorRecord + "\n" + Concat([]);
    BodyRoundTrip([], true);
  }

  lemma {:induction false} NonEmptyOfBlanks(chunks: seq<string>)
    requires forall i :: 0 <= i < |chunks| ==> chunks[i] == ""
    ensures NonEmpty(chunks) == []
  {
    if chunks != [] {
      NonEmptyOfBlanks(chunks[1..]);
    }
  }
}
