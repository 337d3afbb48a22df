/**
 * The OpenAI-compatible HTTP server: the `POST /v1/chat/completions` handler
 * (validation, parameter defaults, the non-streaming envelope, and the
 * server-sent-event stream) and the server's `main`.
 *
 * A request body is the JSON tree it parses to, or None when it does not parse.
 * A response is an object whose status, headers and content the handler sets.
 * A streamed response's content is the job the chunked-content provider runs
 * later; running it writes events to a sink whose writes succeed or fail as
 * scripted. An event stands for its text on the wire: a chunk `c` is
 * `"data: " + c.dump() + "\n\n"` and the sentinel is `"data: [DONE]\n\n"`.
 */
module Server {
  import opened Wrappers
  import opened Json
  import opened Common
  import opened Engine
  import opened Argv

  // ---------------------------------------------------------------------------
  // Responses

  const JsonMime: string := "application/json"
  const EventStreamMime: string := "text/event-stream"
  const InvalidJsonBody: string := "{\"error\":{\"message\":\"Invalid JSON\",\"type\":\"invalid_request_error\"}}"
  const MessagesRequiredBody: string :=
    "{\"error\":{\"message\":\"messages field is required and must be an array\",\"type\":\"invalid_request_error\"}}"
  const StreamHeaders: seq<(string, string)> := [("Cache-Control", "no-cache"), ("Connection", "keep-alive")]

  /** What a streamed response's provider captures: the id, the model name, the prompt and the sampling values. */
  datatype StreamJob = StreamJob(
    id: string, model: string, messages: seq<Json>,
    temperature: real, topP: real, maxTokens: int)

  /** A response body: none yet, a literal text, a JSON document (sent as its dump), or an event stream. */
  datatype Content =
    | NoContent
    | Literal(text: string, mime: string)
    | Document(json: Json, mime: string)
    | EventStream(mime: string, job: StreamJob)

  /** `httplib::Response` as far as the handler sets it; a status of None is the library's default. */
  class Response {
    var status: Option<int>
    var headers: seq<(string, string)>
    var content: Content

    constructor ()
      ensures status == None && headers == [] && content == NoContent
    {
      status, headers, content := None, [], NoContent;
    }

    method SetStatus(code: int)
      modifies this
      ensures status == Some(code) && headers == old(headers) && content == old(content)
    {
      status := Some(code);
    }

    method SetHeader(name: string, value: string)
      modifies this
      ensures headers == old(headers) + [(name, value)]
      ensures status == old(status) && content == old(content)
    {
      headers := headers + [(name, value)];
    }

    method SetContent(c: Content)
      modifies this
      ensures content == c && status == old(status) && headers == old(headers)
    {
      content := c;
    }
  }

  // ---------------------------------------------------------------------------
  // The chat-completions handler, specified

  datatype RequestParams = RequestParams(stream: bool, temperature: real, topP: real, maxTokens: int)

  /**
   * The four `body.value(key, default)` reads. None: a present key holds a value
   * of the wrong type, and the read throws.
   */
  function ReadParams(body: Json): (r: Option<RequestParams>)
    requires body.JObject?
    ensures r.None? <==>
      || ("stream" in body.fields && AsBool(body.fields["stream"]).None?)
      || ("temperature" in body.fields && AsReal(body.fields["temperature"]).None?)
      || ("top_p" in body.fields && AsReal(body.fields["top_p"]).None?)
      || ("max_tokens" in body.fields && AsInt(body.fields["max_tokens"]).None?)
    ensures r.Some? && "stream" !in body.fields ==> !r.value.stream
    ensures r.Some? && "temperature" !in body.fields ==> r.value.temperature == 0.7
    ensures r.Some? && "top_p" !in body.fields ==> r.value.topP == 0.9
    ensures r.Some? && "max_tokens" !in body.fields ==> r.value.maxTokens == -1
    ensures r.Some? && "stream" in body.fields ==> Some(r.value.stream) == AsBool(body.fields["stream"])
    ensures r.Some? && "temperature" in body.fields ==> Some(r.value.temperature) == AsReal(body.fields["temperature"])
    ensures r.Some? && "top_p" in body.fields ==> Some(r.value.topP) == AsReal(body.fields["top_p"])
    ensures r.Some? && "max_tokens" in body.fields ==> Some(r.value.maxTokens) == AsInt(body.fields["max_tokens"])
  {
    var stream :- ValueOr(body, "stream", false, AsBool);
    var temperature :- ValueOr(body, "temperature", 0.7, AsReal);
    var topP :- ValueOr(body, "top_p", 0.9, AsReal);
    var maxTokens :- ValueOr(body, "max_tokens", -1, AsInt);
    Some(RequestParams(stream, temperature, topP, maxTokens))
  }

  /** The body carries a `messages` array. */
  predicate HasMessages(body: Json) {
    Contains(body, "messages") && body.fields["messages"].JArray?
  }

  /** A well-formed request for a non-streamed completion, which the handler passes to `generate`. */
  predicate AsksForCompletion(body: Option<Json>) {
    body.Some? && HasMessages(body.value) && ReadParams(body.value).Some? && !ReadParams(body.value).value.stream
  }

  /** What the handler leaves in the response, or that it threw. */
  datatype Reply = Answer(status: Option<int>, headers: seq<(string, string)>, content: Content) | Thrown

  /**
   * The handler's effect: 400 with a fixed error body for a body that does not
   * parse or lacks a `messages` array; an exception for a mistyped parameter;
   * otherwise an event stream, or the full completion of `generate` wrapped in
   * a `chat.completion` object with zero usage. `modelName` and `loaded` are
   * the engine's state, `draw` the random value behind the id, `now` the clock.
   */
  function ChatCompletionsReply(body: Option<Json>, modelName: string, loaded: bool, b: Backend, draw: nat, now: int): Reply
    requires draw < Uint64Bound
  {
    if body.None? then Answer(Some(400), [], Literal(InvalidJsonBody, JsonMime))
    else if !HasMessages(body.value) then Answer(Some(400), [], Literal(MessagesRequiredBody, JsonMime))
    else match ReadParams(body.value)
      case None => Thrown
      case Some(p) =>
        var messages := body.value.fields["messages"].elems;
        var id := CompletionId(draw);
        if p.stream then
          Answer(None, StreamHeaders, EventStream(EventStreamMime, StreamJob(id, modelName, messages, p.temperature, p.topP, p.maxTokens)))
        else
          var o := Generation(loaded, b, AlwaysContinue);
          Answer(None, [], Document(FormatChatCompletion(id, modelName, Concat(o.delivered), o.finishReason, 0, 0, now), JsonMime))
  }

  /** Status 400 is set exactly for a body that does not parse or has no `messages` array, with the matching error body. */
  lemma BadRequestIff(body: Option<Json>, modelName: string, loaded: bool, b: Backend, draw: nat, now: int)
    requires draw < Uint64Bound
    ensures var r := ChatCompletionsReply(body, modelName, loaded, b, draw, now);
      && (r.Answer? && r.status == Some(400) <==> body.None? || !HasMessages(body.value))
      && (body.None? ==> r == Answer(Some(400), [], Literal(InvalidJsonBody, JsonMime)))
      && (body.Some? && !HasMessages(body.value) ==> r == Answer(Some(400), [], Literal(MessagesRequiredBody, JsonMime)))
  {
  }

  /**
   * A well-formed non-streaming request is answered with a completion whose id
   * carries the drawn value, whose content is everything `generate` produced in
   * order, with its finish reason, and whose usage is 0/0/0.
   */
  lemma NonStreamingEnvelope(body: Json, modelName: string, loaded: bool, b: Backend, draw: nat, now: int)
    requires draw < Uint64Bound
    requires HasMessages(body) && ReadParams(body).Some? && !ReadParams(body).value.stream
    ensures var r := ChatCompletionsReply(Some(body), modelName, loaded, b, draw, now);
      var o := Generation(loaded, b, AlwaysContinue);
      && r.Answer? && r.status == None && r.content.Document? && r.content.mime == JsonMime
      && ReadCompletion(r.content.json) == Some(CompletionView(CompletionId(draw), modelName, now, Concat(o.delivered), o.finishReason, 0, 0, 0))
      && ParseCompletionId(CompletionId(draw)) == Some(draw)
      && o.finishReason in {"stop", "length"}
  {
    CompletionIdRoundTrip(draw);
    GenerationFinishes(loaded, b, AlwaysContinue);
  }

  /**
   * A well-formed streaming request sets the no-cache and keep-alive headers and
   * hands the provider every message of the request, in order, with the
   * request's sampling values.
   */
  lemma StreamingSetup(body: Json, modelName: string, loaded: bool, b: Backend, draw: nat, now: int)
    requires draw < Uint64Bound
    requires HasMessages(body) && ReadParams(body).Some? && ReadParams(body).value.stream
    ensures var r := ChatCompletionsReply(Some(body), modelName, loaded, b, draw, now);
      var p := ReadParams(body).value;
      && r.Answer? && r.status == None && r.headers == StreamHeaders
      && r.content == EventStream(EventStreamMime,
           StreamJob(CompletionId(draw), modelName, body.fields["messages"].elems, p.temperature, p.topP, p.maxTokens))
  {
  }

  // ---------------------------------------------------------------------------
  // The chat-completions handler

  /**
   * `handle_chat_completions` on a fresh response. Returns whether it threw (a
   * mistyped parameter), in which case the response is left as it was, and
   * what the non-streaming branch's `generate` hands the backend (None when it
   * is not called or stops short of that call).
   */
  method HandleChatCompletions(body: Option<Json>, res: Response, engine: HailoEngine, b: Backend, draw: nat, now: int)
    returns (thrown: bool, params: Option<SamplingParams>, prompt: Option<seq<Json>>)
    requires draw < Uint64Bound
    requires res.status == None && res.headers == [] && res.content == NoContent
    modifies res
    ensures var r := ChatCompletionsReply(body, engine.modelName, engine.hasModel, b, draw, now);
      if r.Thrown? then thrown && res.status == None && res.headers == [] && res.content == NoContent
      else !thrown && res.status == r.status && res.headers == r.headers && res.content == r.content
    ensures !AsksForCompletion(body) ==> params == None && prompt == None
    ensures AsksForCompletion(body) ==> var p := ReadParams(body.value).value;
      params == if ParamsHanded(engine.hasModel, b) then Some(Configure(p.temperature, p.topP, p.maxTokens)) else None
    ensures AsksForCompletion(body) ==>
      prompt == if PromptWritten(engine.hasModel, b) then Some(body.value.fields["messages"].elems) else None
  {
    params, prompt := None, None;
    if body.None? {
      res.SetStatus(400);
      res.SetContent(Literal(InvalidJsonBody, JsonMime));
      return false, params, prompt;
    }
    var j := body.value;
    if !Contains(j, "messages") || !j.fields["messages"].JArray? {
      res.SetStatus(400);
      res.SetContent(Literal(MessagesRequiredBody, JsonMime));
      return false, params, prompt;
    }
    var elems := j.fields["messages"].elems;
    var messages: seq<Json> := [];
    for i := 0 to |elems|
      invariant messages == elems[..i]
    {
      messages := messages + [elems[i]];
    }
    assert elems[..|elems|] == elems;
    var read := ReadParams(j);
    if read.None? {
      return true, params, prompt;
    }
    var p := read.value;
    if p.stream {
      var id := CompletionId(draw);
      var model := engine.modelName;
      res.SetHeader("Cache-Control", "no-cache");
      res.SetHeader("Connection", "keep-alive");
      res.SetContent(EventStream(EventStreamMime, StreamJob(id, model, messages, p.temperature, p.topP, p.maxTokens)));
    } else {
      var content, finishReason;
      content, finishReason, params, prompt := engine.Generate(messages, p.temperature, p.topP, p.maxTokens, b);
      var id := CompletionId(draw);
      var response := FormatChatCompletion(id, engine.modelName, content, finishReason, 0, 0, now);
      res.SetContent(Document(response, JsonMime));
    }
    return false, params, prompt;
  }

  // ---------------------------------------------------------------------------
  // The event stream

  /** One write to the sink: a chunk, or the `[DONE]` sentinel. */
  datatype Event = ChunkEvent(chunk: Json) | DoneEvent

  /** `httplib::DataSink`: the writes made, whether `done()` was called, and which writes succeed. */
  class Sink {
    var writes: seq<Event>
    var closed: bool
    /** Whether the n-th write succeeds (the client is still reading). */
    const accepts: nat -> bool

    constructor (accepts: nat -> bool)
      ensures writes == [] && !closed && this.accepts == accepts
    {
      writes, closed := [], false;
      this.accepts := accepts;
    }

    method Write(e: Event) returns (ok: bool)
      modifies this
      ensures writes == old(writes) + [e] && closed == old(closed)
      ensures ok == accepts(|old(writes)|)
    {
      ok := accepts(|writes|);
      writes := writes + [e];
    }

    method Done()
      modifies this
      ensures closed && writes == old(writes)
    {
      closed := true;
    }
  }

  /** The sink's answers counted from write `base` on: the callback's k-th answer is write base + k. */
  function AcceptsFrom(accepts: nat -> bool, base: nat): (cont: nat -> bool)
    ensures forall k: nat :: cont(k) == accepts(base + k)
  {
    (k: nat) => accepts(base + k)
  }

  /**
   * The writes a stream makes for a generation outcome: one chunk per forwarded
   * fragment with no finish reason, then a chunk with an empty delta and the
   * finish reason, then the sentinel. `clock(k)` is the time the k-th chunk reads.
   */
  function StreamEvents(job: StreamJob, o: Outcome, clock: nat -> int): (events: seq<Event>)
    ensures |events| == |o.delivered| + 2
  {
    seq(|o.delivered|, k requires 0 <= k < |o.delivered| =>
      ChunkEvent(FormatChatCompletionChunk(job.id, job.model, o.delivered[k], "", clock(k))))
    + [ChunkEvent(FormatChatCompletionChunk(job.id, job.model, "", o.finishReason, clock(|o.delivered|))), DoneEvent]
  }

  /**
   * What a client reads from a stream: chunks for the forwarded fragments in
   * order, each without a finish reason; then exactly one chunk with no delta
   * and the engine's finish reason; then the sentinel, and only there.
   */
  lemma StreamShape(job: StreamJob, o: Outcome, clock: nat -> int)
    requires o.finishReason != ""
    ensures var events := StreamEvents(job, o, clock); var n := |o.delivered|;
      && (forall k :: 0 <= k < n ==>
            && events[k].ChunkEvent?
            && ReadChunk(events[k].chunk) ==
                 Some(ChunkView(job.id, job.model, clock(k), if o.delivered[k] == "" then None else Some(o.delivered[k]), None)))
      && events[n].ChunkEvent?
      && ReadChunk(events[n].chunk) == Some(ChunkView(job.id, job.model, clock(n), None, Some(o.finishReason)))
      && events[n + 1] == DoneEvent
      && (forall k :: 0 <= k < n + 1 ==> events[k] != DoneEvent)
  {
    var events := StreamEvents(job, o, clock);
    var n := |o.delivered|;
    forall k | 0 <= k < n
      ensures events[k] == ChunkEvent(FormatChatCompletionChunk(job.id, job.model, o.delivered[k], "", clock(k)))
    {
    }
  }

  /**
   * The callback's writes, replayed in order: one chunk per forwarded fragment,
   * with no finish reason, each written whatever became of the writes before.
   */
  method WriteFragmentChunks(sink: Sink, job: StreamJob, o: Outcome, clock: nat -> int)
    modifies sink
    ensures sink.writes == old(sink.writes) + StreamEvents(job, o, clock)[..|o.delivered|]
    ensures sink.closed == old(sink.closed)
  {
    ghost var events := StreamEvents(job, o, clock);
    for k := 0 to |o.delivered|
      invariant sink.writes == old(sink.writes) + events[..k]
      invariant sink.closed == old(sink.closed)
    {
      var chunk := FormatChatCompletionChunk(job.id, job.model, o.delivered[k], "", clock(k));
      var written := sink.Write(ChunkEvent(chunk));
      assert events[..k + 1] == events[..k] + [events[k]];
    }
  }

  /**
   * The provider: generate with a callback that writes one chunk per fragment
   * and reports whether the write succeeded, then write the final chunk and the
   * sentinel (whether or not an earlier write failed), close the sink, and
   * report success. `params` and `prompt` are what the generation hands the
   * backend.
   */
  method RunStream(job: StreamJob, sink: Sink, engine: HailoEngine, b: Backend, clock: nat -> int)
    returns (ok: bool, params: Option<SamplingParams>, prompt: Option<seq<Json>>)
    modifies sink
    ensures var o := Generation(engine.hasModel, b, AcceptsFrom(sink.accepts, |old(sink.writes)|));
      sink.writes == old(sink.writes) + StreamEvents(job, o, clock)
    ensures sink.closed && ok
    ensures params == if ParamsHanded(engine.hasModel, b) then Some(Configure(job.temperature, job.topP, job.maxTokens)) else None
    ensures prompt == if PromptWritten(engine.hasModel, b) then Some(job.messages) else None
  {
    var cont := AcceptsFrom(sink.accepts, |sink.writes|);
    assert cont == AcceptsFrom(sink.accepts, |old(sink.writes)|);
    var o;
    o, params, prompt := engine.GenerateStreaming(job.messages, cont, job.temperature, job.topP, job.maxTokens, b);
    ghost var events := StreamEvents(job, o, clock);
    WriteFragmentChunks(sink, job, o, clock);
    var last := FormatChatCompletionChunk(job.id, job.model, "", o.finishReason, clock(|o.delivered|));
    var written := sink.Write(ChunkEvent(last));
    written := sink.Write(DoneEvent);
    assert events == events[..|o.delivered|] + [ChunkEvent(last), DoneEvent];
    assert sink.writes == old(sink.writes) + events;
    sink.Done();
    return true, params, prompt;
  }


  /**
   * A failed write of fragment k's chunk stops the generation: the stream holds
   * k + 1 fragment chunks, then the final chunk with finish reason "stop", then
   * the sentinel.
   */
  lemma WriteFailureStops(job: StreamJob, loaded: bool, b: Backend, accepts: nat -> bool, base: nat, clock: nat -> int, k: nat)
    requires var o := Generation(loaded, b, AcceptsFrom(accepts, base)); k < |o.delivered|
    requires !accepts(base + k)
    ensures var o := Generation(loaded, b, AcceptsFrom(accepts, base));
      var events := StreamEvents(job, o, clock);
      && |events| == k + 3
      && o.finishReason == "stop"
      && ReadChunk(events[k + 1].chunk) == Some(ChunkView(job.id, job.model, clock(k + 1), None, Some("stop")))
      && events[k + 2] == DoneEvent
  {
    var cont := AcceptsFrom(accepts, base);
    RefusalAborts(loaded, b, cont, k);
    StreamShape(job, Generation(loaded, b, cont), clock);
  }

  // ---------------------------------------------------------------------------
  // Command line and main

  datatype ServerConfig = ServerConfig(hefPath: string, modelName: string, host: string, port: int)

  const ServerValueOptions: set<string> := {"--model", "--model-name", "--host", "--port"}

  /**
   * What the server's `main` does with the scanned arguments: exit 0 for help,
   * exit 1 for an unknown option or a missing model path, otherwise serve with
   * the given values or the defaults. `parseInt` stands for `std::atoi`.
   */
  function ServerLaunch(scan: Scan, parseInt: string -> int): (l: Launch<ServerConfig>)
    ensures scan.Help? <==> l == Exit(0)
    ensures l.Start? <==> scan.Options? && ValueOf(scan.values, "--model") != ""
    ensures !l.Start? && !scan.Help? ==> l == Exit(1)
    ensures l.Start? ==> l.config.hefPath == ValueOf(scan.values, "--model")
    ensures l.Start? && ValueOf(scan.values, "--model-name") == "" ==> l.config.modelName == Stem(l.config.hefPath)
    ensures l.Start? && ValueOf(scan.values, "--model-name") != "" ==> l.config.modelName == scan.values["--model-name"]
    ensures l.Start? && "--host" !in scan.values ==> l.config.host == "127.0.0.1"
    ensures l.Start? && "--host" in scan.values ==> l.config.host == scan.values["--host"]
    ensures l.Start? && "--port" !in scan.values ==> l.config.port == 8080
    ensures l.Start? && "--port" in scan.values ==> l.config.port == parseInt(scan.values["--port"])
  {
    match scan
    case Help => Exit(0)
    case Unknown(_) => Exit(1)
    case Options(values) =>
      var hefPath := ValueOf(values, "--model");
      if hefPath == "" then Exit(1)
      else
        var name := ValueOf(values, "--model-name");
        Start(ServerConfig(
          hefPath,
          if name == "" then Stem(hefPath) else name,
          if "--host" in values then values["--host"] else "127.0.0.1",
          if "--port" in values then parseInt(values["--port"]) else 8080))
  }

  /** With only `--model <path>` the server listens on 127.0.0.1:8080 under the path's stem. */
  lemma ServerDefaults(path: string, parseInt: string -> int)
    requires path != ""
    ensures ServerLaunch(ScanFrom(ServerValueOptions, ["--model", path], 0, map[]), parseInt)
      == Start(ServerConfig(path, Stem(path), "127.0.0.1", 8080))
  {
    var args := ["--model", path];
    assert ScanFrom(ServerValueOptions, args, 2, map["--model" := path]) == Options(map["--model" := path]);
  }

  /**
   * The server's `main`: parse the arguments, load the model, listen until
   * stopped (`listenOk` is whether `listen` bound the address), shut the engine
   * down. Returns the exit code, with the engine once one is made.
   */
  method RunServer(
    args: seq<string>, parseInt: string -> int,
    deviceStatus: HailoStatus, modelStatus: HailoStatus, capacity: Option<nat>, listenOk: bool)
    returns (exitCode: int, engine: HailoEngine?)
    ensures exitCode == match ServerLaunch(ScanFrom(ServerValueOptions, args, 0, map[]), parseInt)
      case Exit(code) => code
      case Start(_) => if deviceStatus == Success && modelStatus == Success && listenOk then 0 else 1
    ensures var l := ServerLaunch(ScanFrom(ServerValueOptions, args, 0, map[]), parseInt);
      && (engine != null <==> l.Start?)
      && (engine != null ==> engine.hefPath == l.config.hefPath && engine.modelName == l.config.modelName)
    ensures exitCode == 0 && engine != null ==> !engine.hasModel && !engine.hasDevice
  {
    engine := null;
    var scan := ScanArgs(ServerValueOptions, args);
    var launch := ServerLaunch(scan, parseInt);
    if launch.Exit? {
      return launch.code, engine;
    }
    var config := launch.config;
    engine := new HailoEngine();
    var ok := engine.Init(config.hefPath, config.modelName, deviceStatus, modelStatus, capacity);
    if !ok {
      return 1, engine;
    }
    if !listenOk {
      return 1, engine;
    }
    engine.Shutdown();
    return 0, engine;
  }
}
