/**
 * Helpers shared by the command-line chat tool and the HTTP server:
 * readable names for backend status codes, completion identifiers,
 * the OpenAI-style chat-completion objects, and the process-wide
 * interrupt flag.
 */
module Common {
  import opened Wrappers
  import opened Json

  // ---------------------------------------------------------------------------
  // Backend status codes

  /**
   * A `hailo_status` code. The eight codes the tools name are constructors of
   * their own; `OtherStatus` stands for every other code of the backend.
   */
  datatype HailoStatus =
    | Success
    | InvalidArgument
    | OutOfHostMemory
    | Timeout
    | InsufficientBuffer
    | InvalidOperation
    | NotFound
    | InternalFailure
    | OtherStatus(code: int)

  /** `hailo_status_to_string`: the name used in log lines. */
  function StatusName(status: HailoStatus): (name: string)
    ensures name == "HAILO_UNKNOWN" <==> status.OtherStatus?
    ensures |name| > 6 && name[..6] == "HAILO_"
  {
    match status
    case Success => "HAILO_SUCCESS"
    case InvalidArgument => "HAILO_INVALID_ARGUMENT"
    case OutOfHostMemory => "HAILO_OUT_OF_HOST_MEMORY"
    case Timeout => "HAILO_TIMEOUT"
    case InsufficientBuffer => "HAILO_INSUFFICIENT_BUFFER"
    case InvalidOperation => "HAILO_INVALID_OPERATION"
    case NotFound => "HAILO_NOT_FOUND"
    case InternalFailure => "HAILO_INTERNAL_FAILURE"
    case OtherStatus(_) => "HAILO_UNKNOWN"
  }

  /** Reads a log name back: the eight named codes and nothing else. */
  function StatusFromName(name: string): Option<HailoStatus> {
    if name == "HAILO_SUCCESS" then Some(Success)
    else if name == "HAILO_INVALID_ARGUMENT" then Some(InvalidArgument)
    else if name == "HAILO_OUT_OF_HOST_MEMORY" then Some(OutOfHostMemory)
    else if name == "HAILO_TIMEOUT" then Some(Timeout)
    else if name == "HAILO_INSUFFICIENT_BUFFER" then Some(InsufficientBuffer)
    else if name == "HAILO_INVALID_OPERATION" then Some(InvalidOperation)
    else if name == "HAILO_NOT_FOUND" then Some(NotFound)
    else if name == "HAILO_INTERNAL_FAILURE" then Some(InternalFailure)
    else None
  }

  /** Each named code has a name of its own; all other codes share "HAILO_UNKNOWN". */
  lemma StatusNameIdentifies(status: HailoStatus)
    ensures StatusFromName(StatusName(status)) == if status.OtherStatus? then None else Some(status)
  {
  }

  // ---------------------------------------------------------------------------
  // Completion identifiers

  const Uint64Bound: nat := 0x1_0000_0000_0000_0000

  /** The lower-case hexadecimal digit for `d`, as `std::hex` writes it. */
  function HexDigit(d: nat): (c: char)
    requires d < 16
  {
    if d < 10 then ('0' as int + d) as char else ('a' as int + d - 10) as char
  }

  function DigitValue(c: char): Option<nat> {
    if '0' <= c <= '9' then Some(c as int - '0' as int)
    else if 'a' <= c <= 'f' then Some(c as int - 'a' as int + 10)
    else None
  }

  predicate IsHexDigit(c: char) {
    '0' <= c <= '9' || 'a' <= c <= 'f'
  }

  /** An unsigned value written with `std::hex`: lower-case digits, no prefix, no padding. */
  function Hex(v: nat): (s: string)
    ensures |s| >= 1
    ensures forall i :: 0 <= i < |s| ==> IsHexDigit(s[i])
    decreases v
  {
    if v < 16 then [HexDigit(v)] else Hex(v / 16) + [HexDigit(v % 16)]
  }

  /** Reads a non-empty string of lower-case hexadecimal digits. */
  function ParseHex(s: string): Option<nat>
    decreases |s|
  {
    if |s| == 0 then None
    else
      var low :- DigitValue(s[|s| - 1]);
      if |s| == 1 then Some(low)
      else
        var high :- ParseHex(s[..|s| - 1]);
        Some(high * 16 + low)
  }

  lemma {:induction false} HexRoundTrip(v: nat)
    ensures ParseHex(Hex(v)) == Some(v)
    decreases v
  {
    var s := Hex(v);
    if v < 16 {
      DigitRoundTrip(v);
      assert s == [HexDigit(v)];
    } else {
      var high, low := v / 16, v % 16;
      HexRoundTrip(high);
      DigitRoundTrip(low);
      assert s == Hex(high) + [HexDigit(low)];
      assert s[..|s| - 1] == Hex(high);
      assert s[|s| - 1] == HexDigit(low);
      assert ParseHex(s) == Some(high * 16 + low);
      assert high * 16 + low == v;
    }
  }

  /** A digit reads back as its value. */
  lemma DigitRoundTrip(d: nat)
    requires d < 16
    ensures DigitValue(HexDigit(d)) == Some(d)
  {
  }

  /** No leading zero: the rendering starts with '0' only for the value 0. */
  lemma {:induction false} HexNoLeadingZero(v: nat)
    ensures Hex(v)[0] == '0' <==> v == 0
    decreases v
  {
    if v >= 16 {
      HexNoLeadingZero(v / 16);
      assert Hex(v)[0] == Hex(v / 16)[0];
    }
  }

  function Pow16(k: nat): (p: nat)
    ensures p >= 1
  {
    if k == 0 then 1 else 16 * Pow16(k - 1)
  }

  lemma {:induction false} HexLength(v: nat, k: nat)
    requires 1 <= k && v < Pow16(k)
    ensures |Hex(v)| <= k
    decreases k
  {
    if v >= 16 {
      assert k >= 2;
      assert v / 16 < Pow16(k - 1);
      HexLength(v / 16, k - 1);
    }
  }

  lemma Pow16Sixteen()
    ensures Pow16(16) == Uint64Bound
  {
    assert Pow16(1) == 0x10;
    assert Pow16(2) == 0x100;
    assert Pow16(3) == 0x1000;
    assert Pow16(4) == 0x1_0000;
    assert Pow16(5) == 0x10_0000;
    assert Pow16(6) == 0x100_0000;
    assert Pow16(7) == 0x1000_0000;
    assert Pow16(8) == 0x1_0000_0000;
    assert Pow16(9) == 0x10_0000_0000;
    assert Pow16(10) == 0x100_0000_0000;
    assert Pow16(11) == 0x1000_0000_0000;
    assert Pow16(12) == 0x1_0000_0000_0000;
    assert Pow16(13) == 0x10_0000_0000_0000;
    assert Pow16(14) == 0x100_0000_0000_0000;
    assert Pow16(15) == 0x1000_0000_0000_0000;
  }

  const CompletionIdPrefix: string := "chatcmpl-"

  /**
   * `generate_completion_id`: "chatcmpl-" followed by the hexadecimal rendering
   * of a 64-bit value; `draw` is the value the random generator produced.
   */
  function CompletionId(draw: nat): (id: string)
    requires draw < Uint64Bound
    ensures |CompletionIdPrefix| < |id| <= |CompletionIdPrefix| + 16
    ensures id[..|CompletionIdPrefix|] == CompletionIdPrefix
    ensures forall i :: |CompletionIdPrefix| <= i < |id| ==> IsHexDigit(id[i])
  {
    Pow16Sixteen();
    HexLength(draw, 16);
    CompletionIdPrefix + Hex(draw)
  }

  function ParseCompletionId(id: string): Option<nat> {
    if |id| >= |CompletionIdPrefix| && id[..|CompletionIdPrefix|] == CompletionIdPrefix
    then ParseHex(id[|CompletionIdPrefix|..])
    else None
  }

  /** The value drawn can be read back from the id, so distinct draws give distinct ids. */
  lemma CompletionIdRoundTrip(draw: nat)
    requires draw < Uint64Bound
    ensures ParseCompletionId(CompletionId(draw)) == Some(draw)
  {
    assert CompletionId(draw)[|CompletionIdPrefix|..] == Hex(draw);
    HexRoundTrip(draw);
  }

  // ---------------------------------------------------------------------------
  // Chat-completion objects

  predicate IsInt32(n: int) {
    -0x8000_0000 <= n < 0x8000_0000
  }

  /** What a client reads out of a full completion object. */
  datatype CompletionView = CompletionView(
    id: string, model: string, created: int,
    content: string, finishReason: string,
    promptTokens: int, completionTokens: int, totalTokens: int)

  /**
   * A client's reading of a `chat.completion` object: exactly one choice, with
   * index 0 and an assistant message; None when the object is not of that shape.
   */
  function ReadCompletion(j: Json): Option<CompletionView> {
    var kind :- StringField(j, "object");
    var id :- StringField(j, "id");
    var created :- IntField(j, "created");
    var model :- StringField(j, "model");
    var choices :- ArrayField(j, "choices");
    if kind != "chat.completion" || |choices| != 1 then None
    else
      var index :- IntField(choices[0], "index");
      var message :- Field(choices[0], "message");
      var role :- StringField(message, "role");
      var content :- StringField(message, "content");
      var finish :- StringField(choices[0], "finish_reason");
      var usage :- Field(j, "usage");
      var prompt :- IntField(usage, "prompt_tokens");
      var completion :- IntField(usage, "completion_tokens");
      var total :- IntField(usage, "total_tokens");
      if index != 0 || role != "assistant" then None
      else Some(CompletionView(id, model, created, content, finish, prompt, completion, total))
  }

  /** The single choice of a completion: index 0 and an assistant message. */
  function CompletionChoice(content: string, finishReason: string): (choice: Json)
    ensures IntField(choice, "index") == Some(0) && StringField(choice, "finish_reason") == Some(finishReason)
    ensures Field(choice, "message").Some?
    ensures var message := Field(choice, "message").value;
      StringField(message, "role") == Some("assistant") && StringField(message, "content") == Some(content)
  {
    var message := JObject(map["role" := JString("assistant"), "content" := JString(content)]);
    JObject(map["index" := JInt(0), "message" := message, "finish_reason" := JString(finishReason)])
  }

  /** The usage block: both token counts and their sum. */
  function Usage(promptTokens: int, completionTokens: int): (usage: Json)
    ensures IntField(usage, "prompt_tokens") == Some(promptTokens)
    ensures IntField(usage, "completion_tokens") == Some(completionTokens)
    ensures IntField(usage, "total_tokens") == Some(promptTokens + completionTokens)
  {
    JObject(map[
      "prompt_tokens" := JInt(promptTokens),
      "completion_tokens" := JInt(completionTokens),
      "total_tokens" := JInt(promptTokens + completionTokens)])
  }

  /**
   * `format_chat_completion`: a `chat.completion` object with one assistant
   * choice; `created` is the clock reading in epoch seconds. The token counts are
   * C `int`s, and their sum must not overflow.
   */
  function FormatChatCompletion(
    id: string, model: string, content: string, finishReason: string,
    promptTokens: int, completionTokens: int, created: int): (r: Json)
    requires IsInt32(promptTokens) && IsInt32(completionTokens)
    requires IsInt32(promptTokens + completionTokens)
    ensures ReadCompletion(r) == Some(CompletionView(
      id, model, created, content, finishReason,
      promptTokens, completionTokens, promptTokens + completionTokens))
    ensures r.JObject? && r.fields.Keys == {"id", "object", "created", "model", "choices", "usage"}
  {
    var choice := CompletionChoice(content, finishReason);
    var usage := Usage(promptTokens, completionTokens);
    JObject(map[
      "id" := JString(id),
      "object" := JString("chat.completion"),
      "created" := JInt(created),
      "model" := JString(model),
      "choices" := JArray([choice]),
      "usage" := usage])
  }

  /**
   * What a client reads out of a streaming chunk: `delta` is None when the
   * chunk's delta is JSON null (no role and no content), `finishReason` is
   * None when the chunk's finish_reason is JSON null.
   */
  datatype ChunkView = ChunkView(
    id: string, model: string, created: int,
    delta: Option<string>, finishReason: Option<string>)

  function ReadDelta(d: Json): Option<Option<string>> {
    if d.JNull? then Some(None)
    else
      var role :- StringField(d, "role");
      var content :- StringField(d, "content");
      if role == "assistant" && d.fields.Keys == {"role", "content"} then Some(Some(content)) else None
  }

  function ReadNullableString(j: Json): Option<Option<string>> {
    if j.JNull? then Some(None) else if j.JString? then Some(Some(j.s)) else None
  }

  /** A client's reading of a `chat.completion.chunk` object with exactly one choice, of index 0. */
  function ReadChunk(j: Json): Option<ChunkView> {
    var kind :- StringField(j, "object");
    var id :- StringField(j, "id");
    var created :- IntField(j, "created");
    var model :- StringField(j, "model");
    var choices :- ArrayField(j, "choices");
    if kind != "chat.completion.chunk" || |choices| != 1 then None
    else
      var index :- IntField(choices[0], "index");
      var deltaJson :- Field(choices[0], "delta");
      var delta :- ReadDelta(deltaJson);
      var finishJson :- Field(choices[0], "finish_reason");
      var finish :- ReadNullableString(finishJson);
      if index != 0 then None
      else Some(ChunkView(id, model, created, delta, finish))
  }

  /**
   * `format_chat_completion_chunk`: an empty `deltaContent` leaves the delta a
   * default-constructed JSON value, which is null; an empty `finishReason`
   * becomes JSON null.
   */
  function FormatChatCompletionChunk(
    id: string, model: string, deltaContent: string, finishReason: string, created: int): (r: Json)
    ensures ReadChunk(r) == Some(ChunkView(
      id, model, created,
      if deltaContent == "" then None else Some(deltaContent),
      if finishReason == "" then None else Some(finishReason)))
    ensures r.JObject? && r.fields.Keys == {"id", "object", "created", "model", "choices"}
  {
    var delta := if deltaContent != "" then
      JObject(map["role" := JString("assistant"), "content" := JString(deltaContent)])
    else JNull;
    var finish := if finishReason != "" then JString(finishReason) else JNull;
    var choice := JObject(map["index" := JInt(0), "delta" := delta, "finish_reason" := finish]);
    JObject(map[
      "id" := JString(id),
      "object" := JString("chat.completion.chunk"),
      "created" := JInt(created),
      "model" := JString(model),
      "choices" := JArray([choice])])
  }

  // ---------------------------------------------------------------------------
  // Interrupt flag

  /** The process-wide atomic `g_interrupted` flag; it starts false. */
  class InterruptFlag {
    var interrupted: bool

    constructor ()
      ensures !interrupted
    {
      interrupted := false;
    }

    /** `is_interrupted`. */
    method IsInterrupted() returns (b: bool)
      ensures b == interrupted
    {
      b := interrupted;
    }

    /** `set_interrupted(value)`. */
    method SetInterrupted(value: bool)
      modifies this
      ensures interrupted == value
    {
      interrupted := value;
    }

    /** `signal_handler`, run on SIGINT and SIGTERM: it only ever raises the flag. */
    method OnSignal()
      modifies this
      ensures interrupted
    {
      interrupted := true;
    }
  }

  /** A flag that was set reads back as set, and a cleared one as clear. */
  method SetThenRead(flag: InterruptFlag, value: bool) returns (seen: bool)
    modifies flag
    ensures seen == value
  {
    flag.SetInterrupted(value);
    seen := flag.IsInterrupted();
  }
}
