/**
 * The interactive chat tool: its command line, and the read-eval-print loop
 * that trims each input line, handles `/quit`, `/exit` and `/clear`, and
 * otherwise sends the conversation to the engine, printing the reply as it
 * streams and recording it in the conversation history.
 *
 * Records in the history are JSON objects `{role, content}` (the tool keeps
 * their serialized text; serialization is not modelled). Standard output is
 * the sequence `out` of printed pieces. Input is a sequence of lines, and
 * signals are given per read and, during a generation, per fragment.
 */
module Cli {
  import opened Wrappers
  import opened Json
  import opened Common
  import opened Engine
  import opened Argv

  // ---------------------------------------------------------------------------
  // Command line

  datatype CliConfig = CliConfig(hefPath: string, modelName: string, temperature: real, topP: real, maxTokens: int)

  const CliValueOptions: set<string> := {"--model", "--model-name", "--temperature", "--top-p", "--max-tokens"}

  /**
   * What `main` does with the scanned arguments: usage and exit 0 for help,
   * exit 1 for an unknown option or a missing model path, otherwise run with the
   * given values or the defaults. `parseFloat` and `parseInt` stand for `std::stof`
   * and `std::atoi`.
   */
  function CliLaunch(scan: Scan, parseFloat: string -> real, parseInt: string -> int): (l: Launch<CliConfig>)
    ensures scan.Help? <==> l == Exit(0)
    ensures scan.Unknown? ==> l == Exit(1)
    ensures scan.Options? && ValueOf(scan.values, "--model") == "" ==> l == Exit(1)
    ensures l.Start? <==> scan.Options? && ValueOf(scan.values, "--model") != ""
    ensures l.Start? ==> l.config.hefPath == ValueOf(scan.values, "--model")
    ensures l.Start? && ValueOf(scan.values, "--model-name") == "" ==> l.config.modelName == Stem(l.config.hefPath)
    ensures l.Start? && ValueOf(scan.values, "--model-name") != "" ==> l.config.modelName == scan.values["--model-name"]
    ensures l.Start? && "--temperature" !in scan.values ==> l.config.temperature == 0.7
    ensures l.Start? && "--top-p" !in scan.values ==> l.config.topP == 0.9
    ensures l.Start? && "--max-tokens" !in scan.values ==> l.config.maxTokens == -1
    ensures l.Start? && "--temperature" in scan.values ==> l.config.temperature == parseFloat(scan.values["--temperature"])
    ensures l.Start? && "--top-p" in scan.values ==> l.config.topP == parseFloat(scan.values["--top-p"])
    ensures l.Start? && "--max-tokens" in scan.values ==> l.config.maxTokens == parseInt(scan.values["--max-tokens"])
  {
    match scan
    case Help => Exit(0)
    case Unknown(_) => Exit(1)
    case Options(values) =>
      var hefPath := ValueOf(values, "--model");
      if hefPath == "" then Exit(1)
      else
        var name := ValueOf(values, "--model-name");
        Start(CliConfig(
          hefPath,
          if name == "" then Stem(hefPath) else name,
          if "--temperature" in values then parseFloat(values["--temperature"]) else 0.7,
          if "--top-p" in values then parseFloat(values["--top-p"]) else 0.9,
          if "--max-tokens" in values then parseInt(values["--max-tokens"]) else -1))
  }

  /**
   * Where the scan stops short of the end, the argument there decides: help
   * ends the program with code 0, anything else (an unknown argument, or an
   * option with no value after it) with code 1.
   */
  lemma NonPairArgumentsExitOne(args: seq<string>, parseFloat: string -> real, parseInt: string -> int)
    requires BreakAt(CliValueOptions, args, 0) < |args|
    ensures var code := if IsHelp(args[BreakAt(CliValueOptions, args, 0)]) then 0 else 1;
      CliLaunch(ScanFrom(CliValueOptions, args, 0, map[]), parseFloat, parseInt) == Exit(code)
  {
    ScanStopsAtBreak(CliValueOptions, args, 0, map[]);
  }

  /** Without `--model` on the command line the program ends with code 0 (help) or 1. */
  lemma MissingModelNeverStarts(args: seq<string>, parseFloat: string -> real, parseInt: string -> int)
    requires "--model" !in args
    ensures CliLaunch(ScanFrom(CliValueOptions, args, 0, map[]), parseFloat, parseInt) in {Exit(0), Exit(1)}
  {
    var scan := ScanFrom(CliValueOptions, args, 0, map[]);
    if scan.Options? {
      ValuesComeFromArgs(CliValueOptions, args, 0, map[], "--model");
    }
  }

  // ---------------------------------------------------------------------------
  // Trimming and commands

  predicate IsBlank(c: char) {
    c == ' ' || c == '\t' || c == '\r' || c == '\n'
  }

  predicate AllBlank(s: string) {
    forall i :: 0 <= i < |s| ==> IsBlank(s[i])
  }

  /** `find_first_not_of(" \t\r\n")`. */
  function FindFirstNotBlank(s: string): (r: Option<nat>)
    ensures r.Some? ==> r.value < |s| && !IsBlank(s[r.value]) && AllBlank(s[..r.value])
    ensures r.None? ==> AllBlank(s)
  {
    FirstNotBlankFrom(s, 0)
  }

  /** The first non-blank position at or after `i`. */
  function FirstNotBlankFrom(s: string, i: nat): (r: Option<nat>)
    requires i <= |s|
    ensures r.Some? ==> i <= r.value < |s| && !IsBlank(s[r.value])
    ensures forall k :: i <= k < |s| && (r.None? || k < r.value) ==> IsBlank(s[k])
    decreases |s| - i
  {
    if i == |s| then None
    else if !IsBlank(s[i]) then Some(i)
    else FirstNotBlankFrom(s, i + 1)
  }

  /** `find_last_not_of(" \t\r\n")`. */
  function FindLastNotBlank(s: string): (r: Option<nat>)
    ensures r.Some? ==> r.value < |s| && !IsBlank(s[r.value]) && AllBlank(s[r.value + 1..])
    ensures r.None? ==> AllBlank(s)
  {
    LastNotBlankBefore(s, |s|)
  }

  /** The last non-blank position before `j`. */
  function LastNotBlankBefore(s: string, j: nat): (r: Option<nat>)
    requires j <= |s|
    ensures r.Some? ==> r.value < j && !IsBlank(s[r.value])
    ensures forall k :: 0 <= k < j && (r.None? || r.value < k) ==> IsBlank(s[k])
  {
    if j == 0 then None
    else if !IsBlank(s[j - 1]) then Some(j - 1)
    else LastNotBlankBefore(s, j - 1)
  }

  /**
   * The loop's trimming: drop everything before the first non-blank character,
   * then everything after the last one. None: the line is blank and skipped.
   */
  function TrimLine(line: string): (r: Option<string>)
    ensures r.None? <==> AllBlank(line)
    ensures r.Some? ==> r.value != "" && !IsBlank(r.value[0]) && !IsBlank(r.value[|r.value| - 1])
  {
    match FindFirstNotBlank(line)
    case None => None
    case Some(start) =>
      var rest := line[start..];
      match FindLastNotBlank(rest)
      case None => Some(rest)
      case Some(end) => Some(rest[..end + 1])
  }

  /**
   * The trimmed line is the input with blank runs removed at both ends only:
   * it starts at the first non-blank character, and what lies before and after
   * it is blank.
   */
  lemma TrimLineFrames(line: string)
    requires !AllBlank(line)
    ensures var t := TrimLine(line).value; var start := FindFirstNotBlank(line).value;
      && start + |t| <= |line|
      && line[start..start + |t|] == t
      && AllBlank(line[..start])
      && AllBlank(line[start + |t|..])
  {
    var start := FindFirstNotBlank(line).value;
    var rest := line[start..];
    var end := FindLastNotBlank(rest).value;
    assert TrimLine(line) == Some(rest[..end + 1]);
    assert line[start..start + end + 1] == rest[..end + 1];
    assert line[start + end + 1..] == rest[end + 1..];
  }

  /** Trimming is idempotent. */
  lemma TrimLineIdempotent(line: string)
    requires !AllBlank(line)
    ensures TrimLine(TrimLine(line).value) == TrimLine(line)
  {
    var t := TrimLine(line).value;
    assert FindFirstNotBlank(t) == Some(0);
    assert t[0..] == t;
    assert FindLastNotBlank(t) == Some(|t| - 1);
    assert t[..|t|] == t;
  }

  /** What one input line asks for. */
  datatype Command = Skip | Quit | Clear | Say(text: string)

  function Classify(line: string): (c: Command)
    ensures c == Skip <==> AllBlank(line)
    ensures c == Quit <==> TrimLine(line) in {Some("/quit"), Some("/exit")}
    ensures c == Clear <==> TrimLine(line) == Some("/clear")
    ensures c.Say? ==> TrimLine(line) == Some(c.text) && c.text != ""
  {
    match TrimLine(line)
    case None => Skip
    case Some(t) =>
      if t == "" then Skip
      else if t == "/quit" || t == "/exit" then Quit
      else if t == "/clear" then Clear
      else Say(t)
  }

  // ---------------------------------------------------------------------------
  // Conversation history

  function ChatRecord(role: string, content: string): Json {
    JObject(map["role" := JString(role), "content" := JString(content)])
  }

  predicate IsRecordOf(j: Json, role: string) {
    StringField(j, "role") == Some(role) && StringField(j, "content").Some? && StringField(j, "content").value != ""
  }

  /** Record `i` of `h` is a user record, or an assistant record right after one. */
  predicate WellPlaced(h: seq<Json>, i: nat)
    requires i < |h|
  {
    IsRecordOf(h[i], "user") || (i > 0 && IsRecordOf(h[i], "assistant") && IsRecordOf(h[i - 1], "user"))
  }

  /**
   * The shape the loop keeps: non-empty user and assistant records, each
   * assistant record right after the user record it answers.
   */
  predicate WellFormedHistory(h: seq<Json>) {
    forall i :: 0 <= i < |h| ==> WellPlaced(h, i)
  }

  /** The history after a user turn: the user record, then the reply's record if the reply is non-empty. */
  function AfterTurn(history: seq<Json>, text: string, response: string): (h: seq<Json>)
    ensures |h| == |history| + (if response == "" then 1 else 2)
    ensures h[..|history|] == history
    ensures h[|history|] == ChatRecord("user", text)
    ensures response != "" ==> h[|history| + 1] == ChatRecord("assistant", response)
  {
    history + [ChatRecord("user", text)] + (if response != "" then [ChatRecord("assistant", response)] else [])
  }

  lemma AfterTurnWellFormed(history: seq<Json>, text: string, response: string)
    requires WellFormedHistory(history) && text != ""
    ensures WellFormedHistory(AfterTurn(history, text, response))
  {
    var h := AfterTurn(history, text, response);
    var user := ChatRecord("user", text);
    assert StringField(user, "role") == Some("user");
    assert StringField(user, "content") == Some(text);
    forall i | 0 <= i < |h|
      ensures WellPlaced(h, i)
    {
      if i < |history| {
        assert WellPlaced(history, i);
        assert h[i] == h[..|history|][i] == history[i];
        if i > 0 {
          assert h[i - 1] == h[..|history|][i - 1] == history[i - 1];
        }
      } else if i == |history| {
        assert h[i] == user;
      } else {
        var reply := ChatRecord("assistant", response);
        assert StringField(reply, "role") == Some("assistant");
        assert StringField(reply, "content") == Some(response);
        assert h[i] == reply;
        assert h[i - 1] == user;
      }
    }
  }

  // ---------------------------------------------------------------------------
  // The read-eval-print loop

  datatype Ending = EndOfInput | Interrupted | QuitCommand

  /** Whether a turn with this input, flag and signal generates a reply: a line was read, no interrupt is pending, and it is a message. */
  predicate AsksReply(input: Option<string>, interrupted: bool, signal: bool) {
    input.Some? && !interrupted && !signal && Classify(input.value).Say?
  }

  const Prompt: string := "> "
  const ClearedMessage: string := "Conversation cleared.\n\n"
  const AfterReply: string := "\n\n"

  /** What one turn of the loop can change: the history, the printed output and the flag. */
  datatype ReplState = ReplState(history: seq<Json>, out: seq<string>, interrupted: bool)

  /**
   * One turn of the loop on values: print the prompt, note a signal that came
   * while reading, then act on the line read (None: end of input). Returns the
   * new state and how the loop ends, or None to go on.
   */
  function Turn(s: ReplState, loaded: bool, input: Option<string>, signal: bool, b: Backend, uninterrupted: nat -> bool)
    : (ReplState, Option<Ending>)
  {
    var printed := s.out + [Prompt];
    var raised := s.interrupted || signal;
    if input.None? then (ReplState(s.history, printed, raised), Some(EndOfInput))
    else if raised then (ReplState(s.history, printed, true), Some(Interrupted))
    else match Classify(input.value)
      case Skip => (ReplState(s.history, printed, false), None)
      case Quit => (ReplState(s.history, printed, false), Some(QuitCommand))
      case Clear => (ReplState([], printed + [ClearedMessage], false), None)
      case Say(text) =>
        var o := Generation(loaded, b, uninterrupted);
        (ReplState(AfterTurn(s.history, text, Concat(o.delivered)), printed + o.delivered + [AfterReply], false), None)
  }

  /**
   * The whole loop on values, from read `i` on: the final state, how it ended
   * and how many reads were made in all. Read `i` sees `lines[i]` (or end of
   * input once the lines run out), `signals[i]`, `backends[i]` and `answers[i]`.
   */
  function RunSpec(s: ReplState, loaded: bool, lines: seq<string>, signals: seq<bool>, backends: seq<Backend>, answers: seq<nat -> bool>, i: nat)
    : (ReplState, Ending, nat)
    requires i <= |lines|
    requires |signals| == |backends| == |answers| == |lines| + 1
    decreases |lines| - i
  {
    var input := if i < |lines| then Some(lines[i]) else None;
    var (next, e) := Turn(s, loaded, input, signals[i], backends[i], answers[i]);
    if e.None? && i < |lines| then RunSpec(next, loaded, lines, signals, backends, answers, i + 1)
    else (next, if e.Some? then e.value else EndOfInput, i + 1)
  }

  /** The loop from read `i` is the turn at `i`, then the loop from read `i + 1` if that turn goes on. */
  lemma RunSpecUnfold(s: ReplState, loaded: bool, lines: seq<string>, signals: seq<bool>, backends: seq<Backend>, answers: seq<nat -> bool>, i: nat, next: ReplState, e: Option<Ending>)
    requires i <= |lines|
    requires |signals| == |backends| == |answers| == |lines| + 1
    requires (next, e) == Turn(s, loaded, if i < |lines| then Some(lines[i]) else None, signals[i], backends[i], answers[i])
    ensures e.None? ==> i < |lines|
    ensures RunSpec(s, loaded, lines, signals, backends, answers, i)
      == if e.None? then RunSpec(next, loaded, lines, signals, backends, answers, i + 1) else (next, e.value, i + 1)
  {
  }

  /** A turn keeps the history well formed and only appends to the output. */
  lemma TurnKeepsShape(s: ReplState, loaded: bool, input: Option<string>, signal: bool, b: Backend, uninterrupted: nat -> bool)
    requires WellFormedHistory(s.history)
    ensures var (next, _) := Turn(s, loaded, input, signal, b, uninterrupted);
      WellFormedHistory(next.history) && |next.out| > |s.out| && next.out[..|s.out|] == s.out && next.out[|s.out|] == Prompt
  {
    var (next, _) := Turn(s, loaded, input, signal, b, uninterrupted);
    if input.Some? && !(s.interrupted || signal) && Classify(input.value).Say? {
      var o := Generation(loaded, b, uninterrupted);
      AfterTurnWellFormed(s.history, Classify(input.value).text, Concat(o.delivered));
    }
    assert next.out[..|s.out|] == s.out;
  }

  /**
   * The loop keeps the history well formed, only appends to the output, and
   * makes at least one read and at most one past the last line.
   */
  lemma {:induction false} RunSpecKeepsShape(s: ReplState, loaded: bool, lines: seq<string>, signals: seq<bool>, backends: seq<Backend>, answers: seq<nat -> bool>, i: nat)
    requires i <= |lines|
    requires |signals| == |backends| == |answers| == |lines| + 1
    requires WellFormedHistory(s.history)
    ensures var (final, _, count) := RunSpec(s, loaded, lines, signals, backends, answers, i);
      && WellFormedHistory(final.history)
      && |final.out| > |s.out| && final.out[..|s.out|] == s.out
      && i < count <= |lines| + 1
    decreases |lines| - i
  {
    var input := if i < |lines| then Some(lines[i]) else None;
    var (next, e) := Turn(s, loaded, input, signals[i], backends[i], answers[i]);
    TurnKeepsShape(s, loaded, input, signals[i], backends[i], answers[i]);
    if e.None? && i < |lines| {
      RunSpecKeepsShape(next, loaded, lines, signals, backends, answers, i + 1);
      var final := RunSpec(next, loaded, lines, signals, backends, answers, i + 1).0;
      assert final.out[..|s.out|] == final.out[..|next.out|][..|s.out|];
    }
  }

  /** How a turn ends, and that a turn that goes on leaves the flag clear. */
  lemma TurnEnding(s: ReplState, loaded: bool, input: Option<string>, signal: bool, b: Backend, uninterrupted: nat -> bool)
    ensures var (next, e) := Turn(s, loaded, input, signal, b, uninterrupted);
      && (e == Some(EndOfInput) <==> input.None?)
      && (e == Some(QuitCommand) ==> input.Some? && Classify(input.value) == Quit)
      && (e == Some(Interrupted) ==> s.interrupted || signal)
      && (e.None? ==> input.Some? && !signal && Classify(input.value) != Quit && !next.interrupted)
  {
  }

  /**
   * How a run of the loop may end after `count` reads, starting at read `i`:
   * at end of input exactly when it read past the last line; by `/quit` or
   * `/exit` only on the last line read; by an interrupt only when a signal came
   * on the last read or the flag was already up before the first. No earlier
   * read saw a signal or a quit command.
   */
  predicate ProperEnding(lines: seq<string>, signals: seq<bool>, raisedBefore: bool, i: nat, ending: Ending, count: nat)
    requires |signals| == |lines| + 1
  {
    && i < count <= |lines| + 1
    && (ending == EndOfInput <==> count == |lines| + 1)
    && (ending == QuitCommand ==> Classify(lines[count - 1]) == Quit)
    && (ending == Interrupted ==> signals[count - 1] || (count == i + 1 && raisedBefore))
    && (forall j :: i <= j < count - 1 ==> !signals[j] && Classify(lines[j]) != Quit)
  }

  /**
   * How the loop ends: at end of input exactly when it read past the last
   * line; by `/quit` or `/exit` on the last line read; by an interrupt only
   * when a signal came on the last read or the flag was already up before the
   * first. Every earlier read saw neither a signal nor a quit command.
   */
  lemma {:induction false} RunSpecEnding(s: ReplState, loaded: bool, lines: seq<string>, signals: seq<bool>, backends: seq<Backend>, answers: seq<nat -> bool>, i: nat)
    requires i <= |lines|
    requires |signals| == |backends| == |answers| == |lines| + 1
    ensures var r := RunSpec(s, loaded, lines, signals, backends, answers, i);
      ProperEnding(lines, signals, s.interrupted, i, r.1, r.2)
    decreases |lines| - i
  {
    var r := RunSpec(s, loaded, lines, signals, backends, answers, i);
    var input := if i < |lines| then Some(lines[i]) else None;
    var t := Turn(s, loaded, input, signals[i], backends[i], answers[i]);
    TurnEnding(s, loaded, input, signals[i], backends[i], answers[i]);
    RunSpecUnfold(s, loaded, lines, signals, backends, answers, i, t.0, t.1);
    if t.1.None? {
      RunSpecEnding(t.0, loaded, lines, signals, backends, answers, i + 1);
      forall j | i <= j < r.2 - 1
        ensures !signals[j] && Classify(lines[j]) != Quit
      {
        if j == i {
          assert input == Some(lines[i]);
        }
      }
    }
  }

  class Repl {
    var history: seq<Json>
    var out: seq<string>
    /** The prompt last handed to the backend's `write`. */
    ghost var lastPrompt: Option<seq<Json>>
    /** The sampling parameters last handed to the backend's `create_generator`. */
    ghost var lastParams: Option<SamplingParams>
    const engine: HailoEngine
    const flag: InterruptFlag
    const temperature: real
    const topP: real
    const maxTokens: int

    ghost predicate Valid()
      reads this, engine
    {
      engine.Valid() && WellFormedHistory(history)
    }

    /** The part of the loop's state one turn can change. */
    ghost function State(): ReplState
      reads this, flag
    {
      ReplState(history, out, flag.interrupted)
    }

    constructor (engine: HailoEngine, flag: InterruptFlag, temperature: real, topP: real, maxTokens: int)
      requires engine.Valid()
      ensures Valid() && history == [] && out == [] && lastPrompt == None && lastParams == None
      ensures this.engine == engine && this.flag == flag
      ensures this.temperature == temperature && this.topP == topP && this.maxTokens == maxTokens
    {
      history, out, lastPrompt, lastParams := [], [], None, None;
      this.engine, this.flag := engine, flag;
      this.temperature, this.topP, this.maxTokens := temperature, topP, maxTokens;
    }

    /**
     * A user message: record it, generate a reply with the flag cleared, print
     * the fragments as they arrive and then a blank line, record the reply if it
     * is non-empty, and clear the flag again.
     */
    method Converse(text: string, b: Backend, uninterrupted: nat -> bool)
      requires Valid() && text != ""
      modifies this, flag
      ensures Valid()
      ensures var o := Generation(engine.hasModel, b, uninterrupted);
        && history == AfterTurn(old(history), text, Concat(o.delivered))
        && out == old(out) + o.delivered + [AfterReply]
      ensures !flag.interrupted
      ensures lastPrompt == if PromptWritten(engine.hasModel, b) then Some(old(history) + [ChatRecord("user", text)]) else None
      ensures lastParams == if ParamsHanded(engine.hasModel, b) then Some(Configure(temperature, topP, maxTokens)) else None
    {
      ghost var before := history;
      history := history + [ChatRecord("user", text)];
      flag.SetInterrupted(false);
      var o, params, prompt := engine.GenerateStreaming(history, uninterrupted, temperature, topP, maxTokens, b);
      lastPrompt, lastParams := prompt, params;
      var response := "";
      var printed := out;
      for k := 0 to |o.delivered|
        invariant response == Concat(o.delivered[..k])
        invariant printed == out + o.delivered[..k]
      {
        assert o.delivered[..k + 1][..k] == o.delivered[..k];
        printed := printed + [o.delivered[k]];
        response := response + o.delivered[k];
      }
      assert o.delivered[..|o.delivered|] == o.delivered;
      out := printed + [AfterReply];
      if response != "" {
        history := history + [ChatRecord("assistant", response)];
      }
      assert history == AfterTurn(before, text, response);
      AfterTurnWellFormed(before, text, response);
      flag.SetInterrupted(false);
    }

    /**
     * One turn of the loop. `input` is what `getline` returns (None: end of
     * input), `signalWhileReading` whether an interrupt arrived while waiting
     * for it, `b` the backend's script and `uninterrupted(k)` whether the flag
     * is still clear when the k-th fragment's callback checks it. Returns how
     * the loop ends, or None to go on.
     */
    method Step(input: Option<string>, signalWhileReading: bool, b: Backend, uninterrupted: nat -> bool)
      returns (ending: Option<Ending>)
      requires Valid()
      modifies this, flag
      ensures Valid()
      ensures (State(), ending) == Turn(old(State()), engine.hasModel, input, signalWhileReading, b, uninterrupted)
      ensures !AsksReply(input, old(flag.interrupted), signalWhileReading) ==>
        lastPrompt == old(lastPrompt) && lastParams == old(lastParams)
      ensures AsksReply(input, old(flag.interrupted), signalWhileReading) ==>
        lastPrompt == if PromptWritten(engine.hasModel, b)
          then Some(old(history) + [ChatRecord("user", Classify(input.value).text)]) else None
      ensures AsksReply(input, old(flag.interrupted), signalWhileReading) ==>
        lastParams == if ParamsHanded(engine.hasModel, b) then Some(Configure(temperature, topP, maxTokens)) else None
    {
      out := out + [Prompt];
      if signalWhileReading {
        flag.OnSignal();
      }
      if input.None? {
        return Some(EndOfInput);
      }
      var interrupted := flag.IsInterrupted();
      if interrupted {
        return Some(Interrupted);
      }
      match Classify(input.value)
      case Skip =>
        return None;
      case Quit =>
        return Some(QuitCommand);
      case Clear =>
        history := [];
        out := out + [ClearedMessage];
        return None;
      case Say(text) =>
        Converse(text, b, uninterrupted);
        return None;
    }

    /**
     * The loop: read `lines` one by one (then end of input) until a turn ends
     * it. The i-th read sees `signals[i]`, `backends[i]` and `answers[i]`.
     * Returns how it ended and how many lineReads it made.
     */
    method Run(lines: seq<string>, signals: seq<bool>, backends: seq<Backend>, answers: seq<nat -> bool>)
      returns (ending: Ending, lineReads: nat)
      requires Valid()
      requires |signals| == |backends| == |answers| == |lines| + 1
      modifies this, flag
      ensures Valid()
      ensures ProperEnding(lines, signals, old(flag.interrupted), 0, ending, lineReads)
      ensures (State(), ending, lineReads) == RunSpec(old(State()), engine.hasModel, lines, signals, backends, answers, 0)
    {
      ghost var whole := RunSpec(State(), engine.hasModel, lines, signals, backends, answers, 0);
      RunSpecEnding(State(), engine.hasModel, lines, signals, backends, answers, 0);
      lineReads := 0;
      while true
        invariant Valid()
        invariant lineReads <= |lines|
        invariant whole == RunSpec(State(), engine.hasModel, lines, signals, backends, answers, lineReads)
        decreases |lines| - lineReads
      {
        var input := if lineReads < |lines| then Some(lines[lineReads]) else None;
        ghost var before := State();
        var result := Step(input, signals[lineReads], backends[lineReads], answers[lineReads]);
        RunSpecUnfold(before, engine.hasModel, lines, signals, backends, answers, lineReads, State(), result);
        lineReads := lineReads + 1;
        if result.Some? {
          return result.value, lineReads;
        }
      }
    }
  }

  /**
   * The chat tool's `main`: parse the arguments, load the model, run the loop
   * over the input, shut the engine down. Returns the exit code, with the
   * engine (once one is made), the loop (once the model is loaded) and how the
   * loop ended after how many reads (EndOfInput and 0 when it did not run).
   */
  method RunCli(
    args: seq<string>, parseFloat: string -> real, parseInt: string -> int,
    deviceStatus: HailoStatus, modelStatus: HailoStatus, capacity: Option<nat>,
    lines: seq<string>, signals: seq<bool>, backends: seq<Backend>, answers: seq<nat -> bool>)
    returns (exitCode: int, engine: HailoEngine?, repl: Repl?, ending: Ending, lineReads: nat)
    requires |signals| == |backends| == |answers| == |lines| + 1
    ensures exitCode == match CliLaunch(ScanFrom(CliValueOptions, args, 0, map[]), parseFloat, parseInt)
      case Exit(code) => code
      case Start(_) => if deviceStatus == Success && modelStatus == Success then 0 else 1
    ensures var l := CliLaunch(ScanFrom(CliValueOptions, args, 0, map[]), parseFloat, parseInt);
      && (engine != null <==> l.Start?)
      && (engine != null ==> engine.hefPath == l.config.hefPath && engine.modelName == l.config.modelName)
    ensures var l := CliLaunch(ScanFrom(CliValueOptions, args, 0, map[]), parseFloat, parseInt);
      && (repl != null <==> l.Start? && deviceStatus == Success && modelStatus == Success)
      && (repl != null ==> repl.engine == engine)
      && (repl != null ==> repl.temperature == l.config.temperature && repl.topP == l.config.topP)
      && (repl != null ==> repl.maxTokens == l.config.maxTokens)
    ensures repl != null ==>
      (repl.State(), ending, lineReads) == RunSpec(ReplState([], [], false), true, lines, signals, backends, answers, 0)
    ensures repl != null ==> ProperEnding(lines, signals, false, 0, ending, lineReads)
    ensures repl != null ==> engine != null && !engine.hasModel && !engine.hasDevice
    ensures repl == null ==> ending == EndOfInput && lineReads == 0
  {
    engine, repl, ending, lineReads := null, null, EndOfInput, 0;
    var scan := ScanArgs(CliValueOptions, args);
    var launch := CliLaunch(scan, parseFloat, parseInt);
    if launch.Exit? {
      return launch.code, engine, repl, ending, lineReads;
    }
    var config := launch.config;
    var flag := new InterruptFlag();
    engine := new HailoEngine();
    var ok := engine.Init(config.hefPath, config.modelName, deviceStatus, modelStatus, capacity);
    if !ok {
      return 1, engine, repl, ending, lineReads;
    }
    repl := new Repl(engine, flag, config.temperature, config.topP, config.maxTokens);
    ending, lineReads := repl.Run(lines, signals, backends, answers);
    engine.Shutdown();
    return 0, engine, repl, ending, lineReads;
  }
}
