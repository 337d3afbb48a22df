# Hailo chat tools — a Dafny model

This project models the Hailo LLM tools: a generation engine that drives a
Hailo accelerator's generator, and the two programs built on it. One is an
interactive command-line chat. The other is an OpenAI-compatible HTTP server
with a `POST /v1/chat/completions` endpoint, streamed as server-sent events
or returned as one `chat.completion` object.

The modules follow the source files:

- `wrappers.dfy` (`Wrappers`): the `Option` type.
- `json.dfy` (`Json`): JSON values as trees, and the typed reads `value(key, default)` makes.
- `common.dfy` (`Common`):
  - status-code names;
  - completion ids (`chatcmpl-` plus a 64-bit value in hex);
  - the `chat.completion` and `chat.completion.chunk` builders;
  - the interrupt flag.
- `engine.dfy` (`Engine`):
  - the `HailoEngine` object (`init`, `shutdown`);
  - the translation of sampling parameters;
  - the token pull loop of `generate_streaming`;
  - `generate`.
- `argv.dfy` (`Argv`):
  - the argument loop both programs share;
  - the model-name default, which is the stem of the model path.
- `cli.dfy` (`Cli`):
  - the chat tool's options;
  - line trimming and commands;
  - the conversation history;
  - the read-eval-print loop and `main`.
- `server.dfy` (`Server`):
  - the chat-completions handler;
  - the event stream its provider writes;
  - the server's options and `main`.

The hailort runtime is not modelled. A `Backend` value scripts what each runtime call answers:

- the status of each setup call;
- for each loop iteration, the generation status before the read, the read's result, and the status after it.

`generate_streaming` takes a callback. Here the callback is the sequence of its
answers, `cont(k)` for the k-th forwarded fragment. The engine returns an
`Outcome`: the finish reason, the forwarded fragments in order, and whether
`abort` was called. Callers replay the callback's effects over those
fragments: printing and accumulating in the chat tool, chunk writes in the
server.

Each imperative operation is a method with a loop, proved equal to a
specification function:

- `GenerateStreaming` against `Generation`/`Pull`;
- `ScanArgs` against `ScanFrom`;
- `RunStream` against `StreamEvents`;
- `HandleChatCompletions` against `ChatCompletionsReply`;
- `Repl.Step` against `Turn`, and `Repl.Run` against `RunSpec`, the fold of `Turn` over the input lines.

Lemmas then state what the source promises about those functions.

Two behaviours of the code are worth spelling out:

- A fragment chunk for an empty fragment, and the final chunk, carry a `null`
  delta. `format_chat_completion_chunk` leaves the delta default-constructed,
  which is JSON null (tools/hailo/hailo-common.cpp:74-77). `ReadChunk` reports
  such a delta as `None`.
- A fragment whose callback asks to stop has already been handed to the
  callback (tools/hailo/hailo-engine.cpp:155-161). So it is in the
  `delivered` list of `generate_streaming`, and the chat tool prints it and
  adds it to `assistant_response` before the stop
  (tools/hailo/hailo-cli.cpp:128-133). `generate`'s callback never asks to
  stop, so its text is every forwarded fragment.

## Model

| member | source | states |
|---|---|---|
| Json.AsBool | tools/hailo/hailo-server.cpp:58 | `get<bool>` succeeds exactly on a JSON boolean, and gives its value |
| Json.AsReal | tools/hailo/hailo-server.cpp:59-60 | `get<float>` succeeds exactly on booleans and numbers; true and false give 1 and 0, an integer or float keeps its value |
| Json.TruncateTowardZero | tools/hailo/hailo-server.cpp:61 | converting a float to `int` truncates toward zero: the result lies within 1 of the value, on the zero side |
| Json.Wrap32 | tools/hailo/hailo-server.cpp:61 | storing an integer in a 32-bit `int` gives the value in [-2^31, 2^31) congruent to it modulo 2^32, which is the integer itself when it is in range |
| Json.AsInt | tools/hailo/hailo-server.cpp:61 | `get<int>` succeeds exactly on booleans and numbers; true and false give 1 and 0, an integer wraps to 32 bits, a float is truncated toward zero |
| Json.AsIntWrapsAround | tools/hailo/hailo-server.cpp:61 | a `max_tokens` of 2^32 + 1 reads as 1, 2^32 reads as 0 (no cap), and -2^31 - 1 reads as 2^31 - 1 |
| Json.ValueOr | tools/hailo/hailo-server.cpp:58-61 | `value(key, default)` on an object gives the default when the key is absent, otherwise the converted member, or a throw |
| Common.StatusName | tools/hailo/hailo-common.cpp:12-24 | every name starts with `HAILO_`; the name is `HAILO_UNKNOWN` exactly for codes outside the eight named ones |
| Common.StatusNameIdentifies | tools/hailo/hailo-common.cpp:12-24 | the eight named codes have distinct names that map back to the code |
| Common.Hex | tools/hailo/hailo-common.cpp:30 | `std::hex` output is non-empty and uses only lower-case hex digits |
| Common.HexRoundTrip | tools/hailo/hailo-common.cpp:30 | the hex text of a value parses back to the value |
| Common.DigitRoundTrip | tools/hailo/hailo-common.cpp:30 | each hex digit `std::hex` writes reads back as its value |
| Common.HexNoLeadingZero | tools/hailo/hailo-common.cpp:30 | the text starts with `0` only for the value 0 |
| Common.HexLength | tools/hailo/hailo-common.cpp:28-30 | a value below 16^k takes at most k digits |
| Common.CompletionId | tools/hailo/hailo-common.cpp:26-32 | an id is `chatcmpl-` followed by 1 to 16 hex digits |
| Common.CompletionIdRoundTrip | tools/hailo/hailo-common.cpp:26-32 | the drawn 64-bit value can be read back from the id, so distinct draws give distinct ids |
| Common.CompletionChoice | tools/hailo/hailo-common.cpp:50-56 | the single choice has index 0, the finish reason, and an assistant message with the content |
| Common.Usage | tools/hailo/hailo-common.cpp:57-61 | the usage block reads back both token counts and their sum |
| Common.FormatChatCompletion | tools/hailo/hailo-common.cpp:34-63 | the object has exactly the keys id, object, created, model, choices, usage; a client reads back the id, model, time, assistant content, finish reason and token counts with total = prompt + completion |
| Common.FormatChatCompletionChunk | tools/hailo/hailo-common.cpp:65-96 | the chunk has exactly its five keys; a client reads back a null delta for empty content, otherwise an assistant delta with that content; and a null finish reason for an empty one, otherwise the reason |
| Common.InterruptFlag.constructor | tools/hailo/hailo-common.cpp:10 | the flag starts clear |
| Common.InterruptFlag.IsInterrupted | tools/hailo/hailo-common.cpp:108-110 | reads the flag |
| Common.InterruptFlag.SetInterrupted | tools/hailo/hailo-common.cpp:112-114 | stores the given value |
| Common.InterruptFlag.OnSignal | tools/hailo/hailo-common.cpp:98-101 | a signal only raises the flag |
| Common.SetThenRead | tools/hailo/hailo-common.cpp:108-114 | a read right after a store sees the stored value |
| Engine.Configure | tools/hailo/hailo-engine.cpp:82-96 | sampling is on iff temperature > 0 and then carries that temperature; top-p is set iff 0 < top_p < 1; the token budget is set iff max_tokens > 0 |
| Engine.ReasonFor | tools/hailo/hailo-engine.cpp:124-135 | the reason is "length" exactly for the max-tokens status, otherwise "stop" |
| Engine.Texts | tools/hailo/hailo-engine.cpp:137-142 | one fragment per step, in order, each the step's read text |
| Engine.Pull | tools/hailo/hailo-engine.cpp:119-164 | the loop from an iteration on ends with "stop" or "length" and forwards at most one fragment per remaining step |
| Engine.Generation | tools/hailo/hailo-engine.cpp:60-117 | with no model, or any failing setup call, the result is "stop" and nothing is forwarded; otherwise it is the pull loop from the first step |
| Engine.Concat | tools/hailo/hailo-engine.cpp:173-183 | the concatenation of no fragments is empty |
| Engine.ConcatAppend | tools/hailo/hailo-engine.cpp:173-183 | the text of two runs of fragments, one after the other, is the first run's text followed by the second's |
| Engine.PullRunUp | tools/hailo/hailo-engine.cpp:122-162 | running up to a reached iteration j forwards the first j fragments; the rest of the result is the run from j |
| Engine.PullCharacterized | tools/hailo/hailo-engine.cpp:122-162 | a run forwards fragments of consecutive generating steps in read order; the callback approved all but the last of them; abort is called iff it refused the last one; otherwise the loop stopped at a non-forwarding step or at the end; "length" iff that step hit the token budget |
| Engine.GenerationFinishes | tools/hailo/hailo-engine.h:27-29 | every generation returns "stop" or "length" |
| Engine.GenerationLengthIff | tools/hailo/hailo-engine.cpp:128-131 | the result is "length" exactly when the loop ends on the max-tokens status, seen before a read or right after one |
| Engine.TerminalFragmentNotForwarded | tools/hailo/hailo-engine.cpp:144-153 | a fragment whose read ended generation is not forwarded, and neither is anything after it |
| Engine.ForwardedInReadOrder | tools/hailo/hailo-engine.cpp:137-161 | the forwarded fragments are the texts of the first steps, in read order, each read while generating |
| Engine.ReadFailureStops | tools/hailo/hailo-engine.cpp:137-141 | a failed read at a reached iteration ends the loop with "stop" after the fragments before it |
| Engine.RefusalAborts | tools/hailo/hailo-engine.cpp:155-161 | when the callback refuses fragment k, abort is called, k+1 fragments were forwarded, and the result is "stop" |
| Engine.NoRefusalNoAbort | tools/hailo/hailo-engine.cpp:155-161 | a callback that never refuses never leads to abort |
| Engine.HailoEngine.constructor | tools/hailo/hailo-engine.h:48-53 | a new engine holds no device and no model, and has empty name and path and context 0 |
| Engine.HailoEngine.Init | tools/hailo/hailo-engine.cpp:13-45 | path and name are recorded first; success iff device and model are both created; a failed model load keeps the device; the context capacity is updated only when the query succeeds |
| Engine.HailoEngine.Shutdown | tools/hailo/hailo-engine.cpp:47-51 | releases model and device, can be repeated, and keeps name, path and capacity |
| Engine.HailoEngine.GenerateStreaming | tools/hailo/hailo-engine.cpp:53-165 | the outcome is `Generation` of the engine state, script and callback; the parameters come from `Configure`; the prompt written is the messages unchanged, and each is None when its call is not reached |
| Engine.HailoEngine.Generate | tools/hailo/hailo-engine.cpp:167-184 | returns the in-order concatenation of all forwarded fragments and the same finish reason `generate_streaming` gives; the backend receives the given messages as the prompt and `Configure` of the given temperature, top-p and token limit |
| Engine.GenerateNeverAborts | tools/hailo/hailo-engine.cpp:177-180 | the non-streaming callback never triggers abort |
| Engine.ShutdownThenGenerate | tools/hailo/hailo-engine.cpp:47-65 | after one or two shutdowns a generation returns "stop", forwards nothing and hands the backend neither parameters nor a prompt |
| Argv.ScanArgs | tools/hailo/hailo-cli.cpp:31-51 | the argument loop's result is the recursive scan from the first argument |
| Argv.OptionsIffPairs | tools/hailo/hailo-server.cpp:129-147 | the loop finishes without exiting iff the arguments are option/value pairs |
| Argv.ValuesComeFromArgs | tools/hailo/hailo-server.cpp:129-147 | every value reported for an option followed that option on the command line |
| Argv.LaterPairsKeep | tools/hailo/hailo-cli.cpp:31-51 | a value already recorded for an option survives the rest of the scan when no later pair position names that option |
| Argv.LastOccurrenceWins | tools/hailo/hailo-cli.cpp:31-51 | when the scan yields options and p is the last pair position naming an option, that option's value is the argument after p |
| Argv.BreakAt | tools/hailo/hailo-cli.cpp:31-51 | the position where the scan stops lies between its start and the end of the arguments |
| Argv.ScanStopsAtBreak | tools/hailo/hailo-cli.cpp:31-51 | the scan yields options iff it runs to the end; otherwise it asks for help iff the argument where it stops is help, and reports any other argument there as unknown |
| Argv.LastIndexOf | tools/hailo/hailo-cli.cpp:60 | finds the last occurrence of a character, or reports that there is none |
| Argv.FileName | tools/hailo/hailo-cli.cpp:60 | the last path component: a suffix of the path with no `/`, which is the whole path or follows a `/` |
| Argv.Stem | tools/hailo/hailo-cli.cpp:59-61 | the stem is a prefix of the file name with no `/`, either the whole name or followed by `.` |
| Argv.LastIndexOfBoundary | tools/hailo/hailo-cli.cpp:60 | in a + b, with a ending in c and b free of c, the last c is a's last character |
| Argv.FileNameBelow | tools/hailo/hailo-cli.cpp:60 | below a directory prefix ending in `/`, the file name is the text after it |
| Argv.LastDotEndsName | tools/hailo/hailo-cli.cpp:61 | in `name.ext` with no dot in ext, the last dot is the one after name |
| Argv.StemDropsExtension | tools/hailo/hailo-server.cpp:155-158 | the default model name for `dir/name.ext` is `name` |
| Argv.StemKeepsUndottedName | tools/hailo/hailo-server.cpp:155-158 | a file name whose only dot is its first character (`.profile`), one with no dot, and `.` and `..` are their own stems |
| Cli.CliLaunch | tools/hailo/hailo-cli.cpp:24-61 | help exits 0; an unknown option exits 1; a missing `--model` exits 1; otherwise it starts with the given path; the name defaults to the stem; a given `--temperature` or `--top-p` is the float conversion of its value, a given `--max-tokens` the integer conversion; temperature 0.7, top-p 0.9 and max-tokens -1 are the defaults |
| Cli.NonPairArgumentsExitOne | tools/hailo/hailo-cli.cpp:43-50 | where the scan stops short of the end, the program exits 0 if the argument there is help and 1 otherwise (an unknown argument, or an option with no value after it) |
| Cli.MissingModelNeverStarts | tools/hailo/hailo-cli.cpp:53-57 | without `--model` the program never starts, and exits 0 or 1 |
| Cli.FindFirstNotBlank | tools/hailo/hailo-cli.cpp:91 | the first non-blank position, all blank before it; None iff the line is all blank |
| Cli.FirstNotBlankFrom | tools/hailo/hailo-cli.cpp:91 | the first non-blank position at or after a start, everything before it from the start being blank; None iff all of it is blank |
| Cli.FindLastNotBlank | tools/hailo/hailo-cli.cpp:96 | the last non-blank position, all blank after it; None iff the line is all blank |
| Cli.LastNotBlankBefore | tools/hailo/hailo-cli.cpp:96 | the last non-blank position before an end, everything after it up to the end being blank; None iff all of it is blank |
| Cli.TrimLine | tools/hailo/hailo-cli.cpp:90-103 | a line is skipped iff it is all blank; otherwise the result is non-empty and neither starts nor ends with a blank |
| Cli.TrimLineFrames | tools/hailo/hailo-cli.cpp:90-99 | the trimmed text sits in the line at the first non-blank position, and everything before and after it is blank |
| Cli.TrimLineIdempotent | tools/hailo/hailo-cli.cpp:90-99 | trimming trimmed text changes nothing |
| Cli.Classify | tools/hailo/hailo-cli.cpp:90-114 | blank lines are skipped; `/quit` and `/exit` quit; `/clear` clears; anything else is a user message, namely the trimmed line |
| Cli.AfterTurn | tools/hailo/hailo-cli.cpp:116-142 | a turn keeps the history, appends the user record, and appends the assistant record iff the reply is non-empty |
| Cli.AfterTurnWellFormed | tools/hailo/hailo-cli.cpp:116-142 | a turn keeps the history made of non-empty records, each assistant record right after a user record |
| Cli.TurnKeepsShape | tools/hailo/hailo-cli.cpp:77-142 | one turn keeps the history well formed and appends to the output, starting with the prompt |
| Cli.TurnEnding | tools/hailo/hailo-cli.cpp:77-114 | a turn ends the loop at end of input, on a quit command or on a raised flag; a turn that goes on read a line with no signal and leaves the flag clear |
| Cli.RunSpecKeepsShape | tools/hailo/hailo-cli.cpp:77-148 | the whole loop keeps the history well formed, only appends to the output, and reads at least once and at most once past the last line |
| Cli.RunSpecEnding | tools/hailo/hailo-cli.cpp:77-148 | the fold ends properly: at end of input iff it read past the last line, by quit only on a quit line, by interrupt only on a signal or a flag raised before the first read; no earlier read saw a signal or a quit |
| Cli.RunSpecUnfold | tools/hailo/hailo-cli.cpp:77-148 | the loop from a read is that read's turn, followed by the loop from the next read exactly when the turn goes on; a turn goes on only before end of input |
| Cli.Repl.constructor | tools/hailo/hailo-cli.cpp:74 | the history starts empty, nothing has reached the backend yet, and the loop keeps the engine, flag and sampling values it is given |
| Cli.Repl.Converse | tools/hailo/hailo-cli.cpp:116-147 | the history becomes `AfterTurn` with the concatenated fragments; the fragments are printed in order, then a blank line; the prompt written holds the new user record; the backend receives `Configure` of the loop's temperature, top-p and token limit; the flag ends clear |
| Cli.Repl.Step | tools/hailo/hailo-cli.cpp:77-148 | the new history, output and flag, and the ending, are `Turn` of the old ones: prints the prompt; end of input ends the loop; a raised flag ends it; otherwise it skips, quits, clears (printing the notice), or converses, as the line says; only a conversation hands the model a prompt and sampling parameters, and those are the history with the new user record and `Configure` of the loop's values |
| Cli.Repl.Run | tools/hailo/hailo-cli.cpp:77-148 | the final history, output and flag, the ending and the number of reads are `RunSpec`, the turns folded over the lines; and the ending is proper: the loop reads until end of input, a quit command or an interrupt, whichever comes first, and ends on an interrupt only when a signal arrived during that read or the flag was already raised at the start |
| Cli.RunCli | tools/hailo/hailo-cli.cpp:24-153 | the exit code is the option outcome's code, or 1 when loading fails, otherwise 0; the engine is initialised with the parsed model path and name; once the model is loaded, the loop runs with the parsed temperature, top-p and token limit over the input lines from an empty history with the flag clear, its final state, ending and read count are `RunSpec` of those, it ends properly, and the engine is shut down afterwards |
| Server.Response.constructor | tools/hailo/hailo-server.cpp:35 | a fresh response has no status, no headers and no content |
| Server.Response.SetStatus | tools/hailo/hailo-server.cpp:40 | sets the status only |
| Server.Response.SetHeader | tools/hailo/hailo-server.cpp:68-69 | appends one header only |
| Server.Response.SetContent | tools/hailo/hailo-server.cpp:41 | sets the content only |
| Server.ReadParams | tools/hailo/hailo-server.cpp:58-61 | an absent key gives the default: stream false, temperature 0.7, top_p 0.9, max_tokens -1; a present key gives its converted value (`get<bool>`, `get<float>`, `get<int>`); the read throws iff a present key has the wrong type |
| Server.BadRequestIff | tools/hailo/hailo-server.cpp:37-50 | status 400 is set exactly for an unparseable body or a missing or non-array `messages`, each with its literal error body |
| Server.NonStreamingEnvelope | tools/hailo/hailo-server.cpp:100-111 | a non-streaming request gets a completion with a fresh id, the full generated text, the engine's finish reason and usage 0/0/0 |
| Server.StreamingSetup | tools/hailo/hailo-server.cpp:52-98 | a streaming request sets the no-cache and keep-alive headers, and the provider gets every message in order with the request's sampling values |
| Server.HandleChatCompletions | tools/hailo/hailo-server.cpp:35-112 | the response holds exactly what `ChatCompletionsReply` says, or is untouched when a parameter read throws; for a non-streamed completion the backend receives the request's messages in order and `Configure` of its temperature, top_p and max_tokens, and otherwise nothing is generated |
| Server.Sink.constructor | tools/hailo/hailo-server.cpp:72 | a sink starts with no writes and open |
| Server.Sink.Write | tools/hailo/hailo-server.cpp:81 | appends the write and reports whether it succeeded |
| Server.Sink.Done | tools/hailo/hailo-server.cpp:94 | closes the sink |
| Server.AcceptsFrom | tools/hailo/hailo-server.cpp:78-82 | the callback's k-th answer is the success of the sink's write at base + k |
| Server.StreamEvents | tools/hailo/hailo-server.cpp:74-94 | a stream makes two more writes than there are forwarded fragments |
| Server.StreamShape | tools/hailo/hailo-server.cpp:74-94 | a client reads one chunk per fragment, in order, with a null finish reason; then one chunk with a null delta and the engine's finish reason; then `[DONE]`, which appears nowhere else |
| Server.WriteFragmentChunks | tools/hailo/hailo-server.cpp:76-82 | the callback's writes are the stream's fragment chunks, in order, and the sink stays open |
| Server.RunStream | tools/hailo/hailo-server.cpp:71-96 | the provider's writes are `StreamEvents` of the generation it ran, fed by the sink's answers; it then closes the sink and reports success; the backend receives the job's messages and `Configure` of its sampling values |
| Server.WriteFailureStops | tools/hailo/hailo-server.cpp:78-94 | a failed write of fragment k stops generation with "stop"; the stream is k+1 fragment chunks, the final chunk and `[DONE]` |
| Server.ServerLaunch | tools/hailo/hailo-server.cpp:123-158 | help exits 0; an unknown option or a missing `--model` exits 1; otherwise it starts with the path; the name defaults to the stem; a given `--port` is the integer conversion of its value; host 127.0.0.1 and port 8080 are the defaults |
| Server.ServerDefaults | tools/hailo/hailo-server.cpp:124-127 | `--model p` alone serves on 127.0.0.1:8080 under the stem of p |
| Server.RunServer | tools/hailo/hailo-server.cpp:123-193 | the exit code is the option outcome's code, or 1 when loading or listening fails, otherwise 0; the engine is initialised with the parsed model path and name, and is shut down when the server exits with 0 |

## Left out

- The hailort runtime (VDevice, LLM, generator, completion) is not modelled. Its answers are the script in `Backend`; an exhausted script counts as a failed read.
- Inference itself and the hailo_status numeric values: only the eight named codes and "some other code" are distinguished.
- The engine's mutex, the server's signal-polling thread, and `listen`/`stop` are concurrency or I/O. The listen result is a parameter of `RunServer`.
- OS signal registration (`setup_signal_handlers`). Signals are inputs saying when the flag is raised.
- The destructor's implicit `shutdown` is not modelled.
- The order in which `shutdown` releases the model, then the device, cannot be observed in this model.
- JSON text is not modelled: `dump()`, `parse()`, and the `data: …` framing of each event. A body that fails to parse is `None`, and events are kept as trees.
- History records are kept as trees, not as the serialized text the chat tool stores.
- The clock and the random generator are parameters: `now` and `clock(k)` for `created`, and `draw` for the id's 64-bit value.
- `std::stof` and `std::atoi` are parameters, and their exceptions and overflow are not modelled.
- Single-precision floats are modelled as reals, so rounding of 0.7/0.9 and NaN comparisons are not modelled. Rounding can change `Configure`'s decisions: a `temperature` of 1e-50 becomes 0.0f in C++, which is greedy decoding, while the model samples; a `top_p` of 0.999999999 becomes 1.0f in C++, which turns nucleus filtering off, while the model keeps it.
- Cli.CliLaunch: the value-to-float conversion is an abstract parameter, so a `std::stof` throw on a malformed number is not modelled.
- Json.AsInt: converting a float outside the `int` range (undefined behaviour in C++) is not modelled. An integer is wrapped from any size, whereas the library stores integers beyond the 64-bit range as floats.
- Interleaving is not modelled. The callback's side effects (printing, accumulating, sink writes) are replayed in fragment order after the generation returns, and each fragment's "keep going" answer is an input.
- The `GET /health` and `GET /v1/models` handlers are not modelled. They return constant or single-field JSON.
- Routing, sockets, and what the library sends for an unset status or a thrown handler are not modelled.
- The chat tool's banner before the loop, the `Shutting down...` line after it, and stdout flushing are not modelled.
- Logging (`LOG_*` lines) is not modelled.
- Text is modelled as Unicode strings, so invalid UTF-8 is not modelled. A strict `dump()` throws on it (tools/hailo/hailo-server.cpp:80, tools/hailo/hailo-cli.cpp:118 and 141). In the server such a throw ends the event stream without the final chunk and `[DONE]`.
