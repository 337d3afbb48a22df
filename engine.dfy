/**
 * The session engine: one loaded model behind a scripted backend, the
 * translation of sampling settings into generator parameters, and the pull
 * loop that turns the backend's fragments and statuses into callback
 * invocations and a finish reason ("stop" or "length").
 *
 * The backend (device, model, generator and completion objects) is not part of
 * this model: every answer it gives during one generation is fixed in advance by
 * a `Backend` script. The fragment callback is modelled by its answers, `cont(k)`
 * being what it returns for the k-th fragment forwarded; its other effects are
 * performed by the caller over the forwarded fragments, in order.
 */
module Engine {
  import opened Wrappers
  import opened Json
  import opened Common

  /** `LLMGeneratorCompletion::Status`. */
  datatype GenStatus = Generating | LogicalEndOfGeneration | MaxTokensReached | Aborted

  /** What `completion.read()` returns: a fragment, or a failure status. */
  datatype ReadResult = Token(text: string) | ReadFailure(status: HailoStatus)

  /**
   * The backend's answers in one iteration of the pull loop: the status seen at
   * the top of the iteration, what the read returns, and the status seen right
   * after the read.
   */
  datatype Step = Step(before: GenStatus, read: ReadResult, after: GenStatus)

  /**
   * The scripted backend for one generation: the outcome of each setup call,
   * then the completion's answers iteration by iteration. A completion whose
   * script is used up fails its next read.
   */
  datatype Backend = Backend(
    clearStatus: HailoStatus,
    paramsStatus: HailoStatus,
    generatorStatus: HailoStatus,
    writeStatus: HailoStatus,
    startStatus: HailoStatus,
    steps: seq<Step>)

  /**
   * Generator parameters as the engine leaves them: `doSample` is always set;
   * a None field is left at the backend's own default.
   */
  datatype SamplingParams = SamplingParams(
    doSample: bool,
    temperature: Option<real>,
    topP: Option<real>,
    maxGeneratedTokens: Option<nat>)

  /**
   * The result of one generation: the finish reason returned, the fragments
   * handed to the callback (one invocation each, in order), and whether
   * `completion.abort()` was called.
   */
  datatype Outcome = Outcome(finishReason: string, delivered: seq<string>, aborted: bool)

  const NoGeneration := Outcome("stop", [], false)

  /** Sampling-parameter translation: sampling iff temperature > 0, nucleus filtering iff 0 < top_p < 1, a cap iff max_tokens > 0. */
  function Configure(temperature: real, topP: real, maxTokens: int): (p: SamplingParams)
    ensures p.doSample <==> temperature > 0.0
    ensures p.temperature == (if temperature > 0.0 then Some(temperature) else None)
    ensures p.topP.Some? <==> 0.0 < topP < 1.0
    ensures p.topP.Some? ==> p.topP.value == topP
    ensures p.maxGeneratedTokens.Some? <==> maxTokens > 0
    ensures p.maxGeneratedTokens.Some? ==> p.maxGeneratedTokens.value == maxTokens
  {
    SamplingParams(
      temperature > 0.0,
      if temperature > 0.0 then Some(temperature) else None,
      if 0.0 < topP < 1.0 then Some(topP) else None,
      if maxTokens > 0 then Some(maxTokens) else None)
  }

  /** The finish reason for a status other than `Generating`. */
  function ReasonFor(status: GenStatus): (reason: string)
    ensures reason == "length" <==> status == MaxTokensReached
    ensures reason == "stop" || reason == "length"
  {
    if status == MaxTokensReached then "length" else "stop"
  }

  /** A step whose fragment the loop forwards: generating before and after a successful read. */
  predicate Forwards(s: Step) {
    s.before == Generating && s.read.Token? && s.after == Generating
  }

  /** A step at which the loop stops with "length": the token budget is seen before or right after the read. */
  predicate HitsLength(s: Step) {
    s.before == MaxTokensReached
    || (s.before == Generating && s.read.Token? && s.after == MaxTokensReached)
  }

  /** The fragment a step reads ("" when its read fails). */
  function Text(s: Step): string {
    if s.read.Token? then s.read.text else ""
  }

  function Texts(steps: seq<Step>): (ts: seq<string>)
    ensures |ts| == |steps|
    ensures forall k :: 0 <= k < |steps| ==> ts[k] == Text(steps[k])
  {
    seq(|steps|, k requires 0 <= k < |steps| => Text(steps[k]))
  }

  /**
   * The pull loop from iteration `i` on: what it returns and forwards. Each
   * iteration reads the status, reads one fragment, reads the status again, and
   * then either forwards the fragment or finishes.
   */
  function Pull(steps: seq<Step>, cont: nat -> bool, i: nat): (o: Outcome)
    requires i <= |steps|
    ensures o.finishReason == "stop" || o.finishReason == "length"
    ensures |o.delivered| <= |steps| - i
    decreases |steps| - i
  {
    if i == |steps| then NoGeneration
    else
      var s := steps[i];
      if s.before != Generating then Outcome(ReasonFor(s.before), [], false)
      else if s.read.ReadFailure? then NoGeneration
      else if s.after != Generating then Outcome(ReasonFor(s.after), [], false)
      else if !cont(i) then Outcome("stop", [s.read.text], true)
      else
        var rest := Pull(steps, cont, i + 1);
        Outcome(rest.finishReason, [s.read.text] + rest.delivered, rest.aborted)
  }

  /** Some setup call (clear, parameters, generator, prompt write, start) fails. */
  predicate SetupFails(b: Backend) {
    b.clearStatus != Success || b.paramsStatus != Success || b.generatorStatus != Success
    || b.writeStatus != Success || b.startStatus != Success
  }

  /** Whether a generation gets as far as `create_generator`, which receives the sampling parameters. */
  predicate ParamsHanded(loaded: bool, b: Backend) {
    loaded && b.clearStatus == Success && b.paramsStatus == Success
  }

  /** Whether a generation goes on to `write`, which receives the prompt. */
  predicate PromptWritten(loaded: bool, b: Backend) {
    ParamsHanded(loaded, b) && b.generatorStatus == Success
  }

  /**
   * `generate_streaming` as a function of whether a model is loaded, the backend
   * script and the callback's answers.
   */
  function Generation(loaded: bool, b: Backend, cont: nat -> bool): (o: Outcome)
    ensures !loaded || SetupFails(b) ==> o == NoGeneration
    ensures loaded && !SetupFails(b) ==> o == Pull(b.steps, cont, 0)
  {
    if !loaded || SetupFails(b) then NoGeneration else Pull(b.steps, cont, 0)
  }

  /** The callback of the non-streaming entry point, which never asks to stop. */
  function AlwaysContinue(k: nat): bool {
    true
  }

  /** The in-order concatenation of fragments. */
  function Concat(fragments: seq<string>): (text: string)
    ensures fragments == [] ==> text == ""
  {
    if fragments == [] then "" else Concat(fragments[..|fragments| - 1]) + fragments[|fragments| - 1]
  }

  /** Joining two runs of fragments joins their texts. */
  lemma {:induction false} ConcatAppend(a: seq<string>, b: seq<string>)
    ensures Concat(a + b) == Concat(a) + Concat(b)
    decreases |b|
  {
    if b == [] {
      assert a + b == a;
    } else {
      var last := |b| - 1;
      assert (a + b)[..|a + b| - 1] == a + b[..last];
      ConcatAppend(a, b[..last]);
      assert Concat(b) == Concat(b[..last]) + b[last];
    }
  }

  /** The loop reaches iteration `j`: every earlier step forwarded and the callback asked to go on. */
  ghost predicate Reaches(steps: seq<Step>, cont: nat -> bool, j: nat) {
    j <= |steps| && forall k :: 0 <= k < j ==> Forwards(steps[k]) && cont(k)
  }

  // ---------------------------------------------------------------------------
  // Properties of the pull loop

  /**
   * Running up to a reached iteration `j` forwards exactly the fragments of the
   * first `j` steps, and the rest of the run is the run from `j`.
   */
  lemma {:induction false} PullRunUp(steps: seq<Step>, cont: nat -> bool, i: nat, j: nat)
    requires i <= j && Reaches(steps, cont, j)
    ensures Pull(steps, cont, i).finishReason == Pull(steps, cont, j).finishReason
    ensures Pull(steps, cont, i).aborted == Pull(steps, cont, j).aborted
    ensures Pull(steps, cont, i).delivered == Texts(steps[i..j]) + Pull(steps, cont, j).delivered
    decreases j - i
  {
    if i < j {
      assert Forwards(steps[i]) && cont(i);
      PullRunUp(steps, cont, i + 1, j);
      var rest := Pull(steps, cont, i + 1);
      assert Pull(steps, cont, i) == Outcome(rest.finishReason, [Text(steps[i])] + rest.delivered, rest.aborted);
      assert Texts(steps[i..j]) == [Text(steps[i])] + Texts(steps[i + 1..j]);
    }
  }

  /**
   * What a run of the loop from iteration `i` did, stated without the loop:
   * with `n` fragments forwarded, steps i .. i+n-1 all forwarded their fragments
   * in read order, the callback asked to go on after all but the last of them,
   * abort was called exactly when the callback refused the last one, otherwise
   * the loop stopped at a step that does not forward (or at the end of the
   * script), and the result is "length" exactly when that step hit the budget.
   */
  ghost predicate RunFrom(steps: seq<Step>, cont: nat -> bool, i: nat, o: Outcome)
    requires i <= |steps|
  {
    var n := |o.delivered|;
    && i + n <= |steps|
    && (forall a :: i <= a < i + n ==> Forwards(steps[a]) && o.delivered[a - i] == Text(steps[a]))
    && (forall a :: i <= a < i + n - 1 ==> cont(a))
    && (o.aborted <==> n > 0 && !cont(i + n - 1))
    && (!o.aborted ==> i + n == |steps| || !Forwards(steps[i + n]))
    && (o.finishReason == "length" <==> !o.aborted && i + n < |steps| && HitsLength(steps[i + n]))
  }

  lemma {:induction false} PullCharacterized(steps: seq<Step>, cont: nat -> bool, i: nat)
    requires i <= |steps|
    ensures RunFrom(steps, cont, i, Pull(steps, cont, i))
    decreases |steps| - i
  {
    if i < |steps| && Forwards(steps[i]) && cont(i) {
      PullCharacterized(steps, cont, i + 1);
      var o := Pull(steps, cont, i);
      var r := Pull(steps, cont, i + 1);
      assert o.delivered == [Text(steps[i])] + r.delivered;
      forall a | i < a < i + |o.delivered|
        ensures o.delivered[a - i] == Text(steps[a])
      {
        assert o.delivered[a - i] == r.delivered[a - (i + 1)];
      }
    }
  }

  /** Whatever the backend and the callback do, the result is "stop" or "length". */
  lemma GenerationFinishes(loaded: bool, b: Backend, cont: nat -> bool)
    ensures Generation(loaded, b, cont).finishReason in {"stop", "length"}
  {
  }

  /** The result is "length" exactly when the loop ends on the token budget, seen before a read or right after one. */
  lemma GenerationLengthIff(loaded: bool, b: Backend, cont: nat -> bool)
    ensures var o := Generation(loaded, b, cont); var n := |o.delivered|;
      o.finishReason == "length" <==>
        loaded && !SetupFails(b) && !o.aborted && n < |b.steps| && HitsLength(b.steps[n])
  {
    PullCharacterized(b.steps, cont, 0);
  }

  /** A fragment whose read moved the status away from `Generating` is never forwarded: nothing at or after its step is. */
  lemma TerminalFragmentNotForwarded(loaded: bool, b: Backend, cont: nat -> bool, j: nat)
    requires j < |b.steps| && b.steps[j].read.Token? && b.steps[j].after != Generating
    ensures |Generation(loaded, b, cont).delivered| <= j
  {
    PullCharacterized(b.steps, cont, 0);
  }

  /** The forwarded fragments are exactly those read while the status stayed `Generating`, in read order. */
  lemma ForwardedInReadOrder(loaded: bool, b: Backend, cont: nat -> bool)
    ensures var o := Generation(loaded, b, cont);
      |o.delivered| <= |b.steps|
      && o.delivered == Texts(b.steps[..|o.delivered|])
      && forall k :: 0 <= k < |o.delivered| ==> Forwards(b.steps[k])
  {
    PullCharacterized(b.steps, cont, 0);
  }

  /** A read failure at a reached iteration ends the loop with "stop", forwarding nothing further. */
  lemma ReadFailureStops(b: Backend, cont: nat -> bool, j: nat)
    requires !SetupFails(b) && Reaches(b.steps, cont, j)
    requires j < |b.steps| && b.steps[j].before == Generating && b.steps[j].read.ReadFailure?
    ensures Generation(true, b, cont) == Outcome("stop", Texts(b.steps[..j]), false)
  {
    PullRunUp(b.steps, cont, 0, j);
    assert b.steps[0..j] == b.steps[..j];
  }

  /** When the callback refuses fragment k, abort is called, nothing after fragment k is delivered, and the result is "stop". */
  lemma RefusalAborts(loaded: bool, b: Backend, cont: nat -> bool, k: nat)
    requires k < |Generation(loaded, b, cont).delivered| && !cont(k)
    ensures var o := Generation(loaded, b, cont);
      |o.delivered| == k + 1 && o.aborted && o.finishReason == "stop"
  {
    PullCharacterized(b.steps, cont, 0);
  }

  /** A callback that never refuses never leads to an abort. */
  lemma {:induction false} NoRefusalNoAbort(steps: seq<Step>, cont: nat -> bool, i: nat)
    requires i <= |steps| && forall k :: cont(k)
    ensures !Pull(steps, cont, i).aborted
    decreases |steps| - i
  {
    if i < |steps| {
      NoRefusalNoAbort(steps, cont, i + 1);
    }
  }

  // ---------------------------------------------------------------------------
  // The engine object

  /**
   * `HailoEngine`: whether it holds a device and a loaded model, its display
   * name and model path, and the cached maximum context size.
   */
  class HailoEngine {
    var hasDevice: bool
    var hasModel: bool
    var modelName: string
    var hefPath: string
    var maxContext: nat

    /** A loaded model always has its device. */
    ghost predicate Valid()
      reads this
    {
      hasModel ==> hasDevice
    }

    constructor ()
      ensures Valid() && !hasModel && !hasDevice
      ensures modelName == "" && hefPath == "" && maxContext == 0
    {
      hasDevice, hasModel := false, false;
      modelName, hefPath := "", "";
      maxContext := 0;
    }

    /**
     * `init`: records the path and name, creates the device, then loads the model
     * and queries its context capacity. `deviceStatus`, `modelStatus` and
     * `capacity` are the backend's answers (None: the query failed, which only
     * logs a warning and keeps the previous value).
     */
    method Init(path: string, name: string, deviceStatus: HailoStatus, modelStatus: HailoStatus, capacity: Option<nat>)
      returns (ok: bool)
      requires Valid()
      modifies this
      ensures Valid()
      ensures hefPath == path && modelName == name
      ensures ok <==> deviceStatus == Success && modelStatus == Success
      ensures hasDevice == (old(hasDevice) || deviceStatus == Success)
      ensures hasModel == (old(hasModel) || ok)
      ensures maxContext == if ok && capacity.Some? then capacity.value else old(maxContext)
    {
      hefPath := path;
      modelName := name;
      if deviceStatus != Success {
        return false;
      }
      hasDevice := true;
      if modelStatus != Success {
        return false;
      }
      hasModel := true;
      if capacity.Some? {
        maxContext := capacity.value;
      }
      return true;
    }

    /** `shutdown`: releases the model, then the device; safe to repeat. */
    method Shutdown()
      modifies this
      ensures Valid() && !hasModel && !hasDevice
      ensures modelName == old(modelName) && hefPath == old(hefPath) && maxContext == old(maxContext)
    {
      hasModel := false;
      hasDevice := false;
    }

    /**
     * `generate_streaming`: runs one generation against the script `b` with the
     * callback answers `cont`. Besides the outcome it returns the parameters
     * handed to `create_generator` and the prompt handed to `write`, None when
     * the call was not reached.
     */
    method GenerateStreaming(messages: seq<Json>, cont: nat -> bool, temperature: real, topP: real, maxTokens: int, b: Backend)
      returns (o: Outcome, params: Option<SamplingParams>, prompt: Option<seq<Json>>)
      ensures o == Generation(hasModel, b, cont)
      ensures params == if ParamsHanded(hasModel, b) then Some(Configure(temperature, topP, maxTokens)) else None
      ensures prompt == if PromptWritten(hasModel, b) then Some(messages) else None
    {
      params, prompt := None, None;
      if !hasModel {
        return NoGeneration, params, prompt;
      }
      if b.clearStatus != Success || b.paramsStatus != Success {
        return NoGeneration, params, prompt;
      }
      var p := SamplingParams(false, None, None, None);
      if temperature > 0.0 {
        p := p.(doSample := true, temperature := Some(temperature));
      } else {
        p := p.(doSample := false);
      }
      if 0.0 < topP && topP < 1.0 {
        p := p.(topP := Some(topP));
      }
      if maxTokens > 0 {
        p := p.(maxGeneratedTokens := Some(maxTokens));
      }
      params := Some(p);
      if b.generatorStatus != Success {
        return NoGeneration, params, prompt;
      }
      prompt := Some(messages);
      if b.writeStatus != Success || b.startStatus != Success {
        return NoGeneration, params, prompt;
      }

      var steps := b.steps;
      var finishReason := "stop";
      var delivered: seq<string> := [];
      var aborted := false;
      var i := 0;
      while true
        invariant i <= |steps| && Reaches(steps, cont, i)
        invariant delivered == Texts(steps[..i])
        decreases |steps| - i
      {
        if i == |steps| {
          break;  // nothing left to read: the read fails
        }
        var status := steps[i].before;
        if status == LogicalEndOfGeneration {
          finishReason := "stop";
          break;
        }
        if status == MaxTokensReached {
          finishReason := "length";
          break;
        }
        if status == Aborted {
          finishReason := "stop";
          break;
        }
        var token := steps[i].read;
        if token.ReadFailure? {
          break;
        }
        var postStatus := steps[i].after;
        if postStatus != Generating {
          if postStatus == MaxTokensReached {
            finishReason := "length";
          } else {
            finishReason := "stop";
          }
          break;
        }
        delivered := delivered + [token.text];
        if !cont(i) {
          aborted := true;
          finishReason := "stop";
          break;
        }
        assert steps[..i + 1] == steps[..i] + [steps[i]];
        i := i + 1;
      }
      o := Outcome(finishReason, delivered, aborted);
      PullRunUp(steps, cont, 0, i);
      assert steps[0..i] == steps[..i];
    }

    /**
     * `generate`: the non-streaming entry point. Its callback appends each
     * fragment to the response and always continues. `params` and `prompt` are
     * what the `generate_streaming` call it wraps hands the backend.
     */
    method Generate(messages: seq<Json>, temperature: real, topP: real, maxTokens: int, b: Backend)
      returns (text: string, finishReason: string, params: Option<SamplingParams>, prompt: Option<seq<Json>>)
      ensures var o := Generation(hasModel, b, AlwaysContinue);
        text == Concat(o.delivered) && finishReason == o.finishReason
      ensures params == if ParamsHanded(hasModel, b) then Some(Configure(temperature, topP, maxTokens)) else None
      ensures prompt == if PromptWritten(hasModel, b) then Some(messages) else None
    {
      var o;
      o, params, prompt := GenerateStreaming(messages, AlwaysContinue, temperature, topP, maxTokens, b);
      text := "";
      for k := 0 to |o.delivered|
        invariant text == Concat(o.delivered[..k])
      {
        assert o.delivered[..k + 1][..k] == o.delivered[..k];
        text := text + o.delivered[k];
      }
      assert o.delivered[..|o.delivered|] == o.delivered;
      finishReason := o.finishReason;
    }
  }

  /** The non-streaming entry point never aborts the completion. */
  lemma GenerateNeverAborts(loaded: bool, b: Backend)
    ensures !Generation(loaded, b, AlwaysContinue).aborted
  {
    if loaded && !SetupFails(b) {
      NoRefusalNoAbort(b.steps, AlwaysContinue, 0);
    }
  }

  /**
   * After `shutdown` (once, or `twice`) no generation reaches the backend: the
   * result is "stop", the callback is never invoked, and nothing is handed over.
   */
  method ShutdownThenGenerate(
    path: string, name: string, deviceStatus: HailoStatus, modelStatus: HailoStatus,
    capacity: Option<nat>, cont: nat -> bool, b: Backend, twice: bool)
    returns (o: Outcome, params: Option<SamplingParams>, prompt: Option<seq<Json>>)
    ensures o == Outcome("stop", [], false)
    ensures params == None && prompt == None
  {
    var engine := new HailoEngine();
    var _ := engine.Init(path, name, deviceStatus, modelStatus, capacity);
    engine.Shutdown();
    if twice {
      engine.Shutdown();
    }
    o, params, prompt := engine.GenerateStreaming([], cont, 0.7, 0.9, -1, b);
  }
}
