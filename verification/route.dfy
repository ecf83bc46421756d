/**
  The panorama generation request handler: prompt defaulting, the Stability
  key list, the first-success-wins loop over those keys, and the JSON
  response it answers with.

  Reading the form, writing the uploaded images to temporary files, running
  the image-processing process and parsing its output are not modelled
  step by step: a failure while staging the upload is an optional error
  message, and each key's run of the process is one `Attempt<string>` whose
  value is the produced image (`parsed.success` true) and whose error is the
  message the key failed with (`parsed.error`, or the message of any
  exception the run threw).
 */
module Route {
  import opened Outcomes
  import Keys
  import Escaping
  import Gemini

  const DefaultPrompt := "a photographic 360 panorama"
  const AllFailedMessage := "All image processing attempts failed."
  const PipelineFailedMessage := "Failed to process panorama"
  const HybridMethod := "cv_ai_hybrid"

  /** The environment variables `STABILITY_API_KEY` and `NZ_STABILITY_API_KEY`. */
  datatype StabilityEnv = StabilityEnv(primary: Option<string>, secondary: Option<string>)

  /** The body of the JSON response: the success shape or the failure shape. */
  datatype Body = Generated(url: string, tag: string) | Failed(message: string)

  datatype Response = Response(status: nat, body: Body)

  /** How the key loop ended: with a successful result, with the error re-thrown on the last key, or with no key at all. */
  datatype LoopEnd = Found(image: string) | Threw(message: string) | NoResult

  /** The end of the key loop and how many keys it ran the process with. */
  datatype KeyLoopRun = KeyLoopRun(end: LoopEnd, attempted: nat)

  /** The prompt form field, with an absent or empty field replaced by the default prompt. */
  function EffectivePrompt(field: Option<string>): (r: string)
    ensures r != ""
    ensures Keys.Truthy(field) ==> r == field.value
    ensures !Keys.Truthy(field) ==> r == DefaultPrompt
  {
    if Keys.Truthy(field) then field.value else DefaultPrompt
  }

  /** Defaulting the prompt a second time changes nothing. */
  lemma EffectivePromptIdempotent(field: Option<string>)
    ensures EffectivePrompt(Some(EffectivePrompt(field))) == EffectivePrompt(field)
  {
  }

  /**
    `stabilityKeys`: the configured Stability keys that are set and non-empty,
    `STABILITY_API_KEY` first.
   */
  function StabilityKeys(env: StabilityEnv): (r: seq<string>)
    ensures forall k :: k in r <==> k != "" && (env.primary == Some(k) || env.secondary == Some(k))
    ensures |r| == 0 <==> !Keys.Truthy(env.primary) && !Keys.Truthy(env.secondary)
    ensures |r| <= 2
    ensures |r| == 2 <==> Keys.Truthy(env.primary) && Keys.Truthy(env.secondary)
    ensures |r| == 2 ==> Some(r[0]) == env.primary && Some(r[1]) == env.secondary
    ensures Keys.Truthy(env.primary) ==> |r| > 0 && Some(r[0]) == env.primary
  {
    Keys.PairKeys(env.primary, env.secondary)
  }

  /**
    The prompt as it is quoted onto the process command line: each `"` in it
    preceded by a backslash, and the whole wrapped in double quotes.
   */
  function PromptArgument(field: Option<string>): (r: string)
    ensures |r| >= 2 && r[0] == '"' && r[|r| - 1] == '"'
    ensures |r| == |EffectivePrompt(field)| + Escaping.Count(EffectivePrompt(field), '"') + 2
    ensures Escaping.QuotesGuarded(r[1..|r| - 1])
    ensures Escaping.UnescapeQuotes(r[1..|r| - 1]) == EffectivePrompt(field)
  {
    var e := Escaping.EscapeQuotes(EffectivePrompt(field));
    assert ("\"" + e + "\"")[1..|e| + 1] == e;
    Escaping.UnescapeEscapeQuotes(EffectivePrompt(field));
    "\"" + e + "\""
  }

  /**
    For a prompt without backslashes, `$` or backquotes, the shell hands the
    process exactly the effective prompt, whatever follows it on the command line.
   */
  lemma PromptArgumentReadsBack(field: Option<string>, rest: string)
    requires Escaping.PlainText(EffectivePrompt(field))
    ensures Escaping.ReadDoubleQuoted(PromptArgument(field)[1..] + rest)
      == Some(Escaping.Word(EffectivePrompt(field), rest))
  {
    var p := EffectivePrompt(field);
    Escaping.EscapeQuotesAgreesOnPlainText(p);
    AfterOpeningQuote(Escaping.EscapeForShell(p), rest);
    Escaping.EscapeForShellRoundTrip(p, rest);
  }

  /** The prompt `\` is not handed over: the shell reads the backslash and the closing quote as one literal `"`. */
  lemma PromptArgumentLosesBackslash(rest: string)
    ensures Escaping.ReadDoubleQuoted(PromptArgument(Some("\\"))[1..] + rest) != Some(Escaping.Word("\\", rest))
  {
    AfterOpeningQuote(Escaping.EscapeQuotes("\\"), rest);
    Escaping.EscapeQuotesLosesTrailingBackslash(rest);
  }

  /** The prompt argument with every shell-special character escaped. */
  function SafePromptArgument(field: Option<string>): (r: string)
    ensures |r| == |EffectivePrompt(field)| + Escaping.CountSpecial(EffectivePrompt(field)) + 2
  {
    "\"" + Escaping.EscapeForShell(EffectivePrompt(field)) + "\""
  }

  /** With every special character escaped, the shell hands over exactly the effective prompt, for every prompt. */
  lemma SafePromptArgumentReadsBack(field: Option<string>, rest: string)
    ensures Escaping.ReadDoubleQuoted(SafePromptArgument(field)[1..] + rest)
      == Some(Escaping.Word(EffectivePrompt(field), rest))
  {
    var p := EffectivePrompt(field);
    AfterOpeningQuote(Escaping.EscapeForShell(p), rest);
    Escaping.EscapeForShellRoundTrip(p, rest);
  }

  /** Dropping the opening quote of a quoted word leaves its text, the closing quote and what follows. */
  lemma AfterOpeningQuote(e: string, rest: string)
    ensures ("\"" + e + "\"")[1..] + rest == e + "\"" + rest
  {
    assert ("\"" + e + "\"")[1..] == e + "\"";
  }

  /**
    The `for` loop over the keys from iteration `i` on: a success is kept and
    ends the loop; a failure moves on to the next key, except on the last key,
    where it is re-thrown.
   */
  function KeyLoop(attempts: seq<Attempt<string>>, i: nat): (r: KeyLoopRun)
    requires i <= |attempts|
    ensures i == |attempts| ==> r == KeyLoopRun(NoResult, 0)
    ensures i < |attempts| && FirstOk(attempts, i).Some? ==>
      var k := FirstOk(attempts, i).value;
      r == KeyLoopRun(Found(attempts[k].value), k - i + 1)
    ensures i < |attempts| && FirstOk(attempts, i).None? ==>
      r == KeyLoopRun(Threw(attempts[|attempts| - 1].message), |attempts| - i)
    decreases |attempts| - i
  {
    if i == |attempts| then KeyLoopRun(NoResult, 0)
    else match attempts[i]
      case Ok(image) => KeyLoopRun(Found(image), 1)
      case Err(message) =>
        if i == |attempts| - 1 then KeyLoopRun(Threw(message), 1)
        else
          var next := KeyLoop(attempts, i + 1);
          KeyLoopRun(next.end, next.attempted + 1)
  }

  /** The failure response: status 500 and the error's message, or a generic one when it is empty. */
  function FailureResponse(message: string): (r: Response)
    ensures r.status == 500 && r.body.Failed? && r.body.message != ""
    ensures message != "" ==> r.body.message == message
    ensures message == "" ==> r.body.message == PipelineFailedMessage
  {
    Response(500, Failed(if message == "" then PipelineFailedMessage else message))
  }

  /**
    `POST`: stage the upload, run the key loop, and answer with the success or
    the failure shape. `attempts[i]` is the run of the process with
    `StabilityKeys(env)[i]`, so there is one attempt per usable key.
   */
  function Handle(staging: Option<string>, attempts: seq<Attempt<string>>): (r: Response)
    ensures r.status == 200 <==> r.body.Generated?
    ensures r.status != 200 ==> r.status == 500 && r.body.message != ""
    ensures r.body.Generated? ==> r.body.tag == HybridMethod
    ensures staging.Some? ==> r == FailureResponse(staging.value)
    ensures staging.None? && FirstOk(attempts, 0).Some? ==>
      r == Response(200, Generated(attempts[FirstOk(attempts, 0).value].value, HybridMethod))
    ensures staging.None? && |attempts| > 0 && FirstOk(attempts, 0).None? ==>
      r == FailureResponse(attempts[|attempts| - 1].message)
    ensures staging.None? && |attempts| == 0 ==> r == FailureResponse(AllFailedMessage)
  {
    if staging.Some? then FailureResponse(staging.value)
    else match KeyLoop(attempts, 0).end
      case Found(image) => Response(200, Generated(image, HybridMethod))
      case Threw(message) => FailureResponse(message)
      case NoResult => FailureResponse(AllFailedMessage)
  }

  /**
    The route's key loop and the Gemini fallback are the same policy: on the
    same per-key outcomes they succeed together with the same value, fail with
    the same error, and run the same number of attempts.
   */
  lemma KeyLoopAgreesWithGeminiFallback(genv: Gemini.Env, attempts: seq<Attempt<string>>, modelName: string)
    requires |attempts| == |Gemini.ApiKeys(genv)| && |attempts| > 0
    ensures var g := Gemini.GenerateWithFallback(genv, attempts, 0, modelName);
      var k := KeyLoop(attempts, 0);
      && (g.result.Ok? <==> k.end.Found?)
      && (k.end.Found? ==> g.result.value == k.end.image)
      && (k.end.Threw? ==> g.result == Err(k.end.message))
      && |g.tried| == k.attempted
  {
  }

  /** Each failure before the last key hands over to the next key; the first success ends the loop. */
  lemma {:induction false} KeyLoopStopsAtFirstSuccess(attempts: seq<Attempt<string>>, k: nat)
    requires k < |attempts| && attempts[k].Ok?
    requires forall j :: 0 <= j < k ==> attempts[j].Err?
    ensures KeyLoop(attempts, 0) == KeyLoopRun(Found(attempts[k].value), k + 1)
  {
    FirstOkIsLeastSuccess(attempts, 0, k);
  }

  /**
    With no key at all the two loops part ways: the Gemini fallback fails with
    its exhaustion error, while the route's loop ends without a result and the
    route answers "All image processing attempts failed.".
   */
  lemma NoKeysLoopsDiffer(genv: Gemini.Env, attempts: seq<Attempt<string>>, modelName: string)
    requires |attempts| == |Gemini.ApiKeys(genv)| == 0
    ensures Gemini.GenerateWithFallback(genv, attempts, 0, modelName) == Gemini.Run(Err(Gemini.ExhaustedMessage), [])
    ensures KeyLoop(attempts, 0) == KeyLoopRun(NoResult, 0)
    ensures Handle(None, attempts) == Response(500, Failed(AllFailedMessage))
  {
  }

  /** With no Stability key configured, the route runs nothing and answers 500 "All image processing attempts failed.". */
  lemma NoStabilityKeyFails(env: StabilityEnv, attempts: seq<Attempt<string>>)
    requires !Keys.Truthy(env.primary) && !Keys.Truthy(env.secondary)
    requires |attempts| == |StabilityKeys(env)|
    ensures KeyLoop(attempts, 0).attempted == 0
    ensures Handle(None, attempts) == Response(500, Failed(AllFailedMessage))
  {
  }
}
