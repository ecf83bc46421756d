/**
  The Gemini client helper: which API keys are configured, how a model handle
  is obtained for the key at a given index, and the ordered key fallback
  around a caller-supplied generation call.

  The generation call `fn(model)` is not run: `calls[i]` is the outcome it
  would have when invoked with the model built from key `i`.
 */
module Gemini {
  import opened Outcomes
  import Keys

  const ExhaustedMessage := "All Gemini API keys have been exhausted."
  const DefaultModelName := "gemini-2.0-flash"

  /** The two environment variables `GEMINI_API_KEY` and `GEMINI_API_KEY_SECONDARY`. */
  datatype Env = Env(primary: Option<string>, secondary: Option<string>)

  /** A generative-model handle: the key the client was constructed with and the model name. */
  datatype Model = Model(key: string, name: string)

  /** Every call `fn` received, in order, and what the fallback finally produced. */
  datatype Run<+V> = Run(result: Attempt<V>, tried: seq<nat>)

  /** `getApiKeys`: the configured keys that are set and non-empty, primary first. */
  function ApiKeys(env: Env): (r: seq<string>)
    ensures |r| <= 2
    ensures forall i :: 0 <= i < |r| ==> r[i] != ""
    ensures Keys.Truthy(env.primary) ==> |r| > 0 && r[0] == env.primary.value
    ensures Keys.Truthy(env.secondary) ==> |r| > 0 && r[|r| - 1] == env.secondary.value
    ensures |r| == (if Keys.Truthy(env.primary) then 1 else 0) + (if Keys.Truthy(env.secondary) then 1 else 0)
  {
    Keys.PairKeys(env.primary, env.secondary)
  }

  /** `getGeminiModel`: a handle for the key at `index`, or the exhaustion error past the last key. */
  function GetGeminiModel(env: Env, index: nat, modelName: string): (r: Attempt<Model>)
    ensures r.Err? <==> index >= |ApiKeys(env)|
    ensures r.Err? ==> r.message == ExhaustedMessage
    ensures r.Ok? ==> r.value.key == ApiKeys(env)[index] && r.value.name == modelName
  {
    var keys := ApiKeys(env);
    if index >= |keys| then Err(ExhaustedMessage)
    else Ok(Model(keys[index], modelName))
  }

  /**
    `generateWithFallback`: build the model for key `index` and invoke `fn` on it;
    on any failure move on to key `index + 1` while one exists, otherwise re-throw
    the failure.
   */
  function GenerateWithFallback<V>(env: Env, calls: seq<Attempt<V>>, index: nat, modelName: string): (r: Run<V>)
    requires |calls| == |ApiKeys(env)|
    // no key at `index`: `fn` is never invoked and the exhaustion error surfaces
    ensures index >= |calls| ==> r == Run(Err(ExhaustedMessage), [])
    // the first success from `index` on is returned, and keys `index..i` were tried in order
    ensures index < |calls| && FirstOk(calls, index).Some? ==>
      var i := FirstOk(calls, index).value;
      r == Run(calls[i], Indices(index, i - index + 1))
    // every key from `index` on failed: all were tried in order and the last one's error surfaces
    ensures index < |calls| && FirstOk(calls, index).None? ==>
      r == Run(calls[|calls| - 1], Indices(index, |calls| - index))
    decreases |calls| - index
  {
    var keys := ApiKeys(env);
    var model := GetGeminiModel(env, index, modelName);
    var attempt := if model.Ok? then calls[index] else Err(model.message);
    var tried := if model.Ok? then [index] else [];
    if attempt.Ok? then Run(attempt, tried)
    else if index + 1 < |keys| then
      var rest := GenerateWithFallback(env, calls, index + 1, modelName);
      Run(rest.result, tried + rest.tried)
    else Run(attempt, tried)
  }

  /** The clients are constructed with the keys `keys[index], keys[index + 1], ...`, one per try. */
  function ClientKeys(keys: seq<string>, tried: seq<nat>): (r: seq<string>)
    requires forall j :: 0 <= j < |tried| ==> tried[j] < |keys|
    ensures |r| == |tried|
    ensures forall j :: 0 <= j < |tried| ==> r[j] == keys[tried[j]]
  {
    seq(|tried|, j requires 0 <= j < |tried| => keys[tried[j]])
  }

  /**
    Keys are tried in strictly increasing order starting at `index`, at most
    `|keys| - index` of them, and the keys handed to the client constructor
    are exactly the slice `keys[index..index + n]`.
   */
  lemma {:induction false} FallbackTriesKeysInOrder<V>(env: Env, calls: seq<Attempt<V>>, index: nat, modelName: string)
    requires |calls| == |ApiKeys(env)|
    ensures var r := GenerateWithFallback(env, calls, index, modelName);
      && |r.tried| <= (if index < |calls| then |calls| - index else 0)
      && (forall j :: 0 <= j < |r.tried| ==> r.tried[j] == index + j && r.tried[j] < |calls|)
      && (forall j, k :: 0 <= j < k < |r.tried| ==> r.tried[j] < r.tried[k])
      && (|r.tried| > 0 ==> ClientKeys(ApiKeys(env), r.tried) == ApiKeys(env)[index..index + |r.tried|])
  {
    var r := GenerateWithFallback(env, calls, index, modelName);
    var keys := ApiKeys(env);
    assert forall j :: 0 <= j < |r.tried| ==> r.tried[j] == index + j;
    if |r.tried| > 0 {
      var ck := ClientKeys(keys, r.tried);
      assert forall j :: 0 <= j < |ck| ==> ck[j] == keys[index..index + |r.tried|][j];
    }
  }

  /**
    Early stop: when the key at `i` succeeds and `i` is reached, its value is
    returned and no key after `i` is tried.
   */
  lemma {:induction false} SuccessStopsFallback<V>(env: Env, calls: seq<Attempt<V>>, index: nat, i: nat, modelName: string)
    requires |calls| == |ApiKeys(env)|
    requires index <= i < |calls| && calls[i].Ok?
    requires forall j :: index <= j < i ==> calls[j].Err?
    ensures var r := GenerateWithFallback(env, calls, index, modelName);
      r.result == calls[i] && r.tried == Indices(index, i - index + 1)
      && forall j :: 0 <= j < |r.tried| ==> r.tried[j] <= i
  {
    FirstOkIsLeastSuccess(calls, index, i);
  }

  /** With no usable key the call fails with the exhaustion error and `fn` is never invoked. */
  lemma NoKeysNeverInvokes<V>(env: Env, calls: seq<Attempt<V>>, modelName: string)
    requires !Keys.Truthy(env.primary) && !Keys.Truthy(env.secondary)
    requires |calls| == |ApiKeys(env)|
    ensures GenerateWithFallback(env, calls, 0, modelName) == Run(Err(ExhaustedMessage), [])
  {
  }

  /** The first key's call succeeds: only the client for the first key is built. */
  lemma FirstKeySucceeds(v: string, later: Attempt<string>)
    ensures var env := Env(Some("key1"), Some("key2"));
      var r := GenerateWithFallback(env, [Ok(v), later], 0, DefaultModelName);
      r.result == Ok(v) && r.tried == [0] && ClientKeys(ApiKeys(env), r.tried) == ["key1"]
  {
    var env := Env(Some("key1"), Some("key2"));
    assert ApiKeys(env) == ["key1", "key2"];
  }

  /** The first key's call is rejected and the second key's call succeeds: both clients are built, in order. */
  lemma SecondKeyRescues(v: string)
    ensures var env := Env(Some("key1"), Some("key2"));
      var r := GenerateWithFallback(env, [Err("Quota exceeded"), Ok(v)], 0, DefaultModelName);
      r.result == Ok(v) && r.tried == [0, 1] && ClientKeys(ApiKeys(env), r.tried) == ["key1", "key2"]
  {
    var env := Env(Some("key1"), Some("key2"));
    assert ApiKeys(env) == ["key1", "key2"];
    assert GenerateWithFallback(env, [Err("Quota exceeded"), Ok(v)], 1, DefaultModelName).tried == [1];
  }

  /** Both keys' calls are rejected: two clients are built and the last rejection surfaces. */
  lemma AllKeysRejected(calls: seq<Attempt<string>>)
    requires calls == [Err("Quota exceeded"), Err("Quota exceeded")]
    ensures var env := Env(Some("key1"), Some("key2"));
      var r := GenerateWithFallback(env, calls, 0, DefaultModelName);
      r.result == Err("Quota exceeded") && |r.tried| == 2
  {
    var env := Env(Some("key1"), Some("key2"));
    assert ApiKeys(env) == ["key1", "key2"];
  }

  /**
    The environment the fallback tests set up assigns `Gemini_API` and
    `AULouis_Gemini_API`, which `getApiKeys` never reads, so neither key
    variable is set. Whatever `fn` would do, the call then fails with the
    exhaustion error before any client is built: not with a value, and not
    with "Quota exceeded".
   */
  lemma TestEnvironmentHasNoKeys<V>(calls: seq<Attempt<V>>)
    requires |calls| == |ApiKeys(Env(None, None))|
    ensures var r := GenerateWithFallback(Env(None, None), calls, 0, DefaultModelName);
      && r.result == Err(ExhaustedMessage)
      && r.result.message != "Quota exceeded"
      && r.tried == []
  {
  }
}
