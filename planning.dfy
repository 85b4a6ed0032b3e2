/** The two planning calls of agents/tofumatic/main.py: `prompt_agent`
    refines the user's request into `{"continue": bool, "prompt": str}`
    and `code_planning_agent` turns the refined request into a list of
    step objects. Each is one streamed chat call wrapped in
    `retry_with_backoff(max_retries=3)`; the chat API is the oracle
    `streams`, whose k-th element is the stream the k-th attempt receives. */
module Planning {
  import opened Wrappers
  import opened Json
  import opened Text
  import opened Chat
  import opened Backoff

  /** `type(v).__name__` for a parsed JSON value. */
  function TypeName(v: JsonValue): string
  {
    match v
    case JNull => "NoneType"
    case JBool(_) => "bool"
    case JNumber(_) => "int"
    case JString(_) => "str"
    case JArray(_) => "list"
    case JObject(_) => "dict"
  }

  /** Python's `key in data`: keys of a dict, elements of a list, substrings
      of a str; any other value raises TypeError. */
  function Contains(data: JsonValue, key: string): (r: Outcome<bool>)
    ensures r.Raise? <==> !(data.JObject? || data.JArray? || data.JString?)
    ensures data.JObject? ==> r == Value(key in data.fields)
  {
    match data
    case JObject(fields) => Value(key in fields)
    case JArray(items) => Value(JString(key) in items)
    case JString(s) => Value(IsSubstring(key, s))
    case _ => Raise(Error(TypeError, "argument of type '" + TypeName(data) + "' is not iterable"))
  }

  /** `[key for key in expected_keys if key not in data]`. */
  function MissingKeys(data: JsonValue, keys: seq<string>): Outcome<seq<string>>
  {
    if keys == [] then Value([])
    else
      match Contains(data, keys[0])
      case Raise(e) => Raise(e)
      case Value(present) =>
        match MissingKeys(data, keys[1..])
        case Raise(e) => Raise(e)
        case Value(rest) => Value(if present then rest else [keys[0]] + rest)
  }

  /** For a dict the comprehension never raises, and nothing is missing
      exactly when every expected key is a key of the dict. */
  lemma {:induction false} MissingKeysOfObject(data: JsonValue, keys: seq<string>)
    requires data.JObject?
    ensures MissingKeys(data, keys).Value?
    ensures MissingKeys(data, keys).value == [] <==> forall k :: 0 <= k < |keys| ==> keys[k] in data.fields
  {
    if keys != [] {
      MissingKeysOfObject(data, keys[1..]);
      assert forall k :: 1 <= k < |keys| ==> keys[k] == keys[1..][k - 1];
    }
  }

  /** For a value that supports `in`, asking about at least one key never raises. */
  lemma {:induction false} MissingKeysRaises(data: JsonValue, keys: seq<string>)
    ensures MissingKeys(data, keys).Raise? <==> keys != [] && !(data.JObject? || data.JArray? || data.JString?)
  {
    if keys != [] {
      MissingKeysRaises(data, keys[1..]);
    }
  }

  /** `validate_json_response`: Value(None) for a parse failure or a missing
      key; the parsed value itself otherwise. An empty key list checks nothing. */
  function ValidateJsonResponse(loads: Parser, response: string, expectedKeys: seq<string>): (r: Outcome<Option<JsonValue>>)
    ensures loads(response).None? ==> r == Value(None)
    ensures expectedKeys == [] ==> r == Value(loads(response))
    ensures r.Value? && r.value.Some? ==> loads(response) == r.value
  {
    match loads(response)
    case None => Value(None)
    case Some(data) =>
      if expectedKeys == [] then Value(Some(data))
      else
        match MissingKeys(data, expectedKeys)
        case Raise(e) => Raise(e)
        case Value(missing) => if missing != [] then Value(None) else Value(Some(data))
  }

  /** A parsed dict is returned unchanged exactly when it has every expected
      key, and is rejected with None otherwise; it never raises. */
  lemma ValidateObject(loads: Parser, response: string, expectedKeys: seq<string>)
    requires loads(response).Some? && loads(response).value.JObject?
    ensures var data := loads(response).value;
      ValidateJsonResponse(loads, response, expectedKeys)
        == if forall k :: 0 <= k < |expectedKeys| ==> expectedKeys[k] in data.fields
           then Value(Some(data)) else Value(None)
  {
    MissingKeysOfObject(loads(response).value, expectedKeys);
  }

  /** What `prompt_agent` returns when validation fails. */
  const InvalidResponse: JsonValue :=
    JObject(map["continue" := JBool(false), "prompt" := JString(""), "error" := JString("Invalid JSON response")])

  /** One call of `prompt_agent`'s body. A validated non-dict value makes the
      `result.get` of the log line raise AttributeError. */
  function PromptAttempt(stream: Stream, loads: Parser): Outcome<JsonValue>
  {
    if stream.failure.Some? then Raise(stream.failure.value)
    else
      match ValidateJsonResponse(loads, StreamText(stream.deltas), ["continue"])
      case Raise(e) => Raise(e)
      case Value(None) => Value(InvalidResponse)
      case Value(Some(v)) =>
        if v.JObject? then Value(v)
        else Raise(Error(AttributeError, "'" + TypeName(v) + "' object has no attribute 'get'"))
  }

  /** `prompt_agent` with its decorator. */
  function PromptAgent(streams: nat -> Stream, loads: Parser): RetryRun<JsonValue>
  {
    Retry(3, (k: nat) => PromptAttempt(streams(k), loads))
  }

  /** Whatever an attempt returns is a dict with a "continue" key: the
      model's own reply, or the invalid-response sentinel. */
  lemma PromptAttemptShape(stream: Stream, loads: Parser)
    requires PromptAttempt(stream, loads).Value?
    ensures var v := PromptAttempt(stream, loads).value;
      v.JObject? && "continue" in v.fields
      && (v != InvalidResponse ==> Some(v) == loads(StreamText(stream.deltas)))
  {
    var text := StreamText(stream.deltas);
    if loads(text).Some? && loads(text).value.JObject? {
      ValidateObject(loads, text, ["continue"]);
    }
  }

  /** A completed stream whose text does not parse, or parses to a dict
      without "continue", yields the sentinel instead of raising. */
  lemma PromptAttemptInvalid(stream: Stream, loads: Parser)
    requires stream.failure.None?
    requires var p := loads(StreamText(stream.deltas));
      p.None? || (p.value.JObject? && "continue" !in p.value.fields)
    ensures PromptAttempt(stream, loads) == Value(InvalidResponse)
  {
    var text := StreamText(stream.deltas);
    if loads(text).Some? {
      ValidateObject(loads, text, ["continue"]);
    }
  }

  /** The sentinel ends `prompt_agent` after one attempt, so malformed JSON
      never raises out of it. */
  lemma PromptAgentInvalid(streams: nat -> Stream, loads: Parser)
    requires streams(0).failure.None?
    requires var p := loads(StreamText(streams(0).deltas));
      p.None? || (p.value.JObject? && "continue" !in p.value.fields)
    ensures PromptAgent(streams, loads) == RetryRun(Value(Some(InvalidResponse)), 1, [])
  {
    PromptAttemptInvalid(streams(0), loads);
  }

  /** `prompt_agent` either re-raises after three failed attempts or returns
      a dict with a "continue" key; it never returns None. */
  lemma PromptAgentShape(streams: nat -> Stream, loads: Parser)
    ensures var r := PromptAgent(streams, loads);
      r.result.Raise? || (r.result.value.Some? && r.result.value.value.JObject?
                          && "continue" in r.result.value.value.fields)
  {
    var attempt := (k: nat) => PromptAttempt(streams(k), loads);
    var r := PromptAgent(streams, loads);
    RetryAttemptsAndSleeps(3, attempt);
    if r.result.Value? {
      RetryReturnsFirstSuccess(3, attempt, r.result.value.value);
      PromptAttemptShape(streams(r.calls - 1), loads);
    }
  }

  /** The dict elements of a list, in their original order. */
  function DictSteps(items: seq<JsonValue>): seq<JsonValue>
  {
    if items == [] then []
    else DictSteps(items[..|items| - 1]) + (if items[|items| - 1].JObject? then [items[|items| - 1]] else [])
  }

  /** The `valid_steps` loop of `code_planning_agent`. */
  method FilterSteps(items: seq<JsonValue>) returns (validSteps: seq<JsonValue>)
    ensures validSteps == DictSteps(items)
  {
    validSteps := [];
    for i := 0 to |items|
      invariant validSteps == DictSteps(items[..i])
    {
      assert items[..i + 1][..i] == items[..i];
      if items[i].JObject? {
        validSteps := validSteps + [items[i]];
      }
    }
    assert items[..|items|] == items;
  }

  /** Filtering distributes over concatenation, so it keeps the original order. */
  lemma {:induction false} DictStepsConcat(a: seq<JsonValue>, b: seq<JsonValue>)
    ensures DictSteps(a + b) == DictSteps(a) + DictSteps(b)
    decreases |b|
  {
    if b == [] {
      assert a + b == a;
    } else {
      assert (a + b)[..|a + b| - 1] == a + b[..|b| - 1];
      DictStepsConcat(a, b[..|b| - 1]);
    }
  }

  /** The filtered list holds exactly the dicts of the input and is never longer. */
  lemma {:induction false} DictStepsElements(items: seq<JsonValue>)
    ensures |DictSteps(items)| <= |items|
    ensures forall v :: v in DictSteps(items) <==> v in items && v.JObject?
    ensures (forall k :: 0 <= k < |items| ==> items[k].JObject?) ==> DictSteps(items) == items
  {
    if items != [] {
      var init := items[..|items| - 1];
      DictStepsElements(init);
      assert items == init + [items[|items| - 1]];
      if forall k :: 0 <= k < |items| ==> items[k].JObject? {
        assert forall k :: 0 <= k < |init| ==> init[k] == items[k];
        assert DictSteps(items) == DictSteps(init) + [items[|items| - 1]];
      }
    }
  }

  /** One call of `code_planning_agent`'s body. */
  function PlanAttempt(stream: Stream, loads: Parser): Outcome<seq<JsonValue>>
  {
    if stream.failure.Some? then Raise(stream.failure.value)
    else
      var text := StreamText(stream.deltas);
      if IsBlank(text) then Value([])
      else
        match loads(text)
        case None => Value([])
        case Some(result) => if result.JArray? then Value(DictSteps(result.items)) else Value([])
  }

  /** `code_planning_agent` with its decorator. */
  function CodePlanningAgent(streams: nat -> Stream, loads: Parser): RetryRun<seq<JsonValue>>
  {
    Retry(3, (k: nat) => PlanAttempt(streams(k), loads))
  }

  /** An attempt with a completed stream never raises. Empty, whitespace-only,
      non-JSON and non-list replies give the empty plan; a list gives its dict
      elements in order. */
  lemma PlanAttemptCases(stream: Stream, loads: Parser)
    requires stream.failure.None?
    ensures var text := StreamText(stream.deltas);
      PlanAttempt(stream, loads)
        == if !IsBlank(text) && loads(text).Some? && loads(text).value.JArray?
           then Value(DictSteps(loads(text).value.items)) else Value([])
  {
  }

  /** A plan returned by one attempt comes from a completed stream: it is
      the reply list's dict elements in order when the reply is non-blank and
      parses to a list, and empty otherwise; so it holds only dicts, each
      drawn from the parsed list. */
  lemma PlanAttemptValue(stream: Stream, loads: Parser, plan: seq<JsonValue>)
    requires PlanAttempt(stream, loads) == Value(plan)
    ensures var text := StreamText(stream.deltas);
      && stream.failure.None?
      && plan == (if !IsBlank(text) && loads(text).Some? && loads(text).value.JArray?
                  then DictSteps(loads(text).value.items) else [])
      && (forall k :: 0 <= k < |plan| ==> plan[k].JObject?)
      && (plan != [] ==> loads(text).Some? && loads(text).value.JArray?
                         && |plan| <= |loads(text).value.items|
                         && forall k :: 0 <= k < |plan| ==> plan[k] in loads(text).value.items)
  {
    var text := StreamText(stream.deltas);
    assert stream.failure.None?;
    PlanAttemptCases(stream, loads);
    if !IsBlank(text) && loads(text).Some? && loads(text).value.JArray? {
      var items := loads(text).value.items;
      assert plan == DictSteps(items);
      DictStepsElements(items);
      forall k | 0 <= k < |plan|
        ensures plan[k].JObject? && plan[k] in items
      {
        assert plan[k] in DictSteps(items);
      }
    } else {
      assert plan == [];
    }
  }

  /** `code_planning_agent` returns the plan of the first attempt whose
      stream completes: exactly the dict elements, in order, of the list that
      reply parses to, or the empty plan for a blank, non-JSON or non-list
      reply. That plan holds only dicts drawn from the reply's list. */
  lemma CodePlanningAgentPlan(streams: nat -> Stream, loads: Parser, plan: seq<JsonValue>)
    requires CodePlanningAgent(streams, loads).result == Value(Some(plan))
    ensures forall k :: 0 <= k < |plan| ==> plan[k].JObject?
    ensures var r := CodePlanningAgent(streams, loads);
      var s := streams(r.calls - 1);
      var text := StreamText(s.deltas);
      && r.calls >= 1 && s.failure.None?
      && (forall j :: 0 <= j < r.calls - 1 ==> streams(j).failure.Some?)
      && plan == (if !IsBlank(text) && loads(text).Some? && loads(text).value.JArray?
                  then DictSteps(loads(text).value.items) else [])
      && (plan != [] ==> loads(text).Some? && loads(text).value.JArray?
                         && |plan| <= |loads(text).value.items|
                         && forall k :: 0 <= k < |plan| ==> plan[k] in loads(text).value.items)
  {
    var attempt := (k: nat) => PlanAttempt(streams(k), loads);
    var r := Retry(3, attempt);
    RetryReturnsFirstSuccess(3, attempt, plan);
    assert attempt(r.calls - 1) == PlanAttempt(streams(r.calls - 1), loads);
    PlanAttemptValue(streams(r.calls - 1), loads, plan);
  }
}
