/** The hand-rolled tool-call dispatch of agents/oss-agent/main.py: one
    completion with tools, one `tool` message per requested call, then a
    final completion. Both completions, `json.loads` and the Wikipedia
    search are oracles; nothing here catches an exception, so any of them
    ends the conversation. */
module OssAgent {
  import opened Wrappers
  import opened Json
  import opened Chat

  /** The first completion's message: its text and its tool calls. */
  datatype Completion = Completion(text: string, toolCalls: seq<ToolCall>)

  datatype Oracles = Oracles(
    complete: seq<Message> -> Outcome<Completion>,
    loads: Parser,
    search: JsonValue -> Outcome<JsonValue>,
    answer: seq<Message> -> Outcome<string>)

  const SearchTool := "wikipedia_search"

  /** The conversation `main` starts with. */
  const Opening: seq<Message> := [
    Message(System, Text("You are a helpful assistant.")),
    Message(User, Text("What is the capital of France?"))
  ]

  /** `{"error": f"Function {name} not found"}`. */
  function NotFound(name: string): JsonValue
  {
    JObject(map["error" := JString("Function " + name + " not found")])
  }

  /** One iteration of the tool-call loop: the `tool` message it appends, or
      the exception that escapes. `wikipedia_search(**args)` binds exactly
      one keyword argument, `query`. */
  function Dispatch(call: ToolCall, o: Oracles): (r: Outcome<Message>)
    ensures r.Value? ==> r.value.ToolMessage? && r.value.toolCallId == call.id
    ensures call.name != SearchTool ==> r == Value(ToolMessage(Dumped(NotFound(call.name)), call.id))
  {
    if call.name != SearchTool then Value(ToolMessage(Dumped(NotFound(call.name)), call.id))
    else
      match o.loads(call.arguments)
      case None => Raise(Error(JsonDecodeError, "Expecting value"))
      case Some(args) =>
        if !args.JObject? then Raise(Error(TypeError, "wikipedia_search() argument after ** must be a mapping"))
        else if args.fields.Keys != {"query"} then Raise(Error(TypeError, "wikipedia_search() got an unexpected or missing keyword argument"))
        else
          match o.search(args.fields["query"])
          case Raise(e) => Raise(e)
          case Value(result) => Value(ToolMessage(Dumped(result), call.id))
  }

  /** A call of the registered tool appends the dumped search result for its
      `query` argument. */
  lemma DispatchKnown(call: ToolCall, o: Oracles, q: JsonValue, result: JsonValue)
    requires call.name == SearchTool
    requires o.loads(call.arguments) == Some(JObject(map["query" := q]))
    requires o.search(q) == Value(result)
    ensures Dispatch(call, o) == Value(ToolMessage(Dumped(result), call.id))
  {
    assert map["query" := q].Keys == {"query"};
  }

  /** An unknown name never reaches `json.loads` or the tool. */
  lemma DispatchUnknownIgnoresTools(call: ToolCall, o: Oracles, p: Oracles)
    requires call.name != SearchTool
    ensures Dispatch(call, o) == Dispatch(call, p)
  {
  }

  /** What the loop appended, and the exception that stopped it, if any. */
  datatype Dispatched = Dispatched(appended: seq<Message>, failure: Option<Error>)

  /** The loop over the tool calls, in request order. */
  function DispatchAll(calls: seq<ToolCall>, o: Oracles): Dispatched
  {
    if calls == [] then Dispatched([], None)
    else
      var before := DispatchAll(calls[..|calls| - 1], o);
      if before.failure.Some? then before
      else
        match Dispatch(calls[|calls| - 1], o)
        case Raise(e) => Dispatched(before.appended, Some(e))
        case Value(m) => Dispatched(before.appended + [m], None)
  }

  /** Without an exception, each call gets exactly one `tool` message, in
      request order, carrying that call's id; with one, the calls before the
      failing one got theirs. */
  lemma {:induction false} DispatchAllFacts(calls: seq<ToolCall>, o: Oracles)
    ensures var d := DispatchAll(calls, o);
      && (d.failure.None? ==> |d.appended| == |calls|)
      && (d.failure.Some? ==> |d.appended| < |calls|)
      && (forall k :: 0 <= k < |d.appended| ==> Dispatch(calls[k], o) == Value(d.appended[k]))
      && (forall k :: 0 <= k < |d.appended| ==> d.appended[k].ToolMessage? && d.appended[k].toolCallId == calls[k].id)
  {
    if calls != [] {
      DispatchAllFacts(calls[..|calls| - 1], o);
    }
  }

  /** The end of `main`: the final history and the final answer, or the
      exception that escaped. */
  datatype Conversation = Conversation(messages: seq<Message>, result: Outcome<string>)

  /** `main`. */
  function Converse(o: Oracles): Conversation
  {
    match o.complete(Opening)
    case Raise(e) => Conversation(Opening, Raise(e))
    case Value(c) =>
      var first := Opening + [Reply(c.text, c.toolCalls)];
      var d := DispatchAll(c.toolCalls, o);
      var messages := first + d.appended;
      if d.failure.Some? then Conversation(messages, Raise(d.failure.value))
      else Conversation(messages, o.answer(messages))
  }

  /** The history is the opening pair, then the model's message, then one
      `tool` message per call in order; the final answer is asked with
      exactly that history. */
  lemma ConverseShape(o: Oracles)
    requires o.complete(Opening).Value?
    ensures var c := o.complete(Opening).value;
      var h := Converse(o).messages;
      && 3 <= |h| <= 3 + |c.toolCalls| && h[..2] == Opening && h[2] == Reply(c.text, c.toolCalls)
      && h[3..] == DispatchAll(c.toolCalls, o).appended
      && (forall k :: 3 <= k < |h| ==> h[k].ToolMessage? && h[k].toolCallId == c.toolCalls[k - 3].id)
      && (DispatchAll(c.toolCalls, o).failure.None? ==> |h| == 3 + |c.toolCalls| && Converse(o).result == o.answer(h))
  {
    var c := o.complete(Opening).value;
    DispatchAllFacts(c.toolCalls, o);
    var h := Converse(o).messages;
    assert h[3..] == DispatchAll(c.toolCalls, o).appended;
  }

  /** Without tool calls nothing follows the model's message. */
  lemma ConverseWithoutCalls(o: Oracles)
    requires o.complete(Opening).Value? && o.complete(Opening).value.toolCalls == []
    ensures var c := o.complete(Opening).value;
      Converse(o) == Conversation(Opening + [Reply(c.text, [])], o.answer(Opening + [Reply(c.text, [])]))
  {
    var c := o.complete(Opening).value;
    assert Opening + [Reply(c.text, [])] + [] == Opening + [Reply(c.text, [])];
  }

  /** `main`, with the `messages` list grown in place by the loop. */
  method RunAgent(o: Oracles) returns (messages: seq<Message>, result: Outcome<string>)
    ensures Conversation(messages, result) == Converse(o)
  {
    messages := Opening;
    var response := o.complete(messages);
    if response.Raise? {
      return messages, Raise(response.error);
    }
    var c := response.value;
    messages := messages + [Reply(c.text, c.toolCalls)];
    ghost var first := messages;
    for k := 0 to |c.toolCalls|
      invariant |first| <= |messages| && messages[..|first|] == first
      invariant DispatchAll(c.toolCalls[..k], o) == Dispatched(messages[|first|..], None)
    {
      DispatchAllSnoc(c.toolCalls, k, o);
      var m := Dispatch(c.toolCalls[k], o);
      if m.Raise? {
        assert DispatchAll(c.toolCalls, o) == Dispatched(messages[|first|..], Some(m.error)) by {
          DispatchStops(c.toolCalls, k + 1, o);
        }
        assert messages == first + messages[|first|..];
        return messages, Raise(m.error);
      }
      ghost var before := messages[|first|..];
      messages := messages + [m.value];
      assert messages[|first|..] == before + [m.value];
    }
    assert c.toolCalls[..|c.toolCalls|] == c.toolCalls;
    assert messages == first + messages[|first|..];
    result := o.answer(messages);
  }

  /** One more iteration of the loop, after iterations that all succeeded. */
  lemma DispatchAllSnoc(calls: seq<ToolCall>, k: nat, o: Oracles)
    requires k < |calls| && DispatchAll(calls[..k], o).failure.None?
    ensures var before := DispatchAll(calls[..k], o);
      DispatchAll(calls[..k + 1], o)
        == match Dispatch(calls[k], o)
           case Raise(e) => Dispatched(before.appended, Some(e))
           case Value(m) => Dispatched(before.appended + [m], None)
  {
    assert calls[..k + 1][..k] == calls[..k];
  }

  /** Once the loop has failed, later calls change nothing. */
  lemma {:induction false} DispatchStops(calls: seq<ToolCall>, k: nat, o: Oracles)
    requires 1 <= k <= |calls| && DispatchAll(calls[..k], o).failure.Some?
    ensures DispatchAll(calls, o) == DispatchAll(calls[..k], o)
    decreases |calls| - k
  {
    if k < |calls| {
      assert calls[..k + 1][..k] == calls[..k];
      DispatchStops(calls, k + 1, o);
    } else {
      assert calls[..k] == calls;
    }
  }
}
