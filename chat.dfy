/** The chat-completion vocabulary shared by the agents: role-tagged
    messages, the tool calls a model requests, the deltas of a streamed
    response, and the operator's console answers. */
module Chat {
  import opened Wrappers
  import opened Json

  datatype Role = System | User | Assistant

  /** A message body: plain text, or the string `json.dumps(value)`. */
  datatype Content = Text(text: string) | Dumped(value: JsonValue)

  /** One requested call: its id, `function.name` and the raw `function.arguments` string. */
  datatype ToolCall = ToolCall(id: string, name: string, arguments: string)

  datatype Message =
    | Message(role: Role, content: Content)
      /** A `"tool"`-role message answering the call with this id. */
    | ToolMessage(content: Content, toolCallId: string)
      /** A non-streamed response message appended as it is, tool calls included. */
    | Reply(text: string, toolCalls: seq<ToolCall>)

  /** One streamed chunk: its content text ("" when absent) and its tool calls. */
  datatype Delta = Delta(content: string, toolCalls: seq<ToolCall>)

  /** A streamed response: the deltas that arrive, then either the normal
      end of the stream (`failure == None`) or an exception. A call that
      fails before streaming is `Stream([], Some(e))`. */
  datatype Stream = Stream(deltas: seq<Delta>, failure: Option<Error>)

  /** What `input()` yields: a line, or a KeyboardInterrupt. */
  datatype Answer = Line(text: string) | Interrupt

  /** The text a client accumulates from the deltas' contents. */
  function StreamText(ds: seq<Delta>): string
  {
    if |ds| == 0 then "" else StreamText(ds[..|ds| - 1]) + ds[|ds| - 1].content
  }

  /** The client loop `for chunk in response: text += delta.content`. */
  method AccumulateContent(ds: seq<Delta>) returns (text: string)
    ensures text == StreamText(ds)
  {
    text := "";
    for i := 0 to |ds|
      invariant text == StreamText(ds[..i])
    {
      assert ds[..i + 1][..i] == ds[..i];
      if ds[i].content != "" {
        text := text + ds[i].content;
      }
    }
    assert ds[..|ds|] == ds;
  }

  /** The accumulated text is the concatenation of the deltas' contents, in order. */
  lemma {:induction false} StreamTextConcat(a: seq<Delta>, b: seq<Delta>)
    ensures StreamText(a + b) == StreamText(a) + StreamText(b)
    decreases |b|
  {
    if |b| == 0 {
      assert a + b == a;
    } else {
      var c := a + b;
      var init := b[..|b| - 1];
      assert c[..|c| - 1] == a + init;
      assert c[|c| - 1] == b[|b| - 1];
      StreamTextConcat(a, init);
      assert StreamText(c) == StreamText(a) + StreamText(init) + b[|b| - 1].content;
    }
  }
}
