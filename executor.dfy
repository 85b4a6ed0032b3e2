/** The step executor of agents/tofumatic/main.py: `infrastructure_engineer_agent`
    sends each dict step of a plan to the chat API, streams the reply, and
    passes every requested tool call through the confirmation gate
    `_handle_tool_call`. The chat API, the operator's console and the shell
    are oracles (`Oracles`, the answer sequence). */
module Executor {
  import opened Wrappers
  import opened Json
  import opened Text
  import opened Chat
  import opened TofuTools
  import Planning

  /** The chat API answers the call made for plan position `i` with the
      messages sent; `loads` is `json.loads`; `shell` runs `tofu`. */
  datatype Oracles = Oracles(api: (nat, seq<Message>) -> Stream, loads: Parser, shell: Shell)

  /** `answer.lower() == "y"`. */
  predicate IsYes(answer: string)
  {
    Lower(answer) == "y"
  }

  /** What the step loop threads along: the message history, the
      filesystem and the operator answers not yet read. */
  datatype Session = Session(history: seq<Message>, fs: FsState, answers: seq<Answer>)

  datatype GateResult = GateResult(ok: bool, session: Session)

  /** The message `_handle_tool_call` appends for a tool's result. */
  function ResultMessage(output: string): Message
  {
    Message(Assistant, Dumped(JString(output)))
  }

  predicate IsResultMessage(m: Message)
  {
    m.Message? && m.role == Assistant && m.content.Dumped? && m.content.value.JString?
  }

  /** The answer `input()` gives now, if the operator said "y". */
  predicate ConfirmedNext(answers: seq<Answer>)
  {
    answers != [] && answers[0].Line? && IsYes(answers[0].text)
  }

  /** `_handle_tool_call`. An exhausted console makes `input()` raise
      EOFError, which the outer handler turns into False. */
  function Gate(call: ToolCall, s: Session, o: Oracles): (r: GateResult)
    ensures r.session.answers == if s.answers == [] then [] else s.answers[1..]
    ensures |s.history| <= |r.session.history| <= |s.history| + 1
    ensures r.session.history[..|s.history|] == s.history
    ensures |r.session.history| > |s.history| ==> r.ok && IsResultMessage(r.session.history[|s.history|])
    ensures r.session.fs != s.fs || r.session.history != s.history ==> ConfirmedNext(s.answers) && call.name in ToolsMap
    ensures s.answers != [] && s.answers[0].Line? && !IsYes(s.answers[0].text) ==>
      r == GateResult(true, s.(answers := s.answers[1..]))
    ensures s.answers == [] || s.answers[0] == Interrupt ==> !r.ok && r.session.history == s.history && r.session.fs == s.fs
    ensures ConfirmedNext(s.answers) && call.name !in ToolsMap ==> r == GateResult(false, s.(answers := s.answers[1..]))
    ensures ConfirmedNext(s.answers) && call.name in ToolsMap && o.loads(call.arguments).None? ==>
      r == GateResult(false, s.(answers := s.answers[1..]))
  {
    if s.answers == [] then GateResult(false, s)
    else
      var s1 := s.(answers := s.answers[1..]);
      match s.answers[0]
      case Interrupt => GateResult(false, s1)
      case Line(answer) =>
        if !IsYes(answer) then GateResult(true, s1)
        else if call.name !in ToolsMap then GateResult(false, s1)
        else
          match o.loads(call.arguments)
          case None => GateResult(false, s1)
          case Some(args) =>
            var run := Invoke(s1.fs, ToolsMap[call.name], args, o.shell);
            match run.result
            case Raise(_) => GateResult(false, s1.(fs := run.fs))
            case Value(output) => GateResult(true, s1.(history := s1.history + [ResultMessage(output)], fs := run.fs))
  }

  /** The gate keeps files and directories apart. */
  lemma GateKeepsWellFormed(call: ToolCall, s: Session, o: Oracles)
    requires WellFormed(s.fs)
    ensures WellFormed(Gate(call, s, o).session.fs)
  {
    if ConfirmedNext(s.answers) && call.name in ToolsMap && o.loads(call.arguments).Some? {
      InvokeKeepsWellFormed(s.fs, ToolsMap[call.name], o.loads(call.arguments).value, o.shell);
    }
  }

  /** A confirmed call of a registered tool with parseable arguments runs the
      tool; it succeeds exactly when the tool returns, and then its result
      is the one message appended. */
  lemma GateRunsConfirmedTool(call: ToolCall, s: Session, o: Oracles)
    requires ConfirmedNext(s.answers) && call.name in ToolsMap && o.loads(call.arguments).Some?
    ensures var run := Invoke(s.fs, ToolsMap[call.name], o.loads(call.arguments).value, o.shell);
      var r := Gate(call, s, o);
      && r.session.fs == run.fs
      && (r.ok <==> run.result.Value?)
      && r.session.history == if run.result.Value? then s.history + [ResultMessage(run.result.value)] else s.history
  {
  }

  /** The arguments `{"file_path": path, "content": content}`. */
  function WriteFileArgs(path: string, content: string): JsonValue
  {
    JObject(map["file_path" := JString(path), "content" := JString(content)])
  }

  lemma BindWriteFile(path: string, content: string)
    ensures Bind(WriteFileTool, WriteFileArgs(path, content)) == Some([path, content])
  {
    var fields := WriteFileArgs(path, content).fields;
    var ps := ["file_path", "content"];
    assert Parameters(WriteFileTool) == ps;
    assert fields.Keys == {"file_path", "content"};
    assert ps[1..] == ["content"] && ps[1..][1..] == [];
    assert fields["file_path"] == JString(path) && fields["content"] == JString(content);
    var tail := ps[1..];
    assert ArgValues(tail[1..], fields) == Some([]);
    assert tail[0] in fields && fields[tail[0]].JString? && fields[tail[0]].s == content;
    assert tail != [] && [fields[tail[0]].s] + [] == [content];
    assert ArgValues(tail, fields) == Some([content]);
    assert [fields[ps[0]].s] + [content] == [path, content];
    assert ps[0] in fields && fields[ps[0]].s == path;
    assert ArgValues(ps, fields) == Some([path, content]);
  }

  /** Confirming `write_file` with a path that is not a directory writes the
      file and records the tool's success message. */
  lemma GateWriteFileScenario(s: Session, o: Oracles, call: ToolCall, path: string, content: string)
    requires ConfirmedNext(s.answers) && path !in s.fs.dirs
    requires call.name == "write_file"
    requires o.loads(call.arguments) == Some(WriteFileArgs(path, content))
    ensures var r := Gate(call, s, o);
      && r.ok && r.session.fs.files[path] == content
      && r.session.history == s.history + [ResultMessage("File written successfully.")]
  {
    BindWriteFile(path, content);
    LookupByName(WriteFileTool);
  }

  /** A confirmed call of an unregistered tool, "delete_universe" say, fails
      and has no effect besides reading the answer. */
  lemma GateUnknownToolScenario(s: Session, o: Oracles, call: ToolCall)
    requires ConfirmedNext(s.answers) && call.name == "delete_universe"
    ensures Gate(call, s, o) == GateResult(false, s.(answers := s.answers[1..]))
  {
    assert "delete_universe" !in ToolsMap;
  }

  /** The tool calls of one delta, each through the gate, in order. */
  function HandleCalls(calls: seq<ToolCall>, s: Session, o: Oracles): Session
    decreases |calls|
  {
    if calls == [] then s else HandleCalls(calls[1..], Gate(calls[0], s, o).session, o)
  }

  /** The tool calls of every delta of a stream, in order. */
  function HandleDeltas(ds: seq<Delta>, s: Session, o: Oracles): Session
    decreases |ds|
  {
    if ds == [] then s else HandleDeltas(ds[1..], HandleCalls(ds[0].toolCalls, s, o), o)
  }

  /** One chat call: the plan position it was made for and the messages sent. */
  datatype ApiCall = ApiCall(step: nat, sent: seq<Message>)

  datatype Run = Run(session: Session, calls: seq<ApiCall>)

  /** One iteration of the step loop. A non-dict step changes nothing. A dict
      step is appended as a user message and sent; the stream's tool calls
      go through the gate; the streamed text becomes an assistant message
      if it is non-empty and the stream ended normally. */
  function RunStep(plan: seq<JsonValue>, i: nat, r: Run, o: Oracles): Run
    requires i < |plan|
  {
    if !plan[i].JObject? then r
    else
      var sent := r.session.history + [Message(User, Dumped(plan[i]))];
      var stream := o.api(i, sent);
      var after := HandleDeltas(stream.deltas, r.session.(history := sent), o);
      var text := StreamText(stream.deltas);
      var history := if stream.failure.None? && text != "" then after.history + [Message(Assistant, Text(text))] else after.history;
      Run(after.(history := history), r.calls + [ApiCall(i, sent)])
  }

  /** The step loop from plan position `i` on. */
  function RunSteps(plan: seq<JsonValue>, i: nat, r: Run, o: Oracles): Run
    requires i <= |plan|
    decreases |plan| - i
  {
    if i == |plan| then r else RunSteps(plan, i + 1, RunStep(plan, i, r, o), o)
  }

  datatype ExecResult = ExecResult(ok: bool, run: Run)

  function SystemMessage(systemPrompt: string): Message
  {
    Message(System, Text(systemPrompt))
  }

  /** `infrastructure_engineer_agent`: an empty plan returns False at once;
      otherwise the history starts as the system prompt alone and the loop
      runs over the whole plan. Nothing in it raises, so it returns True. */
  function Execute(plan: seq<JsonValue>, systemPrompt: string, fs: FsState, answers: seq<Answer>, o: Oracles): ExecResult
  {
    if plan == [] then ExecResult(false, Run(Session([], fs, answers), []))
    else ExecResult(true, RunSteps(plan, 0, Run(Session([SystemMessage(systemPrompt)], fs, answers), []), o))
  }

  // ----- the imperative executor -------------------------------------------

  /** The `messages` list of one `infrastructure_engineer_agent` call. */
  class History {
    var messages: seq<Message>

    constructor (systemPrompt: string)
      ensures messages == [SystemMessage(systemPrompt)]
    {
      messages := [SystemMessage(systemPrompt)];
    }

    method Append(m: Message)
      modifies this
      ensures messages == old(messages) + [m]
    {
      messages := messages + [m];
    }
  }

  /** `_handle_tool_call(tool_call, messages)`. */
  method HandleToolCall(call: ToolCall, history: History, fs: FileSystem, answers: seq<Answer>, o: Oracles)
      returns (ok: bool, rest: seq<Answer>)
    modifies history, fs
    ensures GateResult(ok, Session(history.messages, fs.State(), rest))
      == Gate(call, Session(old(history.messages), old(fs.State()), answers), o)
  {
    if answers == [] {
      return false, answers;
    }
    rest := answers[1..];
    var answer := answers[0];
    if answer.Interrupt? {
      return false, rest;
    }
    if Lower(answer.text) != "y" {
      return true, rest;
    }
    if call.name !in ToolsMap {
      return false, rest;
    }
    var args := o.loads(call.arguments);
    if args.None? {
      return false, rest;
    }
    var result := fs.Call(ToolsMap[call.name], args.value, o.shell);
    if result.Raise? {
      return false, rest;
    }
    history.Append(ResultMessage(result.value));
    ok := true;
  }

  /** `for tool_call in delta.tool_calls: _handle_tool_call(tool_call, messages)`. */
  method HandleToolCalls(calls: seq<ToolCall>, history: History, fs: FileSystem, answers: seq<Answer>, o: Oracles)
      returns (rest: seq<Answer>)
    modifies history, fs
    ensures Session(history.messages, fs.State(), rest)
      == HandleCalls(calls, Session(old(history.messages), old(fs.State()), answers), o)
  {
    rest := answers;
    for k := 0 to |calls|
      invariant HandleCalls(calls[k..], Session(history.messages, fs.State(), rest), o)
        == HandleCalls(calls, Session(old(history.messages), old(fs.State()), answers), o)
    {
      assert calls[k..][1..] == calls[k + 1..];
      var _, r := HandleToolCall(calls[k], history, fs, rest, o);
      rest := r;
    }
  }

  /** `for chunk in response`: accumulate the content and handle the tool calls. */
  method ConsumeStream(ds: seq<Delta>, history: History, fs: FileSystem, answers: seq<Answer>, o: Oracles)
      returns (content: string, rest: seq<Answer>)
    modifies history, fs
    ensures content == StreamText(ds)
    ensures Session(history.messages, fs.State(), rest)
      == HandleDeltas(ds, Session(old(history.messages), old(fs.State()), answers), o)
  {
    content, rest := "", answers;
    for j := 0 to |ds|
      invariant content == StreamText(ds[..j])
      invariant HandleDeltas(ds[j..], Session(history.messages, fs.State(), rest), o)
        == HandleDeltas(ds, Session(old(history.messages), old(fs.State()), answers), o)
    {
      assert ds[..j + 1][..j] == ds[..j];
      assert ds[j..][1..] == ds[j + 1..];
      if ds[j].content != "" {
        content := content + ds[j].content;
      }
      rest := HandleToolCalls(ds[j].toolCalls, history, fs, rest, o);
    }
    assert ds[..|ds|] == ds;
  }

  /** `infrastructure_engineer_agent(code_plan)`; besides its result it gives
      back the final history, the calls made and the unread answers. */
  method InfrastructureEngineerAgent(plan: seq<JsonValue>, systemPrompt: string, fs: FileSystem, answers: seq<Answer>, o: Oracles)
      returns (ok: bool, messages: seq<Message>, calls: seq<ApiCall>, rest: seq<Answer>)
    modifies fs
    ensures ExecResult(ok, Run(Session(messages, fs.State(), rest), calls))
      == Execute(plan, systemPrompt, old(fs.State()), answers, o)
  {
    if plan == [] {
      return false, [], [], answers;
    }
    var history := new History(systemPrompt);
    ghost var start := Run(Session(history.messages, fs.State(), answers), []);
    calls, rest := [], answers;
    for i := 0 to |plan|
      invariant RunSteps(plan, i, Run(Session(history.messages, fs.State(), rest), calls), o)
        == RunSteps(plan, 0, start, o)
    {
      if !plan[i].JObject? {
        continue;
      }
      history.Append(Message(User, Dumped(plan[i])));
      var sent := history.messages;
      var stream := o.api(i, sent);
      calls := calls + [ApiCall(i, sent)];
      var content;
      content, rest := ConsumeStream(stream.deltas, history, fs, rest, o);
      if stream.failure.None? && content != "" {
        history.Append(Message(Assistant, Text(content)));
      }
    }
    messages := history.messages;
    ok := true;
  }

  // ----- what the executor guarantees ----------------------------------------

  predicate IsPrefix<T(==)>(a: seq<T>, b: seq<T>)
  {
    |a| <= |b| && b[..|a|] == a
  }

  predicate IsSuffix<T(==)>(a: seq<T>, b: seq<T>)
  {
    |a| <= |b| && b[|b| - |a|..] == a
  }

  /** No answer in `answers` is a "y". */
  predicate NoYes(answers: seq<Answer>)
  {
    forall k :: 0 <= k < |answers| ==> !(answers[k].Line? && IsYes(answers[k].text))
  }

  lemma NoYesSuffix(a: seq<Answer>, b: seq<Answer>)
    requires NoYes(b) && IsSuffix(a, b)
    ensures NoYes(a)
  {
    forall k | 0 <= k < |a|
      ensures !(a[k].Line? && IsYes(a[k].text))
    {
      assert a[k] == b[|b| - |a| + k];
    }
  }

  /** Every message the step loop adds: a dict step sent as a user turn, a
      tool result, or non-empty streamed assistant text. */
  predicate StepMessage(m: Message)
  {
    || (m.Message? && m.role == User && m.content.Dumped? && m.content.value.JObject?)
    || IsResultMessage(m)
    || (m.Message? && m.role == Assistant && m.content.Text? && m.content.text != "")
  }

  predicate AssistantMessage(m: Message)
  {
    IsResultMessage(m) || (m.Message? && m.role == Assistant && m.content.Text? && m.content.text != "")
  }

  /** The tool-call loop only appends tool results. */
  lemma {:induction false} HandleCallsHistory(calls: seq<ToolCall>, s: Session, o: Oracles)
    ensures var r := HandleCalls(calls, s, o);
      && IsPrefix(s.history, r.history)
      && (forall k :: |s.history| <= k < |r.history| ==> IsResultMessage(r.history[k]))
    decreases |calls|
  {
    if calls != [] {
      var g := Gate(calls[0], s, o).session;
      HandleCallsHistory(calls[1..], g, o);
      var r := HandleCalls(calls[1..], g, o);
      assert r.history[..|s.history|] == r.history[..|g.history|][..|s.history|];
      assert forall k :: |s.history| <= k < |g.history| ==> r.history[k] == g.history[k];
    }
  }

  /** The tool-call loop only reads answers and changes the filesystem only
      on a "y". */
  lemma {:induction false} HandleCallsAnswers(calls: seq<ToolCall>, s: Session, o: Oracles)
    ensures var r := HandleCalls(calls, s, o);
      && IsSuffix(r.answers, s.answers)
      && (NoYes(s.answers) ==> r.fs == s.fs)
    decreases |calls|
  {
    if calls != [] {
      var g := Gate(calls[0], s, o).session;
      HandleCallsAnswers(calls[1..], g, o);
      if NoYes(s.answers) {
        assert !ConfirmedNext(s.answers);
        NoYesSuffix(g.answers, s.answers);
      }
    }
  }

  /** The tool-call loop keeps files and directories apart. */
  lemma {:induction false} HandleCallsWellFormed(calls: seq<ToolCall>, s: Session, o: Oracles)
    requires WellFormed(s.fs)
    ensures WellFormed(HandleCalls(calls, s, o).fs)
    decreases |calls|
  {
    if calls != [] {
      GateKeepsWellFormed(calls[0], s, o);
      HandleCallsWellFormed(calls[1..], Gate(calls[0], s, o).session, o);
    }
  }

  /** The gate and the tool-call loop only append tool results, only read
      answers, and change the filesystem only on a "y". */
  lemma HandleCallsFacts(calls: seq<ToolCall>, s: Session, o: Oracles)
    ensures var r := HandleCalls(calls, s, o);
      && IsPrefix(s.history, r.history)
      && (forall k :: |s.history| <= k < |r.history| ==> IsResultMessage(r.history[k]))
      && IsSuffix(r.answers, s.answers)
      && (NoYes(s.answers) ==> r.fs == s.fs)
      && (WellFormed(s.fs) ==> WellFormed(r.fs))
  {
    HandleCallsHistory(calls, s, o);
    HandleCallsAnswers(calls, s, o);
    if WellFormed(s.fs) {
      HandleCallsWellFormed(calls, s, o);
    }
  }

  /** The same for every delta of a stream: only tool results are appended. */
  lemma {:induction false} HandleDeltasHistory(ds: seq<Delta>, s: Session, o: Oracles)
    ensures var r := HandleDeltas(ds, s, o);
      && IsPrefix(s.history, r.history)
      && (forall k :: |s.history| <= k < |r.history| ==> IsResultMessage(r.history[k]))
    decreases |ds|
  {
    if ds != [] {
      var g := HandleCalls(ds[0].toolCalls, s, o);
      HandleCallsHistory(ds[0].toolCalls, s, o);
      HandleDeltasHistory(ds[1..], g, o);
      var r := HandleDeltas(ds[1..], g, o);
      assert r.history[..|s.history|] == r.history[..|g.history|][..|s.history|];
      assert forall k :: |s.history| <= k < |g.history| ==> r.history[k] == g.history[k];
    }
  }

  /** Every delta's tool calls only read answers, change the filesystem only
      on a "y", and keep files and directories apart. */
  lemma {:induction false} HandleDeltasAnswers(ds: seq<Delta>, s: Session, o: Oracles)
    ensures var r := HandleDeltas(ds, s, o);
      && IsSuffix(r.answers, s.answers)
      && (NoYes(s.answers) ==> r.fs == s.fs)
      && (WellFormed(s.fs) ==> WellFormed(r.fs))
    decreases |ds|
  {
    if ds != [] {
      var g := HandleCalls(ds[0].toolCalls, s, o);
      HandleCallsFacts(ds[0].toolCalls, s, o);
      HandleDeltasAnswers(ds[1..], g, o);
      if NoYes(s.answers) {
        NoYesSuffix(g.answers, s.answers);
      }
    }
  }

  lemma HandleDeltasFacts(ds: seq<Delta>, s: Session, o: Oracles)
    ensures var r := HandleDeltas(ds, s, o);
      && IsPrefix(s.history, r.history)
      && (forall k :: |s.history| <= k < |r.history| ==> IsResultMessage(r.history[k]))
      && IsSuffix(r.answers, s.answers)
      && (NoYes(s.answers) ==> r.fs == s.fs)
      && (WellFormed(s.fs) ==> WellFormed(r.fs))
  {
    HandleDeltasHistory(ds, s, o);
    HandleDeltasAnswers(ds, s, o);
  }

  /** One iteration: a non-dict step does nothing; a dict step adds its user
      turn, then assistant messages only, and records exactly one call
      holding the history up to and including that turn. */
  lemma RunStepFacts(plan: seq<JsonValue>, i: nat, r: Run, o: Oracles)
    requires i < |plan|
    ensures var n := RunStep(plan, i, r, o);
      var h := r.session.history;
      var turn := Message(User, Dumped(plan[i]));
      && (!plan[i].JObject? ==> n == r)
      && (plan[i].JObject? ==>
            && |h| < |n.session.history|
            && n.session.history[..|h| + 1] == h + [turn]
            && (forall k :: |h| < k < |n.session.history| ==> AssistantMessage(n.session.history[k]))
            && n.calls == r.calls + [ApiCall(i, h + [turn])])
  {
    if plan[i].JObject? {
      var h := r.session.history;
      var sent := h + [Message(User, Dumped(plan[i]))];
      var stream := o.api(i, sent);
      HandleDeltasFacts(stream.deltas, r.session.(history := sent), o);
      var after := HandleDeltas(stream.deltas, r.session.(history := sent), o);
      var n := RunStep(plan, i, r, o);
      assert n.session.history[..|sent|] == after.history[..|sent|];
    }
  }

  /** One iteration only reads answers and changes the filesystem only on a "y". */
  lemma RunStepAnswers(plan: seq<JsonValue>, i: nat, r: Run, o: Oracles)
    requires i < |plan|
    ensures var n := RunStep(plan, i, r, o);
      && IsSuffix(n.session.answers, r.session.answers)
      && (NoYes(r.session.answers) ==> n.session.fs == r.session.fs)
      && (WellFormed(r.session.fs) ==> WellFormed(n.session.fs))
  {
    if plan[i].JObject? {
      var sent := r.session.history + [Message(User, Dumped(plan[i]))];
      HandleDeltasFacts(o.api(i, sent).deltas, r.session.(history := sent), o);
    }
  }

  /** The history only grows, and the loop adds only step messages; the
      list of calls only grows. */
  lemma {:induction false} RunStepsGrow(plan: seq<JsonValue>, i: nat, r: Run, o: Oracles)
    requires i <= |plan|
    ensures var f := RunSteps(plan, i, r, o);
      && IsPrefix(r.session.history, f.session.history)
      && (forall k :: |r.session.history| <= k < |f.session.history| ==> StepMessage(f.session.history[k]))
      && IsPrefix(r.calls, f.calls)
    decreases |plan| - i
  {
    if i < |plan| {
      var n := RunStep(plan, i, r, o);
      RunStepFacts(plan, i, r, o);
      RunStepsGrow(plan, i + 1, n, o);
      var f := RunSteps(plan, i + 1, n, o);
      assert f.session.history[..|r.session.history|] == f.session.history[..|n.session.history|][..|r.session.history|];
      assert f.calls[..|r.calls|] == f.calls[..|n.calls|][..|r.calls|];
      forall k | |r.session.history| <= k < |n.session.history|
        ensures StepMessage(f.session.history[k])
      {
        assert f.session.history[k] == n.session.history[k];
        if k == |r.session.history| {
          assert n.session.history[k] == (n.session.history[..|r.session.history| + 1])[k];
        }
      }
    }
  }

  /** The plan positions of the dict steps from position `i` on, in order. */
  function DictPositions(plan: seq<JsonValue>, i: nat): seq<nat>
    decreases |plan| - i
  {
    if i >= |plan| then []
    else (if plan[i].JObject? then [i] else []) + DictPositions(plan, i + 1)
  }

  /** The positions listed are exactly the dict steps at or after `i`. */
  lemma {:induction false} DictPositionsMembers(plan: seq<JsonValue>, i: nat)
    ensures forall k :: k in DictPositions(plan, i) <==> i <= k < |plan| && plan[k].JObject?
    decreases |plan| - i
  {
    if i < |plan| {
      DictPositionsMembers(plan, i + 1);
      var head: seq<nat> := if plan[i].JObject? then [i] else [];
      var later := DictPositions(plan, i + 1);
      assert DictPositions(plan, i) == head + later;
      forall k
        ensures k in DictPositions(plan, i) <==> i <= k < |plan| && plan[k].JObject?
      {
        assert k in head + later <==> k in head || k in later;
      }
    }
  }

  /** The positions are listed in increasing order, so no step is sent twice. */
  lemma {:induction false} DictPositionsIncrease(plan: seq<JsonValue>, i: nat)
    ensures forall a :: 0 <= a < |DictPositions(plan, i)| ==> i <= DictPositions(plan, i)[a]
    ensures forall a, b :: 0 <= a < b < |DictPositions(plan, i)| ==> DictPositions(plan, i)[a] < DictPositions(plan, i)[b]
    decreases |plan| - i
  {
    if i < |plan| {
      DictPositionsIncrease(plan, i + 1);
      var head: seq<nat> := if plan[i].JObject? then [i] else [];
      var later := DictPositions(plan, i + 1);
      var d := DictPositions(plan, i);
      assert d == head + later;
      forall a | 0 <= a < |d|
        ensures i <= d[a]
      {
        if a >= |head| {
          assert d[a] == later[a - |head|];
        }
      }
      forall a, b | 0 <= a < b < |d|
        ensures d[a] < d[b]
      {
        assert d[b] == later[b - |head|];
        if a >= |head| {
          assert d[a] == later[a - |head|];
        }
      }
    }
  }

  function Steps(calls: seq<ApiCall>): seq<nat>
  {
    seq(|calls|, k requires 0 <= k < |calls| => calls[k].step)
  }

  lemma StepsAppend(calls: seq<ApiCall>, c: ApiCall)
    ensures Steps(calls + [c]) == Steps(calls) + [c.step]
  {
  }

  /** One iteration makes a call exactly for a dict step. */
  lemma RunStepCalls(plan: seq<JsonValue>, i: nat, r: Run, o: Oracles)
    requires i < |plan|
    ensures Steps(RunStep(plan, i, r, o).calls) == Steps(r.calls) + if plan[i].JObject? then [i] else []
  {
    if plan[i].JObject? {
      var n := RunStep(plan, i, r, o);
      StepsAppend(r.calls, n.calls[|n.calls| - 1]);
      assert n.calls == r.calls + [n.calls[|n.calls| - 1]];
    } else {
      assert Steps(r.calls) + [] == Steps(r.calls);
    }
  }

  lemma ConcatAssoc(a: seq<nat>, b: seq<nat>, c: seq<nat>)
    ensures a + b + c == a + (b + c)
  {
  }

  /** Every dict step is sent once, whatever the streams of the other steps
      did: the calls are made for exactly the dict positions, in order. */
  lemma {:induction false} RunStepsCallsEveryDictStep(plan: seq<JsonValue>, i: nat, r: Run, o: Oracles)
    requires i <= |plan|
    ensures Steps(RunSteps(plan, i, r, o).calls) == Steps(r.calls) + DictPositions(plan, i)
    decreases |plan| - i
  {
    if i < |plan| {
      var n := RunStep(plan, i, r, o);
      RunStepCalls(plan, i, r, o);
      RunStepsCallsEveryDictStep(plan, i + 1, n, o);
      assert RunSteps(plan, i, r, o) == RunSteps(plan, i + 1, n, o);
      var head: seq<nat> := if plan[i].JObject? then [i] else [];
      assert DictPositions(plan, i) == head + DictPositions(plan, i + 1);
      ConcatAssoc(Steps(r.calls), head, DictPositions(plan, i + 1));
    } else {
      assert Steps(r.calls) + [] == Steps(r.calls);
    }
  }

  /** The contents of the user turns of a history, in order. */
  function UserTurns(h: seq<Message>): seq<Content>
  {
    if h == [] then []
    else (if h[0].Message? && h[0].role == User then [h[0].content] else []) + UserTurns(h[1..])
  }

  lemma {:induction false} UserTurnsConcat(a: seq<Message>, b: seq<Message>)
    ensures UserTurns(a + b) == UserTurns(a) + UserTurns(b)
  {
    if a != [] {
      assert (a + b)[1..] == a[1..] + b;
      UserTurnsConcat(a[1..], b);
    } else {
      assert a + b == b;
    }
  }

  lemma {:induction false} UserTurnsOfAssistants(h: seq<Message>)
    requires forall k :: 0 <= k < |h| ==> AssistantMessage(h[k])
    ensures UserTurns(h) == []
  {
    if h != [] {
      UserTurnsOfAssistants(h[1..]);
    }
  }

  function Dumps(vs: seq<JsonValue>): seq<Content>
  {
    seq(|vs|, k requires 0 <= k < |vs| => Dumped(vs[k]))
  }

  lemma DumpsConcat(a: seq<JsonValue>, b: seq<JsonValue>)
    ensures Dumps(a + b) == Dumps(a) + Dumps(b)
  {
  }

  /** One iteration adds the step's user turn when it is a dict and no
      other user turn. */
  lemma RunStepUserTurns(plan: seq<JsonValue>, i: nat, r: Run, o: Oracles)
    requires i < |plan|
    ensures UserTurns(RunStep(plan, i, r, o).session.history)
      == UserTurns(r.session.history) + if plan[i].JObject? then [Dumped(plan[i])] else []
  {
    if plan[i].JObject? {
      RunStepFacts(plan, i, r, o);
      var h := r.session.history;
      var turn := Message(User, Dumped(plan[i]));
      var nh := RunStep(plan, i, r, o).session.history;
      var tail := nh[|h| + 1..];
      assert nh == (h + [turn]) + tail;
      UserTurnsOfAssistants(tail);
      UserTurnsConcat(h + [turn], tail);
      UserTurnsConcat(h, [turn]);
      assert UserTurns([turn]) == [Dumped(plan[i])];
    }
  }

  /** The dict steps from position `i` on, dumped as user turns. */
  function DictTurns(plan: seq<JsonValue>, i: nat): seq<Content>
    decreases |plan| - i
  {
    if i >= |plan| then []
    else (if plan[i].JObject? then [Dumped(plan[i])] else []) + DictTurns(plan, i + 1)
  }

  lemma DictStepsSingle(x: JsonValue)
    ensures Planning.DictSteps([x]) == if x.JObject? then [x] else []
  {
    assert [x][..0] == [];
  }

  /** The same turns as the dict steps `code_planning_agent` keeps, in order. */
  lemma {:induction false} DictTurnsAreDictSteps(plan: seq<JsonValue>, i: nat)
    requires i <= |plan|
    ensures DictTurns(plan, i) == Dumps(Planning.DictSteps(plan[i..]))
    decreases |plan| - i
  {
    if i == |plan| {
      assert plan[i..] == [];
    } else {
      DictTurnsAreDictSteps(plan, i + 1);
      var x := plan[i];
      assert plan[i..] == [x] + plan[i + 1..];
      Planning.DictStepsConcat([x], plan[i + 1..]);
      var mine, later := Planning.DictSteps([x]), Planning.DictSteps(plan[i + 1..]);
      DictStepsSingle(x);
      DumpsConcat(mine, later);
      assert Dumps(mine) == if x.JObject? then [Dumped(x)] else [];
    }
  }

  /** The user turns the loop adds are the dict steps, dumped, in plan order. */
  lemma {:induction false} RunStepsUserTurns(plan: seq<JsonValue>, i: nat, r: Run, o: Oracles)
    requires i <= |plan|
    ensures UserTurns(RunSteps(plan, i, r, o).session.history) == UserTurns(r.session.history) + DictTurns(plan, i)
    decreases |plan| - i
  {
    if i < |plan| {
      var n := RunStep(plan, i, r, o);
      RunStepUserTurns(plan, i, r, o);
      RunStepsUserTurns(plan, i + 1, n, o);
    }
  }

  /** The loop only reads answers, and changes no file unless the operator
      answered "y" at some point. */
  lemma {:induction false} RunStepsAnswers(plan: seq<JsonValue>, i: nat, r: Run, o: Oracles)
    requires i <= |plan|
    ensures var f := RunSteps(plan, i, r, o);
      && IsSuffix(f.session.answers, r.session.answers)
      && (NoYes(r.session.answers) ==> f.session.fs == r.session.fs)
      && (WellFormed(r.session.fs) ==> WellFormed(f.session.fs))
    decreases |plan| - i
  {
    if i < |plan| {
      var n := RunStep(plan, i, r, o);
      RunStepAnswers(plan, i, r, o);
      RunStepsAnswers(plan, i + 1, n, o);
      var f := RunSteps(plan, i + 1, n, o);
      assert f.session.answers == r.session.answers[|r.session.answers| - |f.session.answers|..];
      if NoYes(r.session.answers) {
        NoYesSuffix(n.session.answers, r.session.answers);
      }
    }
  }

  /** A call was made for a dict step, and the last message it sent is that
      step's user turn. */
  predicate CallFor(plan: seq<JsonValue>, c: ApiCall)
  {
    c.step < |plan| && plan[c.step].JObject? && |c.sent| > 0 && c.sent[|c.sent| - 1] == Message(User, Dumped(plan[c.step]))
  }

  /** Every call sends a step's user turn last, and what it sent stays the
      start of the history: later steps see all earlier context. */
  lemma {:induction false} RunStepsCallContexts(plan: seq<JsonValue>, i: nat, r: Run, o: Oracles)
    requires i <= |plan|
    requires forall c :: c in r.calls ==> CallFor(plan, c) && IsPrefix(c.sent, r.session.history)
    ensures var f := RunSteps(plan, i, r, o);
      forall c :: c in f.calls ==> CallFor(plan, c) && IsPrefix(c.sent, f.session.history)
    decreases |plan| - i
  {
    if i < |plan| {
      var n := RunStep(plan, i, r, o);
      RunStepFacts(plan, i, r, o);
      forall c | c in n.calls
        ensures CallFor(plan, c) && IsPrefix(c.sent, n.session.history)
      {
        if c !in r.calls {
          assert c == ApiCall(i, r.session.history + [Message(User, Dumped(plan[i]))]);
        } else {
          assert IsPrefix(r.session.history, n.session.history) by {
            if plan[i].JObject? {
              assert n.session.history[..|r.session.history|] == n.session.history[..|r.session.history| + 1][..|r.session.history|];
            }
          }
          assert n.session.history[..|c.sent|] == n.session.history[..|r.session.history|][..|c.sent|];
        }
      }
      RunStepsCallContexts(plan, i + 1, n, o);
    }
  }

  /** `infrastructure_engineer_agent` returns True exactly for a non-empty
      plan; an empty plan makes no call and changes nothing. */
  lemma ExecuteEmptyPlan(plan: seq<JsonValue>, systemPrompt: string, fs: FsState, answers: seq<Answer>, o: Oracles)
    ensures var e := Execute(plan, systemPrompt, fs, answers, o);
      && (e.ok <==> plan != [])
      && (plan == [] ==> e.run.calls == [] && e.run.session.fs == fs && e.run.session.answers == answers)
  {
  }

  /** The final history of a run: the system prompt, then the dict steps as
      user turns in plan order, interleaved with assistant messages only;
      one call per dict step, in plan order, each ending with its step's
      turn and each a prefix of the final history. */
  lemma ExecuteHistory(plan: seq<JsonValue>, systemPrompt: string, fs: FsState, answers: seq<Answer>, o: Oracles)
    requires plan != []
    ensures var e := Execute(plan, systemPrompt, fs, answers, o);
      var h := e.run.session.history;
      && |h| >= 1 && h[0] == SystemMessage(systemPrompt)
      && (forall k :: 1 <= k < |h| ==> StepMessage(h[k]))
      && UserTurns(h) == Dumps(Planning.DictSteps(plan))
      && Steps(e.run.calls) == DictPositions(plan, 0)
      && (forall c :: c in e.run.calls ==> CallFor(plan, c) && IsPrefix(c.sent, h))
  {
    var start := Run(Session([SystemMessage(systemPrompt)], fs, answers), []);
    RunStepsGrow(plan, 0, start, o);
    RunStepsCallsEveryDictStep(plan, 0, start, o);
    RunStepsUserTurns(plan, 0, start, o);
    RunStepsCallContexts(plan, 0, start, o);
    assert plan[0..] == plan;
    assert Steps([]) == [];
    var h := RunSteps(plan, 0, start, o).session.history;
    assert h[0] == h[..1][0];
    DictTurnsAreDictSteps(plan, 0);
    assert [SystemMessage(systemPrompt)][1..] == [];
    assert UserTurns([SystemMessage(systemPrompt)]) == [];
    assert UserTurns(h) == [] + DictTurns(plan, 0) == Dumps(Planning.DictSteps(plan));
  }

  /** If the operator never answers "y", no file or directory changes; in
      any case files and directories stay apart. */
  lemma ExecuteWithoutConsent(plan: seq<JsonValue>, systemPrompt: string, fs: FsState, answers: seq<Answer>, o: Oracles)
    ensures var e := Execute(plan, systemPrompt, fs, answers, o);
      && (NoYes(answers) ==> e.run.session.fs == fs)
      && (WellFormed(fs) ==> WellFormed(e.run.session.fs))
      && IsSuffix(e.run.session.answers, answers)
  {
    if plan != [] {
      RunStepsAnswers(plan, 0, Run(Session([SystemMessage(systemPrompt)], fs, answers), []), o);
    }
  }
}
