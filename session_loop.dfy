/** The session loop of `main` in agents/tofumatic/main.py: read a request,
    refine it with `prompt_agent`, plan it with `code_planning_agent` and
    hand the plan to `infrastructure_engineer_agent`, until the operator
    leaves. The session prompt and the tool confirmations read the same
    console, so one answer sequence feeds both. The two planning agents are
    oracles indexed by the session number (`Planners` ties them to the
    models in Planning); the executor is the one in Executor. */
module SessionLoop {
  import opened Wrappers
  import opened Json
  import opened Text
  import opened Chat
  import opened TofuTools
  import Planning
  import Backoff
  import Executor

  /** The words that end the loop, compared after lower-casing. */
  const ExitWords: seq<string> := ["exit", "quit", "bye"]

  /** How one pass of the loop ends. */
  datatype Pass =
    | Reprompt                           // blank input: ask again
    | Exit                               // an exit word: leave the loop
    | Cancelled                          // Ctrl-C at the prompt: return from `main`
    | Eof                                // `input()` raised EOFError, which nothing catches
    | PromptFailed                       // `prompt_agent` returned None
    | NotRelated                         // its result did not say to continue
    | NoPlan                             // an empty plan, or `code_planning_agent` raised
    | Ran(plan: seq<JsonValue>, ok: bool)  // the plan was executed, with this result

  predicate Final(p: Pass)
  {
    p == Exit || p == Cancelled || p == Eof
  }

  /** The agents a pass calls: `prompt_agent` and `code_planning_agent`
      for session `k`, the executor's oracles for session `k`, and the
      executor's system prompt. */
  datatype Agents = Agents(
    prompt: (nat, string) -> Outcome<Option<JsonValue>>,
    plan: (nat, JsonValue) -> Outcome<Option<seq<JsonValue>>>,
    exec: nat -> Executor.Oracles,
    systemPrompt: string)

  /** Python's truthiness of a parsed JSON value. */
  predicate Truthy(v: JsonValue)
  {
    match v
    case JNull => false
    case JBool(b) => b
    case JNumber(n) => n != 0
    case JString(s) => s != ""
    case JArray(items) => items != []
    case JObject(fields) => fields != map[]
  }

  /** `d.get(key, fallback)` on a dict. */
  function Get(fields: map<string, JsonValue>, key: string, fallback: JsonValue): JsonValue
  {
    if key in fields then fields[key] else fallback
  }

  /** Step 1: the project description handed to the planner, or None when
      the pass ends here. An exception from `prompt_agent`, including the
      AttributeError of `.get` on a result that is not a dict, falls back
      to the user's own input. */
  function Description(line: string, prompt: Outcome<Option<JsonValue>>): (r: Option<JsonValue>)
    ensures prompt.Raise? ==> r == Some(JString(line))
    ensures prompt == Value(None) ==> r == None
    ensures prompt.Value? && prompt.value.Some? && !prompt.value.value.JObject? ==> r == Some(JString(line))
    ensures r.Some? && prompt.Value? && prompt.value.Some? && prompt.value.value.JObject? ==>
      Truthy(Get(prompt.value.value.fields, "continue", JBool(false)))
  {
    match prompt
    case Raise(_) => Some(JString(line))
    case Value(None) => None
    case Value(Some(result)) =>
      if !result.JObject? then Some(JString(line))
      else if !Truthy(Get(result.fields, "continue", JBool(false))) then None
      else Some(Get(result.fields, "prompt", JString(line)))
  }

  /** The refusal `prompt_agent` substitutes for an invalid reply ends the pass. */
  lemma InvalidResponseNotRelated(line: string)
    ensures Description(line, Value(Some(Planning.InvalidResponse))) == None
  {
    assert Planning.InvalidResponse.fields["continue"] == JBool(false);
  }

  /** A reply that says to continue and gives a prompt hands that prompt on;
      one without a prompt hands on the user's input. */
  lemma DescriptionOfContinue(line: string, fields: map<string, JsonValue>)
    requires "continue" in fields && Truthy(fields["continue"])
    ensures Description(line, Value(Some(JObject(fields))))
      == Some(if "prompt" in fields then fields["prompt"] else JString(line))
  {
  }

  /** Where steps 1 and 2 leave a request: the pass ends, or a plan goes on. */
  datatype Stage = Halt(pass: Pass) | Go(plan: seq<JsonValue>)

  /** Steps 1 and 2 of session `k` for a non-blank request that is not an exit word. */
  function Prepare(k: nat, line: string, a: Agents): (r: Stage)
    ensures r.Go? ==> r.plan != []
    ensures r.Halt? ==> !Final(r.pass) && !r.pass.Ran?
  {
    var p := a.prompt(k, line);
    if p == Value(None) then Halt(PromptFailed)
    else
      match Description(line, p)
      case None => Halt(NotRelated)
      case Some(d) =>
        match a.plan(k, d)
        case Value(Some(plan)) => if plan == [] then Halt(NoPlan) else Go(plan)
        case _ => Halt(NoPlan)
  }

  /** What one pass leaves: how it ended, the filesystem and the unread answers. */
  datatype Step = Step(pass: Pass, fs: FsState, answers: seq<Answer>)

  /** One pass of session `k`. It reads its request first; a plan's
      execution then reads the confirmations it needs from the answers after
      it. */
  function PassOf(k: nat, answers: seq<Answer>, fs: FsState, a: Agents): (r: Step)
    requires answers != []
    ensures Executor.IsSuffix(r.answers, answers[1..])
    ensures Final(r.pass) ==> r.fs == fs && r.answers == answers[1..]
    ensures r.pass.Ran? ==> r.pass.ok && r.pass.plan != []
  {
    var rest := answers[1..];
    match answers[0]
    case Interrupt => Step(Cancelled, fs, rest)
    case Line(line) =>
      if IsBlank(line) then Step(Reprompt, fs, rest)
      else if Lower(line) in ExitWords then Step(Exit, fs, rest)
      else
        match Prepare(k, line, a)
        case Halt(p) => Step(p, fs, rest)
        case Go(plan) =>
          var e := Executor.Execute(plan, a.systemPrompt, fs, rest, a.exec(k));
          Executor.ExecuteWithoutConsent(plan, a.systemPrompt, fs, rest, a.exec(k));
          Step(Ran(plan, e.ok), e.run.session.fs, e.run.session.answers)
  }

  /** The passes of the loop, the filesystem it leaves and the answers it did not read. */
  datatype Ending = Ending(passes: seq<Pass>, fs: FsState, answers: seq<Answer>)

  /** The loop from session `k` on. */
  function Sessions(k: nat, answers: seq<Answer>, fs: FsState, a: Agents): Ending
    decreases |answers|
  {
    if answers == [] then Ending([Eof], fs, [])
    else
      var s := PassOf(k, answers, fs, a);
      if Final(s.pass) then Ending([s.pass], s.fs, s.answers)
      else
        var e := Sessions(k + 1, s.answers, s.fs, a);
        e.(passes := [s.pass] + e.passes)
  }

  /** One pass of the loop body. */
  method RunPass(k: nat, answers: seq<Answer>, fs: FileSystem, a: Agents) returns (pass: Pass, rest: seq<Answer>)
    requires answers != []
    modifies fs
    ensures Step(pass, fs.State(), rest) == PassOf(k, answers, old(fs.State()), a)
  {
    var answer := answers[0];
    rest := answers[1..];
    if answer.Interrupt? {
      return Cancelled, rest;
    } else if IsBlank(answer.text) {
      return Reprompt, rest;
    } else if Lower(answer.text) in ExitWords {
      return Exit, rest;
    }
    var stage := Prepare(k, answer.text, a);
    if stage.Halt? {
      return stage.pass, rest;
    }
    var ok, _, _, unread := Executor.InfrastructureEngineerAgent(stage.plan, a.systemPrompt, fs, rest, a.exec(k));
    pass, rest := Ran(stage.plan, ok), unread;
  }

  /** `main`'s `while True` loop, over the filesystem the tools change. */
  method RunSessions(answers: seq<Answer>, fs: FileSystem, a: Agents) returns (passes: seq<Pass>, rest: seq<Answer>)
    modifies fs
    ensures Ending(passes, fs.State(), rest) == Sessions(0, answers, old(fs.State()), a)
  {
    var k: nat := 0;
    var input := answers;
    passes := [];
    while true
      invariant var e := Sessions(k, input, fs.State(), a);
        Sessions(0, answers, old(fs.State()), a) == e.(passes := passes + e.passes)
      decreases |input|
    {
      if input == [] {
        return passes + [Eof], [];
      }
      var pass, unread := RunPass(k, input, fs, a);
      if Final(pass) {
        return passes + [pass], unread;
      }
      ghost var e := Sessions(k + 1, unread, fs.State(), a);
      assert (passes + [pass]) + e.passes == passes + ([pass] + e.passes);
      passes, input, k := passes + [pass], unread, k + 1;
    }
  }

  // ----- what the loop guarantees ------------------------------------------

  /** A pass that does not end the loop is followed by the loop from the next session. */
  lemma SessionsCons(k: nat, answers: seq<Answer>, fs: FsState, a: Agents)
    requires answers != [] && !Final(PassOf(k, answers, fs, a).pass)
    ensures var s := PassOf(k, answers, fs, a);
      var t := Sessions(k + 1, s.answers, s.fs, a);
      var e := Sessions(k, answers, fs, a);
      e == t.(passes := [s.pass] + t.passes)
  {
    var s := PassOf(k, answers, fs, a);
    var t := Sessions(k + 1, s.answers, s.fs, a);
    assert Sessions(k, answers, fs, a) == t.(passes := [s.pass] + t.passes);
  }

  /** The loop ends exactly once, on an exit word, Ctrl-C or the end of
      input; it makes at most one pass per answer, plus the one that finds
      the input exhausted, and only reads answers. */
  lemma {:induction false} SessionsEnd(k: nat, answers: seq<Answer>, fs: FsState, a: Agents)
    ensures var e := Sessions(k, answers, fs, a);
      && 1 <= |e.passes| <= |answers| + 1
      && Final(e.passes[|e.passes| - 1])
      && (forall j :: 0 <= j < |e.passes| - 1 ==> !Final(e.passes[j]))
      && Executor.IsSuffix(e.answers, answers)
    decreases |answers|
  {
    if answers != [] {
      var s := PassOf(k, answers, fs, a);
      SuffixOfTail(s.answers, answers);
      if !Final(s.pass) {
        SessionsEnd(k + 1, s.answers, s.fs, a);
        SessionsCons(k, answers, fs, a);
        var t := Sessions(k + 1, s.answers, s.fs, a);
        SuffixTrans(t.answers, s.answers, answers);
      }
    }
  }

  lemma SuffixOfTail(b: seq<Answer>, c: seq<Answer>)
    requires c != [] && Executor.IsSuffix(b, c[1..])
    ensures Executor.IsSuffix(b, c) && |b| < |c|
  {
    assert c[|c| - |b|..] == c[1..][|c| - 1 - |b|..];
  }

  lemma SuffixTrans(a: seq<Answer>, b: seq<Answer>, c: seq<Answer>)
    requires Executor.IsSuffix(a, b) && Executor.IsSuffix(b, c)
    ensures Executor.IsSuffix(a, c)
  {
    assert c[|c| - |a|..] == c[|c| - |b|..][|b| - |a|..];
  }

  /** Every executed plan is non-empty, so `infrastructure_engineer_agent`
      reports success for each: the "completed with some issues" branch of
      the loop is never taken. */
  lemma {:induction false} SessionsRunSucceed(k: nat, answers: seq<Answer>, fs: FsState, a: Agents)
    ensures var e := Sessions(k, answers, fs, a);
      forall j :: 0 <= j < |e.passes| && e.passes[j].Ran? ==> e.passes[j].ok && e.passes[j].plan != []
    decreases |answers|
  {
    if answers != [] {
      var s := PassOf(k, answers, fs, a);
      if !Final(s.pass) {
        SuffixOfTail(s.answers, answers);
        SessionsRunSucceed(k + 1, s.answers, s.fs, a);
        SessionsCons(k, answers, fs, a);
      }
    }
  }

  /** One pass changes no file or directory unless it read a "y", and keeps
      files and directories apart. */
  lemma PassWithoutConsent(k: nat, answers: seq<Answer>, fs: FsState, a: Agents)
    requires answers != []
    ensures var s := PassOf(k, answers, fs, a);
      && (Executor.NoYes(answers) ==> s.fs == fs)
      && (WellFormed(fs) ==> WellFormed(s.fs))
  {
    var rest := answers[1..];
    if answers[0].Line? && !IsBlank(answers[0].text) && Lower(answers[0].text) !in ExitWords {
      var stage := Prepare(k, answers[0].text, a);
      if stage.Go? {
        if Executor.NoYes(answers) {
          Executor.NoYesSuffix(rest, answers);
        }
        Executor.ExecuteWithoutConsent(stage.plan, a.systemPrompt, fs, rest, a.exec(k));
      }
    }
  }

  /** If the operator never answers "y", the whole program changes no file
      or directory; in any case files and directories stay apart. */
  lemma {:induction false} SessionsWithoutConsent(k: nat, answers: seq<Answer>, fs: FsState, a: Agents)
    ensures var e := Sessions(k, answers, fs, a);
      && (Executor.NoYes(answers) ==> e.fs == fs)
      && (WellFormed(fs) ==> WellFormed(e.fs))
    decreases |answers|
  {
    if answers != [] {
      var s := PassOf(k, answers, fs, a);
      PassWithoutConsent(k, answers, fs, a);
      if !Final(s.pass) {
        SuffixOfTail(s.answers, answers);
        if Executor.NoYes(answers) {
          Executor.NoYesSuffix(s.answers, answers);
        }
        SessionsWithoutConsent(k + 1, s.answers, s.fs, a);
      }
    }
  }

  /** An exit word in any letter case ends the loop at once. */
  lemma StopOnExitWord(k: nat, line: string, rest: seq<Answer>, fs: FsState, a: Agents)
    requires Lower(line) in ExitWords
    ensures Sessions(k, [Line(line)] + rest, fs, a) == Ending([Exit], fs, rest)
  {
    assert Lower(line)[0] == LowerChar(line[0]);
    assert !IsSpace(line[0]);
    assert ([Line(line)] + rest)[1..] == rest;
  }

  lemma QuitInCapitals()
    ensures Lower("QUIT") == "quit"
  {
    assert Lower("QUIT") == [LowerChar('Q')] + Lower("UIT");
    assert Lower("UIT") == [LowerChar('U')] + Lower("IT");
    assert Lower("IT") == [LowerChar('I')] + Lower("T");
  }

  /** `prompt_agent` and `code_planning_agent` as the models in Planning,
      each session's attempts receiving their own streams. The plan side is
      stated for every description `d`, although `code_planning_agent`
      slices its argument and so raises at once when the "prompt" field is a
      number, boolean, null or dict. The lemmas below stay sound because such
      a `d` may be given `planStreams(k, d)` that fail: the stream oracle, not
      this predicate, carries that case. */
  ghost predicate Planners(a: Agents, promptStreams: (nat, string) -> nat -> Stream,
                     planStreams: (nat, JsonValue) -> nat -> Stream, loads: Parser)
  {
    && (forall k: nat, line :: a.prompt(k, line) == Planning.PromptAgent(promptStreams(k, line), loads).result)
    && (forall k: nat, d :: a.plan(k, d) == Planning.CodePlanningAgent(planStreams(k, d), loads).result)
  }

  /** With the real planners, `prompt_agent` never returns None, so the
      "Failed to process your prompt" branch is never taken, and every plan
      that goes on holds only dict steps. */
  lemma PrepareWithPlanners(k: nat, line: string, a: Agents, promptStreams: (nat, string) -> nat -> Stream,
                            planStreams: (nat, JsonValue) -> nat -> Stream, loads: Parser)
    requires Planners(a, promptStreams, planStreams, loads)
    ensures Prepare(k, line, a) != Halt(PromptFailed)
    ensures Prepare(k, line, a).Go? ==> forall j :: 0 <= j < |Prepare(k, line, a).plan| ==> Prepare(k, line, a).plan[j].JObject?
  {
    Planning.PromptAgentShape(promptStreams(k, line), loads);
    var p := a.prompt(k, line);
    match Description(line, p)
    case None =>
    case Some(d) =>
      var plan := a.plan(k, d);
      if plan.Value? && plan.value.Some? {
        Planning.CodePlanningAgentPlan(planStreams(k, d), loads, plan.value.value);
      }
  }

  /** One pass, with the real planners. */
  lemma PassWithPlanners(k: nat, answers: seq<Answer>, fs: FsState, a: Agents,
                         promptStreams: (nat, string) -> nat -> Stream,
                         planStreams: (nat, JsonValue) -> nat -> Stream, loads: Parser)
    requires answers != [] && Planners(a, promptStreams, planStreams, loads)
    ensures var p := PassOf(k, answers, fs, a).pass;
      p != PromptFailed && (p.Ran? ==> forall n :: 0 <= n < |p.plan| ==> p.plan[n].JObject?)
  {
    if answers[0].Line? && !IsBlank(answers[0].text) && Lower(answers[0].text) !in ExitWords {
      PrepareWithPlanners(k, answers[0].text, a, promptStreams, planStreams, loads);
    }
  }

  /** Over the whole loop, with the real planners: no pass fails in
      `prompt_agent`, and every executed plan holds only dict steps. */
  lemma {:induction false} SessionsWithPlanners(k: nat, answers: seq<Answer>, fs: FsState, a: Agents,
                                                promptStreams: (nat, string) -> nat -> Stream,
                                                planStreams: (nat, JsonValue) -> nat -> Stream, loads: Parser)
    requires Planners(a, promptStreams, planStreams, loads)
    ensures var e := Sessions(k, answers, fs, a);
      forall j :: 0 <= j < |e.passes| ==>
        e.passes[j] != PromptFailed
        && (e.passes[j].Ran? ==> forall n :: 0 <= n < |e.passes[j].plan| ==> e.passes[j].plan[n].JObject?)
    decreases |answers|
  {
    if answers != [] {
      var s := PassOf(k, answers, fs, a);
      PassWithPlanners(k, answers, fs, a, promptStreams, planStreams, loads);
      if !Final(s.pass) {
        SuffixOfTail(s.answers, answers);
        SessionsWithPlanners(k + 1, s.answers, s.fs, a, promptStreams, planStreams, loads);
        SessionsCons(k, answers, fs, a);
      }
    }
  }

  /** `infrastructure_engineer_agent` never raises, so its `retry_with_backoff(max_retries=2)`
      calls it once and sleeps not at all. */
  lemma ExecutorCalledOnce(plan: seq<JsonValue>, a: Agents, k: nat, fs: FsState, answers: seq<Answer>)
    ensures var e := Executor.Execute(plan, a.systemPrompt, fs, answers, a.exec(k));
      Backoff.Retry(2, (j: nat) => Value(e.ok)) == Backoff.RetryRun(Value(Some(e.ok)), 1, [])
  {
    var e := Executor.Execute(plan, a.systemPrompt, fs, answers, a.exec(k));
    Backoff.RetryOfTotal(2, (j: nat) => Value(e.ok));
  }
}
