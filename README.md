# ai-engineering, modelled in Dafny

This project models the core of the `ai-engineering` repository in Dafny and
proves properties of that model. Most of the core is **tofumatic**, an agent
that turns an operator's infrastructure request into OpenTofu files. It
works through a chain of model calls:

- a *prompt agent* that decides whether the request is about infrastructure;
- a *code planning agent* that produces an ordered list of steps;
- an *infrastructure engineer agent* that walks the steps, streams the
  model's tool calls, asks the operator to confirm each one, and runs the
  confirmed ones against a file system and the `tofu` command.

The project also models the smaller tools in the same repository:

- the Wikipedia-searching agent in `agents/oss-agent`;
- the `Tool` descriptor and `@tool` decorator in `agents/tools`;
- `get_env` in `intro-langgraph` and its test runner's command builder;
- the agentic-RAG tools and guest retriever;
- the llamaindex calculator tools;
- the smolagent party menu.

The world outside the program becomes a set of parameters:

- **The chat-completion API** is an oracle: given the executor's step index
  and the messages sent, it returns a stream of deltas, possibly ending in a
  failure (`Chat.Stream`).
- **`json.loads`** is an oracle `string -> Option<JsonValue>` (`None` is a
  decode error). `json.dumps(v)` is the symbolic content `Dumped(v)`
  (`Json`).
- **The operator** is a finite sequence of answers, each a line or a
  keyboard interrupt. Running out of answers is end of input.
- **The file system** is a `TofuTools.FileSystem` object whose state is a set
  of directories and a map from paths to contents. Its methods update that
  state in place.
- **The `tofu` subprocess** is a shell oracle. Given the file system, the
  directory and the command line, it returns the captured output and the file
  system the command left behind (`TofuTools.Shell`). That state is typed
  well-formed, as an operating system keeps it; otherwise it is arbitrary.
- **Wikipedia, the weather pick and the Hub listing** are parameters too.

Loops in the source are methods with invariants, each proved equal to a
specification function:

- `Backoff.RetryWithBackoff` against `Retry`;
- `Executor.InfrastructureEngineerAgent` against `Execute`;
- `SessionLoop.RunSessions` against `Sessions`;
- `OssAgent.RunAgent` against `Converse`;
- `Planning.FilterSteps` against `DictSteps`;
- `Chat.AccumulateContent` against `StreamText`.

The properties are proved as lemmas about those functions. The main ones:

- The executor never runs a tool the operator did not confirm with `y`
  (`Executor.ExecuteWithoutConsent`). The whole session loop leaves the file
  system unchanged when no answer is `y` (`SessionLoop.SessionsWithoutConsent`).
- Every file-system operation keeps the state well-formed: no path is both a
  file and a directory.
- A tool call whose name is not registered is logged and reported as a
  failure, and runs nothing.
- The retry loop makes at most `max_retries` attempts, sleeps
  `base_delay * 2^i` between them, and re-raises the last failure.
- The session loop ends exactly on an exit word, an interrupt or end of
  input. It reaches neither the "Failed to process prompt" branch nor the
  "completed with some issues" branch (`SessionLoop.SessionsWithPlanners`,
  `SessionLoop.SessionsRunSucceed`).

Some behaviour of the code is easy to mistake, and the model follows the code:

- The executor's system prompt (prompts/prompts.py:12) tells the model to
  skip steps whose description ends in "Completed". The code applies no such
  rule: it sends every dict step to the model (`Executor.RunStepsUserTurns`).
- A declined tool call returns `True` from `_handle_tool_call`. Only an
  interrupt, end of input, an unknown tool, bad arguments or a raising tool
  return `False`. The only caller, at main.py:205-206, reads the result just
  to log a warning.
- End of input at the session prompt is not caught by `main` and ends the
  program. The model records it as the final `Eof` pass.
- `infrastructure_engineer_agent` catches every exception itself, so its
  `retry_with_backoff(max_retries=2)` decorator always calls it exactly once
  (`SessionLoop.ExecutorCalledOnce`).

## Model

| member | source | states |
|---|---|---|
| Backoff.RetryWithBackoff | agents/tofumatic/main.py:32-49 | the loop returns what the specification `Retry` returns and performs the same sleeps |
| Backoff.RetryFromFacts | agents/tofumatic/main.py:36-47 | attempt count is at most the retries left, sleeps are `base_delay * 2^i` for the failed attempts except the last, a value is returned only by the last attempt made |
| Backoff.RetryAttemptsAndSleeps | agents/tofumatic/main.py:36-47 | at most `max_retries` attempts and one sleep fewer than attempts on failure |
| Backoff.RetryReturnsFirstSuccess | agents/tofumatic/main.py:36-38 | the first attempt that succeeds ends the loop with its value and no further attempt is made |
| Backoff.RetryReraisesLast | agents/tofumatic/main.py:39-42 | when every attempt raises, the exception of attempt `max_retries - 1` is re-raised |
| Backoff.RetrySucceedsIfSomeAttemptDoes | agents/tofumatic/main.py:36-38 | if some attempt within the cap succeeds, the decorated call succeeds |
| Backoff.RetryOfTotal | agents/tofumatic/main.py:36-38 | a function that never raises is called exactly once, with no sleep |
| Backoff.RetryTwoFailuresThenValue | agents/tofumatic/main.py:36-46 | two failures then a success give the value after sleeps of 1 and 2 base delays |
| Chat.AccumulateContent | agents/tofumatic/main.py:86-90 | concatenating the streamed content pieces gives the stream's text |
| Chat.StreamTextConcat | agents/tofumatic/main.py:196-202 | the text of a stream split in two is the concatenation of the two texts |
| Planning.Contains | agents/tofumatic/main.py:55 | the `in` test raises TypeError exactly when the value is not a dict, list or string, and on a dict it tests the keys |
| Planning.MissingKeysOfObject | agents/tofumatic/main.py:54-58 | on a dict the key check never raises, and nothing is missing exactly when every expected key is present |
| Planning.MissingKeysRaises | agents/tofumatic/main.py:55 | the key check raises TypeError exactly when there are expected keys and the value is a number, boolean or null |
| Planning.ValidateJsonResponse | agents/tofumatic/main.py:51-62 | a parse failure gives None, no expected keys gives the parsed value, and any value returned is the parsed one |
| Planning.ValidateObject | agents/tofumatic/main.py:51-62 | a parsed dict is returned exactly when it has every expected key, otherwise None, and it never raises |
| Planning.PromptAttemptShape | agents/tofumatic/main.py:96-102 | a successful attempt is a dict holding "continue", either the parsed reply or the invalid-response sentinel |
| Planning.PromptAttemptInvalid | agents/tofumatic/main.py:96-99 | a reply that does not parse, or lacks "continue", yields the sentinel `{"continue": False, "prompt": "", "error": "Invalid JSON response"}` instead of raising |
| Planning.PromptAgentInvalid | agents/tofumatic/main.py:71-106 | such a first reply ends the prompt agent after one attempt with the sentinel and no sleep |
| Planning.PromptAgentShape | agents/tofumatic/main.py:71-106 | the prompt agent raises after its retries or returns a dict holding "continue", and never returns None |
| Planning.FilterSteps | agents/tofumatic/main.py:146-151 | the loop keeps exactly the dict steps, in order |
| Planning.DictStepsConcat | agents/tofumatic/main.py:146-151 | filtering distributes over concatenation |
| Planning.DictStepsElements | agents/tofumatic/main.py:146-154 | every kept step is a dict and every dict step is kept |
| Planning.PlanAttemptValue | agents/tofumatic/main.py:135-154 | a plan from one attempt comes from a completed stream. It is exactly the dict elements, in order, of the list a non-blank reply parses to, and empty for a blank, non-JSON or non-list reply. So it holds only dicts, each from the parsed list |
| Planning.CodePlanningAgentPlan | agents/tofumatic/main.py:108-163 | a returned plan comes from the first attempt whose stream completed, after only failed ones. It is exactly the dict elements, in order, of the list that reply parses to, or empty when the reply is blank, not JSON or not a list. It holds only dicts, all from that list |
| Executor.Gate | agents/tofumatic/main.py:227-271 | the tool runs only after a `y` answer and only when it is registered and its arguments bind. Every other path leaves the file system as it was. A declined call returns True, and an interrupt or end of input returns False. A confirmed call of an unregistered tool, or of a registered one whose arguments `json.loads` rejects, returns False with only the answer consumed |
| Executor.GateKeepsWellFormed | agents/tofumatic/main.py:246-255 | handling a tool call preserves a well-formed file system |
| Executor.GateRunsConfirmedTool | agents/tofumatic/main.py:238-264 | a confirmed, registered, well-bound call runs the tool and appends its result message |
| Executor.BindWriteFile | agents/tofumatic/main.py:247-248 | `write_file` arguments bind to the path and the content, in parameter order |
| Executor.GateWriteFileScenario | agents/tofumatic/main.py:238-255 | a confirmed `write_file` call writes the content at the path and records "File written successfully." |
| Executor.GateUnknownToolScenario | agents/tofumatic/main.py:241-244 | a confirmed call to an unregistered tool fails, writes nothing and records nothing |
| Executor.History.constructor | agents/tofumatic/main.py:173-175 | the history starts with the system message alone |
| Executor.History.Append | agents/tofumatic/main.py:185 | appending adds exactly one message at the end |
| Executor.HandleToolCall | agents/tofumatic/main.py:227-271 | the method's result, answers left, history and file system are those of `Gate` |
| Executor.HandleToolCalls | agents/tofumatic/main.py:204-207 | handling a delta's calls in order equals the specification `HandleCalls` |
| Executor.ConsumeStream | agents/tofumatic/main.py:196-207 | consuming the stream equals `HandleDeltas` and returns the streamed text |
| Executor.InfrastructureEngineerAgent | agents/tofumatic/main.py:165-225 | the executor's result, history, answers and file system are those of the specification `Execute` |
| Executor.HandleCallsHistory | agents/tofumatic/main.py:204-207 | tool calls only extend the history, and only with result messages |
| Executor.HandleCallsAnswers | agents/tofumatic/main.py:204-207 | tool calls consume operator answers from the front and never add any |
| Executor.HandleCallsWellFormed | agents/tofumatic/main.py:204-207 | a sequence of tool calls preserves a well-formed file system |
| Executor.HandleCallsFacts | agents/tofumatic/main.py:204-207 | history growth, answer consumption and well-formedness together for a call list |
| Executor.HandleDeltasHistory | agents/tofumatic/main.py:197-207 | consuming a stream only appends result messages |
| Executor.HandleDeltasAnswers | agents/tofumatic/main.py:197-207 | consuming a stream consumes answers from the front |
| Executor.HandleDeltasFacts | agents/tofumatic/main.py:197-207 | the stream facts together, including well-formedness |
| Executor.RunStepFacts | agents/tofumatic/main.py:178-212 | a dict step appends its user message, then only assistant and tool messages, and records one API call with that history; a non-dict step changes nothing |
| Executor.RunStepAnswers | agents/tofumatic/main.py:187-207 | one step consumes operator answers only from the front |
| Executor.RunStepsGrow | agents/tofumatic/main.py:178-217 | the step loop only extends the history, with step messages, and only extends the call record |
| Executor.DictPositionsMembers | agents/tofumatic/main.py:178-185 | the positions the loop sends to the model are exactly those of the dict steps |
| Executor.DictPositionsIncrease | agents/tofumatic/main.py:178-185 | those positions are visited in strictly increasing order |
| Executor.RunStepCalls | agents/tofumatic/main.py:181-194 | a step records an API call exactly when the step is a dict |
| Executor.RunStepsCallsEveryDictStep | agents/tofumatic/main.py:178-217 | the API is called once per dict step, in plan order, and never for another step |
| Executor.RunStepUserTurns | agents/tofumatic/main.py:181-185 | a dict step adds one user message with the step's `json.dumps`, a non-dict step adds nothing |
| Executor.DictTurnsAreDictSteps | agents/tofumatic/main.py:178-185 | the user turns are exactly the serialized dict steps |
| Executor.RunStepsUserTurns | agents/tofumatic/main.py:178-185 | every dict step, completed or not, is sent to the model, in plan order |
| Executor.RunStepsAnswers | agents/tofumatic/main.py:178-217 | the whole loop consumes operator answers only from the front |
| Executor.RunStepsCallContexts | agents/tofumatic/main.py:185-194 | each API call receives a history that ends with that step's user message |
| Executor.ExecuteEmptyPlan | agents/tofumatic/main.py:169-171 | the result is False exactly for an empty plan, which calls no model, consumes no answer and changes no file |
| Executor.ExecuteHistory | agents/tofumatic/main.py:169-220 | the history is the system message then step messages, the user turns are the dumped dict steps in order, and there is one API call per dict step |
| Executor.ExecuteWithoutConsent | agents/tofumatic/main.py:165-225 | with no `y` among the answers the file system is unchanged; it stays well-formed and answers are consumed from the front |
| TofuTools.TofuVerdict | agents/tofumatic/tools/tools.py:84-87 | any output is reported as success, empty output as "OpenTofu command executed failed." |
| TofuTools.DefinitionsInMap | agents/tofumatic/tools/tools.py:96-154 | every advertised tool definition names a tool of the map |
| TofuTools.MapKeyDefined | agents/tofumatic/tools/tools.py:147-154 | every tool of the map is advertised |
| TofuTools.DefinitionNamesDistinct | agents/tofumatic/tools/tools.py:96-145 | no two definitions share a name |
| TofuTools.LookupByName | agents/tofumatic/tools/tools.py:147-154 | looking a tool up by its own name finds it |
| TofuTools.Bind | agents/tofumatic/main.py:248 | when arguments bind, there is one value per parameter of the tool |
| TofuTools.InvokeKeepsWellFormed | agents/tofumatic/tools/tools.py:32-87 | every tool preserves a well-formed file system, `read_file` changes nothing, and a tool that raises changes nothing |
| TofuTools.WriteThenRead | agents/tofumatic/tools/tools.py:32-46 | reading a path that was just written returns the written content |
| TofuTools.WriteToDirectory | agents/tofumatic/tools/tools.py:36 | writing onto a directory raises IsADirectoryError and changes nothing |
| TofuTools.DeleteFileCases | agents/tofumatic/tools/tools.py:49-54 | deleting succeeds exactly on a file and removes just that path from the files. Any other path changes nothing, and a missing one raises FileNotFoundError |
| TofuTools.CreateDirectoryTwice | agents/tofumatic/tools/tools.py:57-65 | an absent path becomes a directory with "Directory created successfully.". Any existing path, file or directory, is left as it was with "Directory already exists.", so a second call of the same path always reports that |
| TofuTools.DeleteDirectoryCases | agents/tofumatic/tools/tools.py:67-75 | removes an existing directory, reports a missing one, and a file raises NotADirectoryError |
| TofuTools.FileSystem.WriteFile | agents/tofumatic/tools/tools.py:32-38 | the new state is the specification `Write` of the old one |
| TofuTools.FileSystem.ReadFile | agents/tofumatic/tools/tools.py:41-46 | returns the file's content or the open error, and changes nothing |
| TofuTools.FileSystem.DeleteFile | agents/tofumatic/tools/tools.py:49-54 | the new state is the specification `Delete` of the old one |
| TofuTools.FileSystem.CreateDirectory | agents/tofumatic/tools/tools.py:57-65 | the new state is the specification `MakeDir` of the old one |
| TofuTools.FileSystem.DeleteDirectory | agents/tofumatic/tools/tools.py:67-75 | the new state is the specification `RemoveDir` of the old one |
| TofuTools.FileSystem.OpenTofu | agents/tofumatic/tools/tools.py:78-87 | a path that is not a directory raises and changes nothing. Otherwise runs `tofu <command>` through the shell, classifies its output, and leaves the file system the command left |
| TofuTools.OpenTofuCases | agents/tofumatic/tools/tools.py:78-87 | a missing path raises FileNotFoundError and a file raises NotADirectoryError, both changing nothing. In a directory, success is reported exactly when the command printed something, and the file system is what the command left |
| TofuTools.FileSystem.Call | agents/tofumatic/main.py:248 | dispatching by tool name agrees with the specification `Invoke` |
| SessionLoop.Description | agents/tofumatic/main.py:313-331 | a raising or non-dict prompt step falls back to the raw line, None stops the pass, and a description is handed on only when "continue" is truthy |
| SessionLoop.InvalidResponseNotRelated | agents/tofumatic/main.py:321-323 | the invalid-response sentinel is treated as not related |
| SessionLoop.DescriptionOfContinue | agents/tofumatic/main.py:321-325 | a truthy "continue" passes on the "prompt" field, or the raw line when it is absent |
| SessionLoop.Prepare | agents/tofumatic/main.py:313-345 | the executor is reached only with a non-empty plan, and no non-final pass ends the session |
| SessionLoop.PassOf | agents/tofumatic/main.py:291-359 | one pass consumes at least its input line, and a final pass leaves the file system alone |
| SessionLoop.RunPass | agents/tofumatic/main.py:291-361 | the method's pass, answers left and file system are those of `PassOf` |
| SessionLoop.RunSessions | agents/tofumatic/main.py:284-361 | the `while True` loop's passes, answers left and file system are those of `Sessions` |
| SessionLoop.SessionsEnd | agents/tofumatic/main.py:291-310 | the loop ends on exactly one final pass (exit word, interrupt, end of input) and makes at most one pass per line |
| SessionLoop.SessionsRunSucceed | agents/tofumatic/main.py:350-355 | every executed plan reports success, so "completed with some issues" is never printed |
| SessionLoop.PassWithoutConsent | agents/tofumatic/main.py:347-359 | a pass with no `y` answer leaves the file system unchanged |
| SessionLoop.SessionsWithoutConsent | agents/tofumatic/main.py:284-361 | a whole session with no `y` answer leaves the file system unchanged and well-formed |
| SessionLoop.StopOnExitWord | agents/tofumatic/main.py:302-305 | an exit word, in any letter case, ends the loop with no model call |
| SessionLoop.QuitInCapitals | agents/tofumatic/main.py:302 | "QUIT" lower-cases to the exit word "quit" |
| SessionLoop.PrepareWithPlanners | agents/tofumatic/main.py:312-345 | with the real agents the prompt step never yields None and every plan step is a dict |
| SessionLoop.PassWithPlanners | agents/tofumatic/main.py:312-345 | with the real agents a pass is never "Failed to process prompt" |
| SessionLoop.SessionsWithPlanners | agents/tofumatic/main.py:284-361 | with the real agents no pass of the session fails to process the prompt |
| SessionLoop.ExecutorCalledOnce | agents/tofumatic/main.py:165 | the retry decorator calls the never-raising executor exactly once |
| OssAgent.Dispatch | agents/oss-agent/main.py:120-154 | a known tool's call appends a tool message with its result, an unknown one appends the not-found message, bad arguments raise |
| OssAgent.DispatchKnown | agents/oss-agent/main.py:140-154 | a known tool is called with the parsed arguments and its result is recorded under the call's id |
| OssAgent.DispatchUnknownIgnoresTools | agents/oss-agent/main.py:125-136 | an unknown tool name never calls the search |
| OssAgent.DispatchAllFacts | agents/oss-agent/main.py:120-154 | one tool message per handled call, carrying that call's id, and a failure stops before the remaining calls |
| OssAgent.ConverseShape | agents/oss-agent/main.py:97-161 | the history is the system and user messages, the model's message, then one tool message per call in order, and the final answer is asked with that history |
| OssAgent.ConverseWithoutCalls | agents/oss-agent/main.py:118 | without tool calls the first answer is final and no second completion is requested |
| OssAgent.RunAgent | agents/oss-agent/main.py:86-165 | the method's messages and result are those of the specification `Converse` |
| ToolDescriptor.ArgsTextAppend | agents/tools/tools.py:37-39 | the argument text of a list extended by one is joined with ", " |
| ToolDescriptor.RenderSegments | agents/tools/tools.py:41-46 | the description string starts with the name and description header and ends with the outputs |
| ToolDescriptor.Tool.constructor | agents/tools/tools.py:18-30 | a new tool stores exactly the given name, description, function, arguments and outputs |
| ToolDescriptor.Tool.ToString | agents/tools/tools.py:32-46 | the rendered string starts with the tool's name and description header and is the `Render` of its fields |
| ToolDescriptor.Tool.Call | agents/tools/tools.py:48-52 | calling the tool calls the wrapped function with the same arguments |
| ToolDescriptor.Outputs | agents/tools/tools.py:71-79 | the output type is the return annotation's name, or "No return annotation" when there is none |
| ToolDescriptor.Description | agents/tools/tools.py:82 | the description is the docstring when it is non-empty, and never empty |
| ToolDescriptor.MakeTool | agents/tools/tools.py:55-94 | the decorator's tool has the function's name, one argument per parameter in order, and the function itself |
| EnvUtils.GetEnv | intro-langgraph/utils.py:3-7 | returns the variable's value, or raises ValueError naming the variable |
| EnvUtils.GetEnvAfterSet | intro-langgraph/utils.py:4-7 | a variable just set reads back as its value |
| EnvUtils.GetEnvReturnsValue | intro-langgraph/tests/test_utils.py:12-16 | a set variable, plain or of whitespace only, is returned unchanged |
| EnvUtils.GetEnvRaises | intro-langgraph/tests/test_utils.py:18-31 | an unset variable raises with the message "Environment variable X is not set" |
| EnvUtils.GetEnvCaseSensitive | intro-langgraph/tests/test_utils.py:53-62 | variable names are case-sensitive |
| TestRunner.BuildCommand | intro-langgraph/run_tests.py:57-80 | the built command equals the specification `Command` of the flags |
| TestRunner.RunTests | intro-langgraph/run_tests.py:21-92 | the exit code is that of running the built command |
| TestRunner.CommandSelection | intro-langgraph/run_tests.py:58-66 | the command starts with `uv run pytest` followed by the chosen test selection |
| TestRunner.CommandSelectsOnce | intro-langgraph/run_tests.py:60-66 | exactly one selection is added, with `--unit` taking precedence over `--integration` |
| TestRunner.OptionsFree | intro-langgraph/run_tests.py:68-80 | the segments the options add contain no test-selection word |
| TestRunner.CommandOptions | intro-langgraph/run_tests.py:68-80 | `-v`, `-n auto` and the coverage flags appear exactly when requested |
| RagTools.ExtractText | agents/course/agentic_rag/tools.py:7-13 | the contents of the first three documents joined by blank lines, or "No matching guest information found." |
| RagTools.ExtractTextFirstThree | agents/course/agentic_rag/tools.py:11 | only the first three retrieved documents are used |
| RagTools.ExtractTextJoins | agents/course/agentic_rag/tools.py:11 | the result is the documents' contents joined by "\n\n" |
| RagTools.GetWeatherInfo | agents/course/agentic_rag/tools.py:17-27 | the report names the location and is built from one of the three fixed conditions |
| RagTools.WeatherTemperatures | agents/course/agentic_rag/tools.py:27 | the reported temperature is one of the canned values |
| RagTools.HubStats | agents/course/agentic_rag/tools.py:30-44 | a failed listing gives the fetch error message and an empty one the no-models message |
| RagTools.HubStatsFirstModel | agents/course/agentic_rag/tools.py:38-40 | only the first listed model is used, its download count is printed with thousands separators, and a missing count is a format error |
| Text.GroupThousandsDigits | agents/course/agentic_rag/tools.py:40 | removing the separators of a grouped count gives its plain decimal digits |
| Text.Lower | agents/tofumatic/main.py:238 | lower-casing keeps the length and maps each character on its own |
| Text.LowerIsY | agents/tofumatic/main.py:238 | an answer is confirmation exactly when it lower-cases to "y" |
| Text.SplitJoin | agents/course/agentic_rag/retriever.py:11-18 | splitting a line-joined text gives the lines back |
| Retriever.GuestDocument | agents/course/agentic_rag/retriever.py:10-20 | a guest document's metadata holds exactly the guest's name |
| Retriever.Documents | agents/course/agentic_rag/retriever.py:9-22 | one document per guest, in order |
| Retriever.PageContentStartsWithName | agents/course/agentic_rag/retriever.py:13 | every page content starts with "Name: " and the guest's name |
| Retriever.PageContentLines | agents/course/agentic_rag/retriever.py:11-18 | the page content splits into exactly four lines |
| Calculator.Add | agents/course/llamaindex/tools.py:7-18 | adding then subtracting either operand gives the other back |
| Calculator.Subtract | agents/course/llamaindex/tools.py:22-33 | the difference plus the subtrahend is the minuend |
| Calculator.Multiply | agents/course/llamaindex/tools.py:38-49 | the product is zero exactly when a factor is zero |
| Calculator.DocExamples | agents/course/llamaindex/tools.py:7-49 | the docstring examples: 2 + 3 = 5, 2 - 3 = -1, 2 * 3 = 6 |
| Calculator.SubtractUndoesAdd | agents/course/llamaindex/tools.py:7-33 | subtraction undoes addition and the other way round |
| PartyMenu.SuggestMenu | agents/smolagent/main.py:28-45 | one fixed menu per known occasion, the custom menu otherwise |
| PartyMenu.SuggestMenuCases | agents/smolagent/main.py:38-45 | each known occasion gets its own menu and every other input gets the custom menu |

## Left out

- Console output, logging, colours and the banners printed between phases are
  not modelled. They do not affect any state the model tracks.
- Backoff.RetryWithBackoff: `time.sleep` is not executed, and the float
  `base_delay` is represented by sleeps counted in whole multiples of the base
  delay.
- The JSON grammar is not modelled. `json.loads` is an oracle and
  `json.dumps` output is symbolic, so no round trip through text is proved.
  JSON numbers are integers.
- TofuTools.Bind: keyword binding refuses any non-string argument value.
  Python would pass such values through to the tool, and the tool would then
  fail or behave differently. For example, a confirmed `write_file` whose
  content is not a string truncates or creates the file at `open(file_path,
  "w")` (tools.py:36) and only then raises TypeError at `f.write`
  (tools.py:37). So `TofuTools.InvokeKeepsWellFormed`'s "a tool that raises
  changes nothing" holds only because the model refuses such values first. The error messages of a failed binding
  approximate Python's `TypeError` texts.
- TofuTools.FileSystem: the file system is flat. The model does not cover
  `os.makedirs` creating parent directories, writes failing because a parent
  directory is missing, or `os.rmdir` refusing a non-empty directory.
- TofuTools.FileSystem.OpenTofu: `os.chdir` and the working directory are not
  modelled. What `tofu` and the shell line do to files is not derived from
  the command: it is whatever state the shell oracle returns.
- Streamed tool calls arrive as whole calls in a delta. The fragments of a
  call's arguments spread over several chunks are not reassembled.
- A keyboard interrupt anywhere but the session prompt or a confirmation
  prompt is not modelled. An example is one during a model call.
- `session_count` only feeds log lines. In the model it is the index that
  selects a session's oracles.
- The chat API, Wikipedia search, the Hub model listing and the dataset
  behind the guest retriever are oracles. The `limit=1` and download-sorting
  arguments of `list_models` live inside that oracle.
- The BM25 retriever's ranking is not modelled. `ExtractText` takes the
  ranked documents as input.
- RagTools.GetWeatherInfo: `random.choice` is modelled as an unspecified
  choice among the fixed conditions, with no distribution.
- Text.Lower: only ASCII letters are lower-cased. Python's `str.lower` also
  maps non-ASCII letters.
- ToolDescriptor.Tool.Call: only positional arguments are passed through.
  Keyword arguments are not modelled.
- ToolDescriptor.AnnotationName: only plain class annotations and a missing
  annotation are modelled. Python's `str()` of other annotation objects is
  not.
- `divide` in `agents/course/llamaindex/tools.py` works on floats and is not
  modelled.
- `get_current_time` in `agents/tools/tools.py` reads the clock and is not
  modelled.
- `opentofu_agent` in `agents/tofumatic/main.py` is never called and is not
  modelled.
- The framework wiring in the course, smolagent and langgraph agents is not
  modelled: agent construction, model clients and prompt modules.
- The `intro-langgraph` tests that exercise functions other than `get_env`
  are not modelled.
