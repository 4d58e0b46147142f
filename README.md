# swarmjs orchestration core in Dafny

swarmjs is a small agent orchestrator. An agent has a name, instructions (a string or a function of the shared context), a list of host functions it may call as tools, and a model name. `Swarm.run` drives the conversation:

1. It asks a completion provider for the next assistant message, sending a system prompt, the history and the tool schemas of the active agent.
2. It appends the reply under the agent's name.
3. If the reply requests tools, it runs them in order, appends one tool message per call, merges the context updates and switches agent when a tool hands off.
4. It repeats until a reply requests no tools, tool execution is disabled, or the turn guard stops it.

`functionToJson` derives a tool schema from a function's source text. `mergeChunk` joins streamed text.

The model covers:

- **Module `Agents`** (agent.dfy): the `Agent` constructor and its `||` defaulting.
- **Module `JsString`** (jsstring.dfy): the JavaScript string built-ins the translator uses (`trim`, `indexOf`, `slice`, `split`).
- **Module `Utils`** (utils.dfy): `functionToJson` and `mergeChunk`.
- **Module `SwarmRequest`** (swarm_request.dfy): the request-building steps of `getChatCompletion`:
  - the system prompt;
  - removing `contextVariables` from the schemas;
  - `sanitizeName`.
- **Module `SwarmTools`** (swarm_tools.dfy): `handleFunctionResult` and `handleToolCalls`.
- **Module `SwarmRun`** (swarm_run.dfy): `run`.
- **Modules `Types` and `Wrappers`** (types.dfy, wrappers.dfy): the records and `Option`/`Result`.

The provider is a script. The reply to the i-th completion request is `replies[i]`. A request beyond the end of the script is a provider failure, which aborts the run. `run` returns its response together with the requests it sent, so the request-building steps are tied to the loop.

`JSON.parse` of the tool arguments is a parameter `parse`. It maps the text to the argument object's entries in `Object.values` order, or to None when the text does not parse. A tool is its name, its source text, its arity and a function from positional arguments to what it returns or throws. `run`'s caller-supplied history and context are immutable values here, so the caller's copies cannot change.

`run`, `handleToolCalls` and functionToJson's `forEach` are methods with loops, each proved equal to a specification function (`RunSpec`, `Batch`, `Translate`). The lemmas then state the properties about those functions.

Behaviours of the code that the model keeps as written:

- `sanitizeName` also replaces upper-case letters, because its class is `[^a-za-z0-9_-]` (src/agents/Swarm.ts:130; `SwarmRequest.SanitizeReplacesUpperCase`).
- The loop guard `history.length - initLen < maxTurns` counts appended messages, not turns, so a run can stop before n iterations. With a positive `maxTurns` n the provider is asked at most n times, whether the run succeeds or aborts (`SwarmRun.RunReadsAtMostN`). A `maxTurns` of 0 means unbounded, and a negative one means no iteration.
- The message for a call naming no registered tool has `name` set to the call id but no `tool_call_id` (src/agents/Swarm.ts:193-197).
- A tool returning `null` makes `'value' in null` throw, so the batch fails (`Error.NullResult`).
- An empty `tool_calls` array counts as a request for tools, because `[]` is truthy. The loop continues with an empty batch.
- When two tools share a name, the later one wins, because the `Map` is built from the list.
- Every call of a batch sees the context as it was before the batch. The merged updates are applied after the batch.

## Model

| member | source | states |
|---|---|---|
| Agents.NewAgent | src/agents/Agent.ts:19-24 | name and instructions stored as given; functions default to [] when omitted; model defaults to gpt-3.5-turbo when omitted or empty; toolChoice defaults to 'auto' when falsy; parallelToolCalls defaults to 1 when omitted or 0; every other value kept |
| Agents.ReconstructIsIdentity | src/agents/Agent.ts:19-24 | rebuilding an agent from its own fields gives the same agent: the defaults are stable |
| Agents.MinimalConfig | src/agents/Agent.ts:21-24 | a configuration with only name and instructions gives the four defaults |
| JsString.Trim | src/utils.ts:29 | the result starts and ends with non-white space, is no longer than the input, and is empty exactly when the input is all white space |
| JsString.TrimPadded | src/utils.ts:53 | trimming white space around a trimmed core gives the core |
| JsString.TrimIdempotent | src/utils.ts:29 | trimming twice is trimming once, so a segment without "=" is its own property name |
| JsString.IndexOf | src/utils.ts:27 | the result is -1 or a position at or after the start where the pattern occurs |
| JsString.IndexOfFirst | src/utils.ts:27 | the pattern occurs nowhere between the start and the result, and nowhere at all when the result is -1 |
| JsString.IndexOfFinds | src/utils.ts:27 | an occurrence with none before it is the one indexOf returns |
| JsString.Split | src/utils.ts:28 | split always yields at least one piece |
| JsString.SplitPiecesFree | src/utils.ts:28 | no piece of a split contains the separator |
| JsString.JoinSplit | src/utils.ts:28 | joining the pieces with the separator gives the original string back |
| JsString.SplitSingle | src/utils.ts:35 | split yields one piece exactly when the separator is absent, and that piece is the whole string |
| Utils.Segments | src/utils.ts:26-29 | one segment per comma-separated piece of the text between the first "(" and the first ")" |
| Utils.FunctionToJson | src/utils.ts:19-61 | a non-function is rejected with an error; a function gets the schema Translate gives for its name and source, named func.name or 'anonymous' when that is empty |
| Utils.CollectParameters | src/utils.ts:31-43 | the forEach loop leaves exactly the properties and the required list that Properties and Required give for the segments |
| Utils.HasDefaultIffEquals | src/utils.ts:35-39 | a segment has a default exactly when it contains "=" |
| Utils.DeclaredIffNamed | src/utils.ts:35-36 | a segment declares a parameter exactly when it is non-empty and does not start with "=" |
| Utils.PropertiesOfSegments | src/utils.ts:34-38 | a name is a property exactly when some segment declares it, and every property has type "string" |
| Utils.RequiredOfSegments | src/utils.ts:35-41 | a name is required exactly when some segment declares it without a default |
| Utils.RequiredAreProperties | src/utils.ts:36-41 | every required name is a property |
| Utils.RequiredInDeclarationOrder | src/utils.ts:34-41 | the required names of a concatenation of segments are those of the first part followed by those of the second |
| Utils.EmptyParameterList | src/utils.ts:26-38 | a parameter text of only white space, `()` included, gives no properties and no required names |
| Utils.NoDocComment | src/utils.ts:49-53 | a source without "/**" has the empty description |
| Utils.UnclosedDocComment | src/utils.ts:49-53 | a first "/**" never followed by "*/" gives the empty description |
| Utils.DocComment | src/utils.ts:49-53 | the description is the trimmed text between the first "/**" and the first "*/" after it |
| Utils.MergeChunk | src/utils.ts:68-70 | the result ends with chunk; a trailing newline of current is the only thing dropped; without one the result is current + chunk |
| Utils.MergeChunkRemovesOneNewline | src/utils.ts:69 | of two trailing newlines only one is removed |
| SwarmRequest.SanitizeName | src/agents/Swarm.ts:129-131 | the length is kept; every output character is in [a-z0-9_-]; kept characters stay in place and every other one becomes "_" |
| SwarmRequest.SanitizeNameIdempotent | src/agents/Swarm.ts:129-131 | sanitizing twice is sanitizing once |
| SwarmRequest.SanitizeReplacesUpperCase | src/agents/Swarm.ts:130 | an upper-case letter is replaced by "_" |
| SwarmRequest.SanitizeMessage | src/agents/Swarm.ts:134-139 | a message without a name (or with an empty one) is unchanged; otherwise only its name is sanitized |
| SwarmRequest.SanitizeAll | src/agents/Swarm.ts:134-139 | one sanitized message per message, in order |
| SwarmRequest.RemoveAll | src/agents/Swarm.ts:122-124 | the filtered list lacks the name and keeps exactly the other names |
| SwarmRequest.RemoveAllAppend | src/agents/Swarm.ts:122-124 | filtering distributes over concatenation, so the other names keep their relative order |
| SwarmRequest.RemoveAllAbsent | src/agents/Swarm.ts:121-124 | a list without the name is left unchanged |
| SwarmRequest.StripContext | src/agents/Swarm.ts:117-127 | contextVariables is in neither properties nor required afterwards; every other property is kept with its type; required is the filtered list; name and description unchanged |
| SwarmRequest.BuildRequest | src/agents/Swarm.ts:107-146 | the messages are the system prompt followed by the sanitized history; the model is the non-empty override or the agent's model; no tools field exactly when the agent has no functions, otherwise the stripped schemas |
| SwarmRequest.ContextNeverAdvertised | src/agents/Swarm.ts:116-127 | no schema sent to the provider mentions contextVariables |
| SwarmRequest.SentNamesSanitised | src/agents/Swarm.ts:133-143 | every name sent to the provider consists of characters in [a-z0-9_-] |
| SwarmTools.HandoffMarkerNamesAgent | src/agents/Swarm.ts:158 | the handoff text is `{"assistant":"` + name + `"}` |
| SwarmTools.HandoffMarkerInjective | src/agents/Swarm.ts:158 | different agent names give different handoff texts |
| SwarmTools.HandleFunctionResult | src/agents/Swarm.ts:155-174 | an Agent gives the handoff text with that agent; an object with a value field passes through; null raises; any other value gives its string form with no agent and no context, or raises when that conversion throws |
| SwarmTools.Lookup | src/agents/Swarm.ts:182 | none exactly when no tool has the name; otherwise the last tool with that name |
| SwarmTools.PrepareArguments | src/agents/Swarm.ts:205-209 | one argument per parsed entry, in order; only the contextVariables entry of a tool with parameters is replaced by the context; nothing is added |
| SwarmTools.ExecuteCall | src/agents/Swarm.ts:190-225 | an unknown tool gives the not-found message with no updates and no agent; a found tool fails exactly when its invocation fails, else gives the tool message with the result's value, its agent and its context updates |
| SwarmTools.RunCall | src/agents/Swarm.ts:190-217 | one iteration of the batch loop computes ExecuteCall |
| SwarmTools.FailurePersists | src/agents/Swarm.ts:189-226 | once a prefix of the batch fails, the batch fails with that error |
| SwarmTools.HandleToolCalls | src/agents/Swarm.ts:176-229 | the loop computes Batch: the outcomes of the calls in order combined into the partial response, or the first error |
| SwarmTools.OutcomesPerCall | src/agents/Swarm.ts:189-217 | the batch succeeds exactly when every call does, with one outcome per call in request order |
| SwarmTools.FirstErrorWins | src/agents/Swarm.ts:189-226 | a failing batch reports the error of its first failing call |
| SwarmTools.CombineMessages | src/agents/Swarm.ts:212-217 | one message per outcome, in order |
| SwarmTools.CombineContext | src/agents/Swarm.ts:219-222 | the merged context holds exactly the keys some call updated, each with the value of the last call that updated it |
| SwarmTools.CombineAgent | src/agents/Swarm.ts:223-225 | the batch agent is null exactly when no call handed off, and otherwise that of the last call that did |
| SwarmTools.BatchMessages | src/agents/Swarm.ts:189-217 | exactly one tool message per call, in order; an unknown tool gets the not-found message; a found one gets its result's value with name and tool_call_id equal to the call id |
| SwarmTools.NotFoundChangesNothing | src/agents/Swarm.ts:191-198 | a call naming an unknown tool contributes no context update and no agent |
| SwarmTools.SingleCallBatch | src/agents/Swarm.ts:189-226 | a batch of one call is that call's outcome |
| SwarmRun.TakeTurn | src/agents/Swarm.ts:48-89 | one iteration appends the reply under the active agent's name and records the request; it stops exactly when the reply requests no tools or tools are disabled; otherwise it fails with the batch, or appends the batch's messages, merges its context and switches to its agent if any |
| SwarmRun.Loop | src/agents/Swarm.ts:48-90 | the history and the requests only grow, and at least one message is appended per request |
| SwarmRun.Run | src/agents/Swarm.ts:28-97 | the while loop computes RunSpec |
| SwarmRun.RunTranscript | src/agents/Swarm.ts:39-41 | the caller's history followed by the returned messages is the final history, and there are no more requests than returned messages |
| SwarmRun.RunFirstTurn | src/agents/Swarm.ts:48-67 | the first request is built for the caller's agent, history and context, and the first returned message is the first reply named after that agent |
| SwarmRun.RunStopsAfterFirstReply | src/agents/Swarm.ts:69-72 | a reply without tool calls, or any reply with executeTools false, ends the run with that reply alone, the caller's agent and the caller's context |
| SwarmRun.LoopReadsAtMostN | src/agents/Swarm.ts:42-67 | with maxTurns n > 0 the loop's outcome, success or failure, is the same when every reply after the n-th is dropped |
| SwarmRun.RunReadsAtMostN | src/agents/Swarm.ts:42-67 | with maxTurns n > 0 the outcome of run, success or failure, depends on the first n replies only |
| SwarmRun.LoopTurnBound | src/agents/Swarm.ts:42-48 | with maxTurns n > 0 the loop makes at most n requests |
| SwarmRun.RunTurnBound | src/agents/Swarm.ts:42-67 | for a run that returns, with maxTurns n > 0 at most n requests were sent; with n < 0 nothing is asked and nothing returned |
| SwarmRun.LoopZeroIsUnbounded | src/agents/Swarm.ts:42 | the loop with maxTurns 0 is the loop without maxTurns |
| SwarmRun.RunZeroIsUnbounded | src/agents/Swarm.ts:42 | a run with maxTurns 0 is a run without maxTurns |
| SwarmRun.RunEndsAfterFirstTurn | src/agents/Swarm.ts:48-93 | a first iteration that continues into a state the guard rejects ends the run with what it appended |
| SwarmRun.HandoffTurn | src/agents/Swarm.ts:74-89 | a single tool call that returns an agent makes that agent active, leaves the context unchanged and appends the reply and the handoff message |
| SwarmRun.HandoffEndsRun | src/agents/Swarm.ts:48-93 | with maxTurns 1 a handoff turn is the whole run |
| SwarmRun.RunHandoff | src/agents/Swarm.ts:85-93 | with maxTurns 1, a handoff returns the reply and the handoff message with the new agent as the final agent |
| JsString.IsWhitespace | src/utils.ts:29 | definition: the WhiteSpace and LineTerminator characters that `trim` removes |
| JsString.SpaceEnd | src/utils.ts:29 | the end of the white space that starts at i: all of it white space, followed by a non-white character or the end |
| JsString.SpaceStart | src/utils.ts:29 | the start of the white space that ends at j: all of it white space, preceded by a non-white character or lo |
| JsString.ClampIndex | src/utils.ts:27 | how `slice` reads an index: negative counts from the end, the result is clamped to the string |
| JsString.Slice | src/utils.ts:27 | definition: `slice(start, end)` is the text between the clamped indices, or "" when they cross |
| JsString.Join | src/utils.ts:28 | definition: the pieces joined with the separator, the partner of Split in JoinSplit |
| Utils.ParameterText | src/utils.ts:26-27 | definition: the slice from one after the first "(" to the first ")", where a missing ")" gives -1 and so one before the end |
| Utils.ReadSegment | src/utils.ts:35-37 | definition: the trimmed first piece of `split('=')`, whether it is non-empty, and whether a second piece exists |
| Utils.ReadAll | src/utils.ts:34-35 | one read segment per segment, in order |
| Utils.Params | src/utils.ts:26-35 | definition: the read segments of a source |
| Utils.Properties | src/utils.ts:34-38 | definition: the `parameters` record after the forEach, each declared name set to "string" in visiting order |
| Utils.Required | src/utils.ts:34-41 | definition: the `required` array after the forEach, the declared names without a default pushed in visiting order |
| Utils.Description | src/utils.ts:49-53 | definition: the trimmed text from the first "/**" to the first "*/" after it, or "" (pinned by DocComment, NoDocComment, UnclosedDocComment) |
| Utils.Translate | src/utils.ts:45-60 | definition: the schema of a function: name or 'anonymous', description, properties and required |
| SwarmRequest.SystemPrompt | src/agents/Swarm.ts:107-110 | definition: the instructions string, or the instructions function applied to the current context |
| SwarmRequest.SystemMessage | src/agents/Swarm.ts:112 | definition: the system message with the prompt as content |
| SwarmRequest.ToolSchemas | src/agents/Swarm.ts:116-127 | definition: functionToJson of every tool of the agent, stripped of contextVariables, in order |
| SwarmTools.HandoffMarker | src/agents/Swarm.ts:158 | definition: the text `{"assistant":"<name>"}` (pinned by HandoffMarkerNamesAgent) |
| SwarmTools.Invoke | src/agents/Swarm.ts:201-210 | definition: parse the arguments (failing when they do not parse), call the tool on the prepared positional arguments (failing when it throws), normalise the result |
| SwarmTools.NotFoundMessage | src/agents/Swarm.ts:193-197 | definition: role tool, content `Error: Tool <name> not found.`, name the call id, no tool_call_id |
| SwarmTools.ToolMessage | src/agents/Swarm.ts:212-217 | definition: role tool, the result's value as content, name and tool_call_id both the call id |
| SwarmTools.Outcomes | src/agents/Swarm.ts:189-226 | definition: the calls' outcomes in order, or the first error (characterised by OutcomesPerCall and FirstErrorWins) |
| SwarmTools.Absorb | src/agents/Swarm.ts:212-225 | definition: one outcome folded into the partial response: message appended, updates merged over, agent replaced when present |
| SwarmTools.Combine | src/agents/Swarm.ts:183-226 | definition: the outcomes folded into the empty partial response (characterised by CombineMessages, CombineContext, CombineAgent) |
| SwarmTools.Batch | src/agents/Swarm.ts:176-229 | definition: the partial response of a batch, or its first error |
| SwarmRun.Unbounded | src/agents/Swarm.ts:42 | definition: `maxTurns || Infinity` has no bound exactly when maxTurns is missing or 0 |
| SwarmRun.WithinTurns | src/agents/Swarm.ts:48 | definition: the guard compares the number of appended messages, not turns, with maxTurns |
| SwarmRun.ExecutesTools | src/agents/Swarm.ts:44 | definition: tools run unless executeTools is exactly false |
| SwarmRun.RequestsTools | src/agents/Swarm.ts:69 | definition: a reply requests tools when it has a tool_calls array, even an empty one, or a function_call |
| SwarmRun.RequestedCalls | src/agents/Swarm.ts:74-76 | definition: the tool_calls, else the function_call as one call without an id, else none |
| SwarmRun.Attributed | src/agents/Swarm.ts:65 | definition: the reply with its name set to the active agent's name |
| SwarmRun.InitialState | src/agents/Swarm.ts:38-41 | definition: the caller's history, agent and context (the empty record when missing), no requests yet |
| SwarmRun.RunSpec | src/agents/Swarm.ts:92-96 | definition: the messages appended after the caller's history, the final agent and the final context, or the error that aborted the run |

Rows marked "definition" name functions without a contract of their own; the properties proved about them are in the rows that cite them.

## Left out

- The OpenAI and Anthropic clients and their `create` calls are network I/O. A scripted sequence of replies stands in for them; the script does not depend on the request, which is returned instead.
- `stream`, `debug`, `debugPrint` and `console.log` are left out. They only log, and streamed output is never interpreted.
- `async`/`await` are left out: the logic is sequential.
- `JSON.parse` of the tool arguments is the parameter `parse`. The `JSON.stringify` of the handoff marker is string concatenation, assuming agent names need no escaping.
- `Object.values` orders integer-like keys first. The parser result is taken as already in that order.
- Arguments that parse to something other than an object are not modelled: `parse` only yields key/value entries.
- A tool that mutates the shared context object in place is not modelled. A tool is a function of its arguments, and only returned updates reach the context.
- SwarmRequest.SystemPrompt: the instructions function is modelled as total and pure. The source calls it on the live context object (src/agents/Swarm.ts:107-110), so a throw there, which would abort run, and changes it makes to the context in place are not captured.
- A thrown exception is a `Threw` outcome of the tool, and it aborts the run with `ToolThrew`. JavaScript would propagate it out of `run`.
- Numbers are unbounded integers; floating point is not modelled.
- Dafny characters are Unicode scalar values, while JavaScript strings count UTF-16 code units. The two agree on the Basic Multilingual Plane.
- A reply whose `content` is null is modelled as an empty string.
- The constant parts of a schema (`type: 'function'`, `parameters.type: 'object'`, the `{type: 'string'}` records) are left implicit. `properties` maps each name to its type string.
- SwarmRequest.StripContext: the source deletes from the schema in place and reassigns `required`; the model computes the stripped schema as a new value, so aliasing of the schema objects is not captured.
- src/examples/airline/agent.ts and src/examples/airline/tools.ts are demo configuration and stubs. src/types.ts only declares types, which are the datatypes of module Types.
- JsString.IndexOf: its contract states only where a found occurrence is. That it is the first occurrence is the separate lemma IndexOfFirst.
- JsString.Split: its contract states only that there is at least one piece. The content of the pieces is in SplitPiecesFree, JoinSplit and SplitSingle.
