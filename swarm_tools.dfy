/** Tool execution in src/agents/Swarm.ts: handleFunctionResult, which
    normalises whatever a tool returned into a Result, and handleToolCalls,
    which runs one batch of tool calls in request order. */
module SwarmTools {
  import opened Wrappers
  import opened Types
  import opened SwarmRequest

  /** `JSON.stringify({ assistant: name })` for a name that needs no escaping:
      the content of the tool message that announces a handoff. */
  function HandoffMarker(name: string): string {
    "{\"assistant\":\"" + name + "\"}"
  }

  /** The marker names its agent: the name sits between a fixed prefix of 14
      characters and a fixed suffix of 2, so distinct names give distinct
      markers. */
  lemma HandoffMarkerNamesAgent(name: string)
    ensures var m := HandoffMarker(name); |m| == |name| + 16 && m[14..|m| - 2] == name
  {
  }

  lemma HandoffMarkerInjective(a: string, b: string)
    requires HandoffMarker(a) == HandoffMarker(b)
    ensures a == b
  {
    HandoffMarkerNamesAgent(a);
    HandoffMarkerNamesAgent(b);
  }

  /** handleFunctionResult: an agent becomes a handoff, a value with a `value`
      field passes through, null fails at the `in` test, and anything else is
      converted with String(), which may itself throw. */
  function HandleFunctionResult(raw: RawResult): (r: Result<ToolResult, Error>)
    ensures raw.AgentValue? ==> r == Success(ToolResult(HandoffMarker(raw.agent.name), Some(raw.agent), None))
    ensures raw.ResultValue? ==> r == Success(raw.result)
    ensures raw.OtherValue? && raw.text.Some? ==> r == Success(ToolResult(raw.text.value, None, None))
    ensures raw.NullValue? ==> r == Failure(NullResult)
    ensures raw.OtherValue? && raw.text.None? ==> r == Failure(NotStringifiable)
  {
    match raw
    case AgentValue(agent) => Success(ToolResult(HandoffMarker(agent.name), Some(agent), None))
    case ResultValue(result) => Success(result)
    case NullValue => Failure(NullResult)
    case OtherValue(text) =>
      match text
      case Some(t) => Success(ToolResult(t, None, None))
      case None => Failure(NotStringifiable)
  }

  /** `functionMap.get(name)`: the Map is built from the tool list, so of two
      tools with one name the later one wins. */
  function Lookup(tools: seq<Tool>, name: string): (r: Option<Tool>)
    ensures r.None? <==> forall i :: 0 <= i < |tools| ==> tools[i].name != name
    ensures r.Some? ==> exists i :: 0 <= i < |tools| && tools[i] == r.value && tools[i].name == name &&
                          forall j :: i < j < |tools| ==> tools[j].name != name
    decreases |tools|
  {
    if tools == [] then None
    else if tools[|tools| - 1].name == name then Some(tools[|tools| - 1])
    else
      var init := tools[..|tools| - 1];
      assert forall i :: 0 <= i < |init| ==> init[i] == tools[i];
      Lookup(init, name)
  }

  /** The parsed arguments carry the key. */
  predicate HasKey(args: seq<(string, Value)>, key: string) {
    exists i :: 0 <= i < |args| && args[i].0 == key
  }

  /** The positional arguments of the call: `Object.values(args)` after the
      context has been written over the model's `contextVariables` entry,
      which happens only when the tool declares a parameter and the model
      supplied that key. No argument is ever added. */
  function PrepareArguments(tool: Tool, args: seq<(string, Value)>, context: Context): (r: seq<Value>)
    ensures |r| == |args|
    ensures forall i :: 0 <= i < |args| && args[i].0 != ContextParameter ==> r[i] == args[i].1
    ensures forall i :: 0 <= i < |args| && args[i].0 == ContextParameter ==>
              r[i] == (if tool.arity > 0 then Object(context) else args[i].1)
  {
    var inject := tool.arity > 0 && HasKey(args, ContextParameter);
    seq(|args|, i requires 0 <= i < |args| =>
      if inject && args[i].0 == ContextParameter then Object(context) else args[i].1)
  }

  /** Calling a found tool: parse the arguments (which may fail), call the
      tool (which may throw) and normalise what it returned. */
  function Invoke(tool: Tool, call: ToolCall, context: Context, parse: string -> Option<seq<(string, Value)>>): Result<ToolResult, Error> {
    match parse(call.call.arguments)
    case None => Failure(ArgumentsNotJson(call.call.arguments))
    case Some(args) =>
      match tool.invoke(PrepareArguments(tool, args, context))
      case Threw(message) => Failure(ToolThrew(message))
      case Returned(raw) => HandleFunctionResult(raw)
  }

  /** The message for a call naming no registered tool; it has no
      tool_call_id. */
  function NotFoundMessage(call: ToolCall): Message {
    Message("tool", "Error: Tool " + call.call.name + " not found.", call.id, None, None, None)
  }

  /** The message for a call that ran: name and tool_call_id are both the
      call's id. */
  function ToolMessage(content: string, id: Option<string>): Message {
    Message("tool", content, id, id, None, None)
  }

  /** What one call adds to the batch. */
  datatype CallOutcome = CallOutcome(message: Message, agent: Option<Agent>, updates: Context)

  /** One iteration of the loop of handleToolCalls. */
  function ExecuteCall(call: ToolCall, tools: seq<Tool>, context: Context, parse: string -> Option<seq<(string, Value)>>): (r: Result<CallOutcome, Error>)
    ensures Lookup(tools, call.call.name).None? ==> r == Success(CallOutcome(NotFoundMessage(call), None, map[]))
    ensures Lookup(tools, call.call.name).Some? ==>
      var invoked := Invoke(Lookup(tools, call.call.name).value, call, context, parse);
      && (r.Success? <==> invoked.Success?)
      && (r.Failure? ==> r.error == invoked.error)
      && (r.Success? ==> r.value.message == ToolMessage(invoked.value.value, call.id)
                         && r.value.agent == invoked.value.agent
                         && r.value.updates == invoked.value.contextVariables.GetOr(map[]))
  {
    match Lookup(tools, call.call.name)
    case None => Success(CallOutcome(NotFoundMessage(call), None, map[]))
    case Some(tool) =>
      match Invoke(tool, call, context, parse)
      case Failure(e) => Failure(e)
      case Success(result) =>
        Success(CallOutcome(ToolMessage(result.value, call.id), result.agent, result.contextVariables.GetOr(map[])))
  }

  /** The outcomes of the calls in order, or the error of the first call that
      fails. */
  function Outcomes(calls: seq<ToolCall>, tools: seq<Tool>, context: Context, parse: string -> Option<seq<(string, Value)>>): Result<seq<CallOutcome>, Error>
    decreases |calls|
  {
    if calls == [] then Success([])
    else
      match Outcomes(calls[..|calls| - 1], tools, context, parse)
      case Failure(e) => Failure(e)
      case Success(done) =>
        match ExecuteCall(calls[|calls| - 1], tools, context, parse)
        case Failure(e) => Failure(e)
        case Success(o) => Success(done + [o])
  }

  /** One call's outcome folded into the partial response: its message
      appended, its context updates merged over the earlier ones, its agent
      (if any) replacing the earlier one. */
  function Absorb(partial: Response, o: CallOutcome): Response {
    Response(
      partial.messages + [o.message],
      if o.agent.Some? then o.agent else partial.agent,
      partial.contextVariables + o.updates)
  }

  function Combine(outcomes: seq<CallOutcome>): Response
    decreases |outcomes|
  {
    if outcomes == [] then Response([], None, map[])
    else Absorb(Combine(outcomes[..|outcomes| - 1]), outcomes[|outcomes| - 1])
  }

  /** The partial response of a batch. */
  function Batch(calls: seq<ToolCall>, tools: seq<Tool>, context: Context, parse: string -> Option<seq<(string, Value)>>): Result<Response, Error> {
    match Outcomes(calls, tools, context, parse)
    case Failure(e) => Failure(e)
    case Success(outcomes) => Success(Combine(outcomes))
  }

  /** Once a prefix of the batch has failed, the batch fails with that
      error. */
  lemma {:induction false} FailurePersists(calls: seq<ToolCall>, n: nat, tools: seq<Tool>, context: Context, parse: string -> Option<seq<(string, Value)>>)
    requires n <= |calls|
    requires Outcomes(calls[..n], tools, context, parse).Failure?
    ensures Outcomes(calls, tools, context, parse) == Outcomes(calls[..n], tools, context, parse)
    decreases |calls| - n
  {
    if n < |calls| {
      assert calls[..n + 1][..n] == calls[..n];
      FailurePersists(calls, n + 1, tools, context, parse);
    } else {
      assert calls[..n] == calls;
    }
  }

  /** handleToolCalls: a sequential pass over the calls. Every call sees the
      context as it was before the batch; the merged updates and the handoff
      agent are collected in the partial response, and the first exception
      aborts the batch. */
  method HandleToolCalls(calls: seq<ToolCall>, functions: seq<Tool>, context: Context, parse: string -> Option<seq<(string, Value)>>)
    returns (r: Result<Response, Error>)
    ensures r == Batch(calls, functions, context, parse)
  {
    var partial := Response([], None, map[]);
    ghost var done: seq<CallOutcome> := [];
    for i := 0 to |calls|
      invariant Outcomes(calls[..i], functions, context, parse) == Success(done)
      invariant partial == Combine(done)
    {
      var outcome := RunCall(calls[i], functions, context, parse);
      OutcomesSnoc(calls, i, functions, context, parse, done);
      if outcome.Failure? {
        FailurePersists(calls, i + 1, functions, context, parse);
        return Failure(outcome.error);
      }
      var o := outcome.value;
      partial := partial.(messages := partial.messages + [o.message]);
      partial := partial.(contextVariables := partial.contextVariables + o.updates);
      if o.agent.Some? {
        partial := partial.(agent := o.agent);
      }
      CombineSnoc(done, o);
      done := done + [o];
    }
    assert calls[..|calls|] == calls;
    return Success(partial);
  }

  /** The body of the loop of handleToolCalls for one call: report a missing
      tool, else parse the arguments, call the tool and normalise what it
      returned, stopping at the first thing that throws. */
  method RunCall(call: ToolCall, functions: seq<Tool>, context: Context, parse: string -> Option<seq<(string, Value)>>)
    returns (r: Result<CallOutcome, Error>)
    ensures r == ExecuteCall(call, functions, context, parse)
  {
    var found := Lookup(functions, call.call.name);
    if found.None? {
      return Success(CallOutcome(NotFoundMessage(call), None, map[]));
    }
    var func := found.value;
    var parsed := parse(call.call.arguments);
    if parsed.None? {
      return Failure(ArgumentsNotJson(call.call.arguments));
    }
    var rawResult := func.invoke(PrepareArguments(func, parsed.value, context));
    if rawResult.Threw? {
      return Failure(ToolThrew(rawResult.message));
    }
    var handled := HandleFunctionResult(rawResult.result);
    if handled.Failure? {
      return Failure(handled.error);
    }
    var result := handled.value;
    return Success(CallOutcome(ToolMessage(result.value, call.id), result.agent, result.contextVariables.GetOr(map[])));
  }

  // The outcomes of one more call.
  lemma OutcomesSnoc(calls: seq<ToolCall>, i: nat, tools: seq<Tool>, context: Context,
                     parse: string -> Option<seq<(string, Value)>>, done: seq<CallOutcome>)
    requires i < |calls| && Outcomes(calls[..i], tools, context, parse) == Success(done)
    ensures var step := ExecuteCall(calls[i], tools, context, parse);
      Outcomes(calls[..i + 1], tools, context, parse)
        == if step.Failure? then Failure(step.error) else Success(done + [step.value])
  {
    assert calls[..i + 1][..i] == calls[..i];
  }

  // Combining one more outcome absorbs it.
  lemma CombineSnoc(done: seq<CallOutcome>, o: CallOutcome)
    ensures Combine(done + [o]) == Absorb(Combine(done), o)
  {
    assert (done + [o])[..|done|] == done;
  }

  /** A batch succeeds exactly when every call does; its outcomes are the
      calls' outcomes, one per call, in request order. */
  lemma {:induction false} OutcomesPerCall(calls: seq<ToolCall>, tools: seq<Tool>, context: Context, parse: string -> Option<seq<(string, Value)>>)
    ensures Outcomes(calls, tools, context, parse).Success? <==>
            forall i :: 0 <= i < |calls| ==> ExecuteCall(calls[i], tools, context, parse).Success?
    ensures Outcomes(calls, tools, context, parse).Success? ==>
      var outcomes := Outcomes(calls, tools, context, parse).value;
      |outcomes| == |calls| &&
      forall i :: 0 <= i < |calls| ==> ExecuteCall(calls[i], tools, context, parse) == Success(outcomes[i])
    decreases |calls|
  {
    if calls != [] {
      var n := |calls| - 1;
      var init := calls[..n];
      OutcomesPerCall(init, tools, context, parse);
      assert forall i :: 0 <= i < n ==> init[i] == calls[i];
    }
  }

  /** A failed batch reports the error of its first failing call. */
  lemma {:induction false} FirstErrorWins(calls: seq<ToolCall>, tools: seq<Tool>, context: Context, parse: string -> Option<seq<(string, Value)>>, k: nat)
    requires k < |calls| && ExecuteCall(calls[k], tools, context, parse).Failure?
    requires forall j :: 0 <= j < k ==> ExecuteCall(calls[j], tools, context, parse).Success?
    ensures Outcomes(calls, tools, context, parse) == Failure(ExecuteCall(calls[k], tools, context, parse).error)
  {
    var prefix := calls[..k];
    assert forall j :: 0 <= j < k ==> prefix[j] == calls[j];
    OutcomesPerCall(prefix, tools, context, parse);
    assert calls[..k + 1][..k] == prefix;
    assert Outcomes(calls[..k + 1], tools, context, parse) == Failure(ExecuteCall(calls[k], tools, context, parse).error);
    FailurePersists(calls, k + 1, tools, context, parse);
  }

  /** One tool message per outcome, in order. */
  lemma {:induction false} CombineMessages(outcomes: seq<CallOutcome>)
    ensures |Combine(outcomes).messages| == |outcomes|
    ensures forall i :: 0 <= i < |outcomes| ==> Combine(outcomes).messages[i] == outcomes[i].message
    decreases |outcomes|
  {
    if outcomes != [] {
      CombineMessages(outcomes[..|outcomes| - 1]);
    }
  }

  /** Outcome i is the last one in the batch to update key k. */
  predicate LastUpdate(outcomes: seq<CallOutcome>, k: string, i: int) {
    0 <= i < |outcomes| && k in outcomes[i].updates &&
    forall j :: i < j < |outcomes| ==> k !in outcomes[j].updates
  }

  /** The merged context holds exactly the keys some call updated, each with
      the value of the last call that updated it. */
  lemma {:induction false} CombineContext(outcomes: seq<CallOutcome>)
    ensures forall k :: k in Combine(outcomes).contextVariables <==>
      exists i :: 0 <= i < |outcomes| && k in outcomes[i].updates
    ensures forall k, i :: LastUpdate(outcomes, k, i) ==>
      Combine(outcomes).contextVariables[k] == outcomes[i].updates[k]
    decreases |outcomes|
  {
    if outcomes != [] {
      var n := |outcomes| - 1;
      var init := outcomes[..n];
      CombineContext(init);
      assert forall i :: 0 <= i < n ==> init[i] == outcomes[i];
      forall k, i | LastUpdate(outcomes, k, i)
        ensures Combine(outcomes).contextVariables[k] == outcomes[i].updates[k]
      {
        if i < n {
          assert LastUpdate(init, k, i);
        }
      }
      forall k | k in Combine(outcomes).contextVariables
        ensures exists i :: 0 <= i < |outcomes| && k in outcomes[i].updates
      {
        if k !in outcomes[n].updates {
          var i :| 0 <= i < n && k in init[i].updates;
          assert k in outcomes[i].updates;
        }
      }
    }
  }

  /** Outcome i is the last one in the batch to hand off. */
  predicate LastHandoff(outcomes: seq<CallOutcome>, i: int) {
    0 <= i < |outcomes| && outcomes[i].agent.Some? &&
    forall j :: i < j < |outcomes| ==> outcomes[j].agent.None?
  }

  /** The batch's agent is that of the last call that handed off, and null
      when none did. */
  lemma {:induction false} CombineAgent(outcomes: seq<CallOutcome>)
    ensures Combine(outcomes).agent.None? <==> forall i :: 0 <= i < |outcomes| ==> outcomes[i].agent.None?
    ensures forall i :: LastHandoff(outcomes, i) ==> Combine(outcomes).agent == outcomes[i].agent
    decreases |outcomes|
  {
    if outcomes != [] {
      var n := |outcomes| - 1;
      var init := outcomes[..n];
      CombineAgent(init);
      assert forall i :: 0 <= i < n ==> init[i] == outcomes[i];
      forall i | LastHandoff(outcomes, i) ensures Combine(outcomes).agent == outcomes[i].agent {
        if i < n {
          assert LastHandoff(init, i);
        }
      }
    }
  }

  /** The messages of a successful batch: exactly one per call, in request
      order; a call naming no registered tool gets the not-found message, a
      found one a message whose content is its result's value and whose
      name and tool_call_id are the call's id. */
  lemma BatchMessages(calls: seq<ToolCall>, tools: seq<Tool>, context: Context, parse: string -> Option<seq<(string, Value)>>)
    requires Batch(calls, tools, context, parse).Success?
    ensures var p := Batch(calls, tools, context, parse).value;
      && |p.messages| == |calls|
      && (forall i :: 0 <= i < |calls| && Lookup(tools, calls[i].call.name).None? ==>
            p.messages[i] == NotFoundMessage(calls[i]))
      && (forall i :: 0 <= i < |calls| && Lookup(tools, calls[i].call.name).Some? ==>
            var invoked := Invoke(Lookup(tools, calls[i].call.name).value, calls[i], context, parse);
            invoked.Success? && p.messages[i] == ToolMessage(invoked.value.value, calls[i].id))
  {
    OutcomesPerCall(calls, tools, context, parse);
    CombineMessages(Outcomes(calls, tools, context, parse).value);
  }

  /** A call naming no registered tool contributes neither context updates nor
      a handoff: the batch's context and agent are those of the other calls. */
  lemma NotFoundChangesNothing(calls: seq<ToolCall>, tools: seq<Tool>, context: Context, parse: string -> Option<seq<(string, Value)>>, i: nat)
    requires i < |calls| && Lookup(tools, calls[i].call.name).None?
    requires Outcomes(calls, tools, context, parse).Success?
    ensures var outcomes := Outcomes(calls, tools, context, parse).value;
      |outcomes| == |calls| && outcomes[i].updates == map[] && outcomes[i].agent.None?
  {
    OutcomesPerCall(calls, tools, context, parse);
  }

  /** A batch of one call is that call's outcome. */
  lemma SingleCallBatch(call: ToolCall, tools: seq<Tool>, context: Context, parse: string -> Option<seq<(string, Value)>>, o: CallOutcome)
    requires ExecuteCall(call, tools, context, parse) == Success(o)
    ensures Batch([call], tools, context, parse) == Success(Response([o.message], o.agent, o.updates))
  {
    var calls := [call];
    assert calls[..|calls| - 1] == [];
    assert calls[|calls| - 1] == call;
    assert Outcomes([], tools, context, parse) == Success([]);
    assert Outcomes(calls, tools, context, parse) == Success([] + [o]);
    var os := [o];
    assert os[..|os| - 1] == [] && os[|os| - 1] == o;
    assert [] + [o.message] == [o.message];
    assert map[] + o.updates == o.updates;
    assert Combine(os) == Absorb(Response([], None, map[]), o);
  }
}
