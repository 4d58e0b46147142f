/** The turn loop `run` of src/agents/Swarm.ts. The provider is a script: the
    reply to the i-th completion request is replies[i], and a request beyond
    the end of the script is a provider failure, which aborts the run. The
    requests the loop sends are returned beside the response. */
module SwarmRun {
  import opened Wrappers
  import opened Types
  import opened SwarmRequest
  import opened SwarmTools

  /** The parser standing in for JSON.parse of the tool arguments: the
      argument object's entries in `Object.values` order, or None when the
      text does not parse. */
  type Parser = string -> Option<seq<(string, Value)>>

  /** The options of run that the loop reads. */
  datatype RunConfig = RunConfig(modelOverride: Option<string>, maxTurns: Option<int>, executeTools: Option<bool>)

  /** `config.maxTurns || Infinity`: no bound when maxTurns is missing or 0. */
  predicate Unbounded(maxTurns: Option<int>) {
    maxTurns.None? || maxTurns == Some(0)
  }

  /** The loop guard `history.length - initLen < maxTurns`, on the number of
      messages appended so far. */
  predicate WithinTurns(maxTurns: Option<int>, appended: int) {
    Unbounded(maxTurns) || appended < maxTurns.value
  }

  /** `config.executeTools !== false`. */
  predicate ExecutesTools(config: RunConfig) {
    config.executeTools != Some(false)
  }

  /** `message.function_call || message.tool_calls`; an empty tool_calls array
      counts as a request. */
  predicate RequestsTools(m: Message) {
    m.toolCalls.Some? || m.functionCall.Some?
  }

  /** The calls of a message: its tool_calls, else its function_call as one
      call without an id. */
  function RequestedCalls(m: Message): seq<ToolCall> {
    if m.toolCalls.Some? then m.toolCalls.value
    else if m.functionCall.Some? then [ToolCall(None, m.functionCall.value)]
    else []
  }

  /** `message.name = activeAgent.name`. */
  function Attributed(reply: Message, agent: Agent): Message {
    reply.(name := Some(agent.name))
  }

  /** The loop's variables: history, activeAgent, contextVariables, and the
      requests sent so far (one per iteration). */
  datatype RunState = RunState(history: seq<Message>, agent: Agent, context: Context, requests: seq<Request>)

  /** How an iteration ends: at the `break`, at the bottom of the loop, or by
      an exception. */
  datatype Turn = Stopped(state: RunState) | Continued(state: RunState) | Aborted(error: Error)

  /** One iteration of the loop, given the provider's reply. */
  function TakeTurn(config: RunConfig, parse: Parser, s: RunState, reply: Message): (t: Turn)
    ensures !t.Aborted? ==>
      && t.state.requests == s.requests + [BuildRequest(s.agent, s.history, s.context, config.modelOverride)]
      && |t.state.history| > |s.history|
      && t.state.history[..|s.history| + 1] == s.history + [Attributed(reply, s.agent)]
    ensures t.Stopped? <==> !RequestsTools(reply) || !ExecutesTools(config)
    ensures t.Stopped? ==>
      t.state == RunState(s.history + [Attributed(reply, s.agent)], s.agent, s.context, t.state.requests)
    ensures !t.Stopped? ==>
      var batch := Batch(RequestedCalls(reply), s.agent.functions, s.context, parse);
      && (t.Aborted? <==> batch.Failure?)
      && (t.Continued? ==>
            && t.state.history == s.history + [Attributed(reply, s.agent)] + batch.value.messages
            && t.state.context == s.context + batch.value.contextVariables
            && t.state.agent == batch.value.agent.GetOr(s.agent))
  {
    var request := BuildRequest(s.agent, s.history, s.context, config.modelOverride);
    var message := Attributed(reply, s.agent);
    var history := s.history + [message];
    var requests := s.requests + [request];
    assert history[..|s.history| + 1] == history;
    if !RequestsTools(message) || !ExecutesTools(config) then
      Stopped(RunState(history, s.agent, s.context, requests))
    else
      match Batch(RequestedCalls(message), s.agent.functions, s.context, parse)
      case Failure(e) => Aborted(e)
      case Success(partial) =>
        assert (history + partial.messages)[..|s.history| + 1] == history;
        Continued(RunState(history + partial.messages, partial.agent.GetOr(s.agent),
                           s.context + partial.contextVariables, requests))
  }

  /** The rest of the loop from state s. The history and the requests only
      grow, and every iteration appends at least one message. */
  function Loop(config: RunConfig, parse: Parser, initLen: nat, replies: seq<Message>, s: RunState): (r: Result<RunState, Error>)
    ensures r.Success? ==> s.history <= r.value.history && s.requests <= r.value.requests
    ensures r.Success? ==> |r.value.history| - |s.history| >= |r.value.requests| - |s.requests|
    decreases |replies| - |s.requests|
  {
    if !WithinTurns(config.maxTurns, |s.history| - initLen) then Success(s)
    else if |s.requests| >= |replies| then Failure(ProviderFailed)
    else
      match TakeTurn(config, parse, s, replies[|s.requests|])
      case Aborted(e) => Failure(e)
      case Stopped(next) =>
        assert s.history <= next.history by {
          assert next.history[..|s.history|] == next.history[..|s.history| + 1][..|s.history|];
        }
        Success(next)
      case Continued(next) =>
        assert s.history <= next.history by {
          assert next.history[..|s.history|] == next.history[..|s.history| + 1][..|s.history|];
        }
        Loop(config, parse, initLen, replies, next)
  }

  /** Copies of the caller's history and context: `{ ...config.contextVariables }`
      of a missing context is the empty record. */
  function InitialState(agent: Agent, messages: seq<Message>, contextVariables: Option<Context>): RunState {
    RunState(messages, agent, contextVariables.GetOr(map[]), [])
  }

  /** What run returns, with the requests the provider was sent. */
  datatype RunOutput = RunOutput(response: Response, requests: seq<Request>)

  /** The outcome of run: the messages appended after the caller's history,
      the agent active at the end and the final context. */
  function RunSpec(config: RunConfig, parse: Parser, agent: Agent, messages: seq<Message>,
                   contextVariables: Option<Context>, replies: seq<Message>): Result<RunOutput, Error>
  {
    match Loop(config, parse, |messages|, replies, InitialState(agent, messages, contextVariables))
    case Failure(e) => Failure(e)
    case Success(s) => Success(RunOutput(Response(s.history[|messages|..], Some(s.agent), s.context), s.requests))
  }

  /** run: request a completion for the active agent, append the reply under
      the agent's name, stop if it requests no tools or tools are disabled,
      otherwise run the batch, append its messages, merge its context and
      switch to its agent if it has one. */
  method Run(agent: Agent, messages: seq<Message>, contextVariables: Option<Context>, config: RunConfig,
             parse: Parser, replies: seq<Message>)
    returns (r: Result<RunOutput, Error>)
    ensures r == RunSpec(config, parse, agent, messages, contextVariables, replies)
  {
    var activeAgent := agent;
    var context := contextVariables.GetOr(map[]);
    var history := messages;
    var initLen := |history|;
    var requests: seq<Request> := [];
    ghost var start := InitialState(agent, messages, contextVariables);
    while WithinTurns(config.maxTurns, |history| - initLen)
      invariant initLen <= |history|
      invariant Loop(config, parse, initLen, replies, RunState(history, activeAgent, context, requests))
             == Loop(config, parse, initLen, replies, start)
      decreases |replies| - |requests|
    {
      var request := BuildRequest(activeAgent, history, context, config.modelOverride);
      if |requests| >= |replies| {
        return Failure(ProviderFailed);
      }
      var message := Attributed(replies[|requests|], activeAgent);
      requests := requests + [request];
      history := history + [message];
      if !RequestsTools(message) || !ExecutesTools(config) {
        return Success(RunOutput(Response(history[initLen..], Some(activeAgent), context), requests));
      }
      var partial := HandleToolCalls(RequestedCalls(message), activeAgent.functions, context, parse);
      if partial.Failure? {
        return Failure(partial.error);
      }
      history := history + partial.value.messages;
      context := context + partial.value.contextVariables;
      if partial.value.agent.Some? {
        activeAgent := partial.value.agent.value;
      }
    }
    return Success(RunOutput(Response(history[initLen..], Some(activeAgent), context), requests));
  }

  /** run returns exactly what it appended: the caller's history followed by
      the returned messages is the final history. Every iteration appended at
      least one message, so there are at least as many messages as requests. */
  lemma RunTranscript(config: RunConfig, parse: Parser, agent: Agent, messages: seq<Message>,
                      contextVariables: Option<Context>, replies: seq<Message>)
    requires RunSpec(config, parse, agent, messages, contextVariables, replies).Success?
    ensures var out := RunSpec(config, parse, agent, messages, contextVariables, replies).value;
      var final := Loop(config, parse, |messages|, replies, InitialState(agent, messages, contextVariables)).value;
      && final.history == messages + out.response.messages
      && |out.requests| <= |out.response.messages|
  {
  }

  /** The first iteration: when the guard lets it run, the first request is
      built for the caller's agent from the caller's history and context, and
      the first returned message is the first reply, named after that
      agent. */
  lemma RunFirstTurn(config: RunConfig, parse: Parser, agent: Agent, messages: seq<Message>,
                     contextVariables: Option<Context>, replies: seq<Message>)
    requires WithinTurns(config.maxTurns, 0)
    requires RunSpec(config, parse, agent, messages, contextVariables, replies).Success?
    ensures var out := RunSpec(config, parse, agent, messages, contextVariables, replies).value;
      && |replies| > 0
      && |out.requests| >= 1
      && out.requests[0] == BuildRequest(agent, messages, contextVariables.GetOr(map[]), config.modelOverride)
      && |out.response.messages| >= 1
      && out.response.messages[0] == Attributed(replies[0], agent)
  {
    var s := InitialState(agent, messages, contextVariables);
    var t := TakeTurn(config, parse, s, replies[0]);
    var final := Loop(config, parse, |messages|, replies, s).value;
    assert final.history == messages + RunSpec(config, parse, agent, messages, contextVariables, replies).value.response.messages;
    assert t.state.history[..|messages| + 1] == messages + [Attributed(replies[0], agent)];
    assert t.state.history <= final.history;
    assert final.history[|messages|] == t.state.history[|messages|];
    assert t.state.requests <= final.requests;
  }

  /** A reply that requests no tools, or any reply when tool execution is
      disabled, ends the run after one iteration: the only message returned
      is that reply, and agent and context are those the caller gave. */
  lemma RunStopsAfterFirstReply(config: RunConfig, parse: Parser, agent: Agent, messages: seq<Message>,
                                contextVariables: Option<Context>, replies: seq<Message>)
    requires WithinTurns(config.maxTurns, 0) && |replies| > 0
    requires !RequestsTools(replies[0]) || !ExecutesTools(config)
    ensures RunSpec(config, parse, agent, messages, contextVariables, replies) ==
      Success(RunOutput(
        Response([Attributed(replies[0], agent)], Some(agent), contextVariables.GetOr(map[])),
        [BuildRequest(agent, messages, contextVariables.GetOr(map[]), config.modelOverride)]))
  {
    var s := InitialState(agent, messages, contextVariables);
    var t := TakeTurn(config, parse, s, replies[0]);
    assert t.Stopped?;
    var request := BuildRequest(agent, messages, contextVariables.GetOr(map[]), config.modelOverride);
    assert t.state == RunState(messages + [Attributed(replies[0], agent)], agent, contextVariables.GetOr(map[]), [request]);
    assert Loop(config, parse, |messages|, replies, s) == Success(t.state);
    assert (messages + [Attributed(replies[0], agent)])[|messages|..] == [Attributed(replies[0], agent)];
  }

  /** The guard counts appended messages and each iteration appends at least
      one, so a positive maxTurns bounds the number of iterations. */
  lemma {:induction false} LoopTurnBound(config: RunConfig, parse: Parser, initLen: nat, replies: seq<Message>, s: RunState, n: int)
    requires config.maxTurns == Some(n) && n > 0
    requires initLen + |s.requests| <= |s.history| && |s.requests| <= n
    requires Loop(config, parse, initLen, replies, s).Success?
    ensures |Loop(config, parse, initLen, replies, s).value.requests| <= n
    decreases |replies| - |s.requests|
  {
    if WithinTurns(config.maxTurns, |s.history| - initLen) && |s.requests| < |replies| {
      var t := TakeTurn(config, parse, s, replies[|s.requests|]);
      if t.Continued? {
        LoopTurnBound(config, parse, initLen, replies, t.state, n);
      }
    }
  }

  /** With maxTurns = n > 0 the provider is asked at most n times; with a
      negative maxTurns it is never asked and nothing is returned. */
  lemma RunTurnBound(config: RunConfig, parse: Parser, agent: Agent, messages: seq<Message>,
                     contextVariables: Option<Context>, replies: seq<Message>, n: int)
    requires config.maxTurns == Some(n)
    requires RunSpec(config, parse, agent, messages, contextVariables, replies).Success?
    ensures var out := RunSpec(config, parse, agent, messages, contextVariables, replies).value;
      && (n > 0 ==> |out.requests| <= n)
      && (n < 0 ==> out == RunOutput(Response([], Some(agent), contextVariables.GetOr(map[])), []))
  {
    if n > 0 {
      LoopTurnBound(config, parse, |messages|, replies, InitialState(agent, messages, contextVariables), n);
    }
  }

  /** With maxTurns = n > 0 the loop never reads past the n-th reply, however
      it ends: dropping the later replies changes nothing, not even for a run
      that a tool or the parser aborts. */
  lemma {:induction false} LoopReadsAtMostN(config: RunConfig, parse: Parser, initLen: nat, replies: seq<Message>, s: RunState, n: int)
    requires config.maxTurns == Some(n) && 0 < n <= |replies|
    requires initLen + |s.requests| <= |s.history| && |s.requests| <= n
    ensures Loop(config, parse, initLen, replies, s) == Loop(config, parse, initLen, replies[..n], s)
    decreases |replies| - |s.requests|
  {
    if WithinTurns(config.maxTurns, |s.history| - initLen) {
      assert |s.requests| < n;
      assert replies[..n][|s.requests|] == replies[|s.requests|];
      var t := TakeTurn(config, parse, s, replies[|s.requests|]);
      if t.Continued? {
        LoopReadsAtMostN(config, parse, initLen, replies, t.state, n);
      }
    }
  }

  /** With maxTurns = n > 0 the outcome of run, success or failure, depends on
      the first n replies only: the provider is asked at most n times. */
  lemma RunReadsAtMostN(config: RunConfig, parse: Parser, agent: Agent, messages: seq<Message>,
                        contextVariables: Option<Context>, replies: seq<Message>, n: int)
    requires config.maxTurns == Some(n) && 0 < n <= |replies|
    ensures RunSpec(config, parse, agent, messages, contextVariables, replies)
         == RunSpec(config, parse, agent, messages, contextVariables, replies[..n])
  {
    LoopReadsAtMostN(config, parse, |messages|, replies, InitialState(agent, messages, contextVariables), n);
  }

  /** A maxTurns of 0 behaves exactly like a missing maxTurns. */
  lemma {:induction false} LoopZeroIsUnbounded(config: RunConfig, parse: Parser, initLen: nat, replies: seq<Message>, s: RunState)
    ensures Loop(config.(maxTurns := Some(0)), parse, initLen, replies, s)
         == Loop(config.(maxTurns := None), parse, initLen, replies, s)
    decreases |replies| - |s.requests|
  {
    var zero, none := config.(maxTurns := Some(0)), config.(maxTurns := None);
    if |s.requests| < |replies| {
      var t := TakeTurn(zero, parse, s, replies[|s.requests|]);
      assert t == TakeTurn(none, parse, s, replies[|s.requests|]);
      if t.Continued? {
        LoopZeroIsUnbounded(config, parse, initLen, replies, t.state);
      }
    }
  }

  lemma RunZeroIsUnbounded(config: RunConfig, parse: Parser, agent: Agent, messages: seq<Message>,
                           contextVariables: Option<Context>, replies: seq<Message>)
    ensures RunSpec(config.(maxTurns := Some(0)), parse, agent, messages, contextVariables, replies)
         == RunSpec(config.(maxTurns := None), parse, agent, messages, contextVariables, replies)
  {
    LoopZeroIsUnbounded(config, parse, |messages|, replies, InitialState(agent, messages, contextVariables));
  }

  /** A run whose first iteration continues into a state the guard rejects
      ends after that iteration, returning what it appended. */
  lemma RunEndsAfterFirstTurn(config: RunConfig, parse: Parser, agent: Agent, messages: seq<Message>,
                              contextVariables: Option<Context>, replies: seq<Message>, next: RunState)
    requires WithinTurns(config.maxTurns, 0) && |replies| > 0
    requires TakeTurn(config, parse, InitialState(agent, messages, contextVariables), replies[0]) == Continued(next)
    requires !WithinTurns(config.maxTurns, |next.history| - |messages|)
    ensures RunSpec(config, parse, agent, messages, contextVariables, replies)
         == Success(RunOutput(Response(next.history[|messages|..], Some(next.agent), next.context), next.requests))
  {
    assert Loop(config, parse, |messages|, replies, next) == Success(next);
  }

  /** The call names a registered tool, its arguments parse, and the tool,
      invoked on them and the context, returns agent b. */
  ghost predicate HandsOff(tools: seq<Tool>, call: ToolCall, context: Context, parse: Parser, b: Agent) {
    && Lookup(tools, call.call.name).Some?
    && parse(call.call.arguments).Some?
    && var tool := Lookup(tools, call.call.name).value;
       tool.invoke(PrepareArguments(tool, parse(call.call.arguments).value, context)) == Returned(AgentValue(b))
  }

  /** The state after an iteration whose single call hands off to b. */
  function HandoffState(config: RunConfig, s: RunState, reply: Message, call: ToolCall, b: Agent): RunState {
    RunState(s.history + [Attributed(reply, s.agent), ToolMessage(HandoffMarker(b.name), call.id)], b, s.context,
             s.requests + [BuildRequest(s.agent, s.history, s.context, config.modelOverride)])
  }

  /** One iteration whose reply calls a single registered tool that returns
      agent b: the reply and the handoff message are appended, the context is
      untouched and b becomes the active agent. */
  lemma HandoffTurn(config: RunConfig, parse: Parser, s: RunState, reply: Message, call: ToolCall, b: Agent)
    requires ExecutesTools(config) && reply.toolCalls == Some([call])
    requires HandsOff(s.agent.functions, call, s.context, parse, b)
    ensures TakeTurn(config, parse, s, reply) == Continued(HandoffState(config, s, reply, call, b))
  {
    var tool := Lookup(s.agent.functions, call.call.name).value;
    var outcome := CallOutcome(ToolMessage(HandoffMarker(b.name), call.id), Some(b), map[]);
    assert Invoke(tool, call, s.context, parse) == Success(ToolResult(HandoffMarker(b.name), Some(b), None));
    SingleCallBatch(call, s.agent.functions, s.context, parse, outcome);
    assert s.context + map[] == s.context;
    assert s.history + [Attributed(reply, s.agent)] + [outcome.message]
        == s.history + [Attributed(reply, s.agent), outcome.message];
  }

  /** With maxTurns = 1, a first reply that hands off ends the run in the
      handoff state. */
  lemma HandoffEndsRun(config: RunConfig, parse: Parser, agent: Agent, messages: seq<Message>,
                       contextVariables: Option<Context>, replies: seq<Message>, call: ToolCall, b: Agent)
    requires config.maxTurns == Some(1) && ExecutesTools(config)
    requires |replies| > 0 && replies[0].toolCalls == Some([call])
    requires HandsOff(agent.functions, call, contextVariables.GetOr(map[]), parse, b)
    ensures var next := HandoffState(config, InitialState(agent, messages, contextVariables), replies[0], call, b);
      RunSpec(config, parse, agent, messages, contextVariables, replies)
        == Success(RunOutput(Response(next.history[|messages|..], Some(b), next.context), next.requests))
  {
    var s := InitialState(agent, messages, contextVariables);
    HandoffTurn(config, parse, s, replies[0], call, b);
    RunEndsAfterFirstTurn(config, parse, agent, messages, contextVariables, replies, HandoffState(config, s, replies[0], call, b));
  }

  /** A handoff: the first reply asks for one call to a registered tool that
      returns agent b. With maxTurns = 1 the run ends after that iteration,
      having appended the reply and the tool message announcing b, and b is
      the run's final agent. */
  lemma RunHandoff(config: RunConfig, parse: Parser, agent: Agent, messages: seq<Message>,
                   contextVariables: Option<Context>, replies: seq<Message>, call: ToolCall, b: Agent)
    requires config.maxTurns == Some(1) && ExecutesTools(config)
    requires |replies| > 0 && replies[0].toolCalls == Some([call])
    requires HandsOff(agent.functions, call, contextVariables.GetOr(map[]), parse, b)
    ensures RunSpec(config, parse, agent, messages, contextVariables, replies) ==
      Success(RunOutput(
        Response([Attributed(replies[0], agent), ToolMessage(HandoffMarker(b.name), call.id)], Some(b),
                 contextVariables.GetOr(map[])),
        [BuildRequest(agent, messages, contextVariables.GetOr(map[]), config.modelOverride)]))
  {
    HandoffEndsRun(config, parse, agent, messages, contextVariables, replies, call, b);
    var s := InitialState(agent, messages, contextVariables);
    var next := HandoffState(config, s, replies[0], call, b);
    var shown := [Attributed(replies[0], agent), ToolMessage(HandoffMarker(b.name), call.id)];
    assert next.history[|messages|..] == shown;
    assert [] + [BuildRequest(agent, messages, s.context, config.modelOverride)]
        == [BuildRequest(agent, messages, s.context, config.modelOverride)];
  }
}
