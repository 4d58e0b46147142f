/** The request that getChatCompletion in src/agents/Swarm.ts sends to the
    provider: the system prompt, the history with sanitised names, the tool
    schemas without the context parameter, and the model. Sending it is the
    provider's business and is not part of this module. */
module SwarmRequest {
  import opened Wrappers
  import opened Types
  import opened Utils

  /** `__CTX_VARS_NAME__`: the parameter through which a tool receives the
      shared context. */
  const ContextParameter := "contextVariables"

  /** The characters `sanitizeName` keeps. The source's character class is
      `[^a-za-z0-9_-]`: its range a-z is written twice and A-Z not at all,
      so upper-case letters are replaced too. */
  predicate NameChar(c: char) {
    ('a' <= c <= 'z') || ('0' <= c <= '9') || c == '_' || c == '-'
  }

  /** sanitizeName: every character outside the class becomes "_". */
  function SanitizeName(name: string): (r: string)
    ensures |r| == |name|
    ensures forall i :: 0 <= i < |r| ==> NameChar(r[i])
    ensures forall i :: 0 <= i < |name| && NameChar(name[i]) ==> r[i] == name[i]
    ensures forall i :: 0 <= i < |name| && !NameChar(name[i]) ==> r[i] == '_'
  {
    if name == [] then []
    else [if NameChar(name[0]) then name[0] else '_'] + SanitizeName(name[1..])
  }

  /** Sanitising twice is sanitising once. */
  lemma SanitizeNameIdempotent(name: string)
    ensures SanitizeName(SanitizeName(name)) == SanitizeName(name)
  {
  }

  /** An upper-case letter does not survive sanitising. */
  lemma SanitizeReplacesUpperCase(name: string, i: nat)
    requires i < |name| && 'A' <= name[i] <= 'Z'
    ensures SanitizeName(name)[i] == '_'
  {
  }

  /** The per-message step: only a message with a non-empty name changes,
      and then only its name. */
  function SanitizeMessage(m: Message): (r: Message)
    ensures m.name.None? || m.name == Some("") ==> r == m
    ensures m.name.Some? && m.name.value != "" ==> r == m.(name := Some(SanitizeName(m.name.value)))
  {
    if m.name.Some? && m.name.value != "" then m.(name := Some(SanitizeName(m.name.value))) else m
  }

  /** The agent's instructions, rendered with the shared context when they are
      a function. */
  function SystemPrompt(agent: Agent, context: Context): string {
    match agent.instructions
    case Text(text) => text
    case Render(render) => render(context)
  }

  function SystemMessage(content: string): Message {
    Message("system", content, None, None, None, None)
  }

  /** `required.filter(p => p !== name)`. */
  function RemoveAll(names: seq<string>, name: string): (r: seq<string>)
    ensures name !in r
    ensures |r| <= |names|
    ensures forall x :: x in r <==> x in names && x != name
  {
    if names == [] then []
    else if names[0] == name then RemoveAll(names[1..], name)
    else [names[0]] + RemoveAll(names[1..], name)
  }

  /** The filter keeps the relative order of what it keeps. */
  lemma {:induction false} RemoveAllAppend(first: seq<string>, second: seq<string>, name: string)
    ensures RemoveAll(first + second, name) == RemoveAll(first, name) + RemoveAll(second, name)
  {
    if first != [] {
      RemoveAllAppend(first[1..], second, name);
      assert (first + second)[1..] == first[1..] + second;
    } else {
      assert first + second == second;
    }
  }

  /** A list without the name is left as it is. */
  lemma {:induction false} RemoveAllAbsent(names: seq<string>, name: string)
    requires name !in names
    ensures RemoveAll(names, name) == names
  {
    if names != [] {
      RemoveAllAbsent(names[1..], name);
    }
  }

  /** The in-place edit of each schema: delete the context parameter from
      `properties` and filter it out of `required`. */
  function StripContext(schema: Schema): (r: Schema)
    ensures ContextParameter !in r.properties && ContextParameter !in r.required
    ensures forall k :: k in r.properties <==> k in schema.properties && k != ContextParameter
    ensures forall k :: k in r.properties ==> r.properties[k] == schema.properties[k]
    ensures r.required == RemoveAll(schema.required, ContextParameter)
    ensures r.name == schema.name && r.description == schema.description
  {
    schema.(properties := schema.properties - {ContextParameter},
            required := RemoveAll(schema.required, ContextParameter))
  }

  /** The schemas of an agent's tools, as sent. */
  function ToolSchemas(tools: seq<Tool>): seq<Schema> {
    seq(|tools|, i requires 0 <= i < |tools| => StripContext(Translate(tools[i].name, tools[i].source)))
  }

  /** The createParams of getChatCompletion, without the stream flag. */
  datatype Request = Request(model: string, messages: seq<Message>, tools: Option<seq<Schema>>)

  function SanitizeAll(messages: seq<Message>): (r: seq<Message>)
    ensures |r| == |messages|
    ensures forall i :: 0 <= i < |r| ==> r[i] == SanitizeMessage(messages[i])
  {
    seq(|messages|, i requires 0 <= i < |messages| => SanitizeMessage(messages[i]))
  }

  /** The request for one completion: a system message with the agent's
      prompt ahead of the history, every name sanitised; the run's model
      override unless it is missing or empty, else the agent's model; the
      tools field only when the agent has tools. */
  function BuildRequest(agent: Agent, history: seq<Message>, context: Context, modelOverride: Option<string>): (r: Request)
    ensures |r.messages| == |history| + 1
    ensures r.messages[0] == SystemMessage(SystemPrompt(agent, context))
    ensures forall i :: 0 <= i < |history| ==> r.messages[i + 1] == SanitizeMessage(history[i])
    ensures modelOverride.Some? && modelOverride.value != "" ==> r.model == modelOverride.value
    ensures modelOverride.None? || modelOverride == Some("") ==> r.model == agent.model
    ensures r.tools.None? <==> agent.functions == []
    ensures r.tools.Some? ==> r.tools.value == ToolSchemas(agent.functions)
  {
    var messages := [SystemMessage(SystemPrompt(agent, context))] + history;
    assert forall i :: 0 <= i < |history| ==> messages[i + 1] == history[i];
    var tools := ToolSchemas(agent.functions);
    Request(
      if modelOverride.Some? && modelOverride.value != "" then modelOverride.value else agent.model,
      SanitizeAll(messages),
      if |tools| > 0 then Some(tools) else None)
  }

  /** No schema sent to the provider mentions the context parameter, whatever
      its position among the tool's parameters. */
  lemma ContextNeverAdvertised(agent: Agent, history: seq<Message>, context: Context, modelOverride: Option<string>)
    ensures var r := BuildRequest(agent, history, context, modelOverride);
      r.tools.Some? ==> forall i :: 0 <= i < |r.tools.value| ==>
        ContextParameter !in r.tools.value[i].properties && ContextParameter !in r.tools.value[i].required
  {
  }

  /** Every name that reaches the provider is made of the kept characters
      only. */
  lemma SentNamesSanitised(agent: Agent, history: seq<Message>, context: Context, modelOverride: Option<string>)
    ensures var r := BuildRequest(agent, history, context, modelOverride);
      forall i :: 0 <= i < |r.messages| && r.messages[i].name.Some? ==>
        forall j :: 0 <= j < |r.messages[i].name.value| ==> NameChar(r.messages[i].name.value[j])
  {
    var r := BuildRequest(agent, history, context, modelOverride);
    forall i | 0 <= i < |r.messages| && r.messages[i].name.Some?
      ensures forall j :: 0 <= j < |r.messages[i].name.value| ==> NameChar(r.messages[i].name.value[j])
    {
      if i > 0 {
        assert r.messages[i] == SanitizeMessage(history[i - 1]);
      }
    }
  }
}
