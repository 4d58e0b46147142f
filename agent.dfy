/** src/agents/Agent.ts: the Agent constructor. Every optional field falls
    back to its default through JavaScript's `||`, so a falsy value given by
    the caller is replaced just as a missing one is. */
module Agents {
  import opened Wrappers
  import opened Types

  const DefaultModel := "gpt-3.5-turbo"
  const DefaultToolChoice := Str("auto")
  const DefaultParallelToolCalls := 1

  /** The constructor's `config` argument. A missing optional field is None;
      `toolChoice` is `any`, so a missing one is Undefined. */
  datatype AgentConfig = AgentConfig(
    name: string,
    instructions: Instructions,
    functions: Option<seq<Tool>>,
    model: Option<string>,
    toolChoice: Value,
    parallelToolCalls: Option<int>)

  /** `new Agent(config)`. */
  function NewAgent(config: AgentConfig): (a: Agent)
    ensures a.name == config.name && a.instructions == config.instructions
    ensures config.functions.None? ==> a.functions == []
    ensures config.functions.Some? ==> a.functions == config.functions.value
    ensures config.model.None? || config.model == Some("") ==> a.model == DefaultModel
    ensures config.model.Some? && config.model.value != "" ==> a.model == config.model.value
    ensures !Truthy(config.toolChoice) ==> a.toolChoice == DefaultToolChoice
    ensures Truthy(config.toolChoice) ==> a.toolChoice == config.toolChoice
    ensures config.parallelToolCalls.None? || config.parallelToolCalls == Some(0) ==>
              a.parallelToolCalls == DefaultParallelToolCalls
    ensures config.parallelToolCalls.Some? && config.parallelToolCalls.value != 0 ==>
              a.parallelToolCalls == config.parallelToolCalls.value
    ensures Defaulted(a)
  {
    Agent(
      config.name,
      config.instructions,
      config.functions.GetOr([]),
      if config.model.Some? && config.model.value != "" then config.model.value else DefaultModel,
      if Truthy(config.toolChoice) then config.toolChoice else DefaultToolChoice,
      if config.parallelToolCalls.Some? && config.parallelToolCalls.value != 0
      then config.parallelToolCalls.value else DefaultParallelToolCalls)
  }

  /** No field that has a default holds a value the constructor would
      replace. */
  predicate Defaulted(a: Agent) {
    a.model != "" && Truthy(a.toolChoice) && a.parallelToolCalls != 0
  }

  /** The configuration that spells out every field of an agent. */
  function ConfigOf(a: Agent): AgentConfig {
    AgentConfig(a.name, a.instructions, Some(a.functions), Some(a.model), a.toolChoice, Some(a.parallelToolCalls))
  }

  /** Constructing again from a constructed agent's own fields changes
      nothing: the defaults are fixed points of the defaulting. */
  lemma ReconstructIsIdentity(config: AgentConfig)
    ensures NewAgent(ConfigOf(NewAgent(config))) == NewAgent(config)
  {
  }

  /** A configuration that gives only name and instructions yields the
      default model, tool choice and parallel-call count and no tools. */
  lemma MinimalConfig(name: string, instructions: Instructions)
    ensures var a := NewAgent(AgentConfig(name, instructions, None, None, Undefined, None));
      a == Agent(name, instructions, [], DefaultModel, DefaultToolChoice, DefaultParallelToolCalls)
  {
  }
}
