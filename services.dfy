/**
 * What the pipeline exchanges with the services it does not implement: the
 * safety scanner, the generative model, the PostgreSQL state store and the
 * Terraform MCP tool agent. Each call is modelled by its outcome.
 */
module Services {

  datatype Option<+T> = None | Some(value: T)

  /** What the generative model does with a prompt: the text of its answer, or the message of the exception it raised. */
  datatype Generation = Generated(text: string) | GenerationFailed(error: string)

  /** What `client.get_tools()` gives: the names of the MCP tools, or the message of the exception. */
  datatype ToolLoad = ToolsLoaded(tools: seq<string>) | ToolsFailed(error: string)

  /** The reasoning agent `create_react_agent` builds over the loaded tools. */
  datatype Agent = Agent(tools: seq<string>)

  /** What `agent.ainvoke(question)` gives: `str(result)`, or the message of the exception. */
  datatype AgentAnswer = Answered(text: string) | AgentFailed(error: string)

  /** A call to an external service, as the orchestrators record them in order. */
  datatype Call =
    | Scan(text: string)
    | Generate(prompt: string)
    | QueryState
    | LoadTools
    | InvokeAgent(question: string)
}
