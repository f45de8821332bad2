/** The foreign capabilities one query may touch, passed in explicitly. */
module Foreign {
  import opened LlmFactory
  import opened ResearchAgent

  /** `build` constructs model clients, `invokeAgent` runs the reasoning loop,
      `invokeLlm` calls a model client directly. */
  datatype Backends = Backends(build: Builder, invokeAgent: AgentOracle, invokeLlm: LlmOracle)
}
