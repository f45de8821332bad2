/** Values shared by the whole assistant: session-log entries, LangChain message
    objects, the configuration read from the environment, and the shape of a
    foreign call that may raise. */
module Chat {

  datatype Option<T> = None | Some(value: T)

  /** The result of a call that may raise: the value it returned, or `str(e)`
      of the exception it raised. */
  datatype Outcome<T> = Value(value: T) | Fault(message: string)

  /** The `role` of one entry of the session log. */
  datatype Role = User | Assistant

  /** One entry `{"role": ..., "content": ...}` of `st.session_state.messages`. */
  datatype LogEntry = LogEntry(role: Role, content: string)

  /** The LangChain message objects the core builds. */
  datatype ChatMessage =
    | SystemMessage(content: string)
    | HumanMessage(content: string)
    | AIMessage(content: string)

  /** The environment variables the core reads; `None` when unset. */
  datatype Env = Env(openAiApiKey: Option<string>, googleApiKey: Option<string>, googleCseId: Option<string>)

  /** Python truthiness of `os.getenv(...)`: an unset variable and the empty
      string both count as absent. */
  predicate IsSet(v: Option<string>)
  {
    v.Some? && v.value != ""
  }
}
