/** main.py: the session state, answering one query, and recording it. */
module ModularApp {
  import opened Chat
  import opened MemoryUtils
  import opened SearchTools
  import opened OllamaUtils
  import opened LlmFactory
  import opened ResearchAgent
  import opened Foreign

  const ApiKeyMessage := "Please provide your OpenAI API key in the sidebar."
  const ServerDownMessage := "Ollama server is not running. Please start it using the button in the sidebar."
  const SetupFailedMessage := "Setup failed. Please check your configuration."

  /** The answer when no model could be built. `recheck` is the liveness probe
      made at that moment; it is consulted only for the local provider. */
  function NoModelMessage(provider: string, env: Env, recheck: ProbeResult): (text: string)
    ensures text in {ApiKeyMessage, ServerDownMessage, SetupFailedMessage}
    ensures text == ApiKeyMessage <==> provider == OpenAiProvider && !IsSet(env.openAiApiKey)
    ensures text == ServerDownMessage <==> provider == LocalProvider && !IsOllamaRunning(recheck)
  {
    if provider == OpenAiProvider && !IsSet(env.openAiApiKey) then ApiKeyMessage
    else if provider == LocalProvider && !IsOllamaRunning(recheck) then ServerDownMessage
    else SetupFailedMessage
  }

  const SearchingText := "Searching..."
  const HostedText := "Generating with OpenAI..."
  const LocalText := "Generating with local model..."

  /** The spinner text shown while the answer is generated. */
  function LoadingMessage(searchEnabled: bool, hasSearchKeys: bool, provider: string): (text: string)
    ensures text in {SearchingText, HostedText, LocalText}
    ensures text == SearchingText <==> searchEnabled && hasSearchKeys
    ensures text == HostedText <==> !(searchEnabled && hasSearchKeys) && provider == OpenAiProvider
  {
    if searchEnabled && hasSearchKeys then SearchingText
    else if provider == OpenAiProvider then HostedText
    else LocalText
  }

  /** `generate_response`. `log` is the session log at the time of the call
      (it already ends with the query), `memory` the session memory handed to
      the agent, `recheck` the probe made when no model was built. A `Fault`
      is an exception that escapes. */
  function GenerateResponse(query: string, provider: string, ollamaClass: Option<OllamaClass>, ollamaAvailable: bool,
                            env: Env, toggle: Option<bool>, log: seq<LogEntry>, memory: WindowMemory,
                            recheck: ProbeResult, b: Backends): (result: Outcome<string>)
    // only the unguarded hosted-model constructor can raise out of here
    ensures var built := CreateLlm(provider, ollamaClass, ollamaAvailable, env, b.build);
      (result.Fault? <==> built.Fault?) && (built.Fault? ==> result == Fault(built.message))
    // no model: a fixed text chosen by provider
    ensures CreateLlm(provider, ollamaClass, ollamaAvailable, env, b.build) == Value(None) ==>
      result == Value(NoModelMessage(provider, env, recheck))
    // a model and a usable search tool: the agent answers, without the history
    ensures var built := CreateLlm(provider, ollamaClass, ollamaAvailable, env, b.build);
      built.Value? && built.value.Some? && HasSearchKeys(env) && IsSearchEnabled(toggle) ==>
        result == Value(AgentReply(b.invokeAgent(built.value.value, [GoogleSearch], query)))
    // a model and no tool: the model is sent the system message, the windowed history and the query
    ensures var built := CreateLlm(provider, ollamaClass, ollamaAvailable, env, b.build);
      built.Value? && built.value.Some? && !(HasSearchKeys(env) && IsSearchEnabled(toggle)) ==>
        result == Value(LlmReply(b.invokeLlm(built.value.value, Messages(DirectMessages(query, Some(Window(log, DefaultMaxPairs)))))))
  {
    var tools := GetSearchTools(env, toggle);
    match CreateLlm(provider, ollamaClass, ollamaAvailable, env, b.build)
    case Fault(e) => Fault(e)
    case Value(None) => Value(NoModelMessage(provider, env, recheck))
    case Value(Some(llm)) =>
      var chatHistory := Window(log, DefaultMaxPairs);
      if IsSearchEnabled(toggle) && tools != [] then
        var agent := CreateAgent(llm, tools, memory);
        Value(Reply(AgentModel(agent.value), query, None, b.invokeAgent, b.invokeLlm))
      else
        Value(Reply(LlmModel(llm), query, Some(chatHistory), b.invokeAgent, b.invokeLlm))
  }

  /** When no model is built the text names the cause: the hosted provider
      fails to build only for want of a key; the local provider is reported
      down exactly when the re-probe fails; any other provider string gets the
      generic text. */
  lemma NoModelMessageNamesCause(provider: string, ollamaClass: Option<OllamaClass>, ollamaAvailable: bool,
                                 env: Env, build: Builder, recheck: ProbeResult)
    requires CreateLlm(provider, ollamaClass, ollamaAvailable, env, build) == Value(None)
    ensures provider == OpenAiProvider ==> NoModelMessage(provider, env, recheck) == ApiKeyMessage
    ensures provider == LocalProvider ==>
      NoModelMessage(provider, env, recheck) == if IsOllamaRunning(recheck) then SetupFailedMessage else ServerDownMessage
    ensures provider != OpenAiProvider && provider != LocalProvider ==> NoModelMessage(provider, env, recheck) == SetupFailedMessage
  {
  }

  /** The query is appended to the log before the history is formatted; on a
      log of whole exchanges it is the trailing unpaired entry, so it is left
      out of the history and reaches the model once, as the last message. */
  lemma PendingQueryExcluded(log: seq<LogEntry>, query: string)
    requires |log| % 2 == 0
    ensures DirectMessages(query, Some(Window(log + [LogEntry(User, query)], DefaultMaxPairs))) ==
            [SystemMessage(DirectSystemPrompt)] + Window(log, DefaultMaxPairs) + [HumanMessage(query)]
    ensures |Window(log + [LogEntry(User, query)], DefaultMaxPairs)| <= 2 * DefaultMaxPairs
  {
    WindowExcludesPending(log, LogEntry(User, query), DefaultMaxPairs);
    WindowBounds(log, DefaultMaxPairs);
  }

  /** `st.session_state` as far as the core uses it; `None` is an absent key. */
  class Session {
    var messages: Option<seq<LogEntry>>
    var memory: Option<WindowMemory>
    var googleSearchEnabled: Option<bool>

    /** A new browser session: nothing is set yet. */
    constructor ()
      ensures messages == None && memory == None && googleSearchEnabled == None
    {
      messages, memory, googleSearchEnabled := None, None, None;
    }

    predicate Initialized()
      reads this
    {
      messages.Some? && memory.Some? && googleSearchEnabled.Some?
    }

    /** Between queries the log holds whole exchanges. */
    predicate Settled()
      reads this
    {
      messages.Some? && |messages.value| % 2 == 0
    }

    /** `initialize_app`: each entry is set only when absent, so a second run changes nothing. */
    method InitializeApp()
      modifies this
      ensures Initialized()
      ensures messages == if old(messages).None? then Some([]) else old(messages)
      ensures old(memory).Some? ==> memory == old(memory)
      ensures old(memory).None? ==>
        fresh(memory.value) && memory.value.k == MemoryWindow && memory.value.memoryKey == "chat_history" && memory.value.chatMemory == []
      ensures googleSearchEnabled == if old(googleSearchEnabled).None? then Some(true) else old(googleSearchEnabled)
      ensures old(Initialized()) ==> unchanged(this)
    {
      if messages.None? {
        messages := Some([]);
      }
      if memory.None? {
        var m := InitializeMemory();
        memory := Some(m);
      }
      if googleSearchEnabled.None? {
        googleSearchEnabled := Some(true);
      }
    }

    /** `process_query`: the query is logged, answered, and then the answer is
        logged and both are added to the session memory. If the answer raises,
        nothing after the first append happens. */
    method ProcessQuery(query: string, provider: string, ollamaClass: Option<OllamaClass>, ollamaAvailable: bool,
                        env: Env, recheck: ProbeResult, b: Backends) returns (result: Outcome<string>)
      requires Initialized()
      modifies this, memory.value
      ensures memory == old(memory) && googleSearchEnabled == old(googleSearchEnabled)
      ensures result == GenerateResponse(query, provider, ollamaClass, ollamaAvailable, env, googleSearchEnabled,
                                         old(messages.value) + [LogEntry(User, query)], memory.value, recheck, b)
      ensures result.Value? ==>
        messages == Some(old(messages.value) + [LogEntry(User, query), LogEntry(Assistant, result.value)]) &&
        memory.value.chatMemory == old(memory.value.chatMemory) + [HumanMessage(query), AIMessage(result.value)]
      ensures result.Fault? ==>
        messages == Some(old(messages.value) + [LogEntry(User, query)]) && memory.value.chatMemory == old(memory.value.chatMemory)
      ensures old(Settled()) && result.Value? ==> Settled()
    {
      messages := Some(messages.value + [LogEntry(User, query)]);
      result := GenerateResponse(query, provider, ollamaClass, ollamaAvailable, env, googleSearchEnabled,
                                 messages.value, memory.value, recheck, b);
      if result.Value? {
        messages := Some(messages.value + [LogEntry(Assistant, result.value)]);
        assert messages.value == old(messages.value) + [LogEntry(User, query), LogEntry(Assistant, result.value)];
        memory.value.AddUserMessage(query);
        memory.value.AddAiMessage(result.value);
      }
    }
  }

  /** One run of `main`: initialise the session, look up the local client
      class, and answer the chat input when there is one. */
  method Rerun(session: Session, query: Option<string>, provider: string, importable: OllamaClass -> bool,
               env: Env, recheck: ProbeResult, b: Backends) returns (result: Option<Outcome<string>>)
    modifies session, if session.memory.Some? then {session.memory.value} else {}
    ensures session.Initialized()
    ensures result.Some? <==> query.Some? && query.value != ""
    ensures result == None ==> session.messages == if old(session.messages).None? then Some([]) else old(session.messages)
    ensures old(session.Settled()) && result.Some? && result.value.Value? ==> session.Settled()
    // the query is answered by `generate_response` on the initialised session, with the
    // class the import chain found, and then logged as `process_query` logs it
    ensures var before := if old(session.messages).None? then [] else old(session.messages).value;
      var toggle := if old(session.googleSearchEnabled).None? then Some(true) else old(session.googleSearchEnabled);
      var found := GetOllamaClass(importable);
      result.Some? ==>
        result.value == GenerateResponse(query.value, provider, found.0, found.1, env, toggle,
                                         before + [LogEntry(User, query.value)], session.memory.value, recheck, b) &&
        session.messages == Some(
          if result.value.Value? then before + [LogEntry(User, query.value), LogEntry(Assistant, result.value.value)]
          else before + [LogEntry(User, query.value)])
    ensures old(session.memory).Some? ==> session.memory == old(session.memory)
    ensures old(session.memory).None? ==>
      fresh(session.memory.value) && session.memory.value.k == MemoryWindow && session.memory.value.memoryKey == "chat_history"
    ensures session.googleSearchEnabled == if old(session.googleSearchEnabled).None? then Some(true) else old(session.googleSearchEnabled)
    // an answered query adds the exchange to the session memory; nothing else touches it
    ensures var m0 := if old(session.memory).Some? then old(session.memory.value.chatMemory) else [];
      session.memory.value.chatMemory ==
        if result.Some? && result.value.Value? then m0 + [HumanMessage(query.value), AIMessage(result.value.value)] else m0
  {
    session.InitializeApp();
    var found := GetOllamaClass(importable);
    result := None;
    if query.Some? && query.value != "" {
      var r := session.ProcessQuery(query.value, provider, found.0, found.1, env, recheck, b);
      result := Some(r);
    }
  }
}
