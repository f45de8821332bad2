/** app.py: the older single-file version of the assistant. It repeats the
    search gate, the provider decision and the failure texts inline, probes the
    local server itself, gives every agent a memory of its own, and sends the
    direct path a single string without any history. */
module LegacyApp {
  import opened Chat
  import opened MemoryUtils
  import opened SearchTools
  import opened OllamaUtils
  import opened LlmFactory
  import opened ResearchAgent
  import opened Foreign
  import opened ModularApp

  /** The one string the direct path sends. */
  function LegacyDirectPrompt(query: string): (prompt: string)
  {
    "System: " + DirectSystemPrompt + "\n\nUser: " + query
  }

  /** The prompt carries the system message and the query, and no history at all. */
  lemma LegacyPromptHasNoHistory(query: string)
    ensures var p := LegacyDirectPrompt(query);
      OccursAt(p, DirectSystemPrompt, 8) && OccursAt(p, query, |p| - |query|) && |p| == |DirectSystemPrompt| + |query| + 16
  {
  }

  /** `setup_research_assistant`. `ollama` is the class the import chain at
      the top of the file found (`None` when OLLAMA_AVAILABLE is false) and
      `setupProbe` the liveness probe made on the local branch. */
  method SetupResearchAssistant(llmChoice: string, ollama: Option<OllamaClass>, env: Env, toggle: Option<bool>,
                                setupProbe: ProbeResult, build: Builder) returns (model: Outcome<Option<Runnable>>)
    // the provider decision agrees with the factory's, plus the probe on the local branch
    ensures var built := CreateLlm(llmChoice, ollama, ollama.Some?, env, build);
      (model.Fault? <==> built.Fault?) && (built.Fault? ==> model == Fault(built.message))
    ensures model == Value(None) <==>
      CreateLlm(llmChoice, ollama, ollama.Some?, env, build) == Value(None) ||
      (llmChoice != OpenAiProvider && !IsOllamaRunning(setupProbe))
    ensures model.Value? && model.value.Some? ==>
      Value(Some(ModelOf(model.value.value))) == CreateLlm(llmChoice, ollama, ollama.Some?, env, build)
    // an agent exactly when the toggle is on and the search tool exists
    ensures model.Value? && model.value.Some? ==> (model.value.value.AgentModel? <==> GetSearchTools(env, toggle) != [])
    ensures model.Value? && model.value.Some? && model.value.value.AgentModel? ==>
      var a := model.value.value.agent;
      a.tools == [GoogleSearch] && a.handleParsingErrors && !a.verbose &&
      fresh(a.memory) && a.memory.memoryKey == "chat_history" && a.memory.k == MemoryWindow && a.memory.chatMemory == []
  {
    var tools: seq<Tool> := [];
    if IsSet(env.googleApiKey) && IsSet(env.googleCseId) && IsSearchEnabled(toggle) {
      tools := [GoogleSearch];
    }
    var llm: Llm;
    if llmChoice == OpenAiProvider {
      if !IsSet(env.openAiApiKey) {
        return Value(None);
      }
      var fault := build(HostedLlm);
      if fault.Some? {
        return Fault(fault.value);
      }
      llm := HostedLlm;
    } else {
      if ollama.None? || !IsOllamaRunning(setupProbe) {
        return Value(None);
      }
      var candidate := ChatOllama(ollama.value, OllamaModel);
      if build(candidate).Some? {
        return Value(None);
      }
      llm := candidate;
    }
    var searchEnabled := IsSearchEnabled(toggle);
    if searchEnabled && |tools| > 0 {
      var memory := new WindowMemory("chat_history", MemoryWindow, true);
      model := Value(Some(AgentModel(AgentExecutor(llm, tools, memory, true, false))));
    } else {
      model := Value(Some(LlmModel(llm)));
    }
  }

  /** What `research_assistant` answers: a fault escapes iff the hosted
      constructor raised; without a model (including a failed setup probe on
      the local branch) one of the fixed texts; otherwise the agent's reply
      when search is usable, else the reply to the single-string prompt. */
  predicate LegacyAnswered(result: Outcome<string>, query: string, llmChoice: string, ollama: Option<OllamaClass>, env: Env,
                           toggle: Option<bool>, setupProbe: ProbeResult, recheck: ProbeResult, b: Backends)
  {
    var built := CreateLlm(llmChoice, ollama, ollama.Some?, env, b.build);
    (result.Fault? <==> built.Fault?) && (built.Fault? ==> result == Fault(built.message)) &&
    (built.Value? && (built.value.None? || (llmChoice != OpenAiProvider && !IsOllamaRunning(setupProbe))) ==>
      result == Value(NoModelMessage(llmChoice, env, recheck))) &&
    (built.Value? && built.value.Some? && (llmChoice == OpenAiProvider || IsOllamaRunning(setupProbe)) ==>
      result == Value(
        if HasSearchKeys(env) && IsSearchEnabled(toggle)
        then AgentReply(b.invokeAgent(built.value.value, [GoogleSearch], query))
        else LlmReply(b.invokeLlm(built.value.value, Text(LegacyDirectPrompt(query))))))
  }

  /** `research_assistant`: set up, then answer; every fault of the invocation
      becomes text, and a missing model gets one of the three fixed texts.
      `recheck` is the probe made when no model was set up. */
  method ResearchAssistant(query: string, llmChoice: string, ollama: Option<OllamaClass>, env: Env, toggle: Option<bool>,
                           setupProbe: ProbeResult, recheck: ProbeResult, b: Backends) returns (result: Outcome<string>)
    ensures LegacyAnswered(result, query, llmChoice, ollama, env, toggle, setupProbe, recheck, b)
  {
    var model := SetupResearchAssistant(llmChoice, ollama, env, toggle, setupProbe, b.build);
    match model
    case Fault(e) =>
      result := Fault(e);
    case Value(None) =>
      result := Value(NoModelMessage(llmChoice, env, recheck));
    case Value(Some(AgentModel(a))) =>
      var response := b.invokeAgent(a.llm, a.tools, query);
      result := Value(AgentReply(response));
    case Value(Some(LlmModel(l))) =>
      var response := b.invokeLlm(l, Text(LegacyDirectPrompt(query)));
      result := Value(LlmReply(response));
  }

  /** The part of `st.session_state` this file uses; `None` is an absent key. */
  class AppSession {
    var messages: Option<seq<LogEntry>>
    var googleSearchEnabled: Option<bool>

    constructor ()
      ensures messages == None && googleSearchEnabled == None
    {
      messages, googleSearchEnabled := None, None;
    }

    /** The "Clear Conversation" button. */
    method ClearConversation()
      modifies this
      ensures messages == Some([]) && googleSearchEnabled == old(googleSearchEnabled)
    {
      messages := Some([]);
    }

    /** The chat section of one script run: make sure a log exists, and when
        the chat input holds a query, log it, answer it and log the answer. */
    method ChatTurn(query: Option<string>, llmChoice: string, ollama: Option<OllamaClass>, env: Env,
                    setupProbe: ProbeResult, recheck: ProbeResult, b: Backends) returns (result: Option<Outcome<string>>)
      modifies this
      ensures googleSearchEnabled == old(googleSearchEnabled)
      ensures result.Some? <==> query.Some? && query.value != ""
      ensures result.Some? ==>
        LegacyAnswered(result.value, query.value, llmChoice, ollama, env, old(googleSearchEnabled), setupProbe, recheck, b)
      ensures var before := if old(messages).Some? then old(messages).value else [];
        messages == Some(
          if result.None? then before
          else if result.value.Fault? then before + [LogEntry(User, query.value)]
          else before + [LogEntry(User, query.value), LogEntry(Assistant, result.value.value)])
    {
      if messages.None? {
        messages := Some([]);
      }
      result := None;
      if query.Some? && query.value != "" {
        ghost var before := messages.value;
        messages := Some(messages.value + [LogEntry(User, query.value)]);
        var answer := ResearchAssistant(query.value, llmChoice, ollama, env, googleSearchEnabled, setupProbe, recheck, b);
        if answer.Value? {
          messages := Some(messages.value + [LogEntry(Assistant, answer.value)]);
          assert messages.value == before + [LogEntry(User, query.value), LogEntry(Assistant, answer.value)];
        }
        result := Some(answer);
      }
    }
  }
}
