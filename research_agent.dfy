/** assistant/research_agent.py: building the tool-augmented agent and running
    one query through either the agent or the bare model. */
module ResearchAgent {
  import opened Chat
  import opened MemoryUtils
  import opened SearchTools
  import opened LlmFactory

  /** An `AgentExecutor` over a ReAct agent: its model, its tools, the memory
      it is given and its two flags. */
  datatype Agent = AgentExecutor(llm: Llm, tools: seq<Tool>, memory: WindowMemory, handleParsingErrors: bool, verbose: bool)

  /** What `run_query` is handed: the agent, or the bare model. */
  datatype Runnable = AgentModel(agent: Agent) | LlmModel(llm: Llm)

  /** The model client inside a runnable. */
  function ModelOf(model: Runnable): (llm: Llm)
  {
    match model
    case AgentModel(a) => a.llm
    case LlmModel(l) => l
  }

  /** What a model client is invoked with: a list of messages, or one string. */
  datatype Prompt = Messages(messages: seq<ChatMessage>) | Text(text: string)

  /** The reasoning loop seen from outside: `invoke({"input": query})` on an
      executor with this model and these tools returns a dict whose "output"
      key may be missing (`None`), or raises. The loop's own parsing recovery
      and step ceiling live inside it. */
  type AgentOracle = (Llm, seq<Tool>, string) -> Outcome<Option<string>>

  /** `model.invoke(prompt)`: a response whose `content` is the text, or a fault. */
  type LlmOracle = (Llm, Prompt) -> Outcome<string>

  const NoOutput := "No response generated."
  const ErrorPrefix := "An error occurred: "

  /** The system message of the direct path. */
  const DirectSystemPrompt := DirectPromptHead + NoSearchNotice + DirectPromptTail

  const DirectPromptHead := "You are a quantum research assistant with mathematics expertise. \n                "
  const NoSearchNotice := "You do NOT have access to Google Search"
  const DirectPromptTail :=
    ", so use only your built-in knowledge to answer questions.\n" +
    "                Provide detailed and accurate information to the user."

  predicate OccursAt(text: string, part: string, i: nat)
  {
    i + |part| <= |text| && text[i..i + |part|] == part
  }

  predicate Mentions(text: string, part: string)
  {
    exists i: nat :: i <= |text| && OccursAt(text, part, i)
  }

  /** The direct path tells the model it cannot search. */
  lemma DirectPromptDeniesSearch()
    ensures Mentions(DirectSystemPrompt, NoSearchNotice)
  {
    var i := |DirectPromptHead|;
    assert DirectSystemPrompt[i..i + |NoSearchNotice|] == NoSearchNotice;
    assert OccursAt(DirectSystemPrompt, NoSearchNotice, i);
  }

  /** `ResearchAgent.create_agent`: an executor exactly when there are tools. */
  function CreateAgent(llm: Llm, tools: seq<Tool>, memory: WindowMemory): (agent: Option<Agent>)
    ensures agent == None <==> tools == []
    ensures agent.Some? ==> agent.value.llm == llm && agent.value.tools == tools && agent.value.memory == memory
    ensures agent.Some? ==> agent.value.handleParsingErrors && !agent.value.verbose
  {
    if |tools| > 0 then Some(AgentExecutor(llm, tools, memory, true, false)) else None
  }

  /** The message list of the direct path. */
  function DirectMessages(query: string, chatHistory: Option<seq<ChatMessage>>): (messages: seq<ChatMessage>)
  {
    [SystemMessage(DirectSystemPrompt)] + (if chatHistory.Some? then chatHistory.value else []) + [HumanMessage(query)]
  }

  /** The direct path sends the system message, then the history unchanged
      (nothing when it is `None` or empty), then the query. */
  lemma DirectMessagesShape(query: string, chatHistory: Option<seq<ChatMessage>>)
    ensures var h := if chatHistory.Some? then chatHistory.value else [];
      var m := DirectMessages(query, chatHistory);
      |m| == |h| + 2 && m[0] == SystemMessage(DirectSystemPrompt) && m[1..|m| - 1] == h && m[|m| - 1] == HumanMessage(query)
    ensures chatHistory == None || chatHistory == Some([]) ==>
      DirectMessages(query, chatHistory) == [SystemMessage(DirectSystemPrompt), HumanMessage(query)]
  {
  }

  /** The agent path's answer: its "output", the default when that key is
      missing, or the error text. */
  function AgentReply(o: Outcome<Option<string>>): (answer: string)
  {
    match o
    case Value(Some(output)) => output
    case Value(None) => NoOutput
    case Fault(e) => ErrorPrefix + e
  }

  /** The direct path's answer: the response content, or the error text. */
  function LlmReply(o: Outcome<string>): (answer: string)
  {
    match o
    case Value(content) => content
    case Fault(e) => ErrorPrefix + e
  }

  /** The string `run_query` returns. */
  function Reply(model: Runnable, query: string, chatHistory: Option<seq<ChatMessage>>, invokeAgent: AgentOracle, invokeLlm: LlmOracle): (answer: string)
  {
    match model
    case AgentModel(a) => AgentReply(invokeAgent(a.llm, a.tools, query))
    case LlmModel(l) => LlmReply(invokeLlm(l, Messages(DirectMessages(query, chatHistory))))
  }

  /** No fault escapes: a faulting invocation on either path becomes
      "An error occurred: " followed by the fault's text, and a successful one
      yields the model's own text (or the default for a missing output). */
  lemma ReplyConvertsFaults(model: Runnable, query: string, chatHistory: Option<seq<ChatMessage>>, invokeAgent: AgentOracle, invokeLlm: LlmOracle)
    ensures model.AgentModel? ==>
      var o := invokeAgent(model.agent.llm, model.agent.tools, query);
      Reply(model, query, chatHistory, invokeAgent, invokeLlm) ==
        if o.Fault? then ErrorPrefix + o.message else if o.value.Some? then o.value.value else NoOutput
    ensures model.LlmModel? ==>
      var o := invokeLlm(model.llm, Messages(DirectMessages(query, chatHistory)));
      Reply(model, query, chatHistory, invokeAgent, invokeLlm) == if o.Fault? then ErrorPrefix + o.message else o.value
  {
  }

  /** On the agent path the chat history plays no part. */
  lemma AgentIgnoresHistory(a: Agent, query: string, h1: Option<seq<ChatMessage>>, h2: Option<seq<ChatMessage>>, invokeAgent: AgentOracle, invokeLlm: LlmOracle)
    ensures Reply(AgentModel(a), query, h1, invokeAgent, invokeLlm) == Reply(AgentModel(a), query, h2, invokeAgent, invokeLlm)
  {
  }

  /** `ResearchAgent.run_query`: the message list is built step by step and
      every fault of the invocation is turned into text. */
  method RunQuery(model: Runnable, query: string, chatHistory: Option<seq<ChatMessage>>, invokeAgent: AgentOracle, invokeLlm: LlmOracle)
    returns (response: string)
    ensures response == Reply(model, query, chatHistory, invokeAgent, invokeLlm)
  {
    match model
    case AgentModel(a) =>
      var result := invokeAgent(a.llm, a.tools, query);
      if result.Fault? {
        response := ErrorPrefix + result.message;
      } else if result.value.Some? {
        response := result.value.value;
      } else {
        response := NoOutput;
      }
    case LlmModel(l) =>
      var messages := [SystemMessage(DirectSystemPrompt)];
      if chatHistory.Some? && chatHistory.value != [] {
        messages := messages + chatHistory.value;
      }
      messages := messages + [HumanMessage(query)];
      assert messages == DirectMessages(query, chatHistory);
      var result := invokeLlm(l, Messages(messages));
      if result.Fault? {
        response := ErrorPrefix + result.message;
      } else {
        response := result.value;
      }
  }
}
