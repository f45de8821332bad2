# Research assistant orchestration core, modelled in Dafny

The system is a Streamlit chat front end around LangChain. A user asks a research question. The assistant answers either through a ReAct agent that may call Google Search, or by calling the language model directly. It keeps a session log of user and assistant entries, and it turns every failure of a model or agent invocation into a chat message.

This project models the orchestration layer of that front end:

- **Conversation windowing** (`utils/memory_utils.py`). The session log is paired by position and only the last `max_pairs` pairs are kept. They come out as alternating Human/AI messages. `FormatChatHistory` is an imperative method proved to compute the specification function `Window`. `CreateMessageSequence` is proved to return the system message, then the history unchanged, then the query. The lemmas on `Window` prove that its length is even and bounded, that pairing is positional and ignores roles, that the original order is kept, and that a trailing unpaired entry is dropped. `max_pairs` follows Python's `[-max_pairs:]` for every integer: `0` keeps all pairs, and a negative value drops pairs from the front.
- **Search gate** (`assistant/search_tools.py`). The Google Search tool is exposed exactly when both Google credentials are non-empty and the session toggle is on. An absent toggle counts as on.
- **Provider resolution** (`assistant/llm_factory.py`). The `"OpenAI"` provider returns no model when there is no key. Otherwise it builds `gpt-3.5-turbo` at temperature 0. Any other provider string takes the local branch, which returns no model when the client is unavailable or its construction raises. The local branch never probes the server.
- **Query dispatch** (`assistant/research_agent.py`). An agent is built exactly when tools exist. `RunQuery` either asks the agent (a missing `output` gives `"No response generated."`) or sends the model the system message, the history and the query. It turns every fault into `"An error occurred: " + message`.
- **The session** (`main.py`). `initialize_app` sets only absent keys, so a second run changes nothing. `process_query` appends the user entry, answers, then appends the assistant entry and updates the session memory. `generate_response` picks the agent path iff search is enabled and tools exist. When no model is built, it picks one of three fixed texts by provider.
- **The legacy single-file app** (`app.py`). It repeats the same logic with four differences: its own liveness probe on the local branch, a fresh memory with `k = 5` for every agent, a single-string direct prompt with no history, and no session memory. Its chat handler (`app.py:486-517`) adds nothing to a memory, and its "Clear Conversation" button (`app.py:354-356`) resets only the log.
- **Local server helpers** (`utils/ollama_utils.py`). The probe counts as up iff it returns status 200. The startup wait makes at most 10 loop probes and one final probe, sleeps once after each failed loop probe, and stops at the first success. The client-class lookup tries the primary import, then the secondary. It is proved equal to a generic first-success chain.

Foreign calls are explicit inputs:

- **Model and agent calls.** The `Backends` value holds three total functions: constructing a client (which may raise), invoking the agent (which returns an optional `output` or raises), and invoking a model client (which returns text or raises). Every result the model states is a function of these.
- **Liveness probes.** Each probe is a `ProbeResult` argument. `StartOllamaServer` takes a function from probe number to result.
- **Configuration.** Environment variables are an `Env` value. Streamlit session state is a class whose `Option` fields tell an absent key from a present one.

**The hosted model's constructor is not guarded.** This holds at `assistant/llm_factory.py:22` and `app.py:379`. A fault there leaves `create_llm`, `generate_response` and `process_query`, where the model shows it as a `Fault` result. `ProcessQuery` and `ChatTurn` then leave the log with the user entry and no reply. The same holds for `setup_research_assistant` and `research_assistant`. In the model no other failure escapes. The source also builds the search wrapper and the agent outside any `try` (`assistant/search_tools.py:20`, `app.py:366`, `main.py:115`); the model treats those constructions as never raising (see Left out).

`LLMFactory.create_llm` makes no liveness probe on the local branch; `setup_research_assistant` does (`app.py:381`).

## Model

| member | source | states |
|---|---|---|
| `MemoryUtils.InitializeMemory` | utils/memory_utils.py:8-10 | a fresh, empty memory keyed "chat_history" with window k = 5 that returns messages |
| `MemoryUtils.Pairs` | utils/memory_utils.py:24-27 | there are len/2 pairs; pair j is (entry 2j, entry 2j+1); a trailing odd entry is in no pair |
| `MemoryUtils.RecentStart` | utils/memory_utils.py:31 | where Python's `[-max_pairs:]` starts: max_pairs ≥ 1 keeps the last min(n, max_pairs) pairs, 0 keeps all of them, a negative value skips that many pairs from the front |
| `MemoryUtils.FlattenAt` | utils/memory_utils.py:31-33 | n pairs become 2n messages: Human with the first entry's content at even positions, AI with the second's at odd ones, in pair order |
| `MemoryUtils.WindowShape` | utils/memory_utils.py:23-35 | the window is the log read from entry 2·start, cut to whole pairs and tagged by position: Human at even offsets, AI at odd ones; roles are never read; empty and one-entry logs give an empty window |
| `MemoryUtils.WindowBounds` | utils/memory_utils.py:25-35 | for max_pairs ≥ 1: even length, at most 2·max_pairs, exactly 2·min(pairs, max_pairs); empty for logs shorter than 2 |
| `MemoryUtils.WindowKeepsAll` | utils/memory_utils.py:31 | with max_pairs = 0, or with no more pairs than max_pairs, every complete pair is kept: the log minus a trailing odd entry, content by content, in order |
| `MemoryUtils.WindowIgnoresRoles` | utils/memory_utils.py:32-33 | two logs with the same contents position by position give the same window, whatever their roles |
| `MemoryUtils.WindowExcludesPending` | utils/memory_utils.py:25-27 | appending one entry to an even-length log leaves the window unchanged |
| `MemoryUtils.FormatChatHistory` | utils/memory_utils.py:13-35 | the two loops compute exactly Window(messages, max_pairs); max_pairs defaults to 5 |
| `MemoryUtils.CreateMessageSequence` | utils/memory_utils.py:38-52 | length len(history)+2: the system message first, then the history unchanged and in order, then a Human message with the query |
| `SearchTools.IsSearchEnabled` | assistant/search_tools.py:31-38 | enabled unless the session toggle is present and false; an absent key means enabled |
| `SearchTools.HasSearchKeys` | assistant/search_tools.py:41-47 | true iff both GOOGLE_API_KEY and GOOGLE_CSE_ID are set and non-empty |
| `SearchTools.GetSearchTools` | assistant/search_tools.py:9-28 | the result is empty or exactly the one "Google Search" tool, and it is non-empty iff HasSearchKeys and IsSearchEnabled hold for the current inputs |
| `SearchTools.DisabledMeansNoTools` | assistant/search_tools.py:16-18 | a toggle set to false gives no tool, whatever the keys |
| `OllamaUtils.IsOllamaRunning` | utils/ollama_utils.py:10-16 | up iff the probe got a response with status 200; a failed probe means down |
| `OllamaUtils.StartOllamaServer` | utils/ollama_utils.py:19-41 | a failed spawn gives false with no probe; at most 10 loop probes plus one final probe, and one sleep after each failed loop probe; true iff some probe among the first 11 succeeds, and then the last probe made is the first success |
| `OllamaUtils.FirstImportable` | utils/ollama_utils.py:44-54 | the reference fallback chain: none iff no candidate imports; otherwise the earliest candidate that imports |
| `OllamaUtils.GetOllamaClass` | utils/ollama_utils.py:44-54 | the class is the first importable of [primary, secondary] in that order, and the flag is true iff a class was found |
| `LlmFactory.CreateLlm` | assistant/llm_factory.py:8-30 | "OpenAI" without a key gives None; with a key it gives ChatOpenAI(temperature 0, "gpt-3.5-turbo") or a fault raised by its constructor; every other provider takes the local branch, never raises there, and gives ChatOllama(class, "gemma3:4b") iff the client is available and its construction succeeds |
| `ResearchAgent.DirectPromptDeniesSearch` | assistant/research_agent.py:80-82 | the direct-path system message contains "You do NOT have access to Google Search" |
| `ResearchAgent.CreateAgent` | assistant/research_agent.py:9-58 | None iff the tools list is empty; otherwise an executor over that model, those tools and that memory, with parsing-error handling on and verbose off |
| `ResearchAgent.DirectMessagesShape` | assistant/research_agent.py:84-93 | the direct path sends the system message, then the history unchanged, then the query; with no history or an empty one it sends exactly [system, query] |
| `ResearchAgent.ReplyConvertsFaults` | assistant/research_agent.py:72-100 | on either path a fault becomes "An error occurred: " + its message; the agent's missing output becomes "No response generated."; otherwise the model's own text is returned |
| `ResearchAgent.AgentIgnoresHistory` | assistant/research_agent.py:73-76 | on the agent path the answer does not depend on the chat history |
| `ResearchAgent.RunQuery` | assistant/research_agent.py:61-100 | builds the message list step by step and returns exactly Reply(...), the string the two lemmas above describe |
| `ModularApp.NoModelMessage` | main.py:120-127 | one of three fixed texts: the API-key text iff "OpenAI" without a key, the server-down text iff "Local (Ollama)" with a failing re-probe, otherwise "Setup failed..." |
| `ModularApp.LoadingMessage` | main.py:77-85 | "Searching..." iff search is enabled and the keys are present; otherwise the OpenAI text iff the provider is "OpenAI", else the local one |
| `ModularApp.GenerateResponse` | main.py:101-127 | a fault escapes iff the hosted constructor raised; no model gives NoModelMessage; with a model, the agent answers iff keys are present and search is enabled, and otherwise the model gets [system] ++ Window(log, 5) ++ [query] |
| `ModularApp.NoModelMessageNamesCause` | main.py:120-127 | when no model was built: "OpenAI" always gets the API-key text; "Local (Ollama)" gets the server-down text iff the re-probe fails; any other provider gets "Setup failed..." |
| `ModularApp.PendingQueryExcluded` | main.py:66-111 | on an even log, with the query appended before formatting, the model receives [system] ++ Window(previous log) ++ [query]: the query is left out of the history and sent once, last; the history has at most 10 messages |
| `ModularApp.Session.InitializeApp` | main.py:46-61 | sets messages to [], memory to a fresh k = 5 memory and the toggle to true, each only when absent; on an initialised session nothing changes |
| `ModularApp.Session.ProcessQuery` | main.py:63-99 | appends user(query), answers from the log that ends with it, then appends assistant(result) and adds Human(query) and AI(result) to the memory; an even log stays even; on an escaping fault only the user entry is added |
| `ModularApp.Rerun` | main.py:13-44 | initialises the session and processes a query iff the chat input holds a non-empty one; the answer is GenerateResponse on the initialised log with the query appended, the initialised toggle and the class GetOllamaClass found; the log then gains user(query) and, unless a fault escaped, assistant(answer) |
| `LegacyApp.LegacyPromptHasNoHistory` | app.py:457-462 | the direct path sends one string, "System: " + the system message + "\n\nUser: " + the query, and nothing else |
| `LegacyApp.SetupResearchAssistant` | app.py:359-433 | None when OpenAI has no key, when the local client is unavailable or the probe fails, or when local construction raises; otherwise the factory's model; an agent iff the toggle is on and tools exist, with the Google tool and a freshly allocated, empty k = 5 memory |
| `LegacyApp.ResearchAssistant` | app.py:437-472 | a fault escapes iff the hosted constructor raised; no model gives NoModelMessage (with the re-probe); otherwise the agent's reply or the reply to the single-string prompt, with faults turned into text |
| `LegacyApp.AppSession.ClearConversation` | app.py:353-356 | the log becomes [] and nothing else changes |
| `LegacyApp.AppSession.ChatTurn` | app.py:475-517 | makes sure a log exists; answers iff the chat input is non-empty, with the answer ResearchAssistant promises, appending user(query) and then assistant(result); on an escaping fault only the user entry is added |

## Left out

- The ReAct think/act/observe loop, its parse-error recovery and its step ceiling. They run inside LangChain's `AgentExecutor`, which is not part of this repository. The agent is an oracle that returns an optional `output` or raises.
- The agent's own use of its memory (LangChain saves each exchange into it). `WindowMemory` holds only what `process_query` adds. The agent oracle does not take the memory, because the ReAct template has no `{chat_history}` slot.
- Construction of `GoogleSearchAPIWrapper`, `PromptTemplate.from_template`, `create_react_agent` and `AgentExecutor`. These are modelled as never raising, although the source calls them outside any `try`, so a failure there would escape like the hosted constructor's. Only the model clients' constructors are oracles.
- The exact ReAct template text, a constant with no behaviour of its own. The direct-path system message is modelled exactly.
- HTTP, process and clock I/O. The probe result, spawn success, the platform-dependent `shell=True` flag of `Popen`, and the one-second sleep (which is only counted) are not modelled as I/O.
- app.py's own copies of `is_ollama_running` and `start_ollama_server` (app.py:17-47) and its import chain (app.py:50-60). They are the same as the `utils/ollama_utils.py` versions modelled here. `ollama` stands for the import chain's result.
- app.py:180-181, which sets the toggle to true when absent. `IsSearchEnabled` already reads an absent toggle as true, so `AppSession` leaves the key absent.
- app.py:439-446, a loading message that `research_assistant` computes but never uses.
- components/ui.py and components/themes.py: rendering, themes, the sidebar's provider selection and the API-key text input that writes the environment. The sidebar's "Clear Conversation" (components/ui.py:201-204) also resets the memory. The provider string and `Env` are inputs.
- `Env` is read once per call. The source calls `os.getenv` at each use, which gives the same values within one Streamlit run because nothing in the core writes the environment.
- What Streamlit does with an exception that escapes a run. The model returns it as a `Fault`.
