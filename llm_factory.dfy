/** assistant/llm_factory.py: resolving the selected provider into a model client. */
module LlmFactory {
  import opened Chat
  import opened OllamaUtils

  const OpenAiProvider := "OpenAI"
  const LocalProvider := "Local (Ollama)"
  const OpenAiModel := "gpt-3.5-turbo"
  const OllamaModel := "gemma3:4b"

  /** A constructed model client and the settings it was built with. */
  datatype Llm =
    | ChatOpenAI(temperature: int, model: string)
    | ChatOllama(cls: OllamaClass, model: string)

  /** Constructing a client may raise: `build(l)` is `Some(str(e))` when
      constructing `l` raises, `None` when it succeeds. */
  type Builder = Llm -> Option<string>

  /** The only client `create_llm` builds for the hosted provider. */
  const HostedLlm := ChatOpenAI(0, OpenAiModel)

  /** `LLMFactory.create_llm`. `Value(None)` is Python's `None`; a `Fault`
      is an exception that leaves the function. */
  function CreateLlm(provider: string, ollamaClass: Option<OllamaClass>, ollamaAvailable: bool, env: Env, build: Builder)
    : (r: Outcome<Option<Llm>>)
    // the hosted provider: no key, no model; otherwise its constructor runs unguarded
    ensures provider == OpenAiProvider ==>
      if !IsSet(env.openAiApiKey) then r == Value(None)
      else if build(HostedLlm).Some? then r == Fault(build(HostedLlm).value)
      else r == Value(Some(HostedLlm))
    // every other provider string is the local one; it never raises and never probes the server
    ensures provider != OpenAiProvider ==> r.Value?
    ensures provider != OpenAiProvider ==>
      (r.value.Some? <==> ollamaAvailable && ollamaClass.Some? && build(ChatOllama(ollamaClass.value, OllamaModel)).None?)
    ensures provider != OpenAiProvider && r.value.Some? ==> r.value.value == ChatOllama(ollamaClass.value, OllamaModel)
  {
    if provider == OpenAiProvider then
      if !IsSet(env.openAiApiKey) then Value(None)
      else
        match build(HostedLlm)
        case Some(e) => Fault(e)
        case None => Value(Some(HostedLlm))
    else if !ollamaAvailable then Value(None)
    else
      // `ollama_class(...)` with no class raises TypeError, which is caught too
      match ollamaClass
      case None => Value(None)
      case Some(cls) =>
        if build(ChatOllama(cls, OllamaModel)).Some? then Value(None) else Value(Some(ChatOllama(cls, OllamaModel)))
  }
}
