/** assistant/search_tools.py: whether the Google Search tool is exposed this turn. */
module SearchTools {
  import opened Chat

  /** A LangChain `Tool`; its `func` (the search wrapper's `run`) is part of the
      agent oracle, not of this value. */
  datatype Tool = Tool(name: string, description: string)

  const GoogleSearch := Tool("Google Search", "Search Google for recent information on a topic")

  /** `st.session_state.get("google_search_enabled", True)`; `toggle` is the
      session entry, `None` when the key is absent. */
  function IsSearchEnabled(toggle: Option<bool>): (enabled: bool)
    ensures enabled <==> toggle != Some(false)
  {
    match toggle
    case None => true
    case Some(on) => on
  }

  /** Both Google credentials are present; an empty value counts as absent. */
  function HasSearchKeys(env: Env): (present: bool)
    ensures present <==> env.googleApiKey !in {None, Some("")} && env.googleCseId !in {None, Some("")}
  {
    IsSet(env.googleApiKey) && IsSet(env.googleCseId)
  }

  /** `SearchTools.get_search_tools`, recomputed from the current inputs on every call. */
  function GetSearchTools(env: Env, toggle: Option<bool>): (tools: seq<Tool>)
    ensures tools == [] || tools == [GoogleSearch]
    ensures tools != [] <==> HasSearchKeys(env) && IsSearchEnabled(toggle)
  {
    if IsSet(env.googleApiKey) && IsSet(env.googleCseId) && IsSearchEnabled(toggle) then [GoogleSearch] else []
  }

  /** A disabled toggle means no tool, whatever the credentials. */
  lemma DisabledMeansNoTools(env: Env)
    ensures GetSearchTools(env, Some(false)) == []
  {
  }
}
