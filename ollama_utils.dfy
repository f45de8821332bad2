/** utils/ollama_utils.py: the liveness probe of the local model server, the
    bounded startup wait, and the two-step lookup of the client class. */
module OllamaUtils {
  import opened Chat

  /** What one `GET http://localhost:11434/api/tags` (timeout 2) gave: a
      response with its status code, or an exception of any kind. */
  datatype ProbeResult = Response(statusCode: int) | ProbeFailed

  /** `OllamaManager.is_ollama_running` */
  function IsOllamaRunning(probe: ProbeResult): (running: bool)
    ensures running <==> probe == Response(200)
  {
    match probe
    case Response(code) => code == 200
    case ProbeFailed => false
  }

  /** The number of one-second polls after the server process is spawned. */
  const StartupPolls: nat := 10

  /** `OllamaManager.start_ollama_server`. `spawned` says whether starting
      `ollama serve` succeeded (otherwise the exception is caught and the
      result is false); `probe(n)` is what the n-th liveness probe returns.
      Besides the verdict, the method reports how many probes and how many
      sleeps it performed. */
  method StartOllamaServer(spawned: bool, probe: nat -> ProbeResult) returns (started: bool, probes: nat, sleeps: nat)
    ensures probes <= StartupPolls + 1 && sleeps <= StartupPolls
    ensures !spawned ==> !started && probes == 0 && sleeps == 0
    ensures spawned ==> probes >= 1 && sleeps == probes - 1
    ensures forall n :: 0 <= n < probes - 1 ==> !IsOllamaRunning(probe(n))
    ensures started ==> IsOllamaRunning(probe(probes - 1))
    ensures spawned && !started ==> probes == StartupPolls + 1 && !IsOllamaRunning(probe(StartupPolls))
    ensures started <==> spawned && exists n :: 0 <= n <= StartupPolls && IsOllamaRunning(probe(n))
  {
    probes, sleeps := 0, 0;
    if !spawned {
      return false, probes, sleeps;
    }
    var i := 0;
    while i < StartupPolls
      invariant 0 <= i <= StartupPolls
      invariant probes == i && sleeps == i
      invariant forall n :: 0 <= n < i ==> !IsOllamaRunning(probe(n))
    {
      var up := IsOllamaRunning(probe(probes));
      probes := probes + 1;
      if up {
        return true, probes, sleeps;
      }
      sleeps := sleeps + 1;
      i := i + 1;
    }
    started := IsOllamaRunning(probe(probes));
    probes := probes + 1;
  }

  /** The two ways the client class has been exported: primary
      `langchain_ollama.chat_models.ChatOllama`, secondary `langchain_ollama.Chat`. */
  datatype OllamaClass = ChatModelsChatOllama | LangchainOllamaChat

  /** The fixed order in which the imports are tried. */
  const ImportOrder: seq<OllamaClass> := [ChatModelsChatOllama, LangchainOllamaChat]

  /** A reference fallback chain: the first candidate that can be imported. */
  function FirstImportable(candidates: seq<OllamaClass>, importable: OllamaClass -> bool): (found: Option<OllamaClass>)
    ensures found == None <==> forall i :: 0 <= i < |candidates| ==> !importable(candidates[i])
    ensures found.Some? ==> exists i :: 0 <= i < |candidates| && candidates[i] == found.value && importable(candidates[i]) &&
                                      forall j :: 0 <= j < i ==> !importable(candidates[j])
  {
    if candidates == [] then None
    else if importable(candidates[0]) then Some(candidates[0])
    else
      var rest := FirstImportable(candidates[1..], importable);
      assert forall i :: 1 <= i < |candidates| ==> candidates[1..][i - 1] == candidates[i];
      rest
  }

  /** `get_ollama_class`: the class and the availability flag. `importable(c)`
      tells whether importing `c` succeeds. */
  function GetOllamaClass(importable: OllamaClass -> bool): (r: (Option<OllamaClass>, bool))
    ensures r.1 <==> r.0.Some?
    ensures r.0 == FirstImportable(ImportOrder, importable)
  {
    if importable(ChatModelsChatOllama) then (Some(ChatModelsChatOllama), true)
    else if importable(LangchainOllamaChat) then (Some(LangchainOllamaChat), true)
    else (None, false)
  }
}
