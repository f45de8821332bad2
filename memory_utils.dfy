/** utils/memory_utils.py: the session memory object and the projection of the
    session log onto a bounded, role-tagged chat history. */
module MemoryUtils {
  import opened Chat

  /** The window size `k` of every conversation memory the assistant creates. */
  const MemoryWindow: nat := 5

  /** The default `max_pairs` of `format_chat_history`. */
  const DefaultMaxPairs: int := 5

  /** LangChain's `ConversationBufferWindowMemory`, reduced to what the core
      touches: its settings and the messages of its `chat_memory`. */
  class WindowMemory {
    const memoryKey: string
    const k: nat
    const returnMessages: bool
    var chatMemory: seq<ChatMessage>

    constructor (memoryKey: string, k: nat, returnMessages: bool)
      ensures this.memoryKey == memoryKey && this.k == k && this.returnMessages == returnMessages
      ensures chatMemory == []
    {
      this.memoryKey := memoryKey;
      this.k := k;
      this.returnMessages := returnMessages;
      chatMemory := [];
    }

    /** `chat_memory.add_user_message(text)` */
    method AddUserMessage(text: string)
      modifies this
      ensures chatMemory == old(chatMemory) + [HumanMessage(text)]
    {
      chatMemory := chatMemory + [HumanMessage(text)];
    }

    /** `chat_memory.add_ai_message(text)` */
    method AddAiMessage(text: string)
      modifies this
      ensures chatMemory == old(chatMemory) + [AIMessage(text)]
    {
      chatMemory := chatMemory + [AIMessage(text)];
    }
  }

  /** A new, empty memory keyed "chat_history" that keeps the last five exchanges. */
  method InitializeMemory() returns (memory: WindowMemory)
    ensures fresh(memory)
    ensures memory.memoryKey == "chat_history" && memory.k == MemoryWindow && memory.returnMessages
    ensures memory.chatMemory == []
  {
    memory := new WindowMemory("chat_history", MemoryWindow, true);
  }

  // ---------------------------------------------------------------------------
  // The window, as a specification

  /** The log cut into consecutive positional pairs; a trailing odd entry is dropped. */
  function Pairs(log: seq<LogEntry>): (ps: seq<(LogEntry, LogEntry)>)
    ensures |ps| == |log| / 2
    ensures forall j :: 0 <= j < |ps| ==> ps[j] == (log[2 * j], log[2 * j + 1])
  {
    if |log| < 2 then [] else
      var rest := Pairs(log[2..]);
      assert forall j :: 1 <= j < |rest| + 1 ==> rest[j - 1] == (log[2 * j], log[2 * j + 1]);
      [(log[0], log[1])] + rest
  }

  /** The index at which Python's slice `xs[-maxPairs:]` starts on a list of
      length `n`, for every integer `maxPairs`. */
  function RecentStart(n: nat, maxPairs: int): (i: nat)
    ensures i <= n
    ensures maxPairs >= 1 ==> n - i == (if maxPairs < n then maxPairs else n)
    ensures maxPairs == 0 ==> i == 0
    ensures maxPairs < 0 ==> i == (if -maxPairs < n then -maxPairs else n)
  {
    var start := -maxPairs;
    if start < 0 then (if n + start < 0 then 0 else n + start)
    else (if start > n then n else start)
  }

  /** Each pair becomes a Human message with the first entry's content and an
      AI message with the second's. */
  function Flatten(ps: seq<(LogEntry, LogEntry)>): (messages: seq<ChatMessage>)
  {
    if ps == [] then [] else
      var last := ps[|ps| - 1];
      Flatten(ps[..|ps| - 1]) + [HumanMessage(last.0.content), AIMessage(last.1.content)]
  }

  /** The chat history `format_chat_history(log, maxPairs)` computes. */
  function Window(log: seq<LogEntry>, maxPairs: int): (history: seq<ChatMessage>)
  {
    var ps := Pairs(log);
    Flatten(ps[RecentStart(|ps|, maxPairs)..])
  }

  lemma {:induction false} FlattenAt(ps: seq<(LogEntry, LogEntry)>)
    ensures |Flatten(ps)| == 2 * |ps|
    ensures forall i :: 0 <= i < |Flatten(ps)| ==>
      Flatten(ps)[i] == if i % 2 == 0 then HumanMessage(ps[i / 2].0.content) else AIMessage(ps[i / 2].1.content)
  {
    if ps != [] {
      var init := ps[..|ps| - 1];
      FlattenAt(init);
      assert forall j :: 0 <= j < |init| ==> init[j] == ps[j];
    }
  }

  /** The window is the log read from position `2 * start`, cut to whole pairs
      and re-tagged by position alone: even offsets become Human messages, odd
      offsets AI messages. The `role` of an entry is never consulted. */
  lemma WindowShape(log: seq<LogEntry>, maxPairs: int)
    ensures var start := RecentStart(|log| / 2, maxPairs);
      var w := Window(log, maxPairs);
      |w| == 2 * (|log| / 2 - start) &&
      forall i :: 0 <= i < |w| ==>
        w[i] == if i % 2 == 0 then HumanMessage(log[2 * start + i].content) else AIMessage(log[2 * start + i].content)
  {
    var ps := Pairs(log);
    var start := RecentStart(|ps|, maxPairs);
    var recent := ps[start..];
    FlattenAt(recent);
    forall i | 0 <= i < |Flatten(recent)|
      ensures Flatten(recent)[i] == if i % 2 == 0 then HumanMessage(log[2 * start + i].content) else AIMessage(log[2 * start + i].content)
    {
      var j := i / 2;
      assert recent[j] == ps[start + j];
      if i % 2 == 0 {
        assert 2 * (start + j) == 2 * start + i;
      } else {
        assert 2 * (start + j) + 1 == 2 * start + i;
      }
    }
  }

  /** For `maxPairs >= 1`: an even number of messages, at most `2 * maxPairs`,
      namely all pairs when there are fewer than `maxPairs` of them and the
      last `maxPairs` pairs otherwise. */
  lemma WindowBounds(log: seq<LogEntry>, maxPairs: int)
    requires maxPairs >= 1
    ensures |Window(log, maxPairs)| % 2 == 0
    ensures |Window(log, maxPairs)| <= 2 * maxPairs
    ensures |Window(log, maxPairs)| == 2 * (if |log| / 2 < maxPairs then |log| / 2 else maxPairs)
    ensures |log| < 2 ==> Window(log, maxPairs) == []
  {
    WindowShape(log, maxPairs);
  }

  /** When every pair fits (`maxPairs` covers them all) and also for
      `maxPairs == 0`, where `[-0:]` is the whole list, the window keeps every
      complete pair: it is the log without a trailing odd entry, in order. */
  lemma WindowKeepsAll(log: seq<LogEntry>, maxPairs: int)
    requires maxPairs == 0 || |log| / 2 <= maxPairs
    ensures |Window(log, maxPairs)| == |log| - |log| % 2
    ensures forall i :: 0 <= i < |Window(log, maxPairs)| ==> Window(log, maxPairs)[i].content == log[i].content
  {
    WindowShape(log, maxPairs);
    assert RecentStart(|log| / 2, maxPairs) == 0;
    var w := Window(log, maxPairs);
    forall i | 0 <= i < |w| ensures w[i].content == log[i].content {
      assert w[i] == if i % 2 == 0 then HumanMessage(log[i].content) else AIMessage(log[i].content);
    }
  }

  /** Only contents matter: two logs with the same contents position by
      position have the same window, whatever their roles. */
  lemma WindowIgnoresRoles(a: seq<LogEntry>, b: seq<LogEntry>, maxPairs: int)
    requires |a| == |b|
    requires forall i :: 0 <= i < |a| ==> a[i].content == b[i].content
    ensures Window(a, maxPairs) == Window(b, maxPairs)
  {
    WindowShape(a, maxPairs);
    WindowShape(b, maxPairs);
  }

  /** A log of whole exchanges followed by one pending entry has the same
      window as the exchanges alone: the pending entry is never included. */
  lemma WindowExcludesPending(log: seq<LogEntry>, pending: LogEntry, maxPairs: int)
    requires |log| % 2 == 0
    ensures Window(log + [pending], maxPairs) == Window(log, maxPairs)
  {
    var longer := log + [pending];
    assert forall j :: 0 <= j < |log| ==> longer[j] == log[j];
    assert Pairs(longer) == Pairs(log);
  }

  // ---------------------------------------------------------------------------
  // The operations

  /** `MemoryManager.format_chat_history` */
  method FormatChatHistory(messages: seq<LogEntry>, maxPairs: int := DefaultMaxPairs) returns (chatHistory: seq<ChatMessage>)
    ensures chatHistory == Window(messages, maxPairs)
  {
    var messagePairs: seq<(LogEntry, LogEntry)> := [];
    var i := 0;
    while i < |messages| - 1
      invariant 0 <= i <= |messages| && i % 2 == 0
      invariant |messagePairs| == i / 2
      invariant forall j :: 0 <= j < |messagePairs| ==> messagePairs[j] == (messages[2 * j], messages[2 * j + 1])
    {
      if i + 1 < |messages| {
        messagePairs := messagePairs + [(messages[i], messages[i + 1])];
      }
      i := i + 2;
    }
    assert messagePairs == Pairs(messages);

    var recent := messagePairs[RecentStart(|messagePairs|, maxPairs)..];
    chatHistory := [];
    var k := 0;
    while k < |recent|
      invariant 0 <= k <= |recent|
      invariant chatHistory == Flatten(recent[..k])
    {
      chatHistory := chatHistory + [HumanMessage(recent[k].0.content), AIMessage(recent[k].1.content)];
      assert recent[..k + 1][..k] == recent[..k];
      k := k + 1;
    }
    assert recent[..k] == recent;
  }

  /** `MemoryManager.create_message_sequence`: the system message, the history
      unchanged and in order, then the query as a Human message. */
  method CreateMessageSequence(systemContent: string, chatHistory: seq<ChatMessage>, query: string)
    returns (messages: seq<ChatMessage>)
    ensures |messages| == |chatHistory| + 2
    ensures messages[0] == SystemMessage(systemContent)
    ensures messages[1..|messages| - 1] == chatHistory
    ensures messages[|messages| - 1] == HumanMessage(query)
  {
    messages := [SystemMessage(systemContent)];
    messages := messages + chatHistory;
    messages := messages + [HumanMessage(query)];
  }
}
