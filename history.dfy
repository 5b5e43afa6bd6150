/**
  The message list the server sends upstream (`chat_with_model_streaming`,
  app.py:239-254, and the same lines in `chat_with_model`, app.py:304-320):
  the last six history entries, each cut down to its role and content, then
  the new user message.
 */
module History {
  import opened PyData

  /** One entry of the `history` the client posts: a JSON object. */
  type HistoryEntry = map<string, PyValue>

  /** One message of the upstream request. */
  datatype Outgoing = Outgoing(role: PyValue, content: PyValue)

  /** How many history entries are kept for context. */
  const ContextWindow: nat := 6

  /** `{"role": msg.get('role', 'user'), "content": msg.get('content', '')}`. */
  function ToOutgoing(msg: HistoryEntry): (m: Outgoing)
    ensures "role" in msg ==> m.role == msg["role"]
    ensures "role" !in msg ==> m.role == PyStr("user")
    ensures "content" in msg ==> m.content == msg["content"]
    ensures "content" !in msg ==> m.content == PyStr("")
  {
    Outgoing(if "role" in msg then msg["role"] else PyStr("user"),
             if "content" in msg then msg["content"] else PyStr(""))
  }

  /** Python's `history[-6:]`: the last six entries, or all of them when there are fewer. */
  function LastEntries(history: seq<HistoryEntry>): (r: seq<HistoryEntry>)
    ensures |r| == if |history| < ContextWindow then |history| else ContextWindow
    ensures r == history[|history| - |r|..]
  {
    if |history| <= ContextWindow then history else history[|history| - ContextWindow..]
  }

  /** Each entry cut down to its role and content, in order. */
  function Converted(entries: seq<HistoryEntry>): (r: seq<Outgoing>)
    ensures |r| == |entries|
    ensures forall i :: 0 <= i < |r| ==> r[i] == ToOutgoing(entries[i])
  {
    seq(|entries|, i requires 0 <= i < |entries| => ToOutgoing(entries[i]))
  }

  /**
    The messages built from the history, then the current user message:
    min(6, |history|) + 1 messages, the newest history entries in their
    original order, the user's message last.
   */
  function Prepared(history: seq<HistoryEntry>, message: string): (messages: seq<Outgoing>)
    ensures var n := if |history| < ContextWindow then |history| else ContextWindow;
      && |messages| == n + 1
      && (forall i :: 0 <= i < n ==> messages[i] == ToOutgoing(history[|history| - n + i]))
      && messages[n] == Outgoing(PyStr("user"), PyStr(message))
  {
    Converted(LastEntries(history)) + [Outgoing(PyStr("user"), PyStr(message))]
  }

  /** The loop of `chat_with_model_streaming` (app.py:243-254) that builds the upstream message list. */
  method PrepareMessages(history: seq<HistoryEntry>, message: string) returns (messages: seq<Outgoing>)
    ensures messages == Prepared(history, message)
  {
    messages := [];
    var recent := LastEntries(history);
    if |history| > 0 {
      var k := 0;
      while k < |recent|
        invariant 0 <= k <= |recent|
        invariant messages == Converted(recent)[..k]
      {
        assert Converted(recent)[..k + 1] == Converted(recent)[..k] + [ToOutgoing(recent[k])];
        messages := messages + [ToOutgoing(recent[k])];
        k := k + 1;
      }
      assert Converted(recent)[..k] == Converted(recent);
    }
    messages := messages + [Outgoing(PyStr("user"), PyStr(message))];
  }
}
