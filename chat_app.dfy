/**
  The chat side of the browser client (script.js): the conversation held in
  `messages`, the send guard, and `sendStreamingMessage`, which posts the
  conversation, reads the server's event stream and folds its frames into
  one assistant message.

  `fetch`, the response reader and `JSON.parse` are parameters: the server's
  answer is a `Reply` (its status and the successive texts the reader hands
  over), and `JSON.parse` a function that yields `None` where it throws.
 */
module Client {
  import opened Wrappers
  import opened Text
  import opened Js
  import Picker

  /** One entry of `this.messages` (the timestamp is not modelled). */
  datatype Message = Message(role: string, content: string, usage: JsValue)

  /** The JSON body posted to /api/chat/stream. */
  datatype Request = Request(model: string, message: string, history: seq<Message>)

  /** What `fetch` and the reader deliver. */
  datatype Reply =
    | Unreachable(reason: string)                // fetch rejects with an Error whose message is `reason`
    | Response(status: nat, body: seq<string>)  // the HTTP status, then each decoded `reader.read()` value

  /** `response.ok`. */
  predicate Ok(status: nat) {
    200 <= status <= 299
  }

  const Boom: string := "\U{1F4A5} "
  const Lost: string := "\U{1F310} Connection to monster lab lost: "

  // ---------------------------------------------------------------------------
  // The send guard (script.js:423-429, 452-454)

  /** The characters `String.prototype.trim` removes: white space and line terminators. */
  predicate JsWhitespace(c: char) {
    || c == '\t' || c == '\n' || c == '\U{000B}' || c == '\U{000C}' || c == '\r' || c == ' '
    || c == '\U{00A0}' || c == '\U{1680}' || ('\U{2000}' <= c <= '\U{200A}')
    || c == '\U{2028}' || c == '\U{2029}' || c == '\U{202F}' || c == '\U{205F}'
    || c == '\U{3000}' || c == '\U{FEFF}'
  }

  function JsTrim(s: string): string {
    Trim(s, JsWhitespace)
  }

  /** `updateSendButton`'s `canSend`, which is also the guard at the top of `sendMessage`. */
  predicate CanSend(input: string, model: string, isTyping: bool) {
    JsTrim(input) != "" && model != "" && !isTyping
  }

  /** Sending is possible exactly when the input has a visible character, a model is chosen and no answer is pending. */
  lemma CanSendIff(input: string, model: string, isTyping: bool)
    ensures CanSend(input, model, isTyping) <==>
      (exists i :: 0 <= i < |input| && !JsWhitespace(input[i])) && model != "" && !isTyping
  {
    TrimEmptyIff(input, JsWhitespace);
  }

  // ---------------------------------------------------------------------------
  // The history sent along (script.js:501)

  /** `msgs.slice(-11, -1)`: the up to ten messages before the last one. */
  function HistoryWindow(msgs: seq<Message>): (h: seq<Message>)
    ensures |msgs| > 0 ==> |h| == if |msgs| - 1 < 10 then |msgs| - 1 else 10
    ensures |h| == 0 || |h| < |msgs|
    ensures forall i :: 0 <= i < |h| ==> h[i] == msgs[|msgs| - 1 - |h| + i]
  {
    if |msgs| <= 1 then [] else msgs[(if |msgs| < 11 then 0 else |msgs| - 11)..|msgs| - 1]
  }

  // ---------------------------------------------------------------------------
  // One line of the event stream (script.js:519-541)

  /** What one line does to the streaming message. */
  datatype Event =
    | ErrorEvent(error: JsValue)    // a truthy `data.error`: replace the text, stop
    | ChunkEvent(content: JsValue)  // `data.type === 'chunk'`: append `data.content`
    | DoneEvent(usage: JsValue)     // `data.type === 'done'`: record `data.usage`, stop
    | Other                         // not a data line, or a frame of another type
    | Malformed                     // JSON.parse throws, or `data` is null: skipped by the catch

  /** The `startsWith`, `JSON.parse` and field tests applied to one line, in the order the code applies them. */
  function Classify(line: string, parse: string -> Option<JsValue>): Event {
    if !StartsWith(line, "data: ") then Other
    else match parse(line[6..])
      case None => Malformed
      case Some(data) =>
        if Nullish(data) then Malformed
        else if Truthy(Field(data, "error")) then ErrorEvent(Field(data, "error"))
        else if Field(data, "type") == Str("chunk") then ChunkEvent(Field(data, "content"))
        else if Field(data, "type") == Str("done") then DoneEvent(Field(data, "usage"))
        else Other
  }

  function LineEvents(lines: seq<string>, parse: string -> Option<JsValue>): (es: seq<Event>)
    ensures |es| == |lines|
  {
    if |lines| == 0 then [] else [Classify(lines[0], parse)] + LineEvents(lines[1..], parse)
  }

  /** The events of every read, each read split on newlines on its own. */
  function ReadEvents(chunks: seq<string>, parse: string -> Option<JsValue>): seq<Event> {
    if |chunks| == 0 then [] else LineEvents(Split(chunks[0], '\n'), parse) + ReadEvents(chunks[1..], parse)
  }

  // ---------------------------------------------------------------------------
  // The streaming message, as a function of the events

  /** The streaming message's text and usage, and whether a `return` was reached. */
  datatype Progress = Progress(content: string, usage: JsValue, stopped: bool)

  /** The streaming message after the events, starting from `content` and `usage`. */
  function Apply(events: seq<Event>, content: string, usage: JsValue): Progress {
    if |events| == 0 then Progress(content, usage, false)
    else match events[0]
      case ErrorEvent(e) => Progress(Boom + ToString(e), usage, true)
      case DoneEvent(u) => Progress(content, u, true)
      case ChunkEvent(c) => Apply(events[1..], content + ToString(c), usage)
      case Other => Apply(events[1..], content, usage)
      case Malformed => Apply(events[1..], content, usage)
  }

  /** The assistant message `sendStreamingMessage` leaves behind for a reply. */
  function Outcome(reply: Reply, parse: string -> Option<JsValue>): Progress {
    match reply
    case Unreachable(reason) => Progress(Boom + (Lost + reason), Null, true)
    case Response(status, body) =>
      if !Ok(status) then Progress(Boom + (Lost + "HTTP " + NatToString(status)), Null, true)
      else Apply(ReadEvents(body, parse), "", Null)
  }

  /** The assistant message a reply leaves behind. */
  function Answer(reply: Reply, parse: string -> Option<JsValue>): Message {
    var o := Outcome(reply, parse);
    Message("assistant", o.content, o.usage)
  }

  /** `a` and `b` have the same length and differ at most at position `i`, which both have. */
  ghost predicate Elsewhere(a: seq<Message>, b: seq<Message>, i: nat) {
    |a| == |b| && i < |a| && forall j :: 0 <= j < |a| && j != i ==> a[j] == b[j]
  }

  /** One event, then the rest: the rest matters only when the event does not stop the stream. */
  lemma ApplyStep(e: Event, rest: seq<Event>, content: string, usage: JsValue)
    ensures var p := Apply([e], content, usage);
      Apply([e] + rest, content, usage) == if p.stopped then p else Apply(rest, p.content, p.usage)
  {
    assert ([e] + rest)[0] == e && ([e] + rest)[1..] == rest;
  }

  /** Events in two parts: the second matters only when the first does not stop the stream. */
  lemma {:induction false} ApplyConcat(a: seq<Event>, b: seq<Event>, content: string, usage: JsValue)
    ensures var p := Apply(a, content, usage);
      Apply(a + b, content, usage) == if p.stopped then p else Apply(b, p.content, p.usage)
    decreases |a|
  {
    if |a| > 0 {
      ApplyStep(a[0], a[1..] + b, content, usage);
      ApplyStep(a[0], a[1..], content, usage);
      assert a + b == [a[0]] + (a[1..] + b);
      assert a == [a[0]] + a[1..];
      var q := Apply([a[0]], content, usage);
      if !q.stopped {
        ApplyConcat(a[1..], b, q.content, q.usage);
      }
    } else {
      assert a + b == b;
    }
  }

  // ---------------------------------------------------------------------------
  // What the events do to the message

  /** The text the chunk events append, in order. */
  function ChunkTexts(events: seq<Event>): string {
    if |events| == 0 then ""
    else (if events[0].ChunkEvent? then ToString(events[0].content) else "") + ChunkTexts(events[1..])
  }

  /** No event that ends the stream: no error and no done frame. */
  predicate Continues(events: seq<Event>) {
    forall i :: 0 <= i < |events| ==> !events[i].ErrorEvent? && !events[i].DoneEvent?
  }

  /** Without an error or done frame, the chunks are appended in order and the usage is left alone. */
  lemma {:induction false} ChunksAppend(events: seq<Event>, content: string, usage: JsValue)
    requires Continues(events)
    ensures Apply(events, content, usage) == Progress(content + ChunkTexts(events), usage, false)
    decreases |events|
  {
    if |events| > 0 {
      var e := events[0];
      var x := if e.ChunkEvent? then ToString(e.content) else "";
      assert Continues(events[1..]) by {
        forall i | 0 <= i < |events| - 1 ensures events[1..][i] == events[i + 1] { }
      }
      ChunksAppend(events[1..], content + x, usage);
      assert content + x + ChunkTexts(events[1..]) == content + (x + ChunkTexts(events[1..]));
      if !e.ChunkEvent? {
        assert content + x == content;
      }
    }
  }

  /** An error frame replaces whatever the chunks before it wrote, and nothing after it is read. */
  lemma ErrorDiscards(before: seq<Event>, error: JsValue, after: seq<Event>, content: string, usage: JsValue)
    requires Continues(before)
    ensures Apply(before + [ErrorEvent(error)] + after, content, usage) == Progress(Boom + ToString(error), usage, true)
  {
    ChunksAppend(before, content, usage);
    assert before + [ErrorEvent(error)] + after == before + ([ErrorEvent(error)] + after);
    ApplyConcat(before, [ErrorEvent(error)] + after, content, usage);
    assert ([ErrorEvent(error)] + after)[0] == ErrorEvent(error);
  }

  /** A done frame keeps the text the chunks before it wrote, records its usage, and nothing after it is read. */
  lemma DoneKeepsText(before: seq<Event>, final: JsValue, after: seq<Event>, content: string, usage: JsValue)
    requires Continues(before)
    ensures Apply(before + [DoneEvent(final)] + after, content, usage) ==
      Progress(content + ChunkTexts(before), final, true)
  {
    ChunksAppend(before, content, usage);
    assert before + [DoneEvent(final)] + after == before + ([DoneEvent(final)] + after);
    ApplyConcat(before, [DoneEvent(final)] + after, content, usage);
    assert ([DoneEvent(final)] + after)[0] == DoneEvent(final);
  }

  /** Lines that are not data lines, or whose payload does not parse, leave the message as it is. */
  lemma {:induction false} SkippedLines(lines: seq<string>, rest: seq<Event>, parse: string -> Option<JsValue>,
                                        content: string, usage: JsValue)
    requires forall i :: 0 <= i < |lines| ==> !StartsWith(lines[i], "data: ") || parse(lines[i][6..]) == None
    ensures Apply(LineEvents(lines, parse) + rest, content, usage) == Apply(rest, content, usage)
    decreases |lines|
  {
    if |lines| > 0 {
      assert forall i :: 0 <= i < |lines| - 1 ==> lines[1..][i] == lines[i + 1];
      SkippedLines(lines[1..], rest, parse, content, usage);
      assert LineEvents(lines, parse) + rest == [Classify(lines[0], parse)] + (LineEvents(lines[1..], parse) + rest);
      ApplyStep(Classify(lines[0], parse), LineEvents(lines[1..], parse) + rest, content, usage);
    } else {
      assert LineEvents(lines, parse) + rest == rest;
    }
  }

  /** A read holding one line without a newline yields that line's event. */
  lemma OneLineRead(line: string, parse: string -> Option<JsValue>)
    requires '\n' !in line
    ensures ReadEvents([line], parse) == [Classify(line, parse)]
  {
    SplitPiece(line, '\n');
    assert [line][1..] == [];
  }

  /** `data: ` followed by `payload` is a data line whose payload is handed to `JSON.parse`. */
  lemma DataLine(payload: string)
    ensures StartsWith("data: " + payload, "data: ") && ("data: " + payload)[6..] == payload
  {
    assert ("data: " + payload)[..6] == "data: ";
  }

  /** A whole chunk frame in one read appends its text. */
  lemma WholeFrameAppends(payload: string, text: string, parse: string -> Option<JsValue>, content: string, usage: JsValue)
    requires '\n' !in payload
    requires parse(payload) == Some(Object(map["type" := Str("chunk"), "content" := Str(text)]))
    ensures Apply(ReadEvents(["data: " + payload], parse), content, usage) == Progress(content + text, usage, false)
  {
    DataLine(payload);
    OneLineRead("data: " + payload, parse);
    assert Classify("data: " + payload, parse) == ChunkEvent(Str(text));
    assert Apply([ChunkEvent(Str(text))], content, usage) == Apply([], content + text, usage);
  }

  /**
    A frame cut in two by the reader is lost: when the payload `a + b` of one
    data line arrives as `data: a` in one read and `b` in the next, neither
    part is handled (when `a` alone does not parse), whatever the whole line
    would have carried.
   */
  lemma SplitFrameIgnored(a: string, b: string, parse: string -> Option<JsValue>, content: string, usage: JsValue)
    requires '\n' !in a && '\n' !in b && !StartsWith(b, "data: ")
    requires parse(a) == None
    ensures Apply(ReadEvents(["data: " + a, b], parse), content, usage) == Progress(content, usage, false)
  {
    DataLine(a);
    OneLineRead("data: " + a, parse);
    OneLineRead(b, parse);
    assert ["data: " + a, b][0] == "data: " + a && ["data: " + a, b][1..] == [b];
    assert ReadEvents(["data: " + a, b], parse) == [Malformed] + [Other];
    assert ([Malformed] + [Other])[0] == Malformed && ([Malformed] + [Other])[1..] == [Other];
    assert Apply([Other], content, usage) == Apply([], content, usage);
  }

  class ChatApp {
    var messages: seq<Message>
    var currentModel: string
    var isTyping: bool
    /** `chatInput.value`. */
    var input: string
    /** `currentStreamingMessage`, as the position in `messages` of the object it refers to. */
    var streaming: Option<nat>
    var allModels: seq<Picker.ModelInfo>
    var currentPriceFilter: string
    var currentCategoryFilter: string

    ghost predicate Valid()
      reads this
    {
      streaming.Some? ==> streaming.value < |messages|
    }

    /** The fields the constructor sets (script.js:2-12); the DOM set-up and the catalogue load are not modelled. */
    constructor ()
      ensures messages == [] && currentModel == "" && !isTyping && input == "" && streaming == None
      ensures allModels == [] && currentPriceFilter == "all" && currentCategoryFilter == "all"
      ensures Valid()
    {
      messages := [];
      currentModel := "";
      isTyping := false;
      input := "";
      streaming := None;
      allModels := [];
      currentPriceFilter := "all";
      currentCategoryFilter := "all";
    }

    /**
      `populateModelSelect` (script.js:194-229): the models the two filters
      let through, grouped under their provider; one option group per
      provider, in order of first appearance, each with exactly that
      provider's shown models.
     */
    method PopulateModelSelect() returns (groups: seq<Picker.Group>)
      ensures var shown := Picker.Visible(allModels, currentPriceFilter, currentCategoryFilter);
        && Picker.Providers(groups) == Dedup(Picker.Keys(shown))
        && forall i :: 0 <= i < |groups| ==>
             groups[i].models == Picker.GroupOf(shown, groups[i].provider) && groups[i].models != []
    {
      var shown := Picker.Visible(allModels, currentPriceFilter, currentCategoryFilter);
      var grouped, order := Picker.GroupModelsByProvider(shown);
      Picker.GroupsInOrder(shown, grouped, order);
      groups := Picker.OptionGroups(grouped, order);
    }

    /** `addMessage` (script.js:684-695). */
    method AddMessage(role: string, content: string, usage: JsValue)
      modifies this`messages
      ensures messages == old(messages) + [Message(role, content, usage)]
    {
      messages := messages + [Message(role, content, usage)];
    }

    /** `updateStreamingMessage` (script.js:587-592): append `String(content)` to the streaming message. */
    method UpdateStreamingMessage(content: JsValue)
      requires Valid()
      modifies this`messages
      ensures Valid()
      ensures streaming.None? ==> messages == old(messages)
      ensures streaming.Some? ==> var m := old(messages[streaming.value]);
        messages == old(messages)[streaming.value := m.(content := m.content + ToString(content))]
    {
      if streaming.Some? {
        var m := messages[streaming.value];
        messages := messages[streaming.value := m.(content := m.content + ToString(content))];
      }
    }

    /** `finalizeStreamingMessage` (script.js:610-634): record the usage on the streaming message. */
    method FinalizeStreamingMessage(usage: JsValue)
      requires Valid()
      modifies this`messages
      ensures Valid()
      ensures streaming.None? ==> messages == old(messages)
      ensures streaming.Some? ==> var m := old(messages[streaming.value]);
        messages == old(messages)[streaming.value := m.(usage := usage)]
    {
      if streaming.Some? {
        var m := messages[streaming.value];
        messages := messages[streaming.value := m.(usage := usage)];
      }
    }

    /** `handleStreamingError` (script.js:636-652): the streaming message's text becomes the error. */
    method HandleStreamingError(error: string)
      requires Valid()
      modifies this`messages
      ensures Valid()
      ensures streaming.None? ==> messages == old(messages)
      ensures streaming.Some? ==> var m := old(messages[streaming.value]);
        messages == old(messages)[streaming.value := m.(content := Boom + error)]
    {
      if streaming.Some? {
        var m := messages[streaming.value];
        messages := messages[streaming.value := m.(content := Boom + error)];
      }
    }

    /**
      The body of the loop over the lines (script.js:520-540): a data line
      is parsed and, by its fields, replaces the streaming message's text
      with an error, extends it or records its usage; `stop` is the `return`.
     */
    method HandleLine(line: string, parse: string -> Option<JsValue>) returns (stop: bool)
      requires Valid() && streaming.Some?
      modifies this`messages
      ensures Valid()
      ensures var i := streaming.value; var m := old(messages[i]);
        var p := Apply([Classify(line, parse)], m.content, m.usage);
        messages == old(messages)[i := Message(m.role, p.content, p.usage)] && stop == p.stopped
    {
      stop := false;
      if StartsWith(line, "data: ") {
        match parse(line[6..]) {
          case None =>
          case Some(data) =>
            if !Nullish(data) {
              if Truthy(Field(data, "error")) {
                HandleStreamingError(ToString(Field(data, "error")));
                return true;
              }
              if Field(data, "type") == Str("chunk") {
                UpdateStreamingMessage(Field(data, "content"));
              } else if Field(data, "type") == Str("done") {
                FinalizeStreamingMessage(Field(data, "usage"));
                return true;
              }
            }
        }
      }
      assert messages == old(messages)[streaming.value := messages[streaming.value]];
    }

    /**
      One value of the reader (script.js:516-541): its text split on
      newlines, each line handled in turn until one returns.
     */
    method HandleChunk(chunk: string, parse: string -> Option<JsValue>) returns (stop: bool)
      requires Valid() && streaming.Some?
      modifies this`messages
      ensures Valid()
      ensures var i := streaming.value; var m := old(messages[i]);
        var p := Apply(LineEvents(Split(chunk, '\n'), parse), m.content, m.usage);
        messages == old(messages)[i := Message(m.role, p.content, p.usage)] && stop == p.stopped
    {
      var i := streaming.value;
      ghost var role := messages[i].role;
      var lines := Split(chunk, '\n');
      ghost var goal := Apply(LineEvents(lines, parse), messages[i].content, messages[i].usage);
      assert lines[0..] == lines;
      var j := 0;
      while j < |lines|
        invariant 0 <= j <= |lines|
        invariant Elsewhere(messages, old(messages), i) && messages[i].role == role
        invariant Apply(LineEvents(lines[j..], parse), messages[i].content, messages[i].usage) == goal
      {
        ghost var rest := LineEvents(lines[j + 1..], parse);
        assert lines[j..][0] == lines[j] && lines[j..][1..] == lines[j + 1..];
        ApplyStep(Classify(lines[j], parse), rest, messages[i].content, messages[i].usage);
        stop := HandleLine(lines[j], parse);
        if stop {
          return;
        }
        j := j + 1;
      }
      assert lines[j..] == [];
      stop := false;
    }

    /**
      The read loop of `sendStreamingMessage` (script.js:512-542): each value
      the reader yields is handled on its own, until a line returns or the
      stream ends; the streaming message ends as `Apply` says.
     */
    method ReadStream(chunks: seq<string>, parse: string -> Option<JsValue>)
      requires Valid() && streaming.Some?
      modifies this`messages
      ensures Valid()
      ensures var i := streaming.value; var m := old(messages[i]);
        var p := Apply(ReadEvents(chunks, parse), m.content, m.usage);
        messages == old(messages)[i := Message(m.role, p.content, p.usage)]
    {
      var i := streaming.value;
      ghost var role := messages[i].role;
      ghost var goal := Apply(ReadEvents(chunks, parse), messages[i].content, messages[i].usage);
      var k := 0;
      while k < |chunks|
        invariant 0 <= k <= |chunks|
        invariant Elsewhere(messages, old(messages), i) && messages[i].role == role
        invariant Apply(ReadEvents(chunks[k..], parse), messages[i].content, messages[i].usage) == goal
      {
        assert chunks[k..][0] == chunks[k] && chunks[k..][1..] == chunks[k + 1..];
        ApplyConcat(LineEvents(Split(chunks[k], '\n'), parse), ReadEvents(chunks[k + 1..], parse),
                    messages[i].content, messages[i].usage);
        var stop := HandleChunk(chunks[k], parse);
        if stop {
          return;
        }
        k := k + 1;
      }
      assert chunks[k..] == [];
    }

    /**
      `sendStreamingMessage` (script.js:477-550): push an empty assistant
      message, post the conversation before it, and fill the message from
      the reply; a failed request or a status outside 200-299 puts the
      connection error in its place. The `finally` clears the typing flag
      and the streaming reference.
     */
    method SendStreamingMessage(message: string, reply: Reply, parse: string -> Option<JsValue>)
      returns (request: Request)
      modifies this`messages, this`streaming, this`isTyping
      ensures request == Request(currentModel, message, HistoryWindow(old(messages) + [Message("assistant", "", Null)]))
      ensures messages == old(messages) + [Answer(reply, parse)]
      ensures !isTyping && streaming == None && Valid()
    {
      messages := messages + [Message("assistant", "", Null)];
      streaming := Some(|messages| - 1);
      request := Request(currentModel, message, HistoryWindow(messages));
      match reply {
        case Unreachable(reason) =>
          HandleStreamingError(Lost + reason);
        case Response(status, body) =>
          if !Ok(status) {
            HandleStreamingError(Lost + "HTTP " + NatToString(status));
          } else {
            ReadStream(body, parse);
          }
      }
      isTyping := false;
      streaming := None;
    }

    /**
      `sendMessage` (script.js:452-475): when `CanSend` holds, record the
      trimmed input as a user message, clear the input and stream the
      answer; otherwise change nothing.
     */
    method SendMessage(reply: Reply, parse: string -> Option<JsValue>) returns (request: Option<Request>)
      modifies this`messages, this`streaming, this`isTyping, this`input
      ensures !CanSend(old(input), currentModel, old(isTyping)) ==>
        && request == None
        && messages == old(messages) && input == old(input)
        && isTyping == old(isTyping) && streaming == old(streaming)
      ensures CanSend(old(input), currentModel, old(isTyping)) ==>
        var text := JsTrim(old(input));
        && request == Some(Request(currentModel, text,
             HistoryWindow(old(messages) + [Message("user", text, Null)] + [Message("assistant", "", Null)])))
        && messages == old(messages) + [Message("user", text, Null)] + [Answer(reply, parse)]
        && input == "" && !isTyping && streaming == None
    {
      var text := JsTrim(input);
      if text == "" || currentModel == "" || isTyping {
        return None;
      }
      var r := Submit(text, reply, parse);
      request := Some(r);
    }

    /**
      What `sendMessage` does once its guard passed (script.js:457-474):
      set the typing flag, append the user's message, clear the input, then
      stream the answer, which clears the flag again.
     */
    method Submit(text: string, reply: Reply, parse: string -> Option<JsValue>) returns (request: Request)
      modifies this`messages, this`streaming, this`isTyping, this`input
      ensures request == Request(currentModel, text,
        HistoryWindow(old(messages) + [Message("user", text, Null)] + [Message("assistant", "", Null)]))
      ensures messages == old(messages) + [Message("user", text, Null)] + [Answer(reply, parse)]
      ensures currentModel == old(currentModel)
      ensures input == "" && !isTyping && streaming == None
    {
      isTyping := true;
      AddMessage("user", text, Null);
      input := "";
      request := SendStreamingMessage(text, reply, parse);
    }
  }
}
