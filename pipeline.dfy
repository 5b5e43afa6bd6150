/**
  The server and the client together: the frames `generate` writes
  (app.py:501-542) read back by the client's stream loop (script.js:477-550),
  the history the client posts (script.js:501) read by the server's message
  preparation (app.py:243-254), and the two price filters (app.py:390-420,
  script.js:198-210) side by side.

  `json.dumps` and `JSON.parse` are parameters; what is required of them is
  spelled out in `RoundTrips`.
 */
module Pipeline {
  import opened Wrappers
  import opened Text
  import opened Js
  import opened PyData
  import Relay
  import Client
  import History
  import Catalog
  import Picker

  // ---------------------------------------------------------------------------
  // The event stream on the wire

  /** The text of an error frame; `describe` is `str(e)` of a raised exception. */
  function ErrorString(t: Relay.ErrorText, describe: Relay.Fault -> string): string {
    match t
    case Message(s) => s
    case Raised(f) => describe(f)
  }

  /** The object `json.dumps` writes for a frame, as `JSON.parse` gives it back. */
  function Wire(f: Relay.Frame, describe: Relay.Fault -> string): JsValue {
    match f
    case Chunk(c) => Object(map["type" := Str("chunk"), "content" := Str(c)])
    case Done(c, n) =>
      Object(map["type" := Str("done"), "content" := Str(c), "usage" := Object(map["total_tokens" := Number(n)])])
    case Error(t) => Object(map["error" := Str(ErrorString(t, describe))])
  }

  /** `json.dumps` writes each frame on one line, and `JSON.parse` reads that line back as the frame's object. */
  ghost predicate RoundTrips(dumps: Relay.Frame -> string, parse: string -> Option<JsValue>, describe: Relay.Fault -> string) {
    forall f :: '\n' !in dumps(f) && parse(dumps(f)) == Some(Wire(f, describe))
  }

  /** `f"data: {json.dumps(...)}\n\n"`. */
  function Serialize(f: Relay.Frame, dumps: Relay.Frame -> string): string {
    "data: " + dumps(f) + "\n\n"
  }

  /** The response body with each frame arriving in a read of its own. */
  function Transmit(fs: seq<Relay.Frame>, dumps: Relay.Frame -> string): (chunks: seq<string>)
    ensures |chunks| == |fs|
  {
    seq(|fs|, i requires 0 <= i < |fs| => Serialize(fs[i], dumps))
  }

  /**
    What the client makes of a frame: a chunk or a done frame as such, an
    error frame as an error only when its text is non-empty (an empty
    `data.error` is falsy, and the frame has no `type`).
   */
  function Seen(f: Relay.Frame, describe: Relay.Fault -> string): Client.Event {
    match f
    case Chunk(c) => Client.ChunkEvent(Str(c))
    case Done(_, n) => Client.DoneEvent(Object(map["total_tokens" := Number(n)]))
    case Error(t) =>
      if ErrorString(t, describe) != "" then Client.ErrorEvent(Str(ErrorString(t, describe))) else Client.Other
  }

  function SeenAll(fs: seq<Relay.Frame>, describe: Relay.Fault -> string): (es: seq<Client.Event>)
    ensures |es| == |fs|
  {
    seq(|fs|, i requires 0 <= i < |fs| => Seen(fs[i], describe))
  }

  /** The line of a frame splits into the data line and two empty lines. */
  lemma FrameLines(payload: string)
    requires '\n' !in payload
    ensures Split("data: " + payload + "\n\n", '\n') == ["data: " + payload, "", ""]
  {
    var line := "data: " + payload;
    assert '\n' !in line;
    SplitAfterPiece("", "", '\n');
    assert "" + ['\n'] + "" == "\n";
    SplitAfterPiece(line, "\n", '\n');
    assert line + ['\n'] + "\n" == "data: " + payload + "\n\n";
  }

  /** The client classifies the data line of a frame as `Seen` says. */
  lemma FrameClassified(f: Relay.Frame, dumps: Relay.Frame -> string, parse: string -> Option<JsValue>,
                        describe: Relay.Fault -> string)
    requires RoundTrips(dumps, parse, describe)
    ensures Client.Classify("data: " + dumps(f), parse) == Seen(f, describe)
  {
    Client.DataLine(dumps(f));
    assert parse(dumps(f)) == Some(Wire(f, describe));
  }

  /** One frame in one read: its event, then two blank lines that change nothing. */
  lemma FrameRead(f: Relay.Frame, dumps: Relay.Frame -> string, parse: string -> Option<JsValue>,
                  describe: Relay.Fault -> string)
    requires RoundTrips(dumps, parse, describe)
    ensures Client.LineEvents(Split(Serialize(f, dumps), '\n'), parse) == [Seen(f, describe), Client.Other, Client.Other]
  {
    FrameLines(dumps(f));
    FrameClassified(f, dumps, parse, describe);
    assert Client.LineEvents([""], parse) == [Client.Other];
    assert ["", ""][1..] == [""];
    assert Client.LineEvents(["", ""], parse) == [Client.Other, Client.Other];
    assert ["data: " + dumps(f), "", ""][1..] == ["", ""];
  }

  /** The events of the first read: the first frame's event and two blank lines, then the other reads. */
  lemma FirstRead(fs: seq<Relay.Frame>, dumps: Relay.Frame -> string, parse: string -> Option<JsValue>,
                  describe: Relay.Fault -> string)
    requires RoundTrips(dumps, parse, describe)
    requires |fs| > 0
    ensures Client.ReadEvents(Transmit(fs, dumps), parse) ==
            [Seen(fs[0], describe)] + ([Client.Other] + ([Client.Other] + Client.ReadEvents(Transmit(fs[1..], dumps), parse)))
  {
    TransmitTail(fs, dumps);
    FrameRead(fs[0], dumps, parse, describe);
    var rest := Client.ReadEvents(Transmit(fs[1..], dumps), parse);
    ThreeFirst(Seen(fs[0], describe), Client.Other, Client.Other, rest);
  }

  /** The chunks after the first are the transmission of the frames after the first. */
  lemma TransmitTail(fs: seq<Relay.Frame>, dumps: Relay.Frame -> string)
    requires |fs| > 0
    ensures Transmit(fs, dumps)[0] == Serialize(fs[0], dumps)
    ensures Transmit(fs, dumps)[1..] == Transmit(fs[1..], dumps)
  {
  }

  /** Three leading elements, one at a time. */
  lemma ThreeFirst<T>(a: T, b: T, c: T, rest: seq<T>)
    ensures [a, b, c] + rest == [a] + ([b] + ([c] + rest))
  {
  }

  /** Two blank lines change nothing. */
  lemma BlankLines(later: seq<Client.Event>, content: string, usage: JsValue)
    ensures Client.Apply([Client.Other] + ([Client.Other] + later), content, usage) == Client.Apply(later, content, usage)
  {
    Client.ApplyStep(Client.Other, [Client.Other] + later, content, usage);
    Client.ApplyStep(Client.Other, later, content, usage);
  }

  /** Reading the transmitted frames comes to applying what the client sees of each frame. */
  lemma {:induction false} TransmitRead(fs: seq<Relay.Frame>, dumps: Relay.Frame -> string, parse: string -> Option<JsValue>,
                                        describe: Relay.Fault -> string, content: string, usage: JsValue)
    requires RoundTrips(dumps, parse, describe)
    ensures Client.Apply(Client.ReadEvents(Transmit(fs, dumps), parse), content, usage) ==
            Client.Apply(SeenAll(fs, describe), content, usage)
    decreases |fs|
  {
    if |fs| > 0 {
      var e := Seen(fs[0], describe);
      var later := Client.ReadEvents(Transmit(fs[1..], dumps), parse);
      FirstRead(fs, dumps, parse, describe);
      assert SeenAll(fs, describe) == [e] + SeenAll(fs[1..], describe);
      Client.ApplyStep(e, [Client.Other] + ([Client.Other] + later), content, usage);
      Client.ApplyStep(e, SeenAll(fs[1..], describe), content, usage);
      var p := Client.Apply([e], content, usage);
      if !p.stopped {
        BlankLines(later, p.content, p.usage);
        TransmitRead(fs[1..], dumps, parse, describe, p.content, p.usage);
      }
    } else {
      assert Transmit(fs, dumps) == [];
    }
  }

  /** What the client sees of chunk frames is chunk events carrying the same text. */
  lemma {:induction false} SeenChunks(fs: seq<Relay.Frame>, describe: Relay.Fault -> string)
    requires Relay.AllChunks(fs)
    ensures Client.Continues(SeenAll(fs, describe))
    ensures Client.ChunkTexts(SeenAll(fs, describe)) == Relay.ChunkText(fs)
    decreases |fs|
  {
    if |fs| > 0 {
      assert Relay.AllChunks(fs[1..]) by {
        forall i | 0 <= i < |fs| - 1 ensures fs[1..][i] == fs[i + 1] { }
      }
      SeenChunks(fs[1..], describe);
      assert SeenAll(fs, describe)[1..] == SeenAll(fs[1..], describe);
      assert fs == [Relay.Chunk(fs[0].content)] + fs[1..];
      Relay.ChunkTextPrepend(fs[0].content, fs[1..]);
    }
  }

  /** The frames before the last one, and the last. */
  lemma SeenLast(fs: seq<Relay.Frame>, describe: Relay.Fault -> string)
    requires |fs| > 0
    ensures SeenAll(fs, describe) == SeenAll(fs[..|fs| - 1], describe) + [Seen(fs[|fs| - 1], describe)] + []
  {
  }

  /** Chunk frames only: the client's message is their text, with no usage, and reading goes on. */
  lemma ClientViewChunks(fs: seq<Relay.Frame>, dumps: Relay.Frame -> string, parse: string -> Option<JsValue>,
                         describe: Relay.Fault -> string)
    requires RoundTrips(dumps, parse, describe)
    requires Relay.AllChunks(fs)
    ensures Client.Outcome(Client.Response(200, Transmit(fs, dumps)), parse) ==
            Client.Progress(Relay.ChunkText(fs), Null, false)
  {
    TransmitRead(fs, dumps, parse, describe, "", Null);
    SeenChunks(fs, describe);
    Client.ChunksAppend(SeenAll(fs, describe), "", Null);
    assert "" + Relay.ChunkText(fs) == Relay.ChunkText(fs);
  }

  /** Chunks, then a done frame: the client keeps the chunks' text and records the reported usage. */
  lemma ClientViewDone(fs: seq<Relay.Frame>, dumps: Relay.Frame -> string, parse: string -> Option<JsValue>,
                       describe: Relay.Fault -> string)
    requires RoundTrips(dumps, parse, describe)
    requires |fs| > 0 && Relay.AllChunks(fs[..|fs| - 1]) && fs[|fs| - 1].Done?
    ensures Client.Outcome(Client.Response(200, Transmit(fs, dumps)), parse) ==
            Client.Progress(Relay.ChunkText(fs[..|fs| - 1]),
                            Object(map["total_tokens" := Number(fs[|fs| - 1].totalTokens)]), true)
  {
    var front := fs[..|fs| - 1];
    var usage := Object(map["total_tokens" := Number(fs[|fs| - 1].totalTokens)]);
    TransmitRead(fs, dumps, parse, describe, "", Null);
    SeenChunks(front, describe);
    SeenLast(fs, describe);
    assert Seen(fs[|fs| - 1], describe) == Client.DoneEvent(usage);
    Client.DoneKeepsText(SeenAll(front, describe), usage, [], "", Null);
    assert "" + Relay.ChunkText(front) == Relay.ChunkText(front);
  }

  /**
    Chunks, then an error frame: the client shows the error text in place
    of the chunks, unless that text is empty, which the client passes over.
   */
  lemma ClientViewError(fs: seq<Relay.Frame>, dumps: Relay.Frame -> string, parse: string -> Option<JsValue>,
                        describe: Relay.Fault -> string)
    requires RoundTrips(dumps, parse, describe)
    requires |fs| > 0 && Relay.AllChunks(fs[..|fs| - 1]) && fs[|fs| - 1].Error?
    ensures var text := ErrorString(fs[|fs| - 1].text, describe);
      Client.Outcome(Client.Response(200, Transmit(fs, dumps)), parse) ==
        if text != "" then Client.Progress(Client.Boom + text, Null, true)
        else Client.Progress(Relay.ChunkText(fs[..|fs| - 1]), Null, false)
  {
    var front := fs[..|fs| - 1];
    var text := ErrorString(fs[|fs| - 1].text, describe);
    TransmitRead(fs, dumps, parse, describe, "", Null);
    SeenChunks(front, describe);
    SeenLast(fs, describe);
    if text != "" {
      assert Seen(fs[|fs| - 1], describe) == Client.ErrorEvent(Str(text));
      Client.ErrorDiscards(SeenAll(front, describe), Str(text), [], "", Null);
    } else {
      var es := SeenAll(front, describe) + [Client.Other];
      assert SeenAll(fs, describe) == es;
      assert Client.Continues(es);
      Client.ChunksAppend(es, "", Null);
      ChunkTextsConcat(SeenAll(front, describe), [Client.Other]);
      assert Client.ChunkTexts([Client.Other]) == "";
      assert "" + Relay.ChunkText(front) + "" == Relay.ChunkText(front);
    }
  }

  lemma {:induction false} ChunkTextsConcat(a: seq<Client.Event>, b: seq<Client.Event>)
    ensures Client.ChunkTexts(a + b) == Client.ChunkTexts(a) + Client.ChunkTexts(b)
    decreases |a|
  {
    if |a| > 0 {
      ChunkTextsConcat(a[1..], b);
      HeadOfConcat(a, b);
    } else {
      assert a + b == b;
    }
  }

  /**
    End to end, for a stream that was not refused: when the upstream
    reaches its done marker, the client's message ends as the done frame's
    text, which is every delta in order, and its usage carries the done
    frame's token count; otherwise it holds the deltas and no usage, unless
    a non-empty error replaced them.
   */
  lemma StreamReachesClient(lines: seq<string>, broken: bool, loads: string -> Option<PyValue>,
                            dumps: Relay.Frame -> string, parse: string -> Option<JsValue>,
                            describe: Relay.Fault -> string)
    requires RoundTrips(dumps, parse, describe)
    ensures var fs := Relay.Frames(Relay.Streamed(lines, broken), loads);
      var o := Client.Outcome(Client.Response(200, Transmit(fs, dumps)), parse);
      && (Relay.ReachesDone(lines, Relay.LineSteps(loads)) ==>
            && |fs| > 0 && fs[|fs| - 1].Done?
            && o.content == fs[|fs| - 1].content
            && o.usage == Object(map["total_tokens" := Number(fs[|fs| - 1].totalTokens)]))
      && (Relay.AllChunks(fs) ==> o.content == Relay.ChunkText(fs) && o.usage == Null)
  {
    var fs := Relay.Frames(Relay.Streamed(lines, broken), loads);
    Relay.StreamFrames(lines, broken, loads);
    Relay.RelayShape(lines, broken, Relay.LineSteps(loads), "", 0);
    if Relay.ReachesDone(lines, Relay.LineSteps(loads)) {
      var i :| 0 <= i < |fs| && fs[i].Done?;
      assert i == |fs| - 1;
      ClientViewDone(fs, dumps, parse, describe);
    }
    if Relay.AllChunks(fs) {
      ClientViewChunks(fs, dumps, parse, describe);
    }
  }

  /** A refused request reaches the client as its error text, or as an empty message when that text is empty. */
  lemma RefusalReachesClient(error: string, loads: string -> Option<PyValue>,
                             dumps: Relay.Frame -> string, parse: string -> Option<JsValue>,
                             describe: Relay.Fault -> string)
    requires RoundTrips(dumps, parse, describe)
    ensures var fs := Relay.Frames(Relay.Refused(error), loads);
      var o := Client.Outcome(Client.Response(200, Transmit(fs, dumps)), parse);
      o.content == (if error != "" then Client.Boom + error else "") && o.usage == Null
  {
    var fs := Relay.Frames(Relay.Refused(error), loads);
    assert fs[..|fs| - 1] == [];
    ClientViewError(fs, dumps, parse, describe);
  }

  // ---------------------------------------------------------------------------
  // The history the client posts

  /** The fields of a posted message that the server reads. */
  function AsHistoryEntry(m: Client.Message): History.HistoryEntry {
    map["role" := PyStr(m.role), "content" := PyStr(m.content)]
  }

  function AsHistory(ms: seq<Client.Message>): (h: seq<History.HistoryEntry>)
    ensures |h| == |ms|
  {
    seq(|ms|, i requires 0 <= i < |ms| => AsHistoryEntry(ms[i]))
  }

  /** The posted history ends with the user message just added: only the placeholder after it is cut. */
  lemma PostedEndsWithUser(before: seq<Client.Message>, text: string)
    ensures var posted := Client.HistoryWindow(before + [Client.Message("user", text, Null), Client.Message("assistant", "", Null)]);
      |posted| >= 1 && posted[|posted| - 1] == Client.Message("user", text, Null)
  {
    var msgs := before + [Client.Message("user", text, Null), Client.Message("assistant", "", Null)];
    var posted := Client.HistoryWindow(msgs);
    assert posted[|posted| - 1] == msgs[|msgs| - 2];
  }

  /** With a non-empty history, the message before the server's own user message is the last history entry. */
  lemma SentBeforeLast(h: seq<History.HistoryEntry>, text: string)
    requires |h| >= 1
    ensures var sent := History.Prepared(h, text);
      |sent| >= 2 && sent[|sent| - 2] == History.ToOutgoing(h[|h| - 1])
  {
    var n := if |h| < History.ContextWindow then |h| else History.ContextWindow;
    assert |h| - n + (n - 1) == |h| - 1;
  }

  /**
    The message being sent reaches the model twice: `slice(-11, -1)` leaves
    out only the empty assistant placeholder, so the history already ends
    with the new user message, and the server appends that message again.
   */
  lemma CurrentMessageSentTwice(before: seq<Client.Message>, text: string)
    ensures var posted := Client.HistoryWindow(before + [Client.Message("user", text, Null), Client.Message("assistant", "", Null)]);
      var sent := History.Prepared(AsHistory(posted), text);
      && |sent| >= 2
      && sent[|sent| - 2] == History.Outgoing(PyStr("user"), PyStr(text))
      && sent[|sent| - 1] == History.Outgoing(PyStr("user"), PyStr(text))
  {
    var posted := Client.HistoryWindow(before + [Client.Message("user", text, Null), Client.Message("assistant", "", Null)]);
    PostedEndsWithUser(before, text);
    var h := AsHistory(posted);
    var user := Client.Message("user", text, Null);
    assert h[|h| - 1] == AsHistoryEntry(user);
    assert History.ToOutgoing(AsHistoryEntry(user)) == History.Outgoing(PyStr("user"), PyStr(text));
    SentBeforeLast(h, text);
    var sent := History.Prepared(h, text);
    assert sent[|sent| - 2] == History.ToOutgoing(h[|h| - 1]);
  }

  // ---------------------------------------------------------------------------
  // The price filters on both sides

  /**
    The client's copy of a catalogue entry: same id and name, `free` when
    the entry's `is_free` is true, and the entry's tags (in the order the
    server's list happened to have).
   */
  ghost predicate Received(e: Catalog.CatalogEntry, m: Picker.ModelInfo) {
    && m.id == e.id && m.name == e.name
    && m.free == (e.pricing == Some(true))
    && (forall c :: c in m.categories <==> c in Catalog.CategoriesOf(e))
  }

  /** For an entry with pricing, the drop-down filter keeps the model exactly when the endpoint's filter does. */
  lemma FiltersAgree(e: Catalog.CatalogEntry, m: Picker.ModelInfo, price: string, category: string)
    requires Received(e, m) && e.pricing.Some?
    ensures Picker.Shown(m, price, category) <==> Catalog.PassesServerFilters(e, price, category)
  {
  }

  /**
    For an entry without pricing (the fallback catalogue), the client lists
    it as paid, while the endpoint's `paid` filter fails on it.
   */
  lemma UnpricedEntryDiffers(e: Catalog.CatalogEntry, m: Picker.ModelInfo)
    requires Received(e, m) && e.pricing.None?
    ensures Picker.Shown(m, "paid", "all") && !Picker.Shown(m, "free", "all")
    ensures Catalog.FilterPage([e], "paid", "all") == Failure("'pricing'")
  {
    assert e in [e];
  }
}
