/**
  The server's stream transformer: `generate()` inside `chat_stream`
  (app.py:501-542). It reads the upstream completion stream line by line,
  forwards each content delta as a `chunk` frame, answers the `[DONE]` marker
  with one `done` frame that sums up the stream, and turns every exception
  into one final `error` frame.

  `json.loads` is a parameter (`None` when it raises JSONDecodeError); the
  payloads it returns are modelled as Python values, so the `in`, `len`,
  subscription and `.get` calls the code applies to them keep their
  TypeError, KeyError and AttributeError paths.
 */
module Relay {
  import opened Wrappers
  import opened Text
  import opened PyData

  /** The exceptions the loop can raise; the outer `except` turns each into an error frame. */
  datatype Fault =
    | Raises(error: PyError)  // raised while inspecting a decoded payload
    | Interrupted             // the upstream connection failed while its lines were being read

  /** The text of an error frame: the upstream's own message, or `str(e)` of a raised exception. */
  datatype ErrorText = Message(text: string) | Raised(fault: Fault)

  /** A frame `generate` yields (each as the line `data: <json>` and a blank line). */
  datatype Frame =
    | Chunk(content: string)                    // {'type': 'chunk', 'content': ...}
    | Done(content: string, totalTokens: nat)   // {'type': 'done', 'content': ..., 'usage': {'total_tokens': ...}}
    | Error(text: ErrorText)                    // {'error': ...}

  /**
    What `chat_with_model_streaming` hands to `generate`: a failure dict
    (`success` false), or the streaming response, given as its decoded lines
    and whether reading them ended in an exception.
   */
  datatype Upstream = Refused(error: string) | Streamed(lines: seq<string>, broken: bool)

  /** What a decoded payload contributes. */
  datatype Inspection = NoContent | Content(text: string) | Raise(error: PyError)

  /**
    The body of the `try` for one decoded payload: `'choices' in chunk_data`,
    `len(chunk_data['choices']) > 0`, `chunk_data['choices'][0].get('delta', {})`,
    `'content' in delta`, `delta['content']`, and the `+=` onto the
    accumulated text, which raises TypeError unless the content is a str.
   */
  function Inspect(payload: PyValue): Inspection {
    match In("choices", payload)
    case Failure(f) => Raise(f)
    case Success(hasChoices) =>
      if !hasChoices then NoContent
      else match Subscript("choices", payload)
      case Failure(f) => Raise(f)
      case Success(choices) =>
        match Len(choices)
        case Failure(f) => Raise(f)
        case Success(n) =>
          if n == 0 then NoContent
          else match First(choices)
          case Failure(f) => Raise(f)
          case Success(choice) =>
            match GetOrEmpty(choice, "delta")
            case Failure(f) => Raise(f)
            case Success(delta) =>
              match In("content", delta)
              case Failure(f) => Raise(f)
              case Success(hasContent) =>
                if !hasContent then NoContent
                else match Subscript("content", delta)
                case Failure(f) => Raise(f)
                case Success(content) =>
                  if content.PyStr? then Content(content.s) else Raise(TypeError)
  }

  /** The payload of an OpenAI-style delta: `{"choices": [{"delta": {"content": c}}, ...]}`. */
  function DeltaPayload(c: PyValue, more: seq<PyValue>): PyValue {
    PyDict(map["choices" := PyList([PyDict(map["delta" := PyDict(map["content" := c])])] + more)])
  }

  /** A delta carrying a string is forwarded; one carrying `null` (or any non-string) raises TypeError at `+=`. */
  lemma InspectDelta(c: PyValue, more: seq<PyValue>)
    ensures c.PyStr? ==> Inspect(DeltaPayload(c, more)) == Content(c.s)
    ensures !c.PyStr? ==> Inspect(DeltaPayload(c, more)) == Raise(TypeError)
  {
  }

  /**
    The dict payloads the loop passes over: no 'choices', an empty
    'choices' list, or a first choice whose delta (or its absence) has no
    'content'.
   */
  predicate QuietPayload(v: PyValue) {
    && v.PyDict?
    && ("choices" in v.fields ==>
         var choices := v.fields["choices"];
         || (choices.PyList? && |choices.items| == 0)
         || (&& choices.PyList? && |choices.items| > 0
             && choices.items[0].PyDict?
             && var fields := choices.items[0].fields;
             || "delta" !in fields
             || (fields["delta"].PyDict? && "content" !in fields["delta"].fields)))
  }

  lemma QuietPayloadSilent(v: PyValue)
    requires QuietPayload(v)
    ensures Inspect(v) == NoContent
  {
  }

  /** The characters Python's `str.strip()` removes: those for which `str.isspace()` holds. */
  predicate PyWhitespace(c: char) {
    || c == ' ' || '\t' <= c <= '\r' || '\U{1C}' <= c <= '\U{1F}' || c == '\U{85}' || c == '\U{A0}'
    || c == '\U{1680}' || '\U{2000}' <= c <= '\U{200A}' || c == '\U{2028}' || c == '\U{2029}'
    || c == '\U{202F}' || c == '\U{205F}' || c == '\U{3000}'
  }

  function PyStrip(s: string): string {
    Trim(s, PyWhitespace)
  }

  // ---------------------------------------------------------------------------
  // One line of the upstream stream

  /** What one upstream line does. */
  datatype Step = Pass | Finish | Emit(content: string) | Fail(fault: Fault)

  /**
    `if line:`, `line_str.startswith('data: ')`, the `[DONE]` test on the
    stripped remainder, `json.loads` (a decode error is skipped), and the
    inspection of the payload.
   */
  function StepOf(line: string, loads: string -> Option<PyValue>): Step {
    if line == "" || !StartsWith(line, "data: ") then Pass
    else
      var data := line[6..];
      if PyStrip(data) == "[DONE]" then Finish
      else match loads(data)
      case None => Pass
      case Some(payload) =>
        match Inspect(payload)
        case NoContent => Pass
        case Content(c) => Emit(c)
        case Raise(e) => Fail(Raises(e))
  }

  lemma StripDone()
    ensures PyStrip("[DONE]") == "[DONE]"
  {
    var marker := "[DONE]";
    assert marker[0] == '[' && marker[|marker| - 1] == ']';
    TrimUntouched(marker, PyWhitespace);
  }

  /** The done marker line, with or without whitespace around the marker; the space after the colon is required. */
  lemma DoneMarkerLine(loads: string -> Option<PyValue>)
    ensures StepOf("data: [DONE]", loads) == Finish
  {
    var line := "data: [DONE]";
    assert StartsWith(line, "data: ");
    assert line[6..] == "[DONE]";
    StripDone();
  }

  lemma StripPaddedDone()
    ensures PyStrip(" [DONE]\r") == "[DONE]"
  {
    var padded, marked := " [DONE]\r", "[DONE]\r";
    assert PyWhitespace(padded[0]) && padded[1..] == marked;
    assert !PyWhitespace(marked[0]);
    assert TrimStart(marked, PyWhitespace) == marked;
    assert TrimStart(padded, PyWhitespace) == marked;
    assert PyWhitespace(marked[6]) && marked[..6] == "[DONE]";
    assert TrimEnd("[DONE]", PyWhitespace) == "[DONE]";
    assert TrimEnd(marked, PyWhitespace) == "[DONE]";
  }

  lemma PaddedDoneMarkerLine(loads: string -> Option<PyValue>)
    ensures StepOf("data:  [DONE]\r", loads) == Finish
  {
    var line := "data:  [DONE]\r";
    assert StartsWith(line, "data: ");
    assert line[6..] == " [DONE]\r";
    StripPaddedDone();
  }

  lemma UnspacedDoneMarkerLine(loads: string -> Option<PyValue>)
    ensures StepOf("data:[DONE]", loads) == Pass
  {
    assert "data:[DONE]"[5] != "data: "[5];
  }

  /** The lines that yield nothing: empty lines, lines without the `data: ` prefix, undecodable JSON and quiet payloads. */
  predicate QuietLine(line: string, loads: string -> Option<PyValue>) {
    || line == ""
    || !StartsWith(line, "data: ")
    || (&& PyStrip(line[6..]) != "[DONE]"
        && (loads(line[6..]).None? || QuietPayload(loads(line[6..]).value)))
  }

  lemma QuietLinePasses(line: string, loads: string -> Option<PyValue>)
    requires QuietLine(line, loads)
    ensures StepOf(line, loads) == Pass
  {
    if line != "" && StartsWith(line, "data: ") && loads(line[6..]).Some? {
      QuietPayloadSilent(loads(line[6..]).value);
    }
  }

  // ---------------------------------------------------------------------------
  // The whole stream

  /** The step of each line, for a given `json.loads`. */
  function LineSteps(loads: string -> Option<PyValue>): string -> Step {
    line => StepOf(line, loads)
  }

  /**
    The frames produced from the remaining `lines`, given the text and the
    token count accumulated so far; `steps` tells what each line does.
   */
  function RelayFrom(lines: seq<string>, broken: bool, steps: string -> Step, acc: string, tokens: nat): seq<Frame>
    decreases |lines|
  {
    if |lines| == 0 then (if broken then [Error(Raised(Interrupted))] else [])
    else match steps(lines[0])
    case Pass => RelayFrom(lines[1..], broken, steps, acc, tokens)
    case Finish => [Done(acc, tokens)]
    case Emit(c) => [Chunk(c)] + RelayFrom(lines[1..], broken, steps, acc + c, tokens + 1)
    case Fail(f) => [Error(Raised(f))]
  }

  /** Everything `generate` yields for one upstream answer. */
  function Frames(up: Upstream, loads: string -> Option<PyValue>): seq<Frame> {
    match up
    case Refused(e) => [Error(Message(e))]
    case Streamed(lines, broken) => RelayFrom(lines, broken, LineSteps(loads), "", 0)
  }

  /** `generate()`: the loop over the upstream lines with its two accumulators. */
  method Generate(up: Upstream, loads: string -> Option<PyValue>) returns (frames: seq<Frame>)
    ensures frames == Frames(up, loads)
    ensures up.Refused? ==> frames == [Error(Message(up.error))]
  {
    if up.Refused? {
      frames := [Error(Message(up.error))];
      return;
    }
    var lines := up.lines;
    ghost var steps := LineSteps(loads);
    var accumulated := "";
    var totalTokens := 0;
    frames := [];
    var k := 0;
    while k < |lines|
      invariant 0 <= k <= |lines|
      invariant frames + RelayFrom(lines[k..], up.broken, steps, accumulated, totalTokens) == Frames(up, loads)
    {
      RelayStep(lines, k, up.broken, loads, accumulated, totalTokens);
      match StepOf(lines[k], loads) {
        case Finish =>
          frames := frames + [Done(accumulated, totalTokens)];
          return;
        case Fail(f) =>
          frames := frames + [Error(Raised(f))];
          return;
        case Emit(c) =>
          ConcatAssoc(frames, [Chunk(c)], RelayFrom(lines[k + 1..], up.broken, steps, accumulated + c, totalTokens + 1));
          accumulated := accumulated + c;
          totalTokens := totalTokens + 1;
          frames := frames + [Chunk(c)];
        case Pass =>
      }
      k := k + 1;
    }
    assert lines[k..] == [];
    if up.broken {
      frames := frames + [Error(Raised(Interrupted))];
    }
  }

  /** What the line at `k` contributes, and where the rest of the stream carries on. */
  lemma RelayStep(lines: seq<string>, k: nat, broken: bool, loads: string -> Option<PyValue>, acc: string, tokens: nat)
    requires k < |lines|
    ensures var steps := LineSteps(loads);
      RelayFrom(lines[k..], broken, steps, acc, tokens) ==
        match StepOf(lines[k], loads)
        case Pass => RelayFrom(lines[k + 1..], broken, steps, acc, tokens)
        case Finish => [Done(acc, tokens)]
        case Emit(c) => [Chunk(c)] + RelayFrom(lines[k + 1..], broken, steps, acc + c, tokens + 1)
        case Fail(f) => [Error(Raised(f))]
  {
    assert lines[k..][0] == lines[k] && lines[k..][1..] == lines[k + 1..];
  }

  // ---------------------------------------------------------------------------
  // What the frames say

  /** The concatenated contents of the chunk frames. */
  function ChunkText(fs: seq<Frame>): string {
    if |fs| == 0 then ""
    else ChunkText(fs[..|fs| - 1]) + (if fs[|fs| - 1].Chunk? then fs[|fs| - 1].content else "")
  }

  predicate AllChunks(fs: seq<Frame>) {
    forall i :: 0 <= i < |fs| ==> fs[i].Chunk?
  }

  /** The contents of the deltas the upstream sends before its first terminal line (done marker or fault). */
  function Deltas(lines: seq<string>, steps: string -> Step): seq<string>
    decreases |lines|
  {
    if |lines| == 0 then []
    else match steps(lines[0])
    case Pass => Deltas(lines[1..], steps)
    case Emit(c) => [c] + Deltas(lines[1..], steps)
    case _ => []
  }

  /** Whether the done marker comes before the end of the stream and before any fault. */
  predicate ReachesDone(lines: seq<string>, steps: string -> Step)
    decreases |lines|
  {
    if |lines| == 0 then false
    else match steps(lines[0])
    case Finish => true
    case Fail(_) => false
    case _ => ReachesDone(lines[1..], steps)
  }

  /** The contents of the chunk frames, in order. */
  function ChunkContents(fs: seq<Frame>): seq<string> {
    if |fs| == 0 then []
    else (if fs[0].Chunk? then [fs[0].content] else []) + ChunkContents(fs[1..])
  }

  lemma {:induction false} ChunkTextPrepend(c: string, fs: seq<Frame>)
    ensures ChunkText([Chunk(c)] + fs) == c + ChunkText(fs)
    decreases |fs|
  {
    if |fs| > 0 {
      var fs' := fs[..|fs| - 1];
      ChunkTextPrepend(c, fs');
      assert ([Chunk(c)] + fs)[..|fs|] == [Chunk(c)] + fs';
    }
  }

  /** Whether some frame is a done frame. */
  predicate HasDone(fs: seq<Frame>) {
    exists i :: 0 <= i < |fs| && fs[i].Done?
  }

  /** A done frame somewhere in `[Chunk(c)] + rest` is one in `rest`. */
  lemma DoneInTail(c: string, rest: seq<Frame>)
    ensures HasDone([Chunk(c)] + rest) <==> HasDone(rest)
  {
    var fs := [Chunk(c)] + rest;
    if exists i :: 0 <= i < |fs| && fs[i].Done? {
      var i :| 0 <= i < |fs| && fs[i].Done?;
      assert rest[i - 1].Done?;
    }
    if exists i :: 0 <= i < |rest| && rest[i].Done? {
      var i :| 0 <= i < |rest| && rest[i].Done?;
      assert fs[i + 1].Done?;
    }
  }

  /**
    Every frame but the last is a chunk, and a final done frame carries
    `acc` plus the chunks' text, and `tokens` plus their number.
   */
  predicate Shaped(fs: seq<Frame>, acc: string, tokens: nat) {
    && (|fs| > 0 ==> AllChunks(fs[..|fs| - 1]))
    && (|fs| > 0 && fs[|fs| - 1].Done? ==>
          && fs[|fs| - 1].content == acc + ChunkText(fs[..|fs| - 1])
          && fs[|fs| - 1].totalTokens == tokens + |fs| - 1)
  }

  /** The part of the shape that concerns a chunk frame put in front of the rest. */
  lemma ChunkThenRest(c: string, rest: seq<Frame>, acc: string, tokens: nat)
    requires Shaped(rest, acc + c, tokens + 1)
    ensures Shaped([Chunk(c)] + rest, acc, tokens)
  {
    var fs := [Chunk(c)] + rest;
    if |rest| > 0 {
      assert fs[..|fs| - 1] == [Chunk(c)] + rest[..|rest| - 1];
      ChunkTextPrepend(c, rest[..|rest| - 1]);
    } else {
      assert fs[..|fs| - 1] == [];
    }
  }

  /** From any point on, the chunk texts are the deltas still to come. */
  lemma {:induction false} RelayChunks(lines: seq<string>, broken: bool, steps: string -> Step, acc: string, tokens: nat)
    ensures ChunkContents(RelayFrom(lines, broken, steps, acc, tokens)) == Deltas(lines, steps)
    decreases |lines|
  {
    if |lines| > 0 {
      match steps(lines[0])
      case Pass =>
        RelayChunks(lines[1..], broken, steps, acc, tokens);
      case Finish =>
      case Fail(f) =>
      case Emit(c) =>
        var rest := RelayFrom(lines[1..], broken, steps, acc + c, tokens + 1);
        RelayChunks(lines[1..], broken, steps, acc + c, tokens + 1);
        assert ([Chunk(c)] + rest)[1..] == rest;
    }
  }

  /**
    From any point on, every frame but the last is a chunk, and a final done
    frame carries the text accumulated before plus the chunks, and the token
    count plus their number.
   */
  lemma {:induction false} RelayPrefix(lines: seq<string>, broken: bool, steps: string -> Step, acc: string, tokens: nat)
    ensures Shaped(RelayFrom(lines, broken, steps, acc, tokens), acc, tokens)
    decreases |lines|
  {
    if |lines| > 0 {
      match steps(lines[0])
      case Pass =>
        RelayPrefix(lines[1..], broken, steps, acc, tokens);
        assert RelayFrom(lines, broken, steps, acc, tokens) == RelayFrom(lines[1..], broken, steps, acc, tokens);
      case Finish =>
        assert RelayFrom(lines, broken, steps, acc, tokens) == [Done(acc, tokens)];
      case Fail(f) =>
        assert RelayFrom(lines, broken, steps, acc, tokens) == [Error(Raised(f))];
      case Emit(c) =>
        var rest := RelayFrom(lines[1..], broken, steps, acc + c, tokens + 1);
        RelayPrefix(lines[1..], broken, steps, acc + c, tokens + 1);
        assert RelayFrom(lines, broken, steps, acc, tokens) == [Chunk(c)] + rest;
        ChunkThenRest(c, rest, acc, tokens);
    }
  }

  /** From any point on, a done frame appears exactly when the done marker is reached. */
  lemma {:induction false} RelayDone(lines: seq<string>, broken: bool, steps: string -> Step, acc: string, tokens: nat)
    ensures HasDone(RelayFrom(lines, broken, steps, acc, tokens)) <==> ReachesDone(lines, steps)
    decreases |lines|
  {
    if |lines| > 0 {
      match steps(lines[0])
      case Pass =>
        RelayDone(lines[1..], broken, steps, acc, tokens);
        assert RelayFrom(lines, broken, steps, acc, tokens) == RelayFrom(lines[1..], broken, steps, acc, tokens);
        assert ReachesDone(lines, steps) == ReachesDone(lines[1..], steps);
      case Finish =>
        assert RelayFrom(lines, broken, steps, acc, tokens)[0].Done?;
      case Fail(f) =>
      case Emit(c) =>
        var rest := RelayFrom(lines[1..], broken, steps, acc + c, tokens + 1);
        RelayDone(lines[1..], broken, steps, acc + c, tokens + 1);
        assert RelayFrom(lines, broken, steps, acc, tokens) == [Chunk(c)] + rest;
        assert ReachesDone(lines, steps) == ReachesDone(lines[1..], steps);
        DoneInTail(c, rest);
    }
  }

  /**
    The shape of the output from any point on: the chunk texts are the
    deltas, every frame but the last is a chunk, a done frame appears
    exactly when the done marker is reached, and it carries the text
    accumulated before plus its chunks, and the token count plus their number.
   */
  lemma RelayShape(lines: seq<string>, broken: bool, steps: string -> Step, acc: string, tokens: nat)
    ensures var fs := RelayFrom(lines, broken, steps, acc, tokens);
      && ChunkContents(fs) == Deltas(lines, steps)
      && (|fs| > 0 ==> AllChunks(fs[..|fs| - 1]))
      && (|fs| > 0 && fs[|fs| - 1].Done? ==>
            && fs[|fs| - 1].content == acc + ChunkText(fs[..|fs| - 1])
            && fs[|fs| - 1].totalTokens == tokens + |fs| - 1)
      && (HasDone(fs) <==> ReachesDone(lines, steps))
  {
    RelayChunks(lines, broken, steps, acc, tokens);
    RelayPrefix(lines, broken, steps, acc, tokens);
    RelayDone(lines, broken, steps, acc, tokens);
  }

  /**
    For a stream that was not refused: one chunk frame per content delta,
    in upstream order; a done frame appears exactly when the done marker
    is reached, only as the last frame, with the concatenated chunk texts
    as its content and the number of chunk frames as its token count.
   */
  lemma StreamFrames(lines: seq<string>, broken: bool, loads: string -> Option<PyValue>)
    ensures var fs := Frames(Streamed(lines, broken), loads);
      && ChunkContents(fs) == Deltas(lines, LineSteps(loads))
      && ((exists i :: 0 <= i < |fs| && fs[i].Done?) <==> ReachesDone(lines, LineSteps(loads)))
      && forall i :: 0 <= i < |fs| && fs[i].Done? ==>
           && i == |fs| - 1
           && AllChunks(fs[..i])
           && fs[i].content == ChunkText(fs[..i])
           && fs[i].totalTokens == i
  {
    var fs := Frames(Streamed(lines, broken), loads);
    assert fs == RelayFrom(lines, broken, LineSteps(loads), "", 0);
    RelayChunks(lines, broken, LineSteps(loads), "", 0);
    RelayDone(lines, broken, LineSteps(loads), "", 0);
    RelayPrefix(lines, broken, LineSteps(loads), "", 0);
    DoneFromStart(fs);
  }

  /** From the start of a stream, a done frame is the last one and sums up every frame before it. */
  lemma DoneFromStart(fs: seq<Frame>)
    requires Shaped(fs, "", 0)
    ensures forall i :: 0 <= i < |fs| && fs[i].Done? ==>
      && i == |fs| - 1
      && AllChunks(fs[..i])
      && fs[i].content == ChunkText(fs[..i])
      && fs[i].totalTokens == i
  {
    DoneIsLast(fs);
    if |fs| > 0 {
      assert "" + ChunkText(fs[..|fs| - 1]) == ChunkText(fs[..|fs| - 1]);
    }
  }

  /** When every frame but the last is a chunk, a done frame can only be the last one. */
  lemma DoneIsLast(fs: seq<Frame>)
    requires |fs| > 0 ==> AllChunks(fs[..|fs| - 1])
    ensures forall i :: 0 <= i < |fs| && fs[i].Done? ==> i == |fs| - 1
  {
    forall i | 0 <= i < |fs| - 1 ensures fs[i].Chunk? {
      assert fs[..|fs| - 1][i] == fs[i];
    }
  }

  /** A stream that ends without the done marker and without a fault yields chunk frames only, or a final error if the connection broke. */
  lemma {:induction false} NoMarkerNoDone(lines: seq<string>, broken: bool, steps: string -> Step, acc: string, tokens: nat)
    requires forall i :: 0 <= i < |lines| ==> steps(lines[i]).Pass? || steps(lines[i]).Emit?
    ensures var fs := RelayFrom(lines, broken, steps, acc, tokens);
      && (broken ==> |fs| > 0 && fs[|fs| - 1] == Error(Raised(Interrupted)) && AllChunks(fs[..|fs| - 1]))
      && (!broken ==> AllChunks(fs))
    decreases |lines|
  {
    if |lines| > 0 {
      var s := steps(lines[0]);
      assert forall i :: 0 <= i < |lines[1..]| ==> lines[1..][i] == lines[i + 1];
      var acc', tokens' := if s.Emit? then acc + s.content else acc, if s.Emit? then tokens + 1 else tokens;
      NoMarkerNoDone(lines[1..], broken, steps, acc', tokens');
      var rest := RelayFrom(lines[1..], broken, steps, acc', tokens');
      if s.Emit? {
        var fs := [Chunk(s.content)] + rest;
        if broken {
          assert fs[..|fs| - 1] == [fs[0]] + rest[..|rest| - 1];
        }
      }
    }
  }

  /** The chunk frames carrying the given contents, in order. */
  function ChunkFrames(cs: seq<string>): (fs: seq<Frame>)
    ensures |fs| == |cs|
    ensures forall i :: 0 <= i < |cs| ==> fs[i] == Chunk(cs[i])
  {
    seq(|cs|, i requires 0 <= i < |cs| => Chunk(cs[i]))
  }

  lemma ChunkFramesCons(c: string, cs: seq<string>, tail: seq<Frame>)
    ensures ChunkFrames([c] + cs) + tail == [Chunk(c)] + (ChunkFrames(cs) + tail)
  {
    assert ChunkFrames([c] + cs) == [Chunk(c)] + ChunkFrames(cs);
  }

  /**
    An exception raised on a line ends the output: the deltas before it are
    forwarded as chunks, then exactly one error frame carries the exception,
    and nothing after that line is read.
   */
  lemma {:induction false} FaultEnds(before: seq<string>, line: string, after: seq<string>, broken: bool,
                                     steps: string -> Step, acc: string, tokens: nat, f: Fault)
    requires steps(line) == Fail(f)
    requires forall i :: 0 <= i < |before| ==> steps(before[i]).Pass? || steps(before[i]).Emit?
    ensures RelayFrom(before + [line] + after, broken, steps, acc, tokens) ==
            ChunkFrames(Deltas(before, steps)) + [Error(Raised(f))]
    decreases |before|
  {
    var xs := before + [line] + after;
    if |before| == 0 {
      assert xs[0] == line;
    } else {
      assert xs[1..] == before[1..] + [line] + after;
      assert xs[0] == before[0];
      assert forall i :: 0 <= i < |before[1..]| ==> before[1..][i] == before[i + 1];
      var s := steps(before[0]);
      var acc', tokens' := if s.Emit? then acc + s.content else acc, if s.Emit? then tokens + 1 else tokens;
      FaultEnds(before[1..], line, after, broken, steps, acc', tokens', f);
      if s.Emit? {
        ChunkFramesCons(s.content, Deltas(before[1..], steps), [Error(Raised(f))]);
      }
    }
  }

  /**
    A decoded payload whose inspection raises ends the stream the same way:
    the chunks of the earlier deltas, then one error frame with the exception
    (app.py:541-542).
   */
  lemma RaisingLineEndsStream(before: seq<string>, line: string, after: seq<string>, broken: bool,
                              loads: string -> Option<PyValue>, e: PyError)
    requires forall i :: 0 <= i < |before| ==> StepOf(before[i], loads).Pass? || StepOf(before[i], loads).Emit?
    requires line != "" && StartsWith(line, "data: ") && PyStrip(line[6..]) != "[DONE]"
    requires loads(line[6..]).Some? && Inspect(loads(line[6..]).value) == Raise(e)
    ensures Frames(Streamed(before + [line] + after, broken), loads) ==
            ChunkFrames(Deltas(before, LineSteps(loads))) + [Error(Raised(Raises(e)))]
  {
    assert LineSteps(loads)(line) == Fail(Raises(e));
    FaultEnds(before, line, after, broken, LineSteps(loads), "", 0, Raises(e));
  }

  /**
    Payloads whose inspection raises: a payload that is not a container
    (`'choices' in 5`), 'choices' without a length, 'choices' a non-empty
    dict (`[0]` is a KeyError), and a first choice that has no `.get`.
   */
  lemma InspectRaises(v: PyValue, fields: map<string, PyValue>)
    ensures (v.PyNone? || v.PyBool? || v.PyNumber?) ==> Inspect(v) == Raise(TypeError)
    ensures "choices" in fields ==>
      var choices := fields["choices"];
      && ((choices.PyNone? || choices.PyBool? || choices.PyNumber?) ==> Inspect(PyDict(fields)) == Raise(TypeError))
      && (choices.PyDict? && |choices.fields| > 0 ==> Inspect(PyDict(fields)) == Raise(KeyError))
      && (choices.PyList? && |choices.items| > 0 && !choices.items[0].PyDict? ==>
            Inspect(PyDict(fields)) == Raise(AttributeError))
  {
  }

  /** Lines that pass, anywhere before the rest of the stream, change nothing. */
  lemma {:induction false} PassingLinesIgnored(quiet: seq<string>, lines: seq<string>, broken: bool,
                                               steps: string -> Step, acc: string, tokens: nat)
    requires forall i :: 0 <= i < |quiet| ==> steps(quiet[i]) == Pass
    ensures RelayFrom(quiet + lines, broken, steps, acc, tokens) == RelayFrom(lines, broken, steps, acc, tokens)
    decreases |quiet|
  {
    if |quiet| > 0 {
      assert (quiet + lines)[1..] == quiet[1..] + lines;
      assert (quiet + lines)[0] == quiet[0];
      assert forall i :: 0 <= i < |quiet[1..]| ==> quiet[1..][i] == quiet[i + 1];
      PassingLinesIgnored(quiet[1..], lines, broken, steps, acc, tokens);
    } else {
      assert quiet + lines == lines;
    }
  }

  /**
    Empty lines, lines without the `data: ` prefix, undecodable JSON and
    quiet payloads yield nothing, wherever they occur before the rest.
   */
  lemma QuietLinesIgnored(quiet: seq<string>, lines: seq<string>, broken: bool, loads: string -> Option<PyValue>)
    requires forall i :: 0 <= i < |quiet| ==> QuietLine(quiet[i], loads)
    ensures Frames(Streamed(quiet + lines, broken), loads) == Frames(Streamed(lines, broken), loads)
  {
    forall i | 0 <= i < |quiet| ensures LineSteps(loads)(quiet[i]) == Pass {
      QuietLinePasses(quiet[i], loads);
    }
    PassingLinesIgnored(quiet, lines, broken, LineSteps(loads), "", 0);
  }

  /** Nothing after the done marker is read: neither the lines that follow it nor a later break matter. */
  lemma {:induction false} DoneStops(before: seq<string>, marker: string, after: seq<string>, after': seq<string>,
                                     broken: bool, broken': bool, steps: string -> Step, acc: string, tokens: nat)
    requires steps(marker) == Finish
    requires forall i :: 0 <= i < |before| ==> steps(before[i]).Pass? || steps(before[i]).Emit?
    ensures RelayFrom(before + [marker] + after, broken, steps, acc, tokens) ==
            RelayFrom(before + [marker] + after', broken', steps, acc, tokens)
    decreases |before|
  {
    var xs, ys := before + [marker] + after, before + [marker] + after';
    if |before| == 0 {
      assert xs[0] == marker && ys[0] == marker;
    } else {
      assert xs[1..] == before[1..] + [marker] + after;
      assert ys[1..] == before[1..] + [marker] + after';
      assert xs[0] == before[0] && ys[0] == before[0];
      assert forall i :: 0 <= i < |before[1..]| ==> before[1..][i] == before[i + 1];
      var s := steps(before[0]);
      DoneStops(before[1..], marker, after, after', broken, broken', steps,
                if s.Emit? then acc + s.content else acc, if s.Emit? then tokens + 1 else tokens);
    }
  }
}
