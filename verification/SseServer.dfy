/** Printing an event stream (`packages/anila-agent-quickstart/server.py`, `_stream`) and
    reading it back with `llm.py`. */
module SseServer {
  import opened Basics
  import opened PythonText
  import opened SseFraming
  import opened SseReader

  const OUTPUT_CHAR_LIMIT := 100_000

  // ---------------------------------------------------------------- what is printed

  datatype ChunkDelta = Role | Content(s: string) | NoDelta

  datatype Payload =
    | Chunk(id: string, created: int, delta: ChunkDelta, reason: Option<string>)
    | Error(code: string, message: string)

  /** What a reader sees of a printed payload. */
  function Seen(p: Payload): Event {
    match p
    case Error(_, _) => Event(true, None, None)
    case Chunk(_, _, delta, reason) =>
      Event(false, None, Some([Choice(reason, if delta.Content? then Text(delta.s) else Absent)]))
  }

  type Dumps = Payload -> string

  predicate OneLineObject(s: string) {
    s != "" && s[0] == '{' && Clean(s)
  }

  /** All that is assumed of `json.dumps` and `json.loads`: a payload prints as one line
      beginning with a brace, and reads back. */
  ghost predicate Faithful(dumps: Dumps, loads: Loads) {
    forall p: Payload :: OneLineObject(dumps(p)) && loads(dumps(p)) == Object(Seen(p))
  }

  datatype Line = Ping | DoneLine | Print(payload: Payload)

  /** A line without its blank-line terminator. */
  function LineText(l: Line, dumps: Dumps): string {
    match l
    case Ping => ": ping"
    case DoneLine => "data: [DONE]"
    case Print(p) => "data: " + dumps(p)
  }

  /** `_chunk`, `_sse_error`, `_done` and the heartbeat, as sent. */
  function Sent(l: Line, dumps: Dumps): string {
    LineText(l, dumps) + "\n\n"
  }

  function SentAll(lines: seq<Line>, dumps: Dumps): (out: seq<string>)
    ensures |out| == |lines|
    ensures forall i | 0 <= i < |lines| :: out[i] == Sent(lines[i], dumps)
  {
    seq(|lines|, i requires 0 <= i < |lines| => Sent(lines[i], dumps))
  }

  function Meaning(l: Line): Parsed {
    match l
    case Ping => NoData
    case DoneLine => Done
    case Print(p) => Data(Seen(p))
  }

  function Meanings(lines: seq<Line>): (ps: seq<Parsed>)
    ensures |ps| == |lines|
    ensures forall i | 0 <= i < |lines| :: ps[i] == Meaning(lines[i])
  {
    seq(|lines|, i requires 0 <= i < |lines| => Meaning(lines[i]))
  }

  // ---------------------------------------------------------------- one line reads back

  lemma {:induction false} CleanLines(s: string)
    requires Clean(s)
    ensures UnifyNewlines(s) == s && SplitLines(s) == [s]
  {
    if s != "" {
      CleanLines(s[1..]);
      assert s == [s[0]] + s[1..];
    }
  }

  lemma StripOneSpace(json: string)
    requires OneLineObject(json)
    ensures LeftStrip(" " + json) == json
  {
    assert (" " + json)[1..] == json;
  }

  lemma LineIsClean(l: Line, dumps: Dumps, loads: Loads)
    requires Faithful(dumps, loads)
    ensures Clean(LineText(l, dumps))
  {
    if l.Print? {
      var json := dumps(l.payload);
      assert OneLineObject(json);
      forall i | 0 <= i < |"data: " + json|
        ensures ("data: " + json)[i] != '\n' && ("data: " + json)[i] != '\r'
      {
        if i >= 6 {
          assert ("data: " + json)[i] == json[i - 6];
        }
      }
    }
  }

  lemma DataOfPrinted(json: string)
    ensures DataOfLine("data: " + json) == Some(LeftStrip(" " + json))
  {
    var line := "data: " + json;
    assert line[..5] == "data:";
    assert line[5..] == " " + json;
    assert line[..1] == "d";
  }

  lemma DataLinesOne(line: string)
    ensures DataLines([line]) == match DataOfLine(line) case None => [] case Some(d) => [d]
  {
    DataLinesSnoc([], line);
    assert [] + [line] == [line];
  }

  /** The frame of one `data:` line, up to the reading of its text. */
  lemma DataFrame(text: string, loads: Loads)
    requires Clean("data: " + text) && LeftStrip(" " + text) == text
    ensures ParsedFrame("data: " + text, loads) == ParsedText([text], loads)
  {
    CleanLines("data: " + text);
    DataLinesOne("data: " + text);
    DataOfPrinted(text);
  }

  lemma ObjectText(json: string, loads: Loads)
    requires OneLineObject(json) && loads(json).Object?
    ensures ParsedText([json], loads) == Data(loads(json).event)
  {
    assert json != "[DONE]" by { assert json[0] == '{'; }
    assert JoinLines([json]) == json;
  }

  /** Each printed line parses to what it means. */
  lemma LineReadsBack(l: Line, dumps: Dumps, loads: Loads)
    requires Faithful(dumps, loads)
    ensures ParsedFrame(LineText(l, dumps), loads) == Meaning(l)
  {
    var line := LineText(l, dumps);
    LineIsClean(l, dumps, loads);
    match l
    case Ping =>
      CleanLines(line);
      DataLinesOne(line);
      assert line[..1] == ":";
    case DoneLine =>
      assert line == "data: " + "[DONE]";
      assert (" " + "[DONE]")[1..] == "[DONE]";
      assert LeftStrip("[DONE]") == "[DONE]";
      DataFrame("[DONE]", loads);
    case Print(p) =>
      var json := dumps(p);
      assert OneLineObject(json) && loads(json) == Object(Seen(p));
      StripOneSpace(json);
      DataFrame(json, loads);
      ObjectText(json, loads);
  }

  /** A clean line and its blank line are exactly the first frame. */
  lemma CleanFrame(line: string, later: string)
    requires Clean(line)
    ensures Frames(line + "\n\n" + later).frames == [line] + Frames(later).frames
    ensures Frames(line + "\n\n" + later).rest == Frames(later).rest
  {
    var text := line + "\n\n" + later;
    forall k | k < |line|
      ensures !DelimiterAt(text, k)
    {
      assert 0 <= k ==> text[k] == line[k];
    }
    assert LfAt(text, |line|);
    assert DelimiterAt(text, |line|);
    assert DelimiterAt(text, FrameEnd(text).value.0);
    assert FrameEnd(text) == Some((|line|, |line| + 2));
    assert text[..|line|] == line;
    assert text[|line| + 2..] == later;
  }

  /** And so are a clean line and a blank line with carriage returns. */
  lemma CleanFrameCrlf(line: string, later: string)
    requires Clean(line)
    ensures Frames(line + "\r\n\r\n" + later).frames == [line] + Frames(later).frames
    ensures Frames(line + "\r\n\r\n" + later).rest == Frames(later).rest
  {
    var text := line + "\r\n\r\n" + later;
    forall k | k <= |line|
      ensures DelimiterAt(text, k) <==> k == |line|
    {
      assert 0 <= k < |line| ==> text[k] == line[k];
    }
    assert CrlfAt(text, |line|) && !LfAt(text, |line|);
    assert DelimiterAt(text, FrameEnd(text).value.0);
    assert FrameEnd(text) == Some((|line|, |line| + 4));
    assert text[..|line|] == line;
    assert text[|line| + 4..] == later;
  }

  lemma SentFirst(l: Line, later: string, dumps: Dumps, loads: Loads)
    requires Faithful(dumps, loads)
    ensures Frames(Sent(l, dumps) + later).rest == Frames(later).rest
    ensures ParseAll(Frames(Sent(l, dumps) + later).frames, loads) ==
              [Meaning(l)] + ParseAll(Frames(later).frames, loads)
  {
    var line := LineText(l, dumps);
    LineIsClean(l, dumps, loads);
    CleanFrame(line, later);
    LineReadsBack(l, dumps, loads);
    ParseAllAppend([line], Frames(later).frames, loads);
    assert ParseAll([line], loads) == [Meaning(l)];
  }

  lemma SentAllFirst(lines: seq<Line>, dumps: Dumps)
    requires lines != []
    ensures Concat(SentAll(lines, dumps)) == Sent(lines[0], dumps) + Concat(SentAll(lines[1..], dumps))
    ensures Meanings(lines) == [Meaning(lines[0])] + Meanings(lines[1..])
  {
    assert SentAll(lines, dumps)[1..] == SentAll(lines[1..], dumps);
  }

  /** Reading the sent text is interpreting the meanings of its lines. */
  lemma {:induction false} SentReadsBack(lines: seq<Line>, dumps: Dumps, loads: Loads)
    requires Faithful(dumps, loads)
    ensures Frames(Concat(SentAll(lines, dumps))).rest == ""
    ensures ParseAll(Frames(Concat(SentAll(lines, dumps))).frames, loads) == Meanings(lines)
  {
    if lines == [] {
      assert Frames("").frames == [];
    } else {
      SentReadsBack(lines[1..], dumps, loads);
      SentAllFirst(lines, dumps);
      SentFirst(lines[0], Concat(SentAll(lines[1..], dumps)), dumps, loads);
    }
  }

  // ---------------------------------------------------------------- what the server does

  datatype Prepared = Ready | SearchFailed | ModelFailed

  /** What the responder does next, as the streaming loop observes it.  `Quiet` is a
      heartbeat period without a piece; `Failed` is an upstream error or the deadline;
      `Cancelled` stands for anything that leaves the generator without an ending. */
  datatype Happening =
    | Piece(text: string)
    | Quiet(pastDeadline: bool)
    | Failed
    | Exhausted(reason: string)
    | Cancelled

  datatype Ending = Complete(reason: string) | ErrorEnding(code: string) | Dropped

  /** The pieces a client should receive. */
  function PiecesOf(hs: seq<Happening>): seq<string> {
    if hs == [] then []
    else
      match hs[0]
      case Piece(t) =>
        if t == "" then PiecesOf(hs[1..])
        else if |t| > OUTPUT_CHAR_LIMIT then []
        else [t] + PiecesOf(hs[1..])
      case Quiet(late) => if late then [] else PiecesOf(hs[1..])
      case Failed => []
      case Exhausted(_) => []
      case Cancelled => []
  }

  /** How the stream should end.  The length bound is on each piece, not on their sum. */
  function EndingOf(hs: seq<Happening>, saw: bool): Ending {
    if hs == [] then Dropped
    else
      match hs[0]
      case Piece(t) =>
        if t == "" then EndingOf(hs[1..], saw)
        else if |t| > OUTPUT_CHAR_LIMIT then ErrorEnding("output_limit")
        else EndingOf(hs[1..], true)
      case Quiet(late) => if late then ErrorEnding("upstream_error") else EndingOf(hs[1..], saw)
      case Failed => ErrorEnding("upstream_error")
      case Exhausted(reason) =>
        if !saw then ErrorEnding("empty_completion")
        else Complete(if reason == "" then "stop" else reason)
      case Cancelled => Dropped
  }

  function PiecesFor(prepared: Prepared, hs: seq<Happening>): seq<string> {
    if prepared.Ready? then PiecesOf(hs) else []
  }

  function EndingFor(prepared: Prepared, hs: seq<Happening>): Ending {
    match prepared
    case SearchFailed => ErrorEnding("search_failed")
    case ModelFailed => ErrorEnding("upstream_error")
    case Ready => EndingOf(hs, false)
  }

  // ---------------------------------------------------------------- how a stream ends

  /** Events that let the loop go on: a piece within the limit, or a heartbeat in time. */
  predicate GoesOn(h: Happening) {
    (h.Piece? && |h.text| <= OUTPUT_CHAR_LIMIT) || h == Quiet(false)
  }

  /** The loop stops at event `k`, or runs out of events. */
  predicate StopsAtEvent(hs: seq<Happening>, k: nat) {
    k <= |hs| && (forall i | 0 <= i < k :: GoesOn(hs[i])) && (k < |hs| ==> !GoesOn(hs[k]))
  }

  function TextOf(h: Happening): string {
    if h.Piece? then h.text else ""
  }

  function TextsUpTo(hs: seq<Happening>, k: nat): seq<string>
    requires k <= |hs|
  {
    seq(k, i requires 0 <= i < k => TextOf(hs[i]))
  }

  /** The pieces are the texts up to the event that stops the loop, without the empty ones. */
  lemma {:induction false} PiecesAre(hs: seq<Happening>, k: nat)
    requires StopsAtEvent(hs, k)
    ensures Concat(PiecesOf(hs)) == Concat(TextsUpTo(hs, k))
    ensures forall t | t in PiecesOf(hs) :: t != "" && |t| <= OUTPUT_CHAR_LIMIT
  {
    if k > 0 {
      TextsFrom(hs, k);
      PiecesAre(hs[1..], k - 1);
    }
  }

  lemma TextsFrom(hs: seq<Happening>, k: nat)
    requires 0 < k <= |hs|
    ensures TextsUpTo(hs, k) == [TextOf(hs[0])] + TextsUpTo(hs[1..], k - 1)
  {
  }

  /** And that event decides the ending, together with whether there was a piece. */
  lemma {:induction false} EndingIs(hs: seq<Happening>, k: nat, saw: bool)
    requires StopsAtEvent(hs, k)
    ensures EndingOf(hs, saw) ==
              if k == |hs| then Dropped
              else
                match hs[k]
                case Piece(_) => ErrorEnding("output_limit")
                case Quiet(_) => ErrorEnding("upstream_error")
                case Failed => ErrorEnding("upstream_error")
                case Cancelled => Dropped
                case Exhausted(reason) =>
                  if saw || PiecesOf(hs) != [] then Complete(if reason == "" then "stop" else reason)
                  else ErrorEnding("empty_completion")
  {
    if k > 0 { EndingIs(hs[1..], k - 1, saw || TextOf(hs[0]) != ""); }
  }

  // ---------------------------------------------------------------- the output limit

  /** The first event that ends the loop is a piece over the limit. */
  predicate HitsLimit(hs: seq<Happening>) {
    && hs != []
    && match hs[0]
       case Piece(t) => |t| > 100_000 || HitsLimit(hs[1..])
       case Quiet(late) => !late && HitsLimit(hs[1..])
       case _ => false
  }

  /** The limit ends a stream exactly when one piece exceeds it. */
  lemma {:induction false} OutputLimitIff(hs: seq<Happening>, saw: bool)
    ensures EndingOf(hs, saw) == ErrorEnding("output_limit") <==> HitsLimit(hs)
  {
    if hs != [] { OutputLimitIff(hs[1..], saw || (hs[0].Piece? && hs[0].text != "")); }
  }

  function Copies(n: nat, t: string): seq<string> {
    if n == 0 then [] else [t] + Copies(n - 1, t)
  }

  function CopiesThenEnd(n: nat, t: string): seq<Happening> {
    if n == 0 then [Exhausted("stop")] else [Piece(t)] + CopiesThenEnd(n - 1, t)
  }

  /** So no bound holds for the sum: any number of pieces within the limit is a complete
      answer. */
  lemma {:induction false} SumIsUnlimited(n: nat, t: string, saw: bool)
    requires 0 < |t| <= OUTPUT_CHAR_LIMIT && (saw || n > 0)
    ensures EndingOf(CopiesThenEnd(n, t), saw) == Complete("stop")
    ensures PiecesOf(CopiesThenEnd(n, t)) == Copies(n, t) && |Concat(Copies(n, t))| == n * |t|
  {
    if n > 0 {
      assert CopiesThenEnd(n, t)[1..] == CopiesThenEnd(n - 1, t);
      assert Copies(n, t)[1..] == Copies(n - 1, t);
      SumIsUnlimited(n - 1, t, true);
      assert n * |t| == |t| + (n - 1) * |t|;
    }
  }

  // ---------------------------------------------------------------- what a heartbeat does

  /** What the streaming loop observes of a responder that would behave as `hs`:
      `asyncio.wait_for` cancels it when a heartbeat period passes without a piece, and unless
      it catches that it is over; the next wait finds it exhausted. */
  function Interrupted(hs: seq<Happening>, reason: string): seq<Happening> {
    if hs == [] then []
    else if hs[0] == Quiet(false) then [hs[0], Exhausted(reason)]
    else [hs[0]] + Interrupted(hs[1..], reason)
  }

  /** The responder lets a heartbeat period pass before it ends or is stopped. */
  predicate Pauses(hs: seq<Happening>) {
    hs != [] && (hs[0] == Quiet(false) || (hs[0].Piece? && |hs[0].text| <= OUTPUT_CHAR_LIMIT && Pauses(hs[1..])))
  }

  /** A responder that pauses is cut short at its first pause, and what it had produced is sent
      as a complete answer if it is anything at all; one that does not pause is not affected. */
  lemma {:induction false} HeartbeatCutsShort(hs: seq<Happening>, reason: string, saw: bool)
    ensures var cut := Interrupted(hs, reason);
            && PiecesOf(cut) <= PiecesOf(hs)
            && EndingOf(cut, saw) ==
                 (if !Pauses(hs) then EndingOf(hs, saw)
                  else if saw || PiecesOf(cut) != [] then Complete(if reason == "" then "stop" else reason)
                  else ErrorEnding("empty_completion"))
            && (!Pauses(hs) ==> PiecesOf(cut) == PiecesOf(hs))
  {
    if hs != [] {
      var cut := Interrupted(hs, reason);
      if hs[0] == Quiet(false) {
        assert cut[1..] == [Exhausted(reason)];
      } else {
        assert cut[1..] == Interrupted(hs[1..], reason);
        HeartbeatCutsShort(hs[1..], reason, saw || (hs[0].Piece? && hs[0].text != ""));
      }
    }
  }

  /** What the responder would have done after its first pause. */
  function AfterPause(hs: seq<Happening>): seq<Happening> {
    if hs == [] then [] else if hs[0] == Quiet(false) then hs[1..] else AfterPause(hs[1..])
  }

  /** And pieces are lost exactly when there were any after the pause. */
  lemma {:induction false} HeartbeatLosesIff(hs: seq<Happening>, reason: string)
    ensures PiecesOf(Interrupted(hs, reason)) == PiecesOf(hs) <==> !Pauses(hs) || PiecesOf(AfterPause(hs)) == []
  {
    if hs != [] {
      var cut := Interrupted(hs, reason);
      if hs[0] == Quiet(false) {
        assert cut[1..] == [Exhausted(reason)];
        assert PiecesOf(cut) == PiecesOf([Exhausted(reason)]) == [];
      } else {
        assert cut[1..] == Interrupted(hs[1..], reason);
        HeartbeatLosesIff(hs[1..], reason);
        if hs[0].Piece? {
          assert ([hs[0].text] + PiecesOf(cut[1..]))[1..] == PiecesOf(cut[1..]);
          assert ([hs[0].text] + PiecesOf(hs[1..]))[1..] == PiecesOf(hs[1..]);
        }
      }
    }
  }

  /** Half an answer, delivered as complete. */
  lemma HalfAnswerIsComplete()
    ensures var hs := [Piece("a"), Quiet(false), Piece("b"), Exhausted("stop")];
            && PiecesOf(hs) == ["a", "b"]
            && PiecesOf(Interrupted(hs, "stop")) == ["a"] && EndingOf(Interrupted(hs, "stop"), false) == Complete("stop")
  {
    var hs := [Piece("a"), Quiet(false), Piece("b"), Exhausted("stop")];
    assert hs[1..] == [Quiet(false), Piece("b"), Exhausted("stop")];
    assert hs[1..][1..] == [Piece("b"), Exhausted("stop")];
    assert hs[1..][1..][1..] == [Exhausted("stop")];
    assert PiecesOf([Exhausted("stop")]) == [];
    assert Interrupted(hs, "stop") == [Piece("a")] + Interrupted(hs[1..], "stop");
    HeartbeatCutsShort(hs, "stop", false);
    assert Interrupted(hs, "stop")[1..] == [Quiet(false), Exhausted("stop")];
    assert PiecesOf([Quiet(false), Exhausted("stop")]) == PiecesOf([Exhausted("stop")]) by {
      assert [Quiet(false), Exhausted("stop")][1..] == [Exhausted("stop")];
    }
  }

  // ---------------------------------------------------------------- what the client gets

  /** A client that reads `text` gets the pieces and learns the ending. */
  ghost predicate Delivers(text: string, loads: Loads, pieces: seq<string>, ending: Ending) {
    var r := Read(text, FRESH, loads);
    && r.texts == pieces
    && match ending
       case Complete(reason) => r.outcome == Returned && r.fields.finishReason == reason
       case ErrorEnding(_) => r.outcome == Raised(UpstreamSaysError)
       case Dropped => r.outcome == Raised(Truncated)
  }

  /** `[DONE]` is sent once, as the last thing, unless the stream was dropped. */
  ghost predicate DoneOnceAndLast(out: seq<string>, ending: Ending) {
    && (forall i | 0 <= i < |out| - 1 :: out[i] != "data: [DONE]\n\n")
    && (if ending.Dropped? then |out| > 0 ==> out[|out| - 1] != "data: [DONE]\n\n"
        else |out| > 0 && out[|out| - 1] == "data: [DONE]\n\n")
  }

  ghost predicate NoDone(lines: seq<Line>) {
    forall i | 0 <= i < |lines| :: !lines[i].DoneLine?
  }

  lemma OnlyDoneIsDone(l: Line, dumps: Dumps, loads: Loads)
    requires Faithful(dumps, loads)
    ensures Sent(l, dumps) == "data: [DONE]\n\n" <==> l.DoneLine?
  {
    match l
    case DoneLine =>
    case Ping =>
      assert Sent(l, dumps)[0] == ':';
    case Print(p) =>
      assert OneLineObject(dumps(p));
      assert Sent(l, dumps)[6] == '{';
  }

  lemma DoneOnce(lines: seq<Line>, dumps: Dumps, loads: Loads, ending: Ending)
    requires Faithful(dumps, loads)
    requires if ending.Dropped? then NoDone(lines)
             else |lines| > 0 && lines[|lines| - 1].DoneLine? && NoDone(lines[..|lines| - 1])
    ensures DoneOnceAndLast(SentAll(lines, dumps), ending)
  {
    forall i | 0 <= i < |lines|
      ensures SentAll(lines, dumps)[i] == "data: [DONE]\n\n" <==> lines[i].DoneLine?
    {
      OnlyDoneIsDone(lines[i], dumps, loads);
    }
    forall i | 0 <= i < |lines| - 1
      ensures !lines[i].DoneLine?
    {
      assert !ending.Dropped? ==> lines[..|lines| - 1][i] == lines[i];
    }
  }

  /** One more line is one more reading step. */
  lemma MeaningsSnoc(lines: seq<Line>, l: Line, f: Fields)
    ensures Interpret(Meanings(lines + [l]), f) ==
              var r := Interpret(Meanings(lines), f);
              if r.outcome.Running? then Then(r.texts, Step(Meaning(l), r.fields)) else r
  {
    assert Meanings(lines + [l]) == Meanings(lines) + [Meaning(l)];
    InterpretAppend(Meanings(lines), [Meaning(l)], f);
    var r := Interpret(Meanings(lines), f);
    var s := Step(Meaning(l), r.fields);
    assert [Meaning(l)][1..] == [];
    assert Interpret([], s.fields) == Reading([], s.fields, Running);
    assert s.texts + [] == s.texts;
  }

  /** The lines so far carry `pieces` and nothing final. */
  ghost predicate SoFar(lines: seq<Line>, pieces: seq<string>, saw: bool) {
    && Interpret(Meanings(lines), FRESH) == Reading(pieces, Fields("stop", None, saw), Running)
    && NoDone(lines)
    && saw == (pieces != [])
  }

  lemma SoFarSilent(lines: seq<Line>, pieces: seq<string>, saw: bool, l: Line)
    requires SoFar(lines, pieces, saw)
    requires l.Ping? || (l.Print? && l.payload.Chunk? && l.payload.delta.Role? && l.payload.reason.None?)
    ensures SoFar(lines + [l], pieces, saw)
  {
    MeaningsSnoc(lines, l, FRESH);
    assert pieces + [] == pieces;
  }

  lemma SoFarPiece(lines: seq<Line>, pieces: seq<string>, saw: bool, p: Payload)
    requires SoFar(lines, pieces, saw)
    requires p.Chunk? && p.delta.Content? && p.delta.s != "" && p.reason.None?
    ensures SoFar(lines + [Print(p)], pieces + [p.delta.s], true)
  {
    MeaningsSnoc(lines, Print(p), FRESH);
  }

  /** After the last payload, `[DONE]` ends the reading if the payload did not. */
  lemma TwoMore(lines: seq<Line>, pieces: seq<string>, saw: bool, p: Payload)
    requires SoFar(lines, pieces, saw)
    requires var s := Step(Data(Seen(p)), Fields("stop", None, saw)); s.outcome.Running? ==> s.texts == []
    ensures var s := Step(Data(Seen(p)), Fields("stop", None, saw));
            var r := Interpret(Meanings(lines + [Print(p)] + [DoneLine]), FRESH);
            if s.outcome.Running? then r == Then(pieces, Step(Done, s.fields)) else r == Then(pieces, s)
  {
    MeaningsSnoc(lines, Print(p), FRESH);
    MeaningsSnoc(lines + [Print(p)], DoneLine, FRESH);
    assert pieces + [] == pieces;
  }

  lemma DoneLast(lines: seq<Line>, p: Payload, dumps: Dumps, loads: Loads, ending: Ending)
    requires Faithful(dumps, loads) && NoDone(lines) && !ending.Dropped?
    ensures DoneOnceAndLast(SentAll(lines + [Print(p)] + [DoneLine], dumps), ending)
  {
    var most := lines + [Print(p)];
    assert (most + [DoneLine])[..|most|] == most;
    DoneOnce(most + [DoneLine], dumps, loads, ending);
  }

  lemma ErrorReading(lines: seq<Line>, pieces: seq<string>, saw: bool, p: Payload)
    requires SoFar(lines, pieces, saw) && p.Error?
    ensures Interpret(Meanings(lines + [Print(p)] + [DoneLine]), FRESH) ==
              Reading(pieces, Fields("stop", None, saw), Raised(UpstreamSaysError))
  {
    TwoMore(lines, pieces, saw, p);
    assert pieces + [] == pieces;
  }

  lemma EndError(lines: seq<Line>, pieces: seq<string>, saw: bool, code: string, message: string,
                 dumps: Dumps, loads: Loads)
    requires Faithful(dumps, loads) && SoFar(lines, pieces, saw)
    ensures var all := lines + [Print(Error(code, message))] + [DoneLine];
            && Delivers(Concat(SentAll(all, dumps)), loads, pieces, ErrorEnding(code))
            && DoneOnceAndLast(SentAll(all, dumps), ErrorEnding(code))
  {
    var p := Error(code, message);
    ErrorReading(lines, pieces, saw, p);
    SentReadsBack(lines + [Print(p)] + [DoneLine], dumps, loads);
    DoneLast(lines, p, dumps, loads, ErrorEnding(code));
  }

  lemma CompleteReading(lines: seq<Line>, pieces: seq<string>, p: Payload)
    requires SoFar(lines, pieces, true)
    requires p.Chunk? && p.delta.NoDelta? && p.reason.Some? && p.reason.value != ""
    ensures Interpret(Meanings(lines + [Print(p)] + [DoneLine]), FRESH) ==
              Reading(pieces, Fields(p.reason.value, None, true), Returned)
  {
    var before := Fields("stop", None, true);
    assert Step(Data(Seen(p)), before) == Reading([], before.(finishReason := p.reason.value), Running);
    TwoMore(lines, pieces, true, p);
    assert pieces + [] == pieces;
  }

  lemma EndComplete(lines: seq<Line>, pieces: seq<string>, p: Payload, dumps: Dumps, loads: Loads)
    requires Faithful(dumps, loads) && SoFar(lines, pieces, true)
    requires p.Chunk? && p.delta.NoDelta? && p.reason.Some? && p.reason.value != ""
    ensures Delivers(Concat(SentAll(lines + [Print(p)] + [DoneLine], dumps)), loads, pieces, Complete(p.reason.value))
    ensures DoneOnceAndLast(SentAll(lines + [Print(p)] + [DoneLine], dumps), Complete(p.reason.value))
  {
    CompleteReading(lines, pieces, p);
    SentReadsBack(lines + [Print(p)] + [DoneLine], dumps, loads);
    DoneLast(lines, p, dumps, loads, Complete(p.reason.value));
  }

  lemma EndDropped(lines: seq<Line>, pieces: seq<string>, saw: bool, dumps: Dumps, loads: Loads)
    requires Faithful(dumps, loads) && SoFar(lines, pieces, saw)
    ensures Delivers(Concat(SentAll(lines, dumps)), loads, pieces, Dropped)
    ensures DoneOnceAndLast(SentAll(lines, dumps), Dropped)
  {
    SentReadsBack(lines, dumps, loads);
    DoneOnce(lines, dumps, loads, Dropped);
  }

  predicate EndsWith(out: seq<string>, tail: seq<string>) {
    |tail| <= |out| && out[|out| - |tail|..] == tail
  }

  lemma SentSnoc(lines: seq<Line>, l: Line, dumps: Dumps)
    ensures SentAll(lines + [l], dumps) == SentAll(lines, dumps) + [Sent(l, dumps)]
  {
  }

  /** What holds before event `k` of the loop: the role first, a heartbeat for each quiet
      period so far, and the rest of the account still to come. */
  ghost predicate Looping(hs: seq<Happening>, k: nat, lines: seq<Line>, pieces: seq<string>, role: Line) {
    && k <= |hs| && SoFar(lines, pieces, pieces != []) && lines != [] && lines[0] == role
    && (forall i | 0 <= i < k :: GoesOn(hs[i]))
    && multiset(lines)[Ping] == multiset(hs[..k])[Quiet(false)]
    && EndingOf(hs, false) == EndingOf(hs[k..], pieces != []) && PiecesOf(hs) == pieces + PiecesOf(hs[k..])
  }

  lemma LoopBegins(hs: seq<Happening>, role: Line)
    requires role.Print? && role.payload.Chunk? && role.payload.delta.Role? && role.payload.reason.None?
    ensures Looping(hs, 0, [role], [], role)
  {
    SoFarSilent([], [], false, role);
    assert [] + [role] == [role];
    assert [] + PiecesOf(hs) == PiecesOf(hs) && hs[0..] == hs && hs[..0] == [];
  }

  lemma NextEvent(hs: seq<Happening>, k: nat)
    requires k < |hs|
    ensures hs[k..][1..] == hs[k + 1..] && hs[k..][0] == hs[k] && hs[..k + 1] == hs[..k] + [hs[k]]
  {
  }

  lemma LoopPiece(hs: seq<Happening>, k: nat, lines: seq<Line>, pieces: seq<string>, role: Line, p: Payload)
    requires Looping(hs, k, lines, pieces, role) && k < |hs| && hs[k].Piece? && 0 < |hs[k].text| <= OUTPUT_CHAR_LIMIT
    requires p.Chunk? && p.delta == Content(hs[k].text) && p.reason.None?
    ensures Looping(hs, k + 1, lines + [Print(p)], pieces + [hs[k].text], role)
  {
    NextEvent(hs, k);
    SoFarPiece(lines, pieces, pieces != [], p);
    SeqAssoc(pieces, [hs[k].text], PiecesOf(hs[k + 1..]));
  }

  lemma LoopQuiet(hs: seq<Happening>, k: nat, lines: seq<Line>, pieces: seq<string>, role: Line)
    requires Looping(hs, k, lines, pieces, role) && k < |hs| && hs[k] == Quiet(false)
    ensures Looping(hs, k + 1, lines + [Ping], pieces, role)
  {
    NextEvent(hs, k);
    SoFarSilent(lines, pieces, pieces != [], Ping);
  }

  lemma LoopEmpty(hs: seq<Happening>, k: nat, lines: seq<Line>, pieces: seq<string>, role: Line)
    requires Looping(hs, k, lines, pieces, role) && k < |hs| && hs[k] == Piece("")
    ensures Looping(hs, k + 1, lines, pieces, role)
  {
    NextEvent(hs, k);
  }

  lemma EndsHere(h: Happening, later: seq<Happening>, saw: bool)
    requires !GoesOn(h)
    ensures EndingOf([h] + later, saw) == EndingOf([h], saw) && PiecesOf([h] + later) == []
  {
  }

  lemma AccountEnds(hs: seq<Happening>, k: nat, pieces: seq<string>, saw: bool)
    requires k <= |hs| && (k < |hs| ==> !GoesOn(hs[k]))
    requires EndingOf(hs, false) == EndingOf(hs[k..], saw) && PiecesOf(hs) == pieces + PiecesOf(hs[k..])
    ensures PiecesOf(hs) == pieces
    ensures EndingOf(hs, false) == if k == |hs| then Dropped else EndingOf([hs[k]], saw)
  {
    assert pieces + [] == pieces;
    if k < |hs| {
      EndsHere(hs[k], hs[k + 1..], saw);
      assert hs[k..] == [hs[k]] + hs[k + 1..];
    } else {
      assert hs[k..] == [];
    }
  }

  lemma LoopEnds(hs: seq<Happening>, k: nat, lines: seq<Line>, pieces: seq<string>, role: Line)
    requires Looping(hs, k, lines, pieces, role) && (k < |hs| ==> !GoesOn(hs[k]))
    ensures StopsAtEvent(hs, k) && PiecesOf(hs) == pieces
    ensures EndingOf(hs, false) == if k == |hs| then Dropped else EndingOf([hs[k]], pieces != [])
  {
    AccountEnds(hs, k, pieces, pieces != []);
  }

  /** What is printed for an event that lets the loop go on. */
  function LinesFor(h: Happening, id: string, created: int): seq<Line>
    requires GoesOn(h)
  {
    if h.Quiet? then [Ping] else if h.text == "" then [] else [Print(Chunk(id, created, Content(h.text), None))]
  }

  function PiecesIn(h: Happening): seq<string> {
    if TextOf(h) == "" then [] else [TextOf(h)]
  }

  lemma LoopStep(hs: seq<Happening>, k: nat, lines: seq<Line>, pieces: seq<string>, role: Line, id: string, created: int)
    requires Looping(hs, k, lines, pieces, role) && k < |hs| && GoesOn(hs[k])
    ensures Looping(hs, k + 1, lines + LinesFor(hs[k], id, created), pieces + PiecesIn(hs[k]), role)
  {
    if hs[k].Quiet? {
      LoopQuiet(hs, k, lines, pieces, role);
      assert pieces + [] == pieces;
    } else if hs[k].text == "" {
      LoopEmpty(hs, k, lines, pieces, role);
      assert lines + [] == lines && pieces + [] == pieces;
    } else {
      LoopPiece(hs, k, lines, pieces, role, Chunk(id, created, Content(hs[k].text), None));
    }
  }

  /** The body of the loop: what is sent for one event, and the ending if it stops the loop. */
  method TakeHappening(h: Happening, saw: bool, id: string, created: int, dumps: Dumps)
    returns (sent: seq<string>, nowSaw: bool, stop: Option<Ending>)
    ensures GoesOn(h) ==> sent == SentAll(LinesFor(h, id, created), dumps) && nowSaw == (saw || PiecesIn(h) != []) && stop == None
    ensures !GoesOn(h) ==> sent == [] && stop == Some(EndingOf([h], saw))
  {
    sent, nowSaw, stop := [], saw, None;
    match h
    case Piece(text) =>
      if text != "" {
        nowSaw := true;
        if |text| > OUTPUT_CHAR_LIMIT {
          return [], nowSaw, Some(ErrorEnding("output_limit"));
        }
        sent := [Sent(Print(Chunk(id, created, Content(text), None)), dumps)];
      }
    case Quiet(pastDeadline) =>
      if pastDeadline {
        return [], saw, Some(ErrorEnding("upstream_error"));
      }
      sent := [Sent(Ping, dumps)];
    case Failed =>
      stop := Some(ErrorEnding("upstream_error"));
    case Exhausted(reason) =>
      stop := Some(if !saw then ErrorEnding("empty_completion")
                   else Complete(if reason == "" then "stop" else reason));
    case Cancelled =>
      stop := Some(Dropped);
  }

  lemma SentAppend(lines: seq<Line>, more: seq<Line>, dumps: Dumps)
    ensures SentAll(lines + more, dumps) == SentAll(lines, dumps) + SentAll(more, dumps)
  {
  }

  lemma OneEnding(h: Happening, saw: bool)
    ensures EndingOf([h], saw).Complete? ==> saw && EndingOf([h], saw).reason != ""
  {
    assert EndingOf([h][1..], saw) == Dropped && EndingOf([h][1..], true) == Dropped;
  }

  /** The loop over the responder: the lines printed before the ending, the role first and a
      heartbeat for each quiet period, and the ending. */
  method StreamBody(hs: seq<Happening>, id: string, created: int, dumps: Dumps)
    returns (out: seq<string>, ending: Ending, ghost lines: seq<Line>, ghost taken: nat)
    ensures out == SentAll(lines, dumps) && ending == EndingOf(hs, false)
    ensures lines != [] && lines[0] == Print(Chunk(id, created, Role, None))
    ensures StopsAtEvent(hs, taken) && multiset(lines)[Ping] == multiset(hs[..taken])[Quiet(false)]
    ensures SoFar(lines, PiecesOf(hs), PiecesOf(hs) != [])
    ensures ending.Complete? ==> PiecesOf(hs) != [] && ending.reason != ""
  {
    ghost var role := Print(Chunk(id, created, Role, None));
    ghost var pieces: seq<string> := [];
    LoopBegins(hs, role);
    out, lines := [Sent(Print(Chunk(id, created, Role, None)), dumps)], [role];
    var saw := false;
    for k := 0 to |hs|
      invariant out == SentAll(lines, dumps) && saw == (pieces != []) && Looping(hs, k, lines, pieces, role)
    {
      var sent, nowSaw, stop := TakeHappening(hs[k], saw, id, created, dumps);
      if stop.Some? {
        LoopEnds(hs, k, lines, pieces, role);
        OneEnding(hs[k], saw);
        return out, stop.value, lines, k;
      }
      LoopStep(hs, k, lines, pieces, role, id, created);
      SentAppend(lines, LinesFor(hs[k], id, created), dumps);
      out, saw := out + sent, nowSaw;
      lines, pieces := lines + LinesFor(hs[k], id, created), pieces + PiecesIn(hs[k]);
    }
    LoopEnds(hs, |hs|, lines, pieces, role);
    return out, Dropped, lines, |hs|;
  }

  /** `_stream`.  For every behaviour of the search, the model and the responder, reading
      what was sent gives exactly the pieces and the finish reason on the success path, an
      error on each error ending, and an error when the stream was dropped; heartbeats
      change nothing; `[DONE]` is sent once and last.  `loads` is only there to state it. */
  method Stream(prepared: Prepared, hs: seq<Happening>, id: string, created: int, dumps: Dumps,
                ghost loads: Loads)
    returns (out: seq<string>)
    requires Faithful(dumps, loads)
    ensures Delivers(Concat(out), loads, PiecesFor(prepared, hs), EndingFor(prepared, hs))
    ensures DoneOnceAndLast(out, EndingFor(prepared, hs))
    ensures EndsWith(out, EndingTexts(EndingFor(prepared, hs), MessageOf(prepared, EndingFor(prepared, hs)), id, created, dumps))
    ensures prepared.SearchFailed? ==> out == EndingTexts(ErrorEnding("search_failed"), SEARCH_MESSAGE, id, created, dumps)
    ensures prepared.ModelFailed? ==> out == EndingTexts(ErrorEnding("upstream_error"), MODEL_MESSAGE, id, created, dumps)
  {
    ghost var lines: seq<Line> := [];
    var ending;
    match prepared {
      case SearchFailed =>
        out, ending := [], ErrorEnding("search_failed");
      case ModelFailed =>
        out, ending := [], ErrorEnding("upstream_error");
      case Ready =>
        ghost var taken;
        out, ending, lines, taken := StreamBody(hs, id, created, dumps);
    }
    assert SoFar(lines, PiecesFor(prepared, hs), PiecesFor(prepared, hs) != []);
    var message := MessageOf(prepared, ending);
    out := SendEnding(out, lines, PiecesFor(prepared, hs), ending, message, id, created, dumps, loads);
  }

  /** What an ending sends after the loop. */
  function EndingTexts(ending: Ending, message: string, id: string, created: int, dumps: Dumps): seq<string> {
    match ending
    case Dropped => []
    case ErrorEnding(code) => ["data: " + dumps(Error(code, message)) + "\n\n", "data: [DONE]\n\n"]
    case Complete(reason) => ["data: " + dumps(Chunk(id, created, NoDelta, Some(reason))) + "\n\n", "data: [DONE]\n\n"]
  }

  method SendEnding(before: seq<string>, ghost lines: seq<Line>, ghost pieces: seq<string>, ending: Ending,
                    message: string, id: string, created: int, dumps: Dumps, ghost loads: Loads)
    returns (out: seq<string>)
    requires Faithful(dumps, loads) && SoFar(lines, pieces, pieces != []) && before == SentAll(lines, dumps)
    requires ending.Complete? ==> pieces != [] && ending.reason != ""
    ensures out == before + EndingTexts(ending, message, id, created, dumps)
    ensures Delivers(Concat(out), loads, pieces, ending) && DoneOnceAndLast(out, ending)
  {
    out := before;
    match ending {
      case Dropped =>
        EndDropped(lines, pieces, pieces != [], dumps, loads);
      case ErrorEnding(code) =>
        var payload := Error(code, message);
        EndError(lines, pieces, pieces != [], code, message, dumps, loads);
        SentSnoc(lines, Print(payload), dumps);
        SentSnoc(lines + [Print(payload)], DoneLine, dumps);
        out := out + [Sent(Print(payload), dumps)] + [Sent(DoneLine, dumps)];
      case Complete(reason) =>
        var payload := Chunk(id, created, NoDelta, Some(reason));
        EndComplete(lines, pieces, payload, dumps, loads);
        SentSnoc(lines, Print(payload), dumps);
        SentSnoc(lines + [Print(payload)], DoneLine, dumps);
        out := out + [Sent(Print(payload), dumps)] + [Sent(DoneLine, dumps)];
    }
  }

  const SEARCH_MESSAGE := "資料來源查詢失敗"
  const MODEL_MESSAGE := "模型呼叫失敗"

  /** The text of an error line. */
  function MessageOf(prepared: Prepared, ending: Ending): string {
    if prepared.SearchFailed? then SEARCH_MESSAGE
    else if prepared.ModelFailed? then MODEL_MESSAGE
    else if ending == ErrorEnding("output_limit") then "回答超過長度上限"
    else if ending == ErrorEnding("empty_completion") then "沒有回答文字"
    else "模型呼叫失敗或逾時"
  }

  /** Server to client under any chunking: `cut` re-chunks what was sent without changing
      the text. */
  method Relay(prepared: Prepared, hs: seq<Happening>, id: string, created: int,
               dumps: Dumps, loads: Loads, cut: seq<string> -> seq<string>)
    returns (texts: seq<string>, outcome: Outcome, finishReason: string)
    requires Faithful(dumps, loads)
    requires forall out :: Concat(cut(out)) == Concat(out)
    ensures texts == PiecesFor(prepared, hs)
    ensures match EndingFor(prepared, hs)
            case Complete(reason) => outcome == Returned && finishReason == reason
            case ErrorEnding(_) => outcome == Raised(UpstreamSaysError)
            case Dropped => outcome == Raised(Truncated)
  {
    var out := Stream(prepared, hs, id, created, dumps, loads);
    var result := new LlmResult();
    texts, outcome := ReadStream(cut(out), result, loads);
    finishReason := result.finishReason;
  }
}
