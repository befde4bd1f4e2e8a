/** Reading a model's event stream (`packages/anila-agent-quickstart/llm.py`):
    `_parse_frame`, `_delta_text`, `_read_stream` and `iter_sse_bytes`.

    Text arrives in chunks cut anywhere between characters.  JSON itself is abstract: a
    function `loads` from text to what the reader inspects of the parsed value. */
module SseReader {
  import opened Basics
  import opened PythonText
  import opened SseFraming

  // ---------------------------------------------------------------- values

  datatype Number = IntValue(n: int) | OtherValue

  /** `delta.content` of a choice: missing or null, a string, or anything else. */
  datatype Content = Absent | Text(s: string) | NotText

  datatype Choice = Choice(finishReason: Option<string>, content: Content)

  /** The parts of a JSON object that the reader looks at.  `choices` is `None` when the
      key is missing and `Some([])` when it is present but empty or null. */
  datatype Event = Event(hasError: bool, usage: Option<map<string, Number>>, choices: Option<seq<Choice>>)

  datatype Loaded = Object(event: Event) | NotObject | Invalid

  type Loads = string -> Loaded

  datatype Failure = UpstreamSaysError | BadContent | BadFrame | Empty | Truncated

  datatype Parsed = NoData | Done | Data(event: Event) | Malformed

  // ---------------------------------------------------------------- _parse_frame

  /** `raw.replace("\r\n", "\n")` */
  function UnifyNewlines(s: string): string {
    if |s| >= 2 && s[0] == '\r' && s[1] == '\n' then "\n" + UnifyNewlines(s[2..])
    else if s == "" then ""
    else [s[0]] + UnifyNewlines(s[1..])
  }

  /** `s.split("\n")` */
  function SplitLines(s: string): (lines: seq<string>)
    ensures |lines| >= 1
  {
    if s == "" then [""]
    else
      var later := SplitLines(s[1..]);
      if s[0] == '\n' then [""] + later else [[s[0]] + later[0]] + later[1..]
  }

  function JoinLines(lines: seq<string>): string {
    if lines == [] then "" else if |lines| == 1 then lines[0] else lines[0] + "\n" + JoinLines(lines[1..])
  }

  predicate StartsWith(s: string, prefix: string) {
    |prefix| <= |s| && s[..|prefix|] == prefix
  }

  function DataOfLine(line: string): Option<string> {
    if line == "" || StartsWith(line, ":") then None
    else if StartsWith(line, "data:") then Some(LeftStrip(line[5..]))
    else None
  }

  function DataLines(lines: seq<string>): seq<string> {
    if lines == [] then []
    else
      match DataOfLine(lines[0])
      case None => DataLines(lines[1..])
      case Some(d) => [d] + DataLines(lines[1..])
  }

  lemma {:induction false} DataLinesSnoc(lines: seq<string>, last: string)
    ensures DataLines(lines + [last]) ==
              DataLines(lines) + match DataOfLine(last) case None => [] case Some(d) => [d]
  {
    if lines == [] {
      assert lines + [last] == [last];
    } else {
      assert (lines + [last])[1..] == lines[1..] + [last];
      DataLinesSnoc(lines[1..], last);
    }
  }

  function ParsedText(data: seq<string>, loads: Loads): Parsed {
    if data == [] then NoData
    else
      var text := JoinLines(data);
      if text == "[DONE]" then Done
      else
        match loads(text)
        case Object(event) => Data(event)
        case NotObject => Malformed
        case Invalid => Malformed
  }

  function ParsedFrame(raw: string, loads: Loads): Parsed {
    ParsedText(DataLines(SplitLines(UnifyNewlines(raw))), loads)
  }

  method ParseFrame(raw: string, loads: Loads) returns (parsed: Parsed)
    ensures parsed == ParsedFrame(raw, loads)
  {
    var data: seq<string> := [];
    var lines := SplitLines(UnifyNewlines(raw));
    for k := 0 to |lines|
      invariant data == DataLines(lines[..k])
    {
      var line := lines[k];
      assert lines[..k + 1] == lines[..k] + [line];
      DataLinesSnoc(lines[..k], line);
      if line == "" || StartsWith(line, ":") {
        continue;
      }
      if StartsWith(line, "data:") {
        data := data + [LeftStrip(line[5..])];
      }
    }
    assert lines[..|lines|] == lines;
    if data == [] {
      return NoData;
    }
    var text := JoinLines(data);
    if text == "[DONE]" {
      return Done;
    }
    var loaded := loads(text);
    return if loaded.Object? then Data(loaded.event) else Malformed;
  }

  // ---------------------------------------------------------------- _delta_text

  /** The fields of `LlmResult`, request-local. */
  datatype Fields = Fields(finishReason: string, usage: Option<map<string, int>>, sawText: bool)

  const FRESH := Fields("stop", None, false)

  const USAGE_KEYS := {"prompt_tokens", "completion_tokens", "total_tokens"}

  function UsageCounts(usage: map<string, Number>): map<string, int> {
    map k | k in USAGE_KEYS && k in usage && usage[k].IntValue? :: usage[k].n
  }

  datatype Delta = Fails(why: Failure) | Gives(text: string)

  function DeltaText(event: Event, f: Fields): (Delta, Fields) {
    if event.hasError && event.choices.None? then (Fails(UpstreamSaysError), f)
    else
      var g := if event.usage.Some? then f.(usage := Some(UsageCounts(event.usage.value))) else f;
      if event.choices.None? || event.choices.value == [] then (Gives(""), g)
      else
        var choice := event.choices.value[0];
        var h := if choice.finishReason.Some? && choice.finishReason.value != "" then
                   g.(finishReason := choice.finishReason.value) else g;
        match choice.content
        case Absent => (Gives(""), h)
        case NotText => (Fails(BadContent), h)
        case Text(s) => (Gives(s), h)
  }

  /** `LlmResult`: one object a request, written by the reader and read by the server. */
  class LlmResult {
    var finishReason: string
    var usage: Option<map<string, int>>
    var sawText: bool

    constructor ()
      ensures State() == FRESH
    {
      finishReason, usage, sawText := "stop", None, false;
    }

    function State(): Fields
      reads this
    {
      Fields(finishReason, usage, sawText)
    }

    method TakeDelta(event: Event) returns (delta: Delta)
      modifies this
      ensures (delta, State()) == DeltaText(event, old(State()))
    {
      if event.hasError && event.choices.None? {
        return Fails(UpstreamSaysError);
      }
      if event.usage.Some? {
        usage := Some(UsageCounts(event.usage.value));
      }
      if event.choices.None? || event.choices.value == [] {
        return Gives("");
      }
      var choice := event.choices.value[0];
      if choice.finishReason.Some? && choice.finishReason.value != "" {
        finishReason := choice.finishReason.value;
      }
      match choice.content
      case Absent => return Gives("");
      case NotText => return Fails(BadContent);
      case Text(s) => return Gives(s);
    }
  }

  // ---------------------------------------------------------------- the reader as a fold

  datatype Outcome = Running | Returned | Raised(why: Failure)

  /** What the reader has yielded, the result fields, and whether it has stopped. */
  datatype Reading = Reading(texts: seq<string>, fields: Fields, outcome: Outcome)

  function Then(texts: seq<string>, r: Reading): Reading {
    r.(texts := texts + r.texts)
  }

  function Step(p: Parsed, f: Fields): Reading {
    match p
    case NoData => Reading([], f, Running)
    case Malformed => Reading([], f, Raised(BadFrame))
    case Done => Reading([], f, if !f.sawText && f.finishReason == "stop" then Raised(Empty) else Returned)
    case Data(event) =>
      var (delta, g) := DeltaText(event, f);
      match delta
      case Fails(why) => Reading([], g, Raised(why))
      case Gives(text) =>
        if text == "" then Reading([], g, Running) else Reading([text], g.(sawText := true), Running)
  }

  function Interpret(ps: seq<Parsed>, f: Fields): Reading {
    if ps == [] then Reading([], f, Running)
    else
      var first := Step(ps[0], f);
      if first.outcome.Running? then Then(first.texts, Interpret(ps[1..], first.fields)) else first
  }

  function ParseAll(frames: seq<string>, loads: Loads): (ps: seq<Parsed>)
    ensures |ps| == |frames|
    ensures forall i | 0 <= i < |frames| :: ps[i] == ParsedFrame(frames[i], loads)
  {
    seq(|frames|, i requires 0 <= i < |frames| => ParsedFrame(frames[i], loads))
  }

  /** The end of the input without `[DONE]` is an error. */
  function AtEnd(r: Reading): Reading {
    if r.outcome.Running? then r.(outcome := Raised(Truncated)) else r
  }

  function Read(text: string, f: Fields, loads: Loads): Reading {
    AtEnd(Interpret(ParseAll(Frames(text).frames, loads), f))
  }

  lemma {:induction false} InterpretAppend(ps: seq<Parsed>, qs: seq<Parsed>, f: Fields)
    ensures Interpret(ps + qs, f) ==
              var r := Interpret(ps, f);
              if r.outcome.Running? then Then(r.texts, Interpret(qs, r.fields)) else r
  {
    if ps == [] {
      assert ps + qs == qs;
    } else {
      assert (ps + qs)[1..] == ps[1..] + qs;
      var first := Step(ps[0], f);
      InterpretAppend(ps[1..], qs, first.fields);
      var r := Interpret(ps[1..], first.fields);
      SeqAssoc(first.texts, r.texts, Interpret(qs, r.fields).texts);
    }
  }

  lemma ParseAllAppend(a: seq<string>, b: seq<string>, loads: Loads)
    ensures ParseAll(a + b, loads) == ParseAll(a, loads) + ParseAll(b, loads)
  {
  }

  // ---------------------------------------------------------------- _read_stream

  lemma TakeFrame(buffer: string, f: Fields, loads: Loads)
    requires FrameEnd(buffer).Some?
    ensures var (raw, after) := InlineSplit(buffer).value;
            var s := Step(ParsedFrame(raw, loads), f);
            && Frames(buffer).rest == Frames(after).rest
            && Interpret(ParseAll(Frames(buffer).frames, loads), f) ==
                 if s.outcome.Running? then Then(s.texts, Interpret(ParseAll(Frames(after).frames, loads), s.fields)) else s
  {
    FramersAgree(buffer);
    var (raw, after) := InlineSplit(buffer).value;
    ParseAllAppend([raw], Frames(after).frames, loads);
    assert ParseAll([raw], loads) == [ParsedFrame(raw, loads)];
    InterpretAppend([ParsedFrame(raw, loads)], ParseAll(Frames(after).frames, loads), f);
  }

  /** The loop body after `_parse_frame`: the text to yield, if any, and whether to stop. */
  method TakeEvent(event: Parsed, result: LlmResult) returns (texts: seq<string>, outcome: Outcome)
    modifies result
    ensures Reading(texts, result.State(), outcome) == Step(event, old(result.State()))
  {
    match event
    case NoData =>
      return [], Running;
    case Malformed =>
      return [], Raised(BadFrame);
    case Done =>
      if !result.sawText && result.finishReason == "stop" {
        return [], Raised(Empty);
      }
      return [], Returned;
    case Data(e) =>
      var delta := result.TakeDelta(e);
      match delta
      case Fails(why) =>
        return [], Raised(why);
      case Gives(t) =>
        if t == "" {
          return [], Running;
        }
        result.sawText := true;
        return [t], Running;
  }

  /** The inner loop: take every complete frame of the buffer in turn, stopping early at
      `[DONE]` or a failure. */
  method DrainFrames(text: string, result: LlmResult, loads: Loads)
    returns (texts: seq<string>, buffer: string, outcome: Outcome)
    modifies result
    ensures Reading(texts, result.State(), outcome) ==
              Interpret(ParseAll(Frames(text).frames, loads), old(result.State()))
    ensures outcome.Running? ==> buffer == Frames(text).rest
  {
    buffer, texts := text, [];
    ghost var whole := Interpret(ParseAll(Frames(text).frames, loads), result.State());
    while FindLf(buffer, 0) != -1 || FindCrlf(buffer, 0) != -1
      invariant whole == Then(texts, Interpret(ParseAll(Frames(buffer).frames, loads), result.State()))
      invariant Frames(text).rest == Frames(buffer).rest
      decreases |buffer|
    {
      FramersAgree(buffer);
      TakeFrame(buffer, result.State(), loads);
      var (raw, after) := InlineSplit(buffer).value;
      buffer := after;
      var event := ParseFrame(raw, loads);
      var more;
      more, outcome := TakeEvent(event, result);
      if !outcome.Running? {
        return texts + more, buffer, outcome;
      }
      SeqAssoc(texts, more, Interpret(ParseAll(Frames(buffer).frames, loads), result.State()).texts);
      texts := texts + more;
    }
    assert Frames(buffer).frames == [];
    outcome := Running;
  }

  /** `_read_stream`: whatever the cuts, it reads the concatenated text. */
  method ReadStream(chunks: seq<string>, result: LlmResult, loads: Loads)
    returns (texts: seq<string>, outcome: Outcome)
    modifies result
    ensures Reading(texts, result.State(), outcome) == Read(Concat(chunks), old(result.State()), loads)
  {
    ghost var f := result.State();
    var buffer := "";
    texts := [];
    for k := 0 to |chunks|
      invariant buffer == Frames(Concat(chunks[..k])).rest
      invariant Interpret(ParseAll(Frames(Concat(chunks[..k])).frames, loads), f) ==
                  Reading(texts, result.State(), Running)
    {
      ReadMore(chunks, k, f, loads);
      var more;
      more, buffer, outcome := DrainFrames(buffer + chunks[k], result, loads);
      texts := texts + more;
      if !outcome.Running? {
        return;
      }
    }
    assert chunks[..|chunks|] == chunks;
    return texts, Raised(Truncated);
  }

  /** Feeding chunk `k`: what the reader has seen after it, and what it has seen in the
      end if it stopped there. */
  lemma ReadMore(chunks: seq<string>, k: nat, f: Fields, loads: Loads)
    requires k < |chunks|
    ensures var before := Frames(Concat(chunks[..k]));
            var now := Frames(Concat(chunks[..k + 1]));
            var fresh_ := Frames(before.rest + chunks[k]);
            var r := Interpret(ParseAll(before.frames, loads), f);
            && now.rest == fresh_.rest
            && (r.outcome.Running? ==>
                  var s := Then(r.texts, Interpret(ParseAll(fresh_.frames, loads), r.fields));
                  && Interpret(ParseAll(now.frames, loads), f) == s
                  && (!s.outcome.Running? ==> Read(Concat(chunks), f, loads) == s))
  {
    var before := Frames(Concat(chunks[..k]));
    var more := Frames(before.rest + chunks[k]);
    var now := Frames(Concat(chunks[..k + 1]));
    assert chunks[..k + 1] == chunks[..k] + [chunks[k]];
    ConcatSnoc(chunks[..k], chunks[k]);
    FramesConcat(Concat(chunks[..k]), chunks[k]);
    ParseAllAppend(before.frames, more.frames, loads);
    InterpretAppend(ParseAll(before.frames, loads), ParseAll(more.frames, loads), f);
    ConcatSplit(chunks, k + 1);
    FramesConcat(Concat(chunks[..k + 1]), Concat(chunks[k + 1..]));
    var rest := Frames(now.rest + Concat(chunks[k + 1..])).frames;
    ParseAllAppend(now.frames, rest, loads);
    InterpretAppend(ParseAll(now.frames, loads), ParseAll(rest, loads), f);
  }

  lemma {:induction false} ConcatSplit(chunks: seq<string>, k: nat)
    requires k <= |chunks|
    ensures Concat(chunks) == Concat(chunks[..k]) + Concat(chunks[k..])
  {
    if k == 0 {
      assert chunks[0..] == chunks;
    } else {
      ConcatSplit(chunks[1..], k - 1);
      assert chunks[1..][..k - 1] == chunks[..k][1..];
      assert chunks[1..][k - 1..] == chunks[k..];
      SeqAssoc(chunks[0], Concat(chunks[..k][1..]), Concat(chunks[k..]));
    }
  }

  // ---------------------------------------------------------------- what a frame says

  /** Lines put together with either newline after each but the last. */
  function JoinBy(lines: seq<string>, crlf: seq<bool>): string
    requires |crlf| == |lines|
  {
    if lines == [] then ""
    else if |lines| == 1 then lines[0]
    else lines[0] + (if crlf[0] then "\r\n" else "\n") + JoinBy(lines[1..], crlf[1..])
  }

  predicate Clean(s: string) {
    forall i | 0 <= i < |s| :: s[i] != '\n' && s[i] != '\r'
  }

  lemma {:induction false} UnifyLine(line: string, later: string)
    requires Clean(line)
    ensures UnifyNewlines(line + later) == line + UnifyNewlines(later)
  {
    if line == "" {
      assert line + later == later;
    } else {
      assert (line + later)[1..] == line[1..] + later;
      UnifyLine(line[1..], later);
    }
  }

  lemma UnifyBreak(crlf: bool, later: string)
    ensures UnifyNewlines((if crlf then "\r\n" else "\n") + later) == "\n" + UnifyNewlines(later)
  {
    if crlf {
      assert ("\r\n" + later)[2..] == later;
    } else {
      assert ("\n" + later)[1..] == later;
    }
  }

  lemma {:induction false} SplitLine(line: string, later: string)
    requires Clean(line)
    ensures SplitLines(line + "\n" + later) == [line] + SplitLines(later) && SplitLines(line) == [line]
  {
    if line == "" {
      assert (line + "\n" + later)[1..] == later;
    } else {
      assert (line + "\n" + later)[1..] == line[1..] + "\n" + later;
      assert line == [line[0]] + line[1..];
      SplitLine(line[1..], later);
      assert ([line[1..]] + SplitLines(later))[1..] == SplitLines(later);
    }
  }

  /** Both newline styles, mixed at will, separate the lines of a frame. */
  lemma {:induction false} LinesOfFrame(lines: seq<string>, crlf: seq<bool>)
    requires lines != [] && |crlf| == |lines| && forall i | 0 <= i < |lines| :: Clean(lines[i])
    ensures SplitLines(UnifyNewlines(JoinBy(lines, crlf))) == lines
  {
    if |lines| == 1 {
      UnifyLine(lines[0], "");
      assert lines[0] + "" == lines[0];
      SplitLine(lines[0], "");
      assert lines == [lines[0]];
    } else {
      var later := JoinBy(lines[1..], crlf[1..]);
      var nl := if crlf[0] then "\r\n" else "\n";
      LinesOfFrame(lines[1..], crlf[1..]);
      assert JoinBy(lines, crlf) == lines[0] + (nl + later);
      UnifyLine(lines[0], nl + later);
      UnifyBreak(crlf[0], later);
      assert lines[0] + ("\n" + UnifyNewlines(later)) == lines[0] + "\n" + UnifyNewlines(later);
      SplitLine(lines[0], UnifyNewlines(later));
    }
  }

  /** The data lines are those beginning with `data:`, without that and the whitespace after. */
  lemma DataOfLineIs(line: string)
    ensures DataOfLine(line).Some? <==> exists rest :: line == "data:" + rest
    ensures DataOfLine(line).Some? ==>
              exists l :: AllSpace(l) && line == "data:" + l + DataOfLine(line).value
    ensures DataOfLine(line).Some? ==> DataOfLine(line).value == "" || !IsSpace(DataOfLine(line).value[0])
  {
    if rest :| line == "data:" + rest {
      assert line[..5] == "data:" && line[5..] == rest;
      assert line[..1] == "d";
    }
    if DataOfLine(line).Some? {
      assert line == "data:" + line[5..];
      var l := LeftStripIs(line[5..]);
      assert line == "data:" + l + DataOfLine(line).value;
    }
  }

  lemma {:induction false} DataLinesAppend(a: seq<string>, b: seq<string>)
    ensures DataLines(a + b) == DataLines(a) + DataLines(b)
  {
    if a == [] {
      assert a + b == b;
    } else {
      assert (a + b)[1..] == a[1..] + b;
      DataLinesAppend(a[1..], b);
    }
  }

  /** What a frame says, whatever its newlines: its data lines, one below the other, are
      `[DONE]`, an object or an error; without data lines it says nothing. */
  lemma FrameSays(lines: seq<string>, crlf: seq<bool>, loads: Loads)
    requires lines != [] && |crlf| == |lines| && forall i | 0 <= i < |lines| :: Clean(lines[i])
    ensures var data := DataLines(lines);
            var text := JoinBy(data, seq(|data|, i => false));
            var parsed := ParsedFrame(JoinBy(lines, crlf), loads);
            && (parsed.NoData? <==> data == [])
            && (data != [] ==> (parsed.Done? <==> text == "[DONE]"))
            && (data != [] && text != "[DONE]" ==>
                  if loads(text).Object? then parsed == Data(loads(text).event) else parsed == Malformed)
  {
    LinesOfFrame(lines, crlf);
    JoinIsJoinBy(DataLines(lines));
  }

  lemma {:induction false} JoinIsJoinBy(lines: seq<string>)
    ensures JoinLines(lines) == JoinBy(lines, seq(|lines|, i => false))
  {
    if |lines| > 1 {
      JoinIsJoinBy(lines[1..]);
      assert seq(|lines|, i => false)[1..] == seq(|lines[1..]|, i => false);
    }
  }
}
