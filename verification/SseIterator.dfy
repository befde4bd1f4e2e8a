/** `iter_sse_bytes` (`packages/anila-agent-quickstart/llm.py`) and how `_read_stream`
    relates to it; exactly when `_read_stream` returns normally. */
module SseIterator {
  import opened Basics
  import opened PythonText
  import opened SseFraming
  import opened SseReader

  /** The events an iteration yields, and whether it ended by raising on a bad frame. */
  datatype Iterated = Iterated(events: seq<Parsed>, malformed: bool)

  function TakeGood(ps: seq<Parsed>): Iterated {
    if ps == [] then Iterated([], false)
    else if ps[0].Malformed? then Iterated([], true)
    else
      var later := TakeGood(ps[1..]);
      if ps[0].NoData? then later else later.(events := [ps[0]] + later.events)
  }

  function Append(a: Iterated, b: Iterated): Iterated {
    if a.malformed then a else b.(events := a.events + b.events)
  }

  lemma {:induction false} TakeGoodAppend(ps: seq<Parsed>, qs: seq<Parsed>)
    ensures TakeGood(ps + qs) == Append(TakeGood(ps), TakeGood(qs))
  {
    if ps == [] {
      assert ps + qs == qs;
    } else {
      assert (ps + qs)[1..] == ps[1..] + qs;
      TakeGoodAppend(ps[1..], qs);
      if !ps[0].NoData? {
        SeqAssoc([ps[0]], TakeGood(ps[1..]).events, TakeGood(qs).events);
      }
    }
  }

  lemma TakeGoodOne(p: Parsed)
    ensures TakeGood([p]) == if p.Malformed? then Iterated([], true)
                             else if p.NoData? then Iterated([], false) else Iterated([p], false)
  {
    assert TakeGood([p][1..]) == Iterated([], false);
  }

  /** The events of the terminated frames of a text. */
  function Terminated(text: string, loads: Loads): Iterated {
    TakeGood(ParseAll(Frames(text).frames, loads))
  }

  /** The unterminated residue counts as one more frame unless it is blank. */
  function Residue(rest: string, loads: Loads): Iterated {
    if LeftStrip(rest) == "" then Iterated([], false) else TakeGood([ParsedFrame(rest, loads)])
  }

  function Iterate(text: string, loads: Loads): Iterated {
    Append(Terminated(text, loads), Residue(Frames(text).rest, loads))
  }

  /** The inner loop of `iter_sse_bytes`. */
  method DrainEvents(text: string, loads: Loads) returns (it: Iterated, buffer: string)
    ensures it == Terminated(text, loads)
    ensures !it.malformed ==> buffer == Frames(text).rest
  {
    buffer := text;
    var events: seq<Parsed> := [];
    while true
      invariant Terminated(text, loads) == Append(Iterated(events, false), Terminated(buffer, loads))
      invariant Frames(text).rest == Frames(buffer).rest
      decreases |buffer|
    {
      var splitAt := FrameEnd(buffer);
      if splitAt.None? {
        break;
      }
      var (i, j) := splitAt.value;
      var raw, after := buffer[..i], buffer[j..];
      var event := ParseFrame(raw, loads);
      ParseAllAppend([raw], Frames(after).frames, loads);
      assert ParseAll([raw], loads) == [event];
      TakeGoodOne(event);
      TakeGoodAppend([event], ParseAll(Frames(after).frames, loads));
      buffer := after;
      if event.Malformed? {
        return Iterated(events, true), buffer;
      }
      if !event.NoData? {
        SeqAssoc(events, [event], Terminated(after, loads).events);
        events := events + [event];
      }
    }
    it := Iterated(events, false);
  }

  lemma TerminatedConcat(a: string, b: string, loads: Loads)
    ensures Terminated(a + b, loads) == Append(Terminated(a, loads), Terminated(Frames(a).rest + b, loads))
    ensures Frames(a + b).rest == Frames(Frames(a).rest + b).rest
  {
    FramesConcat(a, b);
    var more := Frames(Frames(a).rest + b).frames;
    ParseAllAppend(Frames(a).frames, more, loads);
    TakeGoodAppend(ParseAll(Frames(a).frames, loads), ParseAll(more, loads));
  }

  /** Once a prefix of the text raised, nothing after it is looked at. */
  lemma MalformedSticks(a: string, b: string, loads: Loads)
    requires Terminated(a, loads).malformed
    ensures Iterate(a + b, loads) == Terminated(a, loads)
  {
    TerminatedConcat(a, b, loads);
  }

  lemma MalformedEnds(chunks: seq<string>, k: nat, loads: Loads)
    requires k <= |chunks| && Terminated(Concat(chunks[..k]), loads).malformed
    ensures Iterate(Concat(chunks), loads) == Terminated(Concat(chunks[..k]), loads)
  {
    ConcatSplit(chunks, k);
    MalformedSticks(Concat(chunks[..k]), Concat(chunks[k..]), loads);
  }

  /** `iter_sse_bytes`: whatever the cuts, it yields the events of the concatenated text. */
  method IterSse(chunks: seq<string>, loads: Loads) returns (it: Iterated)
    ensures it == Iterate(Concat(chunks), loads)
  {
    var buffer, events := "", [];
    for k := 0 to |chunks|
      invariant buffer == Frames(Concat(chunks[..k])).rest
      invariant Terminated(Concat(chunks[..k]), loads) == Iterated(events, false)
    {
      assert chunks[..k + 1] == chunks[..k] + [chunks[k]];
      ConcatSnoc(chunks[..k], chunks[k]);
      TerminatedConcat(Concat(chunks[..k]), chunks[k], loads);
      var more;
      more, buffer := DrainEvents(buffer + chunks[k], loads);
      events := events + more.events;
      if more.malformed {
        MalformedEnds(chunks, k + 1, loads);
        return Iterated(events, true);
      }
    }
    assert chunks[..|chunks|] == chunks;
    if LeftStrip(buffer) != "" {
      var event := ParseFrame(buffer, loads);
      TakeGoodOne(event);
      if event.Malformed? {
        return Iterated(events, true);
      }
      if !event.NoData? {
        events := events + [event];
      }
    }
    it := Iterated(events, false);
  }

  /** What follows the last blank line is one more event, unless it is whitespace or says
      nothing. */
  lemma ResidueYields(text: string, loads: Loads)
    requires !Terminated(text, loads).malformed
    ensures var events := Terminated(text, loads).events;
            var rest := Frames(text).rest;
            var last := ParsedFrame(rest, loads);
            Iterate(text, loads) ==
              if AllSpace(rest) || last.NoData? then Iterated(events, false)
              else if last.Malformed? then Iterated(events, true)
              else Iterated(events + [last], false)
  {
    var rest := Frames(text).rest;
    LeftStripBlankIff(rest);
    TakeGoodOne(ParsedFrame(rest, loads));
    assert Terminated(text, loads).events + [] == Terminated(text, loads).events;
  }

  // ---------------------------------------------------------------- the reader against the iterator

  function AsEvents(it: Iterated): seq<Parsed> {
    it.events + if it.malformed then [Malformed] else []
  }

  lemma {:induction false} InterpretSkipsNoData(ps: seq<Parsed>, f: Fields)
    ensures Interpret(ps, f) == Interpret(AsEvents(TakeGood(ps)), f)
  {
    if ps != [] {
      var it := TakeGood(ps[1..]);
      var first := Step(ps[0], f);
      InterpretSkipsNoData(ps[1..], first.fields);
      if ps[0].NoData? {
        assert Interpret(ps, f) == Then([], Interpret(ps[1..], f));
      } else if ps[0].Malformed? {
        assert AsEvents(TakeGood(ps)) == [Malformed];
      } else {
        assert AsEvents(TakeGood(ps)) == [ps[0]] + AsEvents(it);
      }
    }
  }

  /** `_read_stream` processes exactly the events `iter_sse_bytes` yields for terminated
      frames, in that order (and `Interpret` stops at the first `[DONE]`).  The iterator
      may yield one event more, for an unterminated residue. */
  lemma ReaderFollowsIterator(text: string, f: Fields, loads: Loads)
    ensures Read(text, f, loads) == AtEnd(Interpret(AsEvents(Terminated(text, loads)), f))
    ensures Terminated(text, loads).events <= Iterate(text, loads).events
    ensures |Iterate(text, loads).events| <= |Terminated(text, loads).events| + 1
    ensures Terminated(text, loads).malformed ==> Iterate(text, loads) == Terminated(text, loads)
  {
    InterpretSkipsNoData(ParseAll(Frames(text).frames, loads), f);
    TakeGoodOne(ParsedFrame(Frames(text).rest, loads));
  }

  // ---------------------------------------------------------------- when the reader returns

  /** A frame the reader passes over without stopping. */
  predicate Acceptable(p: Parsed) {
    match p
    case NoData => true
    case Done => false
    case Malformed => false
    case Data(e) =>
      && !(e.hasError && e.choices.None?)
      && !(e.choices.Some? && e.choices.value != [] && e.choices.value[0].content.NotText?)
  }

  /** The text an acceptable event carries. */
  function TextIn(p: Parsed): string {
    if p.Data? && p.event.choices.Some? && p.event.choices.value != [] && p.event.choices.value[0].content.Text? then
      p.event.choices.value[0].content.s
    else ""
  }

  function Texts(ps: seq<Parsed>): seq<string> {
    if ps == [] then [] else (if TextIn(ps[0]) == "" then [] else [TextIn(ps[0])]) + Texts(ps[1..])
  }

  function ReasonIn(p: Parsed): string {
    if p.Data? && p.event.choices.Some? && p.event.choices.value != [] && p.event.choices.value[0].finishReason.Some? then
      p.event.choices.value[0].finishReason.value
    else ""
  }

  /** The last non-empty finish reason, or `start`. */
  function LastReason(ps: seq<Parsed>, start: string): string {
    if ps == [] then start else LastReason(ps[1..], if ReasonIn(ps[0]) == "" then start else ReasonIn(ps[0]))
  }

  lemma StepAcceptable(p: Parsed, f: Fields)
    requires Acceptable(p)
    ensures var s := Step(p, f);
            && s.outcome.Running?
            && s.texts == (if TextIn(p) == "" then [] else [TextIn(p)])
            && s.fields.sawText == (f.sawText || TextIn(p) != "")
            && s.fields.finishReason == if ReasonIn(p) == "" then f.finishReason else ReasonIn(p)
  {
  }

  lemma {:induction false} InterpretAcceptable(ps: seq<Parsed>, f: Fields)
    requires forall i | 0 <= i < |ps| :: Acceptable(ps[i])
    ensures var r := Interpret(ps, f);
            && r.outcome.Running? && r.texts == Texts(ps)
            && r.fields.sawText == (f.sawText || Texts(ps) != [])
            && r.fields.finishReason == LastReason(ps, f.finishReason)
  {
    if ps != [] {
      StepAcceptable(ps[0], f);
      InterpretAcceptable(ps[1..], Step(ps[0], f).fields);
    }
  }

  predicate CarriesUsage(p: Parsed) {
    p.Data? && p.event.usage.Some?
  }

  /** The three counts of a usage object, each only where it is an integer. */
  ghost predicate CountsOf(u: Option<map<string, int>>, usage: map<string, Number>) {
    && u.Some?
    && forall k ::
         && (k in u.value <==>
               k in ["prompt_tokens", "completion_tokens", "total_tokens"] && k in usage && usage[k].IntValue?)
         && (k in u.value ==> usage[k] == IntValue(u.value[k]))
  }

  /** The usage after `ps` is that of the last event with one, or what it was before. */
  ghost predicate UsageAfter(ps: seq<Parsed>, before: Option<map<string, int>>, after: Option<map<string, int>>) {
    && ((forall i | 0 <= i < |ps| :: !CarriesUsage(ps[i])) ==> after == before)
    && (forall k | 0 <= k < |ps| && CarriesUsage(ps[k]) && (forall i | k < i < |ps| :: !CarriesUsage(ps[i])) ::
          CountsOf(after, ps[k].event.usage.value))
  }

  lemma StepUsage(p: Parsed, f: Fields)
    requires Acceptable(p)
    ensures if CarriesUsage(p) then CountsOf(Step(p, f).fields.usage, p.event.usage.value)
            else Step(p, f).fields.usage == f.usage
  {
  }

  lemma {:induction false} UsageKept(ps: seq<Parsed>, f: Fields)
    requires forall i | 0 <= i < |ps| :: Acceptable(ps[i])
    ensures UsageAfter(ps, f.usage, Interpret(ps, f).fields.usage)
  {
    if ps != [] {
      var first := Step(ps[0], f);
      StepAcceptable(ps[0], f);
      StepUsage(ps[0], f);
      UsageKept(ps[1..], first.fields);
      var after := Interpret(ps, f).fields.usage;
      assert after == Interpret(ps[1..], first.fields).fields.usage;
      if forall i | 1 <= i < |ps| :: !CarriesUsage(ps[i]) {
        assert forall i | 0 <= i < |ps[1..]| :: !CarriesUsage(ps[1..][i]);
      }
      forall k | 0 <= k < |ps| && CarriesUsage(ps[k]) && forall i | k < i < |ps| :: !CarriesUsage(ps[i])
        ensures CountsOf(after, ps[k].event.usage.value)
      {
        if k > 0 {
          assert ps[1..][k - 1] == ps[k];
          assert forall i | k - 1 < i < |ps[1..]| :: !CarriesUsage(ps[1..][i]);
        }
      }
    }
  }

  /** Why a frame that is not acceptable ends the reading, `None` for a `[DONE]` that returns. */
  function Verdict(p: Parsed, sawText: bool, reason: string): Option<Failure>
    requires !Acceptable(p)
  {
    match p
    case Done => if sawText || reason != "stop" then None else Some(Empty)
    case Malformed => Some(BadFrame)
    case Data(e) => Some(if e.hasError && e.choices.None? then UpstreamSaysError else BadContent)
  }

  lemma StepRefused(p: Parsed, f: Fields)
    requires !Acceptable(p)
    ensures Step(p, f).texts == []
    ensures Step(p, f).outcome ==
              match Verdict(p, f.sawText, f.finishReason)
              case None => Returned
              case Some(why) => Raised(why)
  {
  }

  /** Reading ends at the first frame that is not acceptable. */
  lemma {:induction false} InterpretRefused(ps: seq<Parsed>, k: nat, f: Fields)
    requires k < |ps| && (forall i | 0 <= i < k :: Acceptable(ps[i])) && !Acceptable(ps[k])
    ensures var r := Interpret(ps[..k], f); Interpret(ps, f) == Then(r.texts, Step(ps[k], r.fields))
  {
    if k == 0 {
      StepRefused(ps[0], f);
      assert ps[..0] == [];
    } else {
      StepAcceptable(ps[0], f);
      var first := Step(ps[0], f);
      InterpretRefused(ps[1..], k - 1, first.fields);
      assert ps[..k][1..] == ps[1..][..k - 1];
      var r := Interpret(ps[1..][..k - 1], first.fields);
      SeqAssoc(first.texts, r.texts, Step(ps[k], r.fields).texts);
    }
  }

  /** A stream reads to its end normally iff some terminated frame is `[DONE]`, every frame
      before it is acceptable, and by then there was text or a finish reason other than
      stop. */
  ghost predicate EndsWell(ps: seq<Parsed>, k: nat, f: Fields) {
    && k < |ps| && ps[k].Done?
    && (forall i | 0 <= i < k :: Acceptable(ps[i]))
    && (f.sawText || Texts(ps[..k]) != [] || LastReason(ps[..k], f.finishReason) != "stop")
  }

  /** What the reader yields when it returns is the text before `[DONE]`: nothing after it
      is looked at. */
  lemma ReadAtDone(text: string, f: Fields, loads: Loads, k: nat)
    requires EndsWell(ParseAll(Frames(text).frames, loads), k, f)
    ensures var ps := ParseAll(Frames(text).frames, loads);
            var r := Read(text, f, loads);
            && r.outcome == Returned && r.texts == Texts(ps[..k])
            && r.fields.finishReason == LastReason(ps[..k], f.finishReason)
            && UsageAfter(ps[..k], f.usage, r.fields.usage)
  {
    EndsAtDone(ParseAll(Frames(text).frames, loads), f, k);
  }

  lemma EndsAtDone(ps: seq<Parsed>, f: Fields, k: nat)
    requires EndsWell(ps, k, f)
    ensures var r := Interpret(ps, f);
            && r.outcome == Returned && r.texts == Texts(ps[..k])
            && r.fields.finishReason == LastReason(ps[..k], f.finishReason)
            && UsageAfter(ps[..k], f.usage, r.fields.usage)
  {
    var r := Interpret(ps[..k], f);
    InterpretAcceptable(ps[..k], f);
    UsageKept(ps[..k], f);
    InterpretRefused(ps, k, f);
    assert r.texts + [] == r.texts;
  }

  lemma {:induction false} StopsAt(ps: seq<Parsed>, f: Fields) returns (k: nat)
    requires Interpret(ps, f).outcome == Returned
    ensures EndsWell(ps, k, f)
  {
    var first := Step(ps[0], f);
    if !first.outcome.Running? {
      k := 0;
    } else {
      var j := StopsAt(ps[1..], first.fields);
      k := j + 1;
      assert ps[..k][1..] == ps[1..][..j];
      forall i | 0 <= i < k
        ensures Acceptable(ps[i])
      {
        assert i > 0 ==> ps[i] == ps[1..][i - 1];
      }
    }
  }

  lemma ReturnsIff(text: string, f: Fields, loads: Loads)
    ensures Read(text, f, loads).outcome == Returned <==>
              exists k: nat :: EndsWell(ParseAll(Frames(text).frames, loads), k, f)
  {
    var ps := ParseAll(Frames(text).frames, loads);
    if Read(text, f, loads).outcome == Returned {
      var k := StopsAt(ps, f);
    }
    if k: nat :| EndsWell(ps, k, f) {
      ReadAtDone(text, f, loads, k);
    }
  }

  /** Reading stops at the first frame that is not acceptable, with what that frame says; if
      all are acceptable the text was cut off. */
  lemma StopsBecause(text: string, f: Fields, loads: Loads, k: nat)
    requires var ps := ParseAll(Frames(text).frames, loads);
             && k <= |ps| && (forall i | 0 <= i < k :: Acceptable(ps[i])) && (k < |ps| ==> !Acceptable(ps[k]))
    ensures var ps := ParseAll(Frames(text).frames, loads);
            var r := Read(text, f, loads);
            && r.texts == Texts(ps[..k])
            && r.outcome ==
                 if k == |ps| then Raised(Truncated)
                 else
                   match Verdict(ps[k], f.sawText || Texts(ps[..k]) != [], LastReason(ps[..k], f.finishReason))
                   case None => Returned
                   case Some(why) => Raised(why)
  {
    var ps := ParseAll(Frames(text).frames, loads);
    InterpretAcceptable(ps[..k], f);
    if k < |ps| {
      var r := Interpret(ps[..k], f);
      InterpretRefused(ps, k, f);
      StepRefused(ps[k], r.fields);
      assert r.texts + [] == r.texts;
    } else {
      assert ps[..k] == ps;
    }
  }
}
