/** The assumption of `SseServer` about JSON is met: a printer and a reader of one-line
    objects with quoted, escaped strings satisfy it. */
module SseCodec {
  import opened Basics
  import opened SseFraming
  import opened SseReader
  import opened SseServer

  /** Backslash escapes for the quote, the backslash and the two newline characters. */
  function Escape(s: string): string {
    if s == "" then ""
    else
      (if s[0] == '"' then "\\\"" else if s[0] == '\\' then "\\\\" else if s[0] == '\n' then "\\n"
       else if s[0] == '\r' then "\\r" else [s[0]])
      + Escape(s[1..])
  }

  function Quote(s: string): string {
    Escape(s) + "\""
  }

  function Prepend(c: char, r: Option<(string, string)>): Option<(string, string)> {
    if r.None? then None else Some(([c] + r.value.0, r.value.1))
  }

  /** Read up to the first unescaped quote: the string, and what follows. */
  function Unquote(s: string): Option<(string, string)> {
    if s == "" then None
    else if s[0] == '"' then Some(("", s[1..]))
    else if s[0] != '\\' then Prepend(s[0], Unquote(s[1..]))
    else if |s| == 1 then None
    else Prepend(if s[1] == 'n' then '\n' else if s[1] == 'r' then '\r' else s[1], Unquote(s[2..]))
  }

  lemma {:induction false} UnquoteQuote(s: string, rest: string)
    ensures Unquote(Quote(s) + rest) == Some((s, rest))
  {
    var text := Quote(s) + rest;
    if s == "" {
      assert text == "\"" + rest;
      assert text[1..] == rest;
    } else {
      UnquoteQuote(s[1..], rest);
      var later := Quote(s[1..]) + rest;
      assert s == [s[0]] + s[1..];
      if s[0] == '"' || s[0] == '\\' || s[0] == '\n' || s[0] == '\r' {
        var c := if s[0] == '\n' then 'n' else if s[0] == '\r' then 'r' else s[0];
        assert text == ['\\', c] + later;
        assert text[2..] == later;
      } else {
        assert text == [s[0]] + later;
        assert text[1..] == later;
      }
    }
  }

  lemma {:induction false} EscapeClean(s: string)
    ensures Clean(Escape(s))
  {
    if s != "" { EscapeClean(s[1..]); }
  }

  function ContentField(d: ChunkDelta): string {
    if d.Content? then "c" + d.s else "n"
  }

  function ReasonField(r: Option<string>): string {
    if r.Some? then "r" + r.value else "n"
  }

  function Fields3(a: string, b: string, c: string): string {
    Quote(a) + (Quote(b) + (Quote(c) + "}"))
  }

  function MiniDumps(p: Payload): string {
    match p
    case Error(code, message) => "{" + Fields3("error", code, message)
    case Chunk(_, _, delta, reason) => "{" + Fields3("chunk", ContentField(delta), ReasonField(reason))
  }

  function MiniLoads(text: string): Loaded {
    if text == "" || text[0] != '{' then Invalid
    else
      match Unquote(text[1..])
      case None => Invalid
      case Some((tag, r1)) =>
        if tag == "error" then Object(Event(true, None, None))
        else
          match Unquote(r1)
          case None => Invalid
          case Some((content, r2)) =>
            match Unquote(r2)
            case None => Invalid
            case Some((reason, _)) =>
              if content == "" || reason == "" then NotObject
              else
                Object(Event(false, None, Some([Choice(if reason[0] == 'r' then Some(reason[1..]) else None,
                                                       if content[0] == 'c' then Text(content[1..]) else Absent)])))
  }

  lemma CleanJoin(a: string, b: string)
    requires Clean(a) && Clean(b)
    ensures Clean(a + b)
  {
  }

  lemma FieldsClean(a: string, b: string, c: string)
    ensures Clean(Fields3(a, b, c))
  {
    EscapeClean(a);
    EscapeClean(b);
    EscapeClean(c);
    CleanJoin(Escape(a), "\"");
    CleanJoin(Escape(b), "\"");
    CleanJoin(Escape(c), "\"");
    CleanJoin(Quote(c), "}");
    CleanJoin(Quote(b), Quote(c) + "}");
    CleanJoin(Quote(a), Quote(b) + (Quote(c) + "}"));
  }

  lemma FieldsReadBack(a: string, b: string, c: string)
    ensures Unquote(Fields3(a, b, c)) == Some((a, Quote(b) + (Quote(c) + "}")))
    ensures Unquote(Quote(b) + (Quote(c) + "}")) == Some((b, Quote(c) + "}"))
    ensures Unquote(Quote(c) + "}") == Some((c, "}"))
  {
    UnquoteQuote(a, Quote(b) + (Quote(c) + "}"));
    UnquoteQuote(b, Quote(c) + "}");
    UnquoteQuote(c, "}");
  }

  lemma OpenBrace(fields: string)
    requires Clean(fields)
    ensures OneLineObject("{" + fields) && ("{" + fields)[1..] == fields
  {
    CleanJoin("{", fields);
  }

  lemma MiniRoundTrip(p: Payload)
    ensures OneLineObject(MiniDumps(p)) && MiniLoads(MiniDumps(p)) == Object(Seen(p))
  {
    match p
    case Error(code, message) =>
      FieldsClean("error", code, message);
      FieldsReadBack("error", code, message);
      OpenBrace(Fields3("error", code, message));
    case Chunk(_, _, delta, reason) =>
      var b, c := ContentField(delta), ReasonField(reason);
      FieldsClean("chunk", b, c);
      FieldsReadBack("chunk", b, c);
      OpenBrace(Fields3("chunk", b, c));
      assert delta.Content? ==> b[1..] == delta.s;
      assert reason.Some? ==> c[1..] == reason.value;
  }

  /** So the assumption is satisfiable, and everything proved under it is about something. */
  lemma MiniIsFaithful()
    ensures Faithful(MiniDumps, MiniLoads)
  {
    forall p: Payload
      ensures OneLineObject(MiniDumps(p)) && MiniLoads(MiniDumps(p)) == Object(Seen(p))
    {
      MiniRoundTrip(p);
    }
  }
}
