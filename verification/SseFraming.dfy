/** Cutting an event stream into frames (`packages/anila-agent-quickstart/llm.py`).

    A frame ends at the first blank line, written LF LF or CR LF CR LF.  The package has
    two hand-written framers that both work on a growing buffer.  */
module SseFraming {
  import opened Basics

  // ---------------------------------------------------------------- delimiters

  predicate LfAt(s: string, i: int) {
    0 <= i <= |s| - 2 && s[i] == '\n' && s[i + 1] == '\n'
  }

  predicate CrlfAt(s: string, i: int) {
    0 <= i <= |s| - 4 && s[i] == '\r' && s[i + 1] == '\n' && s[i + 2] == '\r' && s[i + 3] == '\n'
  }

  predicate DelimiterAt(s: string, i: int) {
    LfAt(s, i) || CrlfAt(s, i)
  }

  /** `s.find("\n\n")` from position `i`. */
  function FindLf(s: string, i: nat): (r: int)
    requires i <= |s|
    ensures r == -1 || (i <= r && LfAt(s, r))
    ensures forall k | i <= k && (r == -1 || k < r) :: !LfAt(s, k)
    decreases |s| - i
  {
    if LfAt(s, i) then i else if i == |s| then -1 else FindLf(s, i + 1)
  }

  /** `s.find("\r\n\r\n")` from position `i`. */
  function FindCrlf(s: string, i: nat): (r: int)
    requires i <= |s|
    ensures r == -1 || (i <= r && CrlfAt(s, r))
    ensures forall k | i <= k && (r == -1 || k < r) :: !CrlfAt(s, k)
    decreases |s| - i
  {
    if CrlfAt(s, i) then i else if i == |s| then -1 else FindCrlf(s, i + 1)
  }

  // ---------------------------------------------------------------- the two framers

  /** `_frame_end`: where the first frame ends and where the rest begins.  The contract is
      the meaning: the earliest delimiter of either kind, if there is one. */
  function FrameEnd(buffer: string): (cut: Option<(nat, nat)>)
    ensures cut.None? <==> forall i :: !DelimiterAt(buffer, i)
    ensures cut.Some? ==>
              && (forall i | i < cut.value.0 :: !DelimiterAt(buffer, i))
              && (LfAt(buffer, cut.value.0) ==> cut.value.1 == cut.value.0 + 2)
              && (CrlfAt(buffer, cut.value.0) ==> cut.value.1 == cut.value.0 + 4)
              && DelimiterAt(buffer, cut.value.0)
              && cut.value.0 < cut.value.1 <= |buffer|
  {
    var crlf := FindCrlf(buffer, 0);
    var lf := FindLf(buffer, 0);
    if crlf == -1 && lf == -1 then
      None
    else if crlf != -1 && (lf == -1 || crlf < lf) then
      assert DelimiterAt(buffer, crlf);
      Some((crlf, crlf + 4))
    else
      assert DelimiterAt(buffer, lf);
      Some((lf, lf + 2))
  }

  /** `raw, buffer = buffer.split(sep, 1)` at a separator of length `n` found at `at`. */
  function SplitOnce(buffer: string, at: nat, n: nat): (string, string)
    requires at + n <= |buffer|
  {
    (buffer[..at], buffer[at + n..])
  }

  /** The splitter written inline in `_read_stream`. */
  function InlineSplit(buffer: string): Option<(string, string)> {
    if FindLf(buffer, 0) != -1 || FindCrlf(buffer, 0) != -1 then
      if FindCrlf(buffer, 0) != -1 &&
         (FindLf(buffer, 0) == -1 || FindCrlf(buffer, 0) < FindLf(buffer, 0)) then
        Some(SplitOnce(buffer, FindCrlf(buffer, 0), 4))
      else
        Some(SplitOnce(buffer, FindLf(buffer, 0), 2))
    else
      None
  }

  /** The two framers cut every buffer alike. */
  lemma FramersAgree(buffer: string)
    ensures InlineSplit(buffer) ==
              match FrameEnd(buffer)
              case None => None
              case Some((i, j)) => Some((buffer[..i], buffer[j..]))
  {
    var cut := FrameEnd(buffer);
    if cut.Some? {
      assert DelimiterAt(buffer, cut.value.0);
    }
  }

  // ---------------------------------------------------------------- one pass over a text

  datatype Framed = Framed(frames: seq<string>, rest: string)

  /** One pass: the terminated frames of a text and the unterminated residue. */
  function Frames(text: string): Framed
    decreases |text|
  {
    match FrameEnd(text)
    case None => Framed([], text)
    case Some((i, j)) =>
      var later := Frames(text[j..]);
      Framed([text[..i]] + later.frames, later.rest)
  }

  /** The heart of chunk independence: what is the earliest delimiter of a buffer stays
      the earliest whatever arrives later.  A delimiter that straddles the old end
      cannot start before one that already ended. */
  lemma EarliestStays(buffer: string, later: string)
    requires FrameEnd(buffer).Some?
    ensures FrameEnd(buffer + later) == FrameEnd(buffer)
  {
    var all := buffer + later;
    var i := FrameEnd(buffer).value.0;
    assert DelimiterAt(all, i);
    forall k | k < i
      ensures !DelimiterAt(all, k)
    {
      assert !DelimiterAt(buffer, k);
    }
    assert DelimiterAt(all, FrameEnd(all).value.0);
  }

  lemma FramesStep(buffer: string, later: string)
    requires FrameEnd(buffer).Some?
    ensures var (i, j) := FrameEnd(buffer).value;
            && Frames(buffer + later).frames == [buffer[..i]] + Frames(buffer[j..] + later).frames
            && Frames(buffer + later).rest == Frames(buffer[j..] + later).rest
  {
    EarliestStays(buffer, later);
    var (i, j) := FrameEnd(buffer).value;
    assert (buffer + later)[..i] == buffer[..i];
    assert (buffer + later)[j..] == buffer[j..] + later;
  }

  lemma {:induction false} RestHasNoFrame(text: string)
    ensures FrameEnd(Frames(text).rest).None?
    decreases |text|
  {
    if FrameEnd(text).Some? {
      RestHasNoFrame(text[FrameEnd(text).value.1..]);
    }
  }

  /** Framing a text in two parts, carrying the residue over, is framing it at once. */
  lemma {:induction false} FramesConcat(a: string, b: string)
    ensures Frames(a + b).frames == Frames(a).frames + Frames(Frames(a).rest + b).frames
    ensures Frames(a + b).rest == Frames(Frames(a).rest + b).rest
    decreases |a|
  {
    if FrameEnd(a).Some? {
      var (i, j) := FrameEnd(a).value;
      var tail := Frames(a[j..]);
      FramesStep(a, b);
      FramesConcat(a[j..], b);
      SeqAssoc([a[..i]], tail.frames, Frames(tail.rest + b).frames);
    }
  }

  function Concat(chunks: seq<string>): string {
    if chunks == [] then "" else chunks[0] + Concat(chunks[1..])
  }

  lemma {:induction false} ConcatSnoc(chunks: seq<string>, last: string)
    ensures Concat(chunks + [last]) == Concat(chunks) + last
  {
    if chunks == [] {
      assert chunks + [last] == [last];
    } else {
      assert (chunks + [last])[1..] == chunks[1..] + [last];
      ConcatSnoc(chunks[1..], last);
    }
  }

  /** What one buffer yields: its frames, one at a time. */
  method DrainBuffer(text: string) returns (frames: seq<string>, buffer: string)
    ensures Framed(frames, buffer) == Frames(text)
  {
    buffer, frames := text, [];
    while true
      invariant Frames(text).frames == frames + Frames(buffer).frames
      invariant Frames(text).rest == Frames(buffer).rest
      decreases |buffer|
    {
      var splitAt := FrameEnd(buffer);
      if splitAt.None? {
        break;
      }
      var (i, j) := splitAt.value;
      SeqAssoc(frames, [buffer[..i]], Frames(buffer[j..]).frames);
      frames := frames + [buffer[..i]];
      buffer := buffer[j..];
    }
  }

  /** The incremental loop of `iter_sse_bytes` and `_read_stream`, frames only: whatever
      the cuts, it produces the frames and the residue of one pass over the whole text. */
  method FrameChunks(chunks: seq<string>) returns (frames: seq<string>, buffer: string)
    ensures Framed(frames, buffer) == Frames(Concat(chunks))
  {
    buffer, frames := "", [];
    for k := 0 to |chunks|
      invariant Framed(frames, buffer) == Frames(Concat(chunks[..k]))
    {
      assert chunks[..k + 1] == chunks[..k] + [chunks[k]];
      ConcatSnoc(chunks[..k], chunks[k]);
      FramesConcat(Concat(chunks[..k]), chunks[k]);
      var more;
      more, buffer := DrainBuffer(buffer + chunks[k]);
      frames := frames + more;
    }
    assert chunks[..|chunks|] == chunks;
  }
}
