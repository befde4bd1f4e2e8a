/** Python's whitespace and `str.strip`. */
module PythonText {

  /** Python's `str.isspace` on one character. */
  predicate IsSpace(c: char) {
    || '\t' <= c <= '\r' || '\U{1C}' <= c <= ' ' || c == '\U{85}' || c == '\U{A0}' || c == '\U{1680}'
    || '\U{2000}' <= c <= '\U{200A}' || c == '\U{2028}' || c == '\U{2029}' || c == '\U{202F}'
    || c == '\U{205F}' || c == '\U{3000}'
  }

  function LeftStrip(s: string): string {
    if s != "" && IsSpace(s[0]) then LeftStrip(s[1..]) else s
  }

  function RightStrip(s: string): string {
    if s != "" && IsSpace(s[|s| - 1]) then RightStrip(s[..|s| - 1]) else s
  }

  function Strip(s: string): string {
    RightStrip(LeftStrip(s))
  }

  // ---------------------------------------------------------------- what stripping is

  /** The whitespace of ASCII, and the printable characters that are not. */
  lemma AsciiSpaces()
    ensures IsSpace(' ') && IsSpace('\t') && IsSpace('\n') && IsSpace('\r')
    ensures forall c | '!' <= c <= '~' :: !IsSpace(c)
  {
  }

  predicate AllSpace(s: string) {
    forall i | 0 <= i < |s| :: IsSpace(s[i])
  }

  lemma SpaceCons(c: char, l: string)
    requires IsSpace(c) && AllSpace(l)
    ensures AllSpace([c] + l)
  {
  }

  lemma SpaceSnoc(l: string, c: char)
    requires IsSpace(c) && AllSpace(l)
    ensures AllSpace(l + [c])
  {
  }

  lemma {:induction false} LeftStripIs(s: string) returns (l: string)
    ensures s == l + LeftStrip(s) && AllSpace(l)
    ensures LeftStrip(s) == "" || !IsSpace(LeftStrip(s)[0])
  {
    if s != "" && IsSpace(s[0]) {
      var l1 := LeftStripIs(s[1..]);
      l := [s[0]] + l1;
      SpaceCons(s[0], l1);
      assert s == [s[0]] + s[1..];
    } else {
      l := "";
    }
  }

  lemma {:induction false} RightStripIs(s: string) returns (r: string)
    ensures s == RightStrip(s) + r && AllSpace(r)
    ensures RightStrip(s) == "" || !IsSpace(RightStrip(s)[|RightStrip(s)| - 1])
    ensures RightStrip(s) <= s
    decreases |s|
  {
    if s != "" && IsSpace(s[|s| - 1]) {
      var r1 := RightStripIs(s[..|s| - 1]);
      r := r1 + [s[|s| - 1]];
      SpaceSnoc(r1, s[|s| - 1]);
      assert s == s[..|s| - 1] + [s[|s| - 1]];
    } else {
      r := "";
    }
  }

  /** `t` is `s` without the spaces around it. */
  ghost predicate StripsTo(s: string, t: string) {
    && (exists l, r :: s == l + t + r && AllSpace(l) && AllSpace(r))
    && (t != "" ==> !IsSpace(t[0]) && !IsSpace(t[|t| - 1]))
  }

  /** `str.strip` removes whitespace at both ends and nothing else. */
  lemma StripIs(s: string)
    ensures StripsTo(s, Strip(s))
  {
    var l := LeftStripIs(s);
    var t := LeftStrip(s);
    var r := RightStripIs(t);
    assert s == l + RightStrip(t) + r;
    assert RightStrip(t) != "" ==> RightStrip(t)[0] == t[0];
  }

  /** What strips to nothing is all whitespace. */
  lemma StripBlankIff(s: string)
    ensures Strip(s) == "" <==> AllSpace(s)
  {
    StripIs(s);
    var l, r :| s == l + Strip(s) + r && AllSpace(l) && AllSpace(r);
    if Strip(s) != "" { assert s[|l|] == Strip(s)[0]; }
  }

  lemma LeftStripBlankIff(s: string)
    ensures LeftStrip(s) == "" <==> AllSpace(s)
  {
    var l := LeftStripIs(s);
    if LeftStrip(s) != "" { assert s[|l|] == LeftStrip(s)[0]; }
  }
}
