/** The list of slide kinds returned beside a rendered deck
    (`services/pptx-renderer/server.js`, `effectiveKind`, `renderSlideByKindInner`, the
    renderers' fallbacks and the slide loop of `renderSpec`). */
module DeckKinds {
  import opened Basics

  /** What a slide specification holds, as far as the choice of layout looks at it: arrays
      as lengths or as flags for "this element is usable", `None` for "not an array". */
  datatype Slide = Slide(
    kind: string,
    statValue: bool, statLabel: bool, quoteText: bool,
    columns: Option<nat>, iconRows: Option<nat>,
    imageIsString: bool, imageIsEmpty: bool, imageIsDataUrl: bool,
    steps: Option<seq<bool>>,
    tableColumns: Option<nat>, tableRows: Option<seq<bool>>,
    sources: Option<seq<bool>>, agenda: Option<seq<bool>>,
    figureOk: bool, figureRasterises: bool)

  function Usable(flags: seq<bool>): nat {
    if flags == [] then 0 else (if flags[0] then 1 else 0) + Usable(flags[1..])
  }

  /** `filter(...)` then `slice(0, cap)`, as a length. */
  function Kept(flags: Option<seq<bool>>, cap: nat): nat {
    if flags.None? then 0 else if Usable(flags.value) <= cap then Usable(flags.value) else cap
  }

  function KeptLength(n: Option<nat>, cap: nat): nat {
    if n.None? then 0 else if n.value <= cap then n.value else cap
  }

  /** `some(...)`, as written in `effectiveKind` for sources. */
  predicate SomeUsable(flags: seq<bool>) {
    exists i :: 0 <= i < |flags| && flags[i]
  }

  /** A hero image replaces the chapter page by a picture. */
  predicate HasHero(s: Slide) {
    s.imageIsString && s.imageIsDataUrl
  }

  // ---------------------------------------------------------------- the two accounts

  /** `effectiveKind` */
  function EffectiveKind(s: Slide): string {
    if s.kind == "section_break" then "section_break"
    else if s.kind == "stat_callout" && s.statValue && s.statLabel then "stat_callout"
    else if s.kind == "quote" && s.quoteText then "quote"
    else if s.kind == "two_column" && s.columns.Some? && s.columns.value >= 2 then "two_column"
    else if s.kind == "icon_rows" && s.iconRows.Some? && s.iconRows.value > 0 then "icon_rows"
    else if s.kind == "image_focus" && !s.imageIsEmpty && s.imageIsString then "image_focus"
    else if s.kind == "process" && s.steps.Some? && Usable(s.steps.value) >= 2 then "process"
    else if s.kind == "table" && s.tableColumns.Some? && s.tableColumns.value >= 2
            && s.tableRows.Some? && Usable(s.tableRows.value) >= 1 then "table"
    else if s.kind == "sources" && s.sources.Some? && SomeUsable(s.sources.value) then "sources"
    else if s.kind == "figure" && s.figureOk then "figure"
    else if s.kind == "agenda" && s.agenda.Some? && Usable(s.agenda.value) >= 1 then "agenda"
    else "standard"
  }

  /** The deck under construction: the layout each slide was drawn with, the chapter counter
      kept on it, and the chapter numbers printed. */
  class Deck {
    var slides: seq<string>
    var section: nat
    var printed: seq<nat>

    constructor ()
      ensures slides == [] && section == 0 && printed == []
    {
      slides, section, printed := [], 0, [];
    }

    method AddSlide(layout: string)
      modifies this`slides
      ensures slides == old(slides) + [layout]
    {
      slides := slides + [layout];
    }

    /** `renderSectionBreak`: a hero image is drawn without a number, and so is the first
        slide of a deck. */
    method RenderSectionBreak(s: Slide, twoTone: bool)
      modifies this
      requires Counted()
      ensures slides == old(slides) + ["section_break"] && Counted()
      ensures |printed| == |old(printed)| + if twoTone && !HasHero(s) && old(slides) != [] then 1 else 0
    {
      AddSlide("section_break");
      if s.imageIsString && s.imageIsDataUrl {
        return;
      }
      if twoTone {
        var isCover := |slides| == 1;
        section := section + if isCover then 0 else 1;
        if !isCover {
          printed := printed + [section];
        }
      }
    }

    /** The numbers printed so far are 1, 2, .., section. */
    ghost predicate Counted()
      reads this
    {
      |printed| == section && forall i | 0 <= i < |printed| :: printed[i] == i + 1
    }

    /** The dispatcher and each renderer's own test for falling back to the standard layout. */
    method RenderSlide(s: Slide, twoTone: bool)
      modifies this
      requires Counted()
      ensures Counted()
      ensures slides == old(slides) + [Drawn(s)]
      ensures |printed| == |old(printed)| + if twoTone && IsChapter(s) && old(slides) != [] then 1 else 0
    {
      var layout := "standard";
      if s.kind == "section_break" {
        RenderSectionBreak(s, twoTone);
        return;
      } else if s.kind == "stat_callout" {
        if s.statValue && s.statLabel { layout := "stat_callout"; }
      } else if s.kind == "quote" {
        if s.quoteText { layout := "quote"; }
      } else if s.kind == "two_column" {
        if !(s.columns.None? || s.columns.value < 2) { layout := "two_column"; }
      } else if s.kind == "icon_rows" {
        if !(s.iconRows.None? || s.iconRows.value == 0) { layout := "icon_rows"; }
      } else if s.kind == "image_focus" {
        if !(s.imageIsEmpty || !s.imageIsString) { layout := "image_focus"; }
      } else if s.kind == "process" {
        if !(Kept(s.steps, 6) < 2) { layout := "process"; }
      } else if s.kind == "table" {
        if !(KeptLength(s.tableColumns, 5) < 2 || Kept(s.tableRows, 10) < 1) { layout := "table"; }
      } else if s.kind == "sources" {
        if Kept(s.sources, 14) != 0 { layout := "sources"; }
        if s.sources.Some? { SomeIffUsable(s.sources.value); }
      } else if s.kind == "figure" {
        if s.figureOk && s.figureRasterises { layout := "figure"; }
      } else if s.kind == "agenda" {
        if Kept(s.agenda, 8) != 0 { layout := "agenda"; }
      }
      AddSlide(layout);
    }
  }

  lemma {:induction false} SomeIffUsable(flags: seq<bool>)
    ensures SomeUsable(flags) <==> Usable(flags) > 0
  {
    if flags != [] {
      SomeIffUsable(flags[1..]);
      if SomeUsable(flags[1..]) {
        var i :| 0 <= i < |flags| - 1 && flags[1..][i];
        assert flags[i + 1];
      }
      if SomeUsable(flags) && !flags[0] {
        var i :| 0 <= i < |flags| && flags[i];
        assert flags[1..][i - 1];
      }
    }
  }

  /** The layout a slide is drawn with: the effective kind, unless its figure does not
      rasterise. */
  function Drawn(s: Slide): string {
    if EffectiveKind(s) == "figure" && !s.figureRasterises then "standard" else EffectiveKind(s)
  }

  // ---------------------------------------------------------------- the deck

  /** A two-tone section page that carries a chapter number, unless it opens the deck. */
  predicate IsChapter(s: Slide) {
    s.kind == "section_break" && !HasHero(s)
  }

  /** The chapter pages of a specification: its first slide is never one. */
  function Chapters(spec: seq<Slide>): nat {
    if |spec| <= 1 then 0
    else Chapters(spec[..|spec| - 1]) + if IsChapter(spec[|spec| - 1]) then 1 else 0
  }

  /** A cover is prepended unless the first slide is a section break. */
  function Cover(spec: seq<Slide>): seq<string>
    requires spec != []
  {
    if spec[0].kind != "section_break" then ["cover"] else []
  }

  function Kinds(spec: seq<Slide>): (r: seq<string>)
    ensures |r| == |spec|
  {
    seq(|spec|, i requires 0 <= i < |spec| => EffectiveKind(spec[i]))
  }

  function Layouts(spec: seq<Slide>): (r: seq<string>)
    ensures |r| == |spec|
  {
    seq(|spec|, i requires 0 <= i < |spec| => Drawn(spec[i]))
  }

  lemma OneMoreSlide(spec: seq<Slide>, k: nat)
    requires k < |spec|
    ensures Kinds(spec[..k + 1]) == Kinds(spec[..k]) + [EffectiveKind(spec[k])]
    ensures Layouts(spec[..k + 1]) == Layouts(spec[..k]) + [Drawn(spec[k])]
    ensures Chapters(spec[..k + 1]) == Chapters(spec[..k]) + if k > 0 && IsChapter(spec[k]) then 1 else 0
  {
    assert spec[..k + 1][..k] == spec[..k];
  }

  /** What has been reported and drawn after the first `k` slides. */
  ghost predicate DoneUpTo(spec: seq<Slide>, k: nat, kinds: seq<string>, slides: seq<string>, printed: nat, twoTone: bool)
    requires spec != [] && k <= |spec|
  {
    && kinds == Cover(spec) + Kinds(spec[..k]) && slides == Cover(spec) + Layouts(spec[..k])
    && printed == if twoTone then Chapters(spec[..k]) else 0
  }

  lemma DoneOneMore(spec: seq<Slide>, k: nat, kinds: seq<string>, slides: seq<string>, printed: nat, twoTone: bool)
    requires k < |spec| && DoneUpTo(spec, k, kinds, slides, printed, twoTone)
    ensures DoneUpTo(spec, k + 1, kinds + [EffectiveKind(spec[k])], slides + [Drawn(spec[k])],
                     printed + (if twoTone && IsChapter(spec[k]) && slides != [] then 1 else 0), twoTone)
  {
    OneMoreSlide(spec, k);
    assert k == 0 ==> (slides == [] <==> spec[0].kind == "section_break");
  }

  lemma DoneAll(spec: seq<Slide>, kinds: seq<string>, slides: seq<string>, printed: nat, twoTone: bool)
    requires spec != [] && DoneUpTo(spec, |spec|, kinds, slides, printed, twoTone)
    ensures kinds == Cover(spec) + Kinds(spec) && slides == Cover(spec) + Layouts(spec)
    ensures printed == (if twoTone then Chapters(spec) else 0)
    ensures kinds == slides <==> forall s | s in spec :: EffectiveKind(s) == "figure" ==> s.figureRasterises
  {
    assert spec[..|spec|] == spec;
    KindsMatchIff(spec);
  }

  /** `renderSpec`'s slide loop.  The list of kinds has one entry a slide, in order, and it
      names the layout drawn at every position iff every figure drawn as one rasterised;
      the chapter pages of a two-tone deck are numbered 1, 2, 3 and so on, all of them. */
  method RenderSpec(spec: seq<Slide>, twoTone: bool) returns (deck: Deck, kinds: seq<string>, coverPrepended: bool)
    requires spec != []
    ensures fresh(deck) && coverPrepended == (spec[0].kind != "section_break")
    ensures kinds == Cover(spec) + Kinds(spec)
    ensures deck.slides == Cover(spec) + Layouts(spec)
    ensures kinds == deck.slides <==> forall s | s in spec :: EffectiveKind(s) == "figure" ==> s.figureRasterises
    ensures |deck.printed| == (if twoTone then Chapters(spec) else 0)
    ensures forall i | 0 <= i < |deck.printed| :: deck.printed[i] == i + 1
  {
    deck := new Deck();
    kinds := [];
    coverPrepended := spec[0].kind != "section_break";
    if coverPrepended {
      kinds := kinds + ["cover"];
      deck.AddSlide("cover");
    }
    for k := 0 to |spec|
      invariant fresh(deck) && deck.Counted()
      invariant DoneUpTo(spec, k, kinds, deck.slides, |deck.printed|, twoTone)
    {
      DoneOneMore(spec, k, kinds, deck.slides, |deck.printed|, twoTone);
      kinds := kinds + [EffectiveKind(spec[k])];
      deck.RenderSlide(spec[k], twoTone);
    }
    DoneAll(spec, kinds, deck.slides, |deck.printed|, twoTone);
  }

  lemma KindsMatchIff(spec: seq<Slide>)
    requires spec != []
    ensures Cover(spec) + Kinds(spec) == Cover(spec) + Layouts(spec) <==>
              forall s | s in spec :: EffectiveKind(s) == "figure" ==> s.figureRasterises
  {
    var c := Cover(spec);
    if c + Kinds(spec) == c + Layouts(spec) {
      forall s | s in spec
        ensures EffectiveKind(s) == "figure" ==> s.figureRasterises
      {
        var i :| 0 <= i < |spec| && spec[i] == s;
        assert (c + Kinds(spec))[|c| + i] == EffectiveKind(s);
        assert (c + Layouts(spec))[|c| + i] == Drawn(s);
      }
    } else {
      assert Kinds(spec) != Layouts(spec);
      var i :| 0 <= i < |spec| && Kinds(spec)[i] != Layouts(spec)[i];
      assert spec[i] in spec;
    }
  }

  /** One figure that does not rasterise: reported as a figure, drawn as a standard slide. */
  lemma FailedFigureMisreported(s: Slide)
    requires s.kind == "figure" && s.figureOk && !s.figureRasterises
    ensures Cover([s]) + Kinds([s]) == ["cover", "figure"] && Cover([s]) + Layouts([s]) == ["cover", "standard"]
  {
    assert EffectiveKind(s) == "figure";
    assert Cover([s]) + Kinds([s]) == ["cover"] + ["figure"];
    assert Cover([s]) + Layouts([s]) == ["cover"] + ["standard"];
  }

  // ---------------------------------------------------------------- what each layout needs

  lemma {:induction false} TwoUsable(flags: seq<bool>)
    ensures Usable(flags) >= 2 <==> exists i, j :: 0 <= i < j < |flags| && flags[i] && flags[j]
  {
    if flags != [] {
      SomeIffUsable(flags[1..]);
      TwoUsable(flags[1..]);
      if i, j :| 0 <= i < j < |flags| && flags[i] && flags[j] {
        assert flags[1..][j - 1];
        if i > 0 { assert flags[1..][i - 1]; }
      }
      if Usable(flags) >= 2 {
        if flags[0] {
          var j :| 0 <= j < |flags| - 1 && flags[1..][j];
          assert flags[0] && flags[j + 1];
        } else {
          var i, j :| 0 <= i < j < |flags| - 1 && flags[1..][i] && flags[1..][j];
          assert flags[i + 1] && flags[j + 1];
        }
      }
    }
  }

  /** What a slide must hold to be reported as the layout it asks for; anything else, and any
      layout not listed, is reported as standard. */
  lemma ReportedAsIff(s: Slide)
    ensures EffectiveKind(s) == "section_break" <==> s.kind == "section_break"
    ensures EffectiveKind(s) == "stat_callout" <==> s.kind == "stat_callout" && s.statValue && s.statLabel
    ensures EffectiveKind(s) == "quote" <==> s.kind == "quote" && s.quoteText
    ensures EffectiveKind(s) == "two_column" <==> s.kind == "two_column" && s.columns.Some? && s.columns.value > 1
    ensures EffectiveKind(s) == "icon_rows" <==> s.kind == "icon_rows" && s.iconRows.Some? && s.iconRows.value != 0
    ensures EffectiveKind(s) == "image_focus" <==> s.kind == "image_focus" && s.imageIsString && !s.imageIsEmpty
    ensures EffectiveKind(s) == "process" <==>
              s.kind == "process" && s.steps.Some? &&
              exists i, j :: 0 <= i < j < |s.steps.value| && s.steps.value[i] && s.steps.value[j]
    ensures EffectiveKind(s) == "table" <==>
              s.kind == "table" && s.tableColumns.Some? && s.tableColumns.value > 1 && s.tableRows.Some? &&
              exists i :: 0 <= i < |s.tableRows.value| && s.tableRows.value[i]
    ensures EffectiveKind(s) == "sources" <==>
              s.kind == "sources" && s.sources.Some? && exists i :: 0 <= i < |s.sources.value| && s.sources.value[i]
    ensures EffectiveKind(s) == "figure" <==> s.kind == "figure" && s.figureOk
    ensures EffectiveKind(s) == "agenda" <==>
              s.kind == "agenda" && s.agenda.Some? && exists i :: 0 <= i < |s.agenda.value| && s.agenda.value[i]
    ensures EffectiveKind(s) == "standard" || EffectiveKind(s) == s.kind
  {
    if s.steps.Some? { TwoUsable(s.steps.value); }
    if s.tableRows.Some? { SomeIffUsable(s.tableRows.value); }
    if s.agenda.Some? { SomeIffUsable(s.agenda.value); }
  }

  function ChapterPages(spec: seq<Slide>, n: nat): set<nat>
    requires n <= |spec|
  {
    set k: nat | 0 < k < n && spec[k].kind == "section_break" && !(spec[k].imageIsString && spec[k].imageIsDataUrl)
  }

  /** The chapter pages are the section breaks after the first slide that show no hero image. */
  lemma {:induction false} ChaptersAre(spec: seq<Slide>, n: nat)
    requires n <= |spec|
    ensures Chapters(spec[..n]) == |ChapterPages(spec, n)|
  {
    if n <= 1 {
      assert ChapterPages(spec, n) == {};
    } else {
      ChaptersAre(spec, n - 1);
      assert spec[..n][..n - 1] == spec[..n - 1];
      var more := if IsChapter(spec[n - 1]) then {n - 1} else {};
      assert ChapterPages(spec, n) == ChapterPages(spec, n - 1) + more;
    }
  }
}
