/** Overlap and emptiness defects of a slide (`services/pptx-renderer/server.js`,
    `analyseSlide`, `isContainment`). */
module SlideOverlap {
  import E = EmptyRegion

  datatype Shape = Shape(x: real, y: real, w: real, h: real, isSlideNum: bool)

  const OVERLAP_MIN := 0.1
  const MAX_EMPTY_CELLS_WARN := 8
  const MAX_EMPTY_CELLS_CRIT := 12

  function Max(a: real, b: real): real { if a >= b then a else b }
  function Min(a: real, b: real): real { if a <= b then a else b }

  // ---------------------------------------------------------------- one pair

  /** Width and height of the intersection; positive when the shapes really intersect. */
  function CommonW(a: Shape, b: Shape): real {
    Min(a.x + a.w, b.x + b.w) - Max(a.x, b.x)
  }

  function CommonH(a: Shape, b: Shape): real {
    Min(a.y + a.h, b.y + b.h) - Max(a.y, b.y)
  }

  function Area(s: Shape): real {
    s.w * s.h
  }

  function CommonArea(a: Shape, b: Shape): real {
    CommonW(a, b) * CommonH(a, b)
  }

  /** `isContainment` */
  predicate IsContainment(a: Shape, b: Shape, inter: real) {
    var smaller := Min(Area(a), Area(b));
    smaller > 0.0 && inter >= smaller * 0.9
  }

  /** The test at the centre of the double loop. */
  predicate Reported(a: Shape, b: Shape) {
    && !a.isSlideNum && !b.isSlideNum
    && CommonW(a, b) > 0.0 && CommonH(a, b) > 0.0
    && CommonArea(a, b) > OVERLAP_MIN
    && !IsContainment(a, b, CommonArea(a, b))
  }

  lemma ReportedSymmetric(a: Shape, b: Shape)
    ensures Reported(a, b) <==> Reported(b, a)
  {
    assert CommonW(a, b) == CommonW(b, a) && CommonH(a, b) == CommonH(b, a);
  }

  predicate Inside(a: Shape, b: Shape) {
    b.x <= a.x && a.x + a.w <= b.x + b.w && b.y <= a.y && a.y + a.h <= b.y + b.h
  }

  /** Two shapes that do not share any area are never reported, nor is a slide number. */
  lemma ApartNeverReported(a: Shape, b: Shape)
    requires a.x + a.w <= b.x || a.y + a.h <= b.y || a.isSlideNum
    ensures !Reported(a, b) && !Reported(b, a)
  {
  }

  /** A shape and its copy moved right and down by less than its size are reported exactly when
      the common area is over 0.1 and under nine tenths of the shape. */
  lemma ShiftedCopyReportedIff(a: Shape, dx: real, dy: real)
    requires !a.isSlideNum && 0.0 <= dx < a.w && 0.0 <= dy < a.h
    ensures var b := a.(x := a.x + dx, y := a.y + dy);
            Reported(a, b) <==> 0.1 < (a.w - dx) * (a.h - dy) < 0.9 * (a.w * a.h)
  {
    var b := a.(x := a.x + dx, y := a.y + dy);
    assert CommonW(a, b) == a.w - dx && CommonH(a, b) == a.h - dy;
    ProductMonotone(a.w, a.h, a.w, a.h);
    assert Area(a) == a.w * a.h == Area(b);
  }

  lemma ProductMonotone(a: real, b: real, c: real, d: real)
    requires 0.0 < a <= c && 0.0 < b <= d
    ensures 0.0 < a * b <= c * d
  {
    assert a * b <= c * b;
    assert c * b <= c * d;
  }

  lemma NineTenths(inner: real, outer: real)
    requires 0.0 < inner <= outer
    ensures Min(inner, outer) > 0.0 && inner >= Min(inner, outer) * 0.9
  {
  }

  lemma InsideIsContainment(a: Shape, b: Shape)
    requires 0.0 < Area(a) <= Area(b)
    ensures IsContainment(a, b, Area(a))
  {
    NineTenths(Area(a), Area(b));
  }

  lemma InsideCommon(a: Shape, b: Shape)
    requires Inside(a, b) && a.w > 0.0 && a.h > 0.0
    ensures CommonArea(a, b) == Area(a) && 0.0 < Area(a) <= Area(b)
  {
    assert CommonW(a, b) == a.w && CommonH(a, b) == a.h;
    ProductMonotone(a.w, a.h, b.w, b.h);
  }

  /** A shape of positive size that lies wholly inside another is never reported. */
  lemma InsideNeverReported(a: Shape, b: Shape)
    requires Inside(a, b) && a.w > 0.0 && a.h > 0.0
    ensures !Reported(a, b) && !Reported(b, a)
  {
    ReportedSymmetric(a, b);
    InsideCommon(a, b);
    InsideIsContainment(a, b);
  }

  // ---------------------------------------------------------------- all pairs

  ghost function CountWith(s: Shape, rest: seq<Shape>): nat {
    if rest == [] then 0 else (if Reported(s, rest[0]) then 1 else 0) + CountWith(s, rest[1..])
  }

  /** The number of unordered pairs that are reported. */
  ghost function Count(shapes: seq<Shape>): nat {
    if shapes == [] then 0 else CountWith(shapes[0], shapes[1..]) + Count(shapes[1..])
  }

  function Drop(shapes: seq<Shape>, i: nat): (r: seq<Shape>)
    requires i < |shapes|
    ensures |r| == |shapes| - 1
  {
    shapes[..i] + shapes[i + 1..]
  }

  lemma DropTail(shapes: seq<Shape>, i: nat)
    requires 0 < i < |shapes|
    ensures Drop(shapes, i) == [shapes[0]] + Drop(shapes[1..], i - 1)
  {
  }

  lemma {:induction false} CountWithDrop(s: Shape, rest: seq<Shape>, i: nat)
    requires i < |rest|
    ensures CountWith(s, rest) == (if Reported(s, rest[i]) then 1 else 0) + CountWith(s, Drop(rest, i))
  {
    if i == 0 {
      assert Drop(rest, 0) == rest[1..];
    } else {
      DropTail(rest, i);
      CountWithDrop(s, rest[1..], i - 1);
    }
  }

  /** Any shape may be counted first. */
  lemma {:induction false} CountDrop(shapes: seq<Shape>, i: nat)
    requires i < |shapes|
    ensures Count(shapes) == CountWith(shapes[i], Drop(shapes, i)) + Count(Drop(shapes, i))
  {
    if i == 0 {
      assert Drop(shapes, 0) == shapes[1..];
    } else {
      var first, rest := shapes[0], shapes[1..];
      DropTail(shapes, i);
      CountDrop(rest, i - 1);
      CountWithDrop(first, rest, i - 1);
      ReportedSymmetric(first, shapes[i]);
      assert Drop(shapes, i)[1..] == Drop(rest, i - 1);
    }
  }

  lemma DropMultiset(shapes: seq<Shape>, i: nat)
    requires i < |shapes|
    ensures multiset(Drop(shapes, i)) == multiset(shapes) - multiset{shapes[i]}
  {
    assert shapes == shapes[..i] + [shapes[i]] + shapes[i + 1..];
  }

  lemma {:induction false} CountWithPermuted(s: Shape, a: seq<Shape>, b: seq<Shape>)
    requires multiset(a) == multiset(b)
    ensures CountWith(s, a) == CountWith(s, b)
    decreases |a|
  {
    if a == [] {
      assert |multiset(b)| == 0;
    } else {
      assert a[0] in multiset(b);
      var i :| 0 <= i < |b| && b[i] == a[0];
      CountWithDrop(s, b, i);
      DropMultiset(b, i);
      DropMultiset(a, 0);
      assert Drop(a, 0) == a[1..];
      CountWithPermuted(s, a[1..], Drop(b, i));
    }
  }

  /** Permuting the shapes preserves the number of overlap defects. */
  lemma {:induction false} CountPermuted(a: seq<Shape>, b: seq<Shape>)
    requires multiset(a) == multiset(b)
    ensures Count(a) == Count(b)
    decreases |a|
  {
    if a == [] {
      assert |multiset(b)| == 0;
    } else {
      assert a[0] in multiset(b);
      var i :| 0 <= i < |b| && b[i] == a[0];
      CountDrop(b, i);
      DropMultiset(b, i);
      DropMultiset(a, 0);
      assert Drop(a, 0) == a[1..];
      CountWithPermuted(a[0], a[1..], Drop(b, i));
      CountPermuted(a[1..], Drop(b, i));
    }
  }

  // ---------------------------------------------------------------- the loops

  /** (a, b) is a reported pair before position (i, j) of the double loop. */
  ghost predicate PairBefore(shapes: seq<Shape>, a: nat, b: nat, i: nat, j: nat) {
    a < b < |shapes| && Reported(shapes[a], shapes[b]) && (a < i || (a == i && b < j))
  }

  ghost predicate PairsUpTo(shapes: seq<Shape>, found: seq<(nat, nat)>, i: nat, j: nat) {
    && (forall a: nat, b: nat :: (a, b) in found <==> PairBefore(shapes, a, b, i, j))
    && (forall k, l | 0 <= k < l < |found| :: found[k] != found[l])
  }

  lemma AddPair(shapes: seq<Shape>, found: seq<(nat, nat)>, i: nat, j: nat)
    requires PairsUpTo(shapes, found, i, j) && i < j < |shapes|
    ensures PairsUpTo(shapes, if Reported(shapes[i], shapes[j]) then found + [(i, j)] else found, i, j + 1)
  {
    assert (i, j) !in found by { assert !PairBefore(shapes, i, j, i, j); }
    forall a: nat, b: nat
      ensures PairBefore(shapes, a, b, i, j + 1) <==>
                PairBefore(shapes, a, b, i, j) || (a == i && b == j && Reported(shapes[i], shapes[j]))
    {
    }
  }

  lemma NextRow(shapes: seq<Shape>, found: seq<(nat, nat)>, i: nat)
    requires PairsUpTo(shapes, found, i, |shapes|)
    ensures PairsUpTo(shapes, found, i + 1, i + 2)
  {
    forall a: nat, b: nat
      ensures PairBefore(shapes, a, b, i + 1, i + 2) <==> PairBefore(shapes, a, b, i, |shapes|)
    {
    }
  }

  lemma {:induction false} CountWithSnoc(s: Shape, rest: seq<Shape>, last: Shape)
    ensures CountWith(s, rest + [last]) == CountWith(s, rest) + if Reported(s, last) then 1 else 0
  {
    CountWithDrop(s, rest + [last], |rest|);
    assert Drop(rest + [last], |rest|) == rest;
  }

  /** The double loop over pairs: exactly one defect for each unordered pair that meets the
      test, and as many as `Count` says. */
  method OverlapDefects(shapes: seq<Shape>) returns (found: seq<(nat, nat)>)
    ensures forall a: nat, b: nat :: (a, b) in found <==> a < b < |shapes| && Reported(shapes[a], shapes[b])
    ensures forall k, l | 0 <= k < l < |found| :: found[k] != found[l]
    ensures |found| == Count(shapes)
  {
    found := [];
    for i := 0 to |shapes|
      invariant PairsUpTo(shapes, found, i, i + 1)
      invariant |found| + Count(shapes[i..]) == Count(shapes)
    {
      var row := OverlapRow(shapes, i, found);
      assert Count(shapes[i..]) == CountWith(shapes[i], shapes[i + 1..]) + Count(shapes[i + 1..]) by {
        assert shapes[i..][0] == shapes[i] && shapes[i..][1..] == shapes[i + 1..];
      }
      found := row;
    }
    forall a: nat, b: nat
      ensures (a, b) in found <==> a < b < |shapes| && Reported(shapes[a], shapes[b])
    {
      assert (a, b) in found <==> PairBefore(shapes, a, b, |shapes|, |shapes| + 1);
    }
  }

  /** The state of row `i` before column `j`. */
  ghost predicate RowUpTo(shapes: seq<Shape>, before: seq<(nat, nat)>, found: seq<(nat, nat)>, i: nat, j: nat)
    requires i < |shapes|
  {
    && i < j <= |shapes| && PairsUpTo(shapes, found, i, j)
    && |found| == |before| + CountWith(shapes[i], shapes[i + 1..j])
  }

  lemma RowStep(shapes: seq<Shape>, before: seq<(nat, nat)>, found: seq<(nat, nat)>, i: nat, j: nat)
    requires i < j < |shapes| && RowUpTo(shapes, before, found, i, j)
    ensures RowUpTo(shapes, before, if Reported(shapes[i], shapes[j]) then found + [(i, j)] else found, i, j + 1)
  {
    AddPair(shapes, found, i, j);
    CountWithNext(shapes, i, j);
  }

  method OverlapRow(shapes: seq<Shape>, i: nat, before: seq<(nat, nat)>) returns (found: seq<(nat, nat)>)
    requires i < |shapes| && PairsUpTo(shapes, before, i, i + 1)
    ensures PairsUpTo(shapes, found, i + 1, i + 2)
    ensures |found| == |before| + CountWith(shapes[i], shapes[i + 1..])
  {
    found := before;
    for j := i + 1 to |shapes|
      invariant RowUpTo(shapes, before, found, i, j)
    {
      RowStep(shapes, before, found, i, j);
      var hit := Overlaps(shapes[i], shapes[j]);
      if hit {
        found := found + [(i, j)];
      }
    }
    assert shapes[i + 1..|shapes|] == shapes[i + 1..];
    NextRow(shapes, found, i);
  }

  lemma CountWithNext(shapes: seq<Shape>, i: nat, j: nat)
    requires i < j < |shapes|
    ensures CountWith(shapes[i], shapes[i + 1..j + 1]) ==
              CountWith(shapes[i], shapes[i + 1..j]) + if Reported(shapes[i], shapes[j]) then 1 else 0
  {
    assert shapes[i + 1..j + 1] == shapes[i + 1..j] + [shapes[j]];
    CountWithSnoc(shapes[i], shapes[i + 1..j], shapes[j]);
  }

  /** The body of the double loop. */
  method Overlaps(a: Shape, b: Shape) returns (hit: bool)
    ensures hit == Reported(a, b)
  {
    if a.isSlideNum || b.isSlideNum {
      return false;
    }
    var ix1, iy1 := Max(a.x, b.x), Max(a.y, b.y);
    var ix2, iy2 := Min(a.x + a.w, b.x + b.w), Min(a.y + a.h, b.y + b.h);
    if ix2 > ix1 && iy2 > iy1 {
      var area := (ix2 - ix1) * (iy2 - iy1);
      assert ix2 - ix1 == CommonW(a, b) && iy2 - iy1 == CommonH(a, b);
      assert area == CommonArea(a, b);
      return area > OVERLAP_MIN && !IsContainment(a, b, area);
    }
    return false;
  }

  // ---------------------------------------------------------------- emptiness

  datatype Severity = NoDefect | Warning | Critical

  function Plain(shapes: seq<Shape>): (r: seq<E.Shape>)
    ensures |r| == |shapes|
  {
    seq(|shapes|, i requires 0 <= i < |shapes| => E.Shape(shapes[i].x, shapes[i].y, shapes[i].w, shapes[i].h))
  }

  /** Some component of free body cells of the slide has at least `n` cells. */
  ghost predicate HasVoid(shapes: seq<Shape>, n: nat) {
    var free := E.FreeCells(Plain(shapes), E.SLIDE);
    exists a :: a in free && |E.Component(free, a)| >= n
  }

  /** The local-emptiness defect: critical iff some contiguous void has at least half of the
      24 body cells, a warning iff otherwise some has at least a third, and none for slides
      that are sparse by design. */
  method EmptinessDefect(shapes: seq<Shape>, judged: bool) returns (severity: Severity)
    ensures severity.Critical? <==> judged && HasVoid(shapes, 12)
    ensures severity.Warning? <==> judged && HasVoid(shapes, 8) && !HasVoid(shapes, 12)
  {
    if !judged {
      return NoDefect;
    }
    var largest, regions := E.FindLargestEmptyRegion(Plain(shapes), E.SLIDE);
    VoidIff(shapes, largest, 12);
    VoidIff(shapes, largest, 8);
    if largest >= MAX_EMPTY_CELLS_CRIT {
      return Critical;
    }
    if largest >= MAX_EMPTY_CELLS_WARN {
      return Warning;
    }
    return NoDefect;
  }

  lemma VoidIff(shapes: seq<Shape>, largest: nat, n: nat)
    requires n > 0 && E.IsLargest(E.FreeCells(Plain(shapes), E.SLIDE), largest)
    ensures largest >= n <==> HasVoid(shapes, n)
  {
  }
}
