/** The largest empty region of a slide body (`services/pptx-renderer/server.js`).

    The body area below the header band is cut into `rows` x `cols` cells.  A cell is
    free when no shape meets it; the analyser reports the size of the largest
    4-connected group of free cells.  The source fixes 4 x 6; the model allows any grid
    and takes coordinates as exact reals.  */
module EmptyRegion {
  import opened Basics

  datatype Cell = Cell(row: int, col: int)

  datatype Shape = Shape(x: real, y: real, w: real, h: real)

  datatype Geometry = Geometry(slideW: real, slideH: real, bodyY: real, rows: nat, cols: nat) {
    ghost predicate Valid() {
      slideW > 0.0 && slideH > bodyY && rows > 0 && cols > 0
    }

    function CellW(): real
      requires cols > 0
    {
      slideW / cols as real
    }

    function CellH(): real
      requires rows > 0
    {
      (slideH - bodyY) / rows as real
    }

    ghost predicate Contains(cell: Cell) {
      0 <= cell.row < rows && 0 <= cell.col < cols
    }
  }

  /** The slide the renderer produces. */
  const SLIDE := Geometry(13.333, 7.5, 0.84, 4, 6)

  // ---------------------------------------------------------------- connectivity

  ghost predicate Adjacent(a: Cell, b: Cell) {
    || (a.row == b.row && (a.col == b.col + 1 || b.col == a.col + 1))
    || (a.col == b.col && (a.row == b.row + 1 || b.row == a.row + 1))
  }

  ghost predicate IsPath(free: set<Cell>, p: seq<Cell>) {
    && |p| > 0
    && (forall i | 0 <= i < |p| :: p[i] in free)
    && (forall i | 0 <= i < |p| - 1 :: Adjacent(p[i], p[i + 1]))
  }

  ghost predicate PathBetween(free: set<Cell>, p: seq<Cell>, a: Cell, b: Cell) {
    IsPath(free, p) && p[0] == a && p[|p| - 1] == b
  }

  ghost predicate Connected(free: set<Cell>, a: Cell, b: Cell) {
    exists p :: PathBetween(free, p, a, b)
  }

  /** The 4-connected component of `a` among the free cells. */
  ghost function Component(free: set<Cell>, a: Cell): set<Cell> {
    set b | b in free && Connected(free, a, b)
  }

  /** `n` is the size of a largest component, and 0 when there is no free cell. */
  ghost predicate IsLargest(free: set<Cell>, n: nat) {
    && (forall a | a in free :: |Component(free, a)| <= n)
    && (if free == {} then n == 0 else exists a :: a in free && |Component(free, a)| == n)
  }

  ghost predicate Closed(free: set<Cell>, s: set<Cell>) {
    forall a, b | a in s && b in free && Adjacent(a, b) :: b in s
  }

  lemma {:induction false} PathStays(free: set<Cell>, s: set<Cell>, p: seq<Cell>, i: nat)
    requires Closed(free, s) && IsPath(free, p) && p[0] in s && i < |p|
    ensures p[i] in s
  {
    if i > 0 {
      PathStays(free, s, p, i - 1);
      assert Adjacent(p[i - 1], p[i]);
    }
  }

  lemma ConnectedReflexive(free: set<Cell>, a: Cell)
    requires a in free
    ensures Connected(free, a, a)
  {
    assert PathBetween(free, [a], a, a);
  }

  lemma ConnectedStep(free: set<Cell>, a: Cell, b: Cell, c: Cell)
    requires Connected(free, a, b) && Adjacent(b, c) && c in free
    ensures Connected(free, a, c)
  {
    var p :| PathBetween(free, p, a, b);
    assert PathBetween(free, p + [c], a, c);
  }

  lemma ConnectedTransitive(free: set<Cell>, a: Cell, b: Cell, c: Cell)
    requires Connected(free, a, b) && Connected(free, b, c)
    ensures Connected(free, a, c)
  {
    var p :| PathBetween(free, p, a, b);
    var q :| PathBetween(free, q, b, c);
    var r := p + q[1..];
    assert r[|p| - 1] == b;
    forall i | 0 <= i < |r| - 1
      ensures Adjacent(r[i], r[i + 1])
    {
      if i >= |p| - 1 {
        assert r[i] == q[i - (|p| - 1)];
        assert r[i + 1] == q[i + 1 - (|p| - 1)];
      }
    }
    assert PathBetween(free, r, a, c);
  }

  function Reverse<T>(s: seq<T>): (r: seq<T>)
    ensures |r| == |s|
    ensures forall i | 0 <= i < |s| :: r[i] == s[|s| - 1 - i]
  {
    seq(|s|, i requires 0 <= i < |s| => s[|s| - 1 - i])
  }

  lemma ConnectedSymmetric(free: set<Cell>, a: Cell, b: Cell)
    requires Connected(free, a, b)
    ensures Connected(free, b, a)
  {
    var p :| PathBetween(free, p, a, b);
    var q := Reverse(p);
    forall i | 0 <= i < |q| - 1
      ensures Adjacent(q[i], q[i + 1])
    {
      assert Adjacent(p[|p| - 2 - i], p[|p| - 2 - i + 1]);
    }
    assert PathBetween(free, q, b, a);
  }

  /** A cell of a component spans the same component. */
  lemma ComponentOf(free: set<Cell>, a: Cell, b: Cell)
    requires b in Component(free, a)
    ensures Component(free, b) == Component(free, a)
  {
    ConnectedSymmetric(free, a, b);
    forall c | c in free
      ensures Connected(free, a, c) <==> Connected(free, b, c)
    {
      if Connected(free, a, c) { ConnectedTransitive(free, b, a, c); }
      if Connected(free, b, c) { ConnectedTransitive(free, a, b, c); }
    }
  }

  lemma ComponentInside(free: set<Cell>, s: set<Cell>, a: Cell)
    requires Closed(free, s) && a in s
    ensures Component(free, a) <= s
  {
    forall b | b in Component(free, a)
      ensures b in s
    {
      var p :| PathBetween(free, p, a, b);
      PathStays(free, s, p, |p| - 1);
    }
  }

  lemma ComponentOutside(free: set<Cell>, s: set<Cell>, a: Cell)
    requires Closed(free, s) && a !in s
    ensures Component(free, a) !! s
  {
    forall b | b in Component(free, a)
      ensures b !in s
    {
      if b in s {
        ConnectedSymmetric(free, a, b);
        var p :| PathBetween(free, p, b, a);
        PathStays(free, s, p, |p| - 1);
        assert false;
      }
    }
  }

  /** A cell and its four neighbours hang together. */
  lemma CrossIsOneComponent(c: Cell)
    ensures var free := {c, Cell(c.row + 1, c.col), Cell(c.row - 1, c.col), Cell(c.row, c.col + 1), Cell(c.row, c.col - 1)};
            Component(free, c) == free
  {
    var free := {c, Cell(c.row + 1, c.col), Cell(c.row - 1, c.col), Cell(c.row, c.col + 1), Cell(c.row, c.col - 1)};
    ConnectedReflexive(free, c);
    forall b | b in free
      ensures Connected(free, c, b)
    {
      if b != c { ConnectedStep(free, c, c, b); }
    }
  }

  /** Two cells that only touch at a corner do not, nor do two with a gap between them. */
  lemma CornersAreApart(c: Cell, d: Cell)
    requires (c.row != d.row && c.col != d.col) || c.row - d.row > 1 || d.row - c.row > 1 || c.col - d.col > 1 || d.col - c.col > 1
    ensures Component({c, d}, c) == {c}
  {
    ConnectedReflexive({c, d}, c);
    assert Closed({c, d}, {c});
    ComponentInside({c, d}, {c}, c);
  }

  /** The largest size is unique. */
  lemma LargestUnique(free: set<Cell>, m: nat, n: nat)
    requires IsLargest(free, m) && IsLargest(free, n)
    ensures m == n
  {
    if free != {} {
      var a :| a in free && |Component(free, a)| == m;
      var b :| b in free && |Component(free, b)| == n;
    }
  }

  // ---------------------------------------------------------------- rasterisation

  predicate BelowHeader(s: Shape, g: Geometry) {
    !(s.y + s.h <= g.bodyY)
  }

  /** A shape, with 0.01 inch taken off its right and bottom edge, meets the half-open
      rectangle of a cell.  This is the geometric reading of "covered": it mentions
      neither the rounding nor the clamping of the code. */
  ghost predicate Meets(s: Shape, g: Geometry, cell: Cell)
    requires g.Valid()
  {
    BelowHeader(s, g) && MeetsColumn(s, g, cell.col) && MeetsRow(s, g, cell.row)
  }

  ghost predicate MeetsColumn(s: Shape, g: Geometry, col: int)
    requires g.Valid()
  {
    var left := col as real * g.CellW();
    s.x < left + g.CellW() && left <= s.x + s.w - 0.01
  }

  ghost predicate MeetsRow(s: Shape, g: Geometry, row: int)
    requires g.Valid()
  {
    var top := g.bodyY + row as real * g.CellH();
    s.y < top + g.CellH() && top <= s.y + s.h - 0.01
  }

  /** All cells of a grid. */
  ghost function AllCells(rows: nat, cols: nat): (s: set<Cell>)
    ensures forall x: Cell :: x in s <==> 0 <= x.row < rows && 0 <= x.col < cols
  {
    var s := set r, c | 0 <= r < rows && 0 <= c < cols :: Cell(r, c);
    assert forall x: Cell :: 0 <= x.row < rows && 0 <= x.col < cols ==> x == Cell(x.row, x.col);
    s
  }

  ghost function FreeCells(shapes: seq<Shape>, g: Geometry): set<Cell>
    requires g.Valid()
  {
    set cell | cell in AllCells(g.rows, g.cols) && IsFree(shapes, g, cell)
  }

  ghost predicate IsFree(shapes: seq<Shape>, g: Geometry, cell: Cell)
    requires g.Valid()
  {
    forall s | s in shapes :: !Meets(s, g, cell)
  }

  function Max(a: int, b: int): int { if a >= b then a else b }
  function Min(a: int, b: int): int { if a <= b then a else b }
  function MaxReal(a: real, b: real): real { if a >= b then a else b }

  // The index range a shape marks, as the code computes it.
  function FirstCol(s: Shape, g: Geometry): int
    requires g.slideW > 0.0 && g.cols > 0
  {
    assert g.CellW() > 0.0;
    Max(0, (s.x / g.CellW()).Floor)
  }

  function LastCol(s: Shape, g: Geometry): int
    requires g.slideW > 0.0 && g.cols > 0
  {
    assert g.CellW() > 0.0;
    Min(g.cols - 1, ((s.x + s.w - 0.01) / g.CellW()).Floor)
  }

  function FirstRow(s: Shape, g: Geometry): int
    requires g.slideH > g.bodyY && g.rows > 0
  {
    assert g.CellH() > 0.0;
    Max(0, ((MaxReal(s.y, g.bodyY) - g.bodyY) / g.CellH()).Floor)
  }

  function LastRow(s: Shape, g: Geometry): int
    requires g.slideH > g.bodyY && g.rows > 0
  {
    assert g.CellH() > 0.0;
    Min(g.rows - 1, ((s.y + s.h - 0.01 - g.bodyY) / g.CellH()).Floor)
  }

  lemma FloorBelow(x: real, d: real, k: int)
    requires d > 0.0
    ensures (x / d).Floor <= k <==> x < k as real * d + d
  {
    var q := x / d;
    assert q * d == x;
    assert q.Floor <= k <==> q < (k + 1) as real;
    assert (k + 1) as real * d == k as real * d + d;
    if q < (k + 1) as real {
      assert q * d < (k + 1) as real * d;
    } else {
      assert q * d >= (k + 1) as real * d;
    }
  }

  lemma FloorAbove(x: real, d: real, k: int)
    requires d > 0.0
    ensures k <= (x / d).Floor <==> k as real * d <= x
  {
    var q := x / d;
    assert q * d == x;
    assert k <= q.Floor <==> k as real <= q;
    if k as real <= q {
      assert k as real * d <= q * d;
    } else {
      assert k as real * d > q * d;
    }
  }

  lemma CellSizesPositive(g: Geometry)
    requires g.Valid()
    ensures g.CellW() > 0.0 && g.CellH() > 0.0
  {
  }

  lemma ColumnRange(s: Shape, g: Geometry, col: int)
    requires g.Valid() && 0 <= col < g.cols
    ensures MeetsColumn(s, g, col) <==> FirstCol(s, g) <= col <= LastCol(s, g)
  {
    CellSizesPositive(g);
    FloorBelow(s.x, g.CellW(), col);
    FloorAbove(s.x + s.w - 0.01, g.CellW(), col);
  }

  /** The linear arithmetic of `RowRange`, with the products as plain reals. */
  lemma ShiftByBody(y: real, bottom: real, bodyY: real, row: real, h: real)
    requires row >= 0.0 && h > 0.0
    ensures && (MaxReal(y, bodyY) - bodyY < row + h <==> y < bodyY + row + h)
            && (row <= bottom - bodyY <==> bodyY + row <= bottom)
  {
  }

  lemma RowRange(s: Shape, g: Geometry, row: int)
    requires g.Valid() && 0 <= row < g.rows
    ensures MeetsRow(s, g, row) <==> FirstRow(s, g) <= row <= LastRow(s, g)
  {
    CellSizesPositive(g);
    FloorBelow(MaxReal(s.y, g.bodyY) - g.bodyY, g.CellH(), row);
    FloorAbove(s.y + s.h - 0.01 - g.bodyY, g.CellH(), row);
    ProductNonNegative(row as real, g.CellH());
    ShiftByBody(s.y, s.y + s.h - 0.01, g.bodyY, row as real * g.CellH(), g.CellH());
  }

  /** The rounded and clamped index range is exactly the set of cells the shape meets. */
  lemma RangeIsMeets(s: Shape, g: Geometry, cell: Cell)
    requires g.Valid() && g.Contains(cell)
    ensures Meets(s, g, cell) <==>
              && BelowHeader(s, g)
              && FirstRow(s, g) <= cell.row <= LastRow(s, g)
              && FirstCol(s, g) <= cell.col <= LastCol(s, g)
  {
    ColumnRange(s, g, cell.col);
    RowRange(s, g, cell.row);
  }

  lemma CellsApart(k: int, j: int, d: real, kd: real, jd: real)
    requires d > 0.01 && k < j && kd == k as real * d && jd == j as real * d
    ensures kd + d <= jd
  {
    ProductNonNegative((j - k - 1) as real, d);
    assert (j - k - 1) as real * d == j as real * d - k as real * d - d;
  }

  /** A shape that is exactly one cell covers that cell and no other. */
  lemma CellShapeMeetsItsCell(g: Geometry, own: Cell, cell: Cell)
    requires g.Valid() && g.Contains(own) && g.Contains(cell) && g.CellW() > 0.01 && g.CellH() > 0.01
    ensures var s := Shape(own.col as real * g.CellW(), g.bodyY + own.row as real * g.CellH(), g.CellW(), g.CellH());
            Meets(s, g, cell) <==> cell == own
  {
    var w, h := g.CellW(), g.CellH();
    OwnColumn(Shape(own.col as real * w, g.bodyY + own.row as real * h, w, h), g, own.col, cell.col);
    OwnRow(Shape(own.col as real * w, g.bodyY + own.row as real * h, w, h), g, own.row, cell.row);
    ProductNonNegative(own.row as real, h);
  }

  lemma OwnColumn(s: Shape, g: Geometry, own: int, col: int)
    requires g.Valid() && g.CellW() > 0.01 && s.x == own as real * g.CellW() && s.w == g.CellW()
    ensures MeetsColumn(s, g, col) <==> col == own
  {
    var left := col as real * g.CellW();
    if own < col { CellsApart(own, col, s.w, s.x, left); } else if col < own { CellsApart(col, own, s.w, left, s.x); }
  }

  lemma OwnRow(s: Shape, g: Geometry, own: int, row: int)
    requires g.Valid() && g.CellH() > 0.01 && s.y == g.bodyY + own as real * g.CellH() && s.h == g.CellH()
    ensures MeetsRow(s, g, row) <==> row == own
  {
    var top, mine := row as real * g.CellH(), own as real * g.CellH();
    if own < row { CellsApart(own, row, s.h, mine, top); } else if row < own { CellsApart(row, own, s.h, top, mine); }
  }

  // ---------------------------------------------------------------- the analyser

  ghost predicate GridShows(grid: array2<int>, g: Geometry, free: set<Cell>)
    reads grid
  {
    && grid.Length0 == g.rows && grid.Length1 == g.cols
    && (forall cell | cell in free :: g.Contains(cell))
    && forall r, c | 0 <= r < g.rows && 0 <= c < g.cols ::
         (grid[r, c] == 0 || grid[r, c] == 1) && (grid[r, c] == 0 <==> Cell(r, c) in free)
  }

  ghost predicate VisitedShows(visited: array2<bool>, g: Geometry, seen: set<Cell>)
    reads visited
  {
    && visited.Length0 == g.rows && visited.Length1 == g.cols
    && forall r, c | 0 <= r < g.rows && 0 <= c < g.cols :: visited[r, c] <==> Cell(r, c) in seen
  }

  /** One shape's double loop over its index range. */
  method MarkShape(grid: array2<int>, s: Shape, g: Geometry)
    requires g.Valid() && grid.Length0 == g.rows && grid.Length1 == g.cols
    modifies grid
    ensures forall r, c | 0 <= r < g.rows && 0 <= c < g.cols ::
              grid[r, c] == if Meets(s, g, Cell(r, c)) then 1 else old(grid[r, c])
  {
    forall r, c | 0 <= r < g.rows && 0 <= c < g.cols
      ensures Meets(s, g, Cell(r, c)) <==>
                && BelowHeader(s, g)
                && FirstRow(s, g) <= r <= LastRow(s, g) && FirstCol(s, g) <= c <= LastCol(s, g)
    {
      RangeIsMeets(s, g, Cell(r, c));
    }
    if s.y + s.h <= g.bodyY {
      return;
    }
    var c1, c2 := FirstCol(s, g), LastCol(s, g);
    var r1, r2 := FirstRow(s, g), LastRow(s, g);
    var r := r1;
    while r <= r2
      invariant r1 <= r
      invariant forall i, j | 0 <= i < g.rows && 0 <= j < g.cols ::
                  grid[i, j] == if r1 <= i < r && i <= r2 && c1 <= j <= c2 then 1 else old(grid[i, j])
    {
      var c := c1;
      while c <= c2
        invariant c1 <= c
        invariant forall i, j | 0 <= i < g.rows && 0 <= j < g.cols ::
                    grid[i, j] == if (r1 <= i < r && c1 <= j <= c2) || (i == r && c1 <= j < c && j <= c2)
                                  then 1 else old(grid[i, j])
      {
        grid[r, c] := 1;
        c := c + 1;
      }
      r := r + 1;
    }
  }

  method Rasterise(shapes: seq<Shape>, g: Geometry) returns (grid: array2<int>)
    requires g.Valid()
    ensures fresh(grid) && GridShows(grid, g, FreeCells(shapes, g))
  {
    grid := new int[g.rows, g.cols]((r, c) => 0);
    for k := 0 to |shapes|
      invariant forall r, c | 0 <= r < g.rows && 0 <= c < g.cols ::
                  (grid[r, c] == 0 || grid[r, c] == 1) && (grid[r, c] == 0 <==> IsFree(shapes[..k], g, Cell(r, c)))
    {
      MarkShape(grid, shapes[k], g);
      assert shapes[..k + 1] == shapes[..k] + [shapes[k]];
    }
    assert shapes[..|shapes|] == shapes;
  }

  /** The four pushes of the flood fill: every cell adjacent to `c`, in the grid or not. */
  function Neighbours(c: Cell): (s: seq<Cell>)
    ensures forall x :: x in s <==> Adjacent(c, x)
  {
    [Cell(c.row + 1, c.col), Cell(c.row - 1, c.col), Cell(c.row, c.col + 1), Cell(c.row, c.col - 1)]
  }

  /** Free cells on the stack belong to `comp`; `start`, and a free neighbour of a visited
      cell, is visited or still on the stack. */
  ghost predicate Frontier(free: set<Cell>, comp: set<Cell>, region: set<Cell>, stack: seq<Cell>, start: Cell) {
    && (start in region || start in stack)
    && (forall x | x in stack && x in free :: x in comp)
    && (forall a, b | a in region && b in free && Adjacent(a, b) :: b in region || b in stack)
  }

  lemma InAppended<T>(s: seq<T>, t: seq<T>, x: T)
    ensures x in s + t <==> x in s || x in t
  {
  }

  lemma PopKeepsFrontier(free: set<Cell>, comp: set<Cell>, region: set<Cell>, rest: seq<Cell>, top: Cell, start: Cell)
    requires Frontier(free, comp, region, rest + [top], start)
    requires start in free && (top in region || top !in free)
    ensures Frontier(free, comp, region, rest, start)
  {
    forall x
      ensures x in rest + [top] <==> x in rest || x == top
    {
      InAppended(rest, [top], x);
    }
  }

  lemma VisitKeepsFrontier(free: set<Cell>, comp: set<Cell>, region: set<Cell>, rest: seq<Cell>, top: Cell, start: Cell)
    requires Frontier(free, comp, region, rest + [top], start) && top in free && Closed(free, comp)
    ensures top in comp
    ensures Frontier(free, comp, region + {top}, rest + Neighbours(top), start)
  {
    forall x
      ensures x in rest + [top] <==> x in rest || x == top
    {
      InAppended(rest, [top], x);
    }
    assert top in rest + [top];
    forall x
      ensures x in rest + Neighbours(top) <==> x in rest || Adjacent(top, x)
    {
      InAppended(rest, Neighbours(top), x);
    }
  }

  /** The explicit-stack flood fill from one unvisited free cell.  It only visits cells
      of `comp`, any set closed under steps between free cells, and what it visits is
      itself closed; so when `comp` is the component, it visits all of it. */
  method FloodFill(grid: array2<int>, visited: array2<bool>, g: Geometry, r: nat, c: nat,
                   ghost free: set<Cell>, ghost seen: set<Cell>, ghost comp: set<Cell>)
    returns (size: nat, ghost region: set<Cell>)
    requires GridShows(grid, g, free) && VisitedShows(visited, g, seen)
    requires g.Contains(Cell(r, c)) && Cell(r, c) in comp
    requires comp <= free && comp !! seen && Closed(free, comp)
    modifies visited
    ensures Cell(r, c) in region && region <= comp && Closed(free, region)
    ensures size == |region|
    ensures VisitedShows(visited, g, seen + region)
  {
    ghost var start := Cell(r, c);
    var stack := [Cell(r, c)];
    size, region := 0, {};
    while |stack| > 0
      invariant region <= comp && size == |region|
      invariant VisitedShows(visited, g, seen + region)
      invariant Frontier(free, comp, region, stack, start)
      decreases comp - region, |stack|
    {
      var top := stack[|stack| - 1];
      ghost var before := stack;
      stack := stack[..|stack| - 1];
      assert before == stack + [top];
      var rr, cc := top.row, top.col;
      if rr < 0 || rr >= g.rows || cc < 0 || cc >= g.cols {
        PopKeepsFrontier(free, comp, region, stack, top, start);
        continue;
      }
      assert top == Cell(rr, cc);
      if visited[rr, cc] || grid[rr, cc] == 1 {
        assert top in before;
        PopKeepsFrontier(free, comp, region, stack, top, start);
        continue;
      }
      VisitKeepsFrontier(free, comp, region, stack, top, start);
      visited[rr, cc] := true;
      size := size + 1;
      stack := stack + Neighbours(top);
      region := region + {top};
    }
  }

  ghost predicate IsComponent(free: set<Cell>, s: set<Cell>) {
    exists a :: a in s && s == Component(free, a)
  }

  ghost predicate InSome(regions: seq<set<Cell>>, a: Cell) {
    exists i :: 0 <= i < |regions| && a in regions[i]
  }

  /** A list of disjoint components that together make up `seen`. */
  ghost predicate Split(free: set<Cell>, seen: set<Cell>, regions: seq<set<Cell>>) {
    && (forall i | 0 <= i < |regions| :: IsComponent(free, regions[i]))
    && (forall i, j | 0 <= i < j < |regions| :: regions[i] !! regions[j])
    && (forall a :: a in seen <==> InSome(regions, a))
  }

  ghost predicate MaxOf(regions: seq<set<Cell>>, n: nat) {
    && (forall i | 0 <= i < |regions| :: |regions[i]| <= n)
    && (if regions == [] then n == 0 else exists i :: 0 <= i < |regions| && |regions[i]| == n)
  }

  lemma ComponentAsFound(free: set<Cell>, s: set<Cell>, a: Cell)
    requires IsComponent(free, s) && a in s
    ensures s == Component(free, a)
  {
    var b :| b in s && s == Component(free, b);
    ComponentOf(free, b, a);
  }

  lemma SplitMaxIsLargest(free: set<Cell>, regions: seq<set<Cell>>, n: nat)
    requires Split(free, free, regions) && MaxOf(regions, n)
    ensures IsLargest(free, n)
  {
    forall a | a in free
      ensures |Component(free, a)| <= n
    {
      assert InSome(regions, a);
      var i :| 0 <= i < |regions| && a in regions[i];
      ComponentAsFound(free, regions[i], a);
    }
    if regions == [] {
      assert forall x :: !InSome(regions, x);
      assert free == {};
    } else {
      var i :| 0 <= i < |regions| && |regions[i]| == n;
      assert IsComponent(free, regions[i]);
      var a :| a in regions[i] && regions[i] == Component(free, a);
      assert InSome(regions, a);
    }
  }

  lemma SplitGrows(free: set<Cell>, seen: set<Cell>, regions: seq<set<Cell>>, region: set<Cell>)
    requires Split(free, seen, regions) && region !! seen && IsComponent(free, region)
    ensures Split(free, seen + region, regions + [region])
  {
    var after := regions + [region];
    forall x
      ensures x in seen + region <==> InSome(after, x)
    {
      assert x in seen <==> InSome(regions, x);
      if InSome(regions, x) {
        var i :| 0 <= i < |regions| && x in regions[i];
        assert x in after[i];
      }
      if x in region {
        assert x in after[|regions|];
      }
      if InSome(after, x) {
        var i :| 0 <= i < |after| && x in after[i];
        assert i < |regions| ==> x in regions[i];
      }
    }
    forall i, j | 0 <= i < j < |after|
      ensures after[i] !! after[j]
    {
      if j == |regions| {
        forall x | x in after[i]
          ensures x !in region
        {
          assert x in regions[i];
          assert InSome(regions, x);
        }
      }
    }
  }

  lemma MaxGrows(regions: seq<set<Cell>>, n: nat, region: set<Cell>)
    requires MaxOf(regions, n) && region != {}
    ensures MaxOf(regions + [region], Max(n, |region|))
  {
    var after := regions + [region];
    if |region| >= n {
      assert |after[|regions|]| == Max(n, |region|);
    } else {
      var i :| 0 <= i < |regions| && |regions[i]| == n;
      assert |after[i]| == Max(n, |region|);
    }
  }

  lemma ClosedUnion(free: set<Cell>, s: set<Cell>, t: set<Cell>)
    requires Closed(free, s) && Closed(free, t)
    ensures Closed(free, s + t)
  {
  }

  lemma ComponentClosed(free: set<Cell>, a: Cell)
    requires a in free
    ensures a in Component(free, a) && Closed(free, Component(free, a))
  {
    ConnectedReflexive(free, a);
    var comp := Component(free, a);
    forall b, c | b in comp && c in free && Adjacent(b, c)
      ensures c in comp
    {
      ConnectedStep(free, a, b, c);
    }
  }

  /** What the outer double loop keeps. */
  ghost predicate Progress(free: set<Cell>, seen: set<Cell>, regions: seq<set<Cell>>, n: nat) {
    seen <= free && Closed(free, seen) && Split(free, seen, regions) && MaxOf(regions, n)
  }

  lemma FillProgress(free: set<Cell>, seen: set<Cell>, regions: seq<set<Cell>>, n: nat,
                     start: Cell, region: set<Cell>)
    requires Progress(free, seen, regions, n) && start in free - seen
    requires start in region && region <= Component(free, start) && Closed(free, region)
    ensures Progress(free, seen + region, regions + [region], Max(n, |region|))
  {
    ComponentInside(free, region, start);
    assert region == Component(free, start);
    ComponentOutside(free, seen, start);
    ClosedUnion(free, seen, region);
    assert IsComponent(free, region);
    SplitGrows(free, seen, regions, region);
    MaxGrows(regions, n, region);
  }

  /** The free cells before (r, c) in row-major order have been visited. */
  ghost predicate Scanned(free: set<Cell>, seen: set<Cell>, r: int, c: int) {
    forall a | a in free && (a.row < r || (a.row == r && a.col < c)) :: a in seen
  }

  lemma ScanNext(free: set<Cell>, seen: set<Cell>, more: set<Cell>, r: int, c: int)
    requires Scanned(free, seen, r, c) && seen <= more
    requires Cell(r, c) in free ==> Cell(r, c) in more
    ensures Scanned(free, more, r, c + 1)
  {
    forall a | a in free && (a.row < r || (a.row == r && a.col < c + 1))
      ensures a in more
    {
      assert a == Cell(a.row, a.col);
    }
  }

  /** The body of the scan: fill from (r, c) if it is free and unvisited. */
  method VisitCell(grid: array2<int>, visited: array2<bool>, g: Geometry, r: nat, c: nat, maxRegion: nat,
                   ghost free: set<Cell>, ghost seen: set<Cell>, ghost regions: seq<set<Cell>>)
    returns (newMax: nat, ghost newSeen: set<Cell>, ghost newRegions: seq<set<Cell>>)
    requires GridShows(grid, g, free) && VisitedShows(visited, g, seen)
    requires g.Contains(Cell(r, c)) && Scanned(free, seen, r, c)
    requires Progress(free, seen, regions, maxRegion)
    modifies visited
    ensures VisitedShows(visited, g, newSeen) && Scanned(free, newSeen, r, c + 1)
    ensures Progress(free, newSeen, newRegions, newMax)
  {
    newMax, newSeen, newRegions := maxRegion, seen, regions;
    if grid[r, c] == 0 && !visited[r, c] {
      ghost var start := Cell(r, c);
      ComponentClosed(free, start);
      ComponentOutside(free, seen, start);
      ghost var region;
      var size;
      size, region := FloodFill(grid, visited, g, r, c, free, seen, Component(free, start));
      FillProgress(free, seen, regions, maxRegion, start, region);
      newSeen, newRegions := seen + region, regions + [region];
      if size > maxRegion {
        newMax := size;
      }
    }
    ScanNext(free, seen, newSeen, r, c);
  }

  lemma ScanNextRow(free: set<Cell>, seen: set<Cell>, r: int, c: int)
    requires Scanned(free, seen, r, c) && forall a | a in free :: 0 <= a.col < c
    ensures Scanned(free, seen, r + 1, 0)
  {
  }

  /** The inner loop of the scan. */
  method ScanRow(grid: array2<int>, visited: array2<bool>, g: Geometry, r: nat, maxRegion: nat,
                 ghost free: set<Cell>, ghost seen: set<Cell>, ghost regions: seq<set<Cell>>)
    returns (newMax: nat, ghost newSeen: set<Cell>, ghost newRegions: seq<set<Cell>>)
    requires GridShows(grid, g, free) && VisitedShows(visited, g, seen) && r < g.rows
    requires Scanned(free, seen, r, 0) && Progress(free, seen, regions, maxRegion)
    modifies visited
    ensures VisitedShows(visited, g, newSeen) && Scanned(free, newSeen, r + 1, 0)
    ensures Progress(free, newSeen, newRegions, newMax)
  {
    newMax, newSeen, newRegions := maxRegion, seen, regions;
    for c := 0 to g.cols
      invariant VisitedShows(visited, g, newSeen) && Scanned(free, newSeen, r, c)
      invariant Progress(free, newSeen, newRegions, newMax)
    {
      newMax, newSeen, newRegions := VisitCell(grid, visited, g, r, c, newMax, free, newSeen, newRegions);
    }
    ScanNextRow(free, newSeen, r, g.cols);
  }

  lemma ScanBegins(free: set<Cell>, g: Geometry)
    requires forall a | a in free :: g.Contains(a)
    ensures Progress(free, {}, [], 0) && Scanned(free, {}, 0, 0)
  {
  }

  lemma ScanEnds(free: set<Cell>, seen: set<Cell>, regions: seq<set<Cell>>, n: nat, g: Geometry)
    requires forall a | a in free :: g.Contains(a)
    requires Progress(free, seen, regions, n) && Scanned(free, seen, g.rows, 0)
    ensures IsLargest(free, n) && Split(free, free, regions)
  {
    assert seen == free;
    SplitMaxIsLargest(free, regions, n);
  }

  /** `findLargestEmptyRegion`: rasterise, then flood every unvisited free cell and keep
      the largest fill.  `regions` lists the fills: every component of free cells is
      filled exactly once and in full. */
  method FindLargestEmptyRegion(shapes: seq<Shape>, g: Geometry)
    returns (maxRegion: nat, ghost regions: seq<set<Cell>>)
    requires g.Valid()
    ensures IsLargest(FreeCells(shapes, g), maxRegion)
    ensures Split(FreeCells(shapes, g), FreeCells(shapes, g), regions)
  {
    var grid := Rasterise(shapes, g);
    ghost var free := FreeCells(shapes, g);
    var visited := new bool[g.rows, g.cols]((r, c) => false);
    ghost var seen: set<Cell> := {};
    maxRegion, regions := 0, [];
    ScanBegins(free, g);
    for r := 0 to g.rows
      invariant GridShows(grid, g, free) && VisitedShows(visited, g, seen)
      invariant Progress(free, seen, regions, maxRegion) && Scanned(free, seen, r, 0)
    {
      maxRegion, seen, regions := ScanRow(grid, visited, g, r, maxRegion, free, seen, regions);
    }
    ScanEnds(free, seen, regions, maxRegion, g);
  }

  // ---------------------------------------------------------------- what it means for users

  lemma SubsetSize(a: set<Cell>, b: set<Cell>)
    requires a <= b
    ensures |a| <= |b|
  {
    assert b == a + (b - a);
  }

  /** A component of fewer free cells lies inside a component of more. */
  lemma ComponentMonotone(small: set<Cell>, large: set<Cell>, a: Cell)
    requires small <= large
    ensures Component(small, a) <= Component(large, a)
  {
    forall b | b in Component(small, a)
      ensures b in Component(large, a)
    {
      var p :| PathBetween(small, p, a, b);
      assert PathBetween(large, p, a, b);
    }
  }

  lemma LargestMonotone(small: set<Cell>, large: set<Cell>, m: nat, n: nat)
    requires small <= large && IsLargest(small, m) && IsLargest(large, n)
    ensures m <= n
  {
    if small != {} {
      var a :| a in small && |Component(small, a)| == m;
      ComponentMonotone(small, large, a);
      SubsetSize(Component(small, a), Component(large, a));
    }
  }

  /** Covering at least the shapes of another slide never enlarges the largest region.
      Taking `fewer` and `more` with the same members gives independence of order and
      of repetition; taking `more == fewer + [s]` is adding one shape. */
  lemma MoreShapesNeverEnlarge(fewer: seq<Shape>, more: seq<Shape>, g: Geometry, m: nat, n: nat)
    requires g.Valid() && forall s | s in fewer :: s in more
    requires IsLargest(FreeCells(fewer, g), n) && IsLargest(FreeCells(more, g), m)
    ensures m <= n
  {
    forall cell | cell in FreeCells(more, g)
      ensures cell in FreeCells(fewer, g)
    {
      assert IsFree(fewer, g, cell);
    }
    LargestMonotone(FreeCells(more, g), FreeCells(fewer, g), m, n);
  }

  lemma ShapeOrderIrrelevant(a: seq<Shape>, b: seq<Shape>, g: Geometry, m: nat, n: nat)
    requires g.Valid() && multiset(a) == multiset(b)
    requires IsLargest(FreeCells(a, g), m) && IsLargest(FreeCells(b, g), n)
    ensures m == n
  {
    forall s
      ensures s in a <==> s in b
    {
      assert s in a <==> s in multiset(a);
      assert s in b <==> s in multiset(b);
    }
    MoreShapesNeverEnlarge(a, b, g, n, m);
    MoreShapesNeverEnlarge(b, a, g, m, n);
  }
}
