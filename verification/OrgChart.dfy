/** The org-chart figure (`services/pptx-renderer/server.js`, `orgSvg`): levels by capped
    ancestor depth, and the row each box is drawn in. */
module OrgChart {
  import opened Basics

  /** An item: `name` is its label, `parent` is empty when there is none. */
  datatype Item = Item(name: string, parent: string)

  const MAX_DEPTH := 6

  /** `new Map(items.map(it => [label, it]))`: the last item of a label wins. */
  function ByLabel(items: seq<Item>): (index: map<string, Item>)
    ensures forall l :: l in index ==> index[l] in items && index[l].name == l
    ensures forall i | 0 <= i < |items| :: items[i].name in index
  {
    if items == [] then map[] else ByLabel(items[..|items| - 1])[items[|items| - 1].name := items[|items| - 1]]
  }

  function ParentOf(index: map<string, Item>, it: Item): Option<Item> {
    if it.parent != "" && it.parent in index then Some(index[it.parent]) else None
  }

  lemma {:induction false} LastWins(items: seq<Item>, i: nat)
    requires i < |items| && forall j | i < j < |items| :: items[j].name != items[i].name
    ensures items[i].name in ByLabel(items) && ByLabel(items)[items[i].name] == items[i]
  {
    if i < |items| - 1 { LastWins(items[..|items| - 1], i); }
  }

  /** An item has a parent iff it names a label that some item carries, and the parent is the
      last item with that label. */
  lemma ParentIs(items: seq<Item>, it: Item)
    ensures ParentOf(ByLabel(items), it).Some? <==>
              it.parent != "" && exists i :: 0 <= i < |items| && items[i].name == it.parent
    ensures forall i | 0 <= i < |items| && items[i].name == it.parent != "" &&
                       (forall j | i < j < |items| :: items[j].name != it.parent) ::
              ParentOf(ByLabel(items), it) == Some(items[i])
  {
    forall i | 0 <= i < |items| && items[i].name == it.parent != "" &&
               forall j | i < j < |items| :: items[j].name != it.parent
      ensures ParentOf(ByLabel(items), it) == Some(items[i])
    {
      LastWins(items, i);
    }
  }

  /** The recursive `level`. */
  function Level(index: map<string, Item>, it: Item, depth: nat): nat
    decreases MAX_DEPTH - depth
  {
    var parent := ParentOf(index, it);
    if parent.Some? && depth < MAX_DEPTH then Level(index, parent.value, depth + 1) + 1 else 0
  }

  // ---------------------------------------------------------------- what a level is

  /** The `k`-th ancestor, if the chain goes that far. */
  function Up(index: map<string, Item>, it: Item, k: nat): Option<Item>
    decreases k
  {
    if k == 0 then Some(it)
    else
      var parent := ParentOf(index, it);
      if parent.None? then None else Up(index, parent.value, k - 1)
  }

  /** The chain of parents of `it` ends after exactly `n` of them.  Items that lead into a
      cycle have no such number. */
  ghost predicate HasAncestors(index: map<string, Item>, it: Item, n: nat) {
    Up(index, it, n).Some? && Up(index, it, n + 1).None?
  }

  lemma {:induction false} UpAdds(index: map<string, Item>, it: Item, j: nat, k: nat)
    requires Up(index, it, j).Some?
    ensures Up(index, it, j + k) == Up(index, Up(index, it, j).value, k)
    decreases j
  {
    if j > 0 { UpAdds(index, ParentOf(index, it).value, j - 1, k); }
  }

  lemma {:induction false} UpShorter(index: map<string, Item>, it: Item, j: nat, k: nat)
    requires j <= k && Up(index, it, k).Some?
    ensures Up(index, it, j).Some?
    decreases j
  {
    if j > 0 { UpShorter(index, ParentOf(index, it).value, j - 1, k - 1); }
  }

  // ---------------------------------------------------------------- cycles

  /** What the lemmas below need of the index: it holds items of the list.  `ByLabel` does. */
  ghost predicate Covers(items: seq<Item>, index: map<string, Item>) {
    forall l | l in index :: index[l] in items
  }

  /** No item is its own ancestor. */
  ghost predicate Acyclic(items: seq<Item>, index: map<string, Item>) {
    forall it, k: nat | it in items && k > 0 :: Up(index, it, k) != Some(it)
  }

  ghost predicate Ends(index: map<string, Item>, it: Item) {
    exists n: nat :: HasAncestors(index, it, n)
  }

  lemma {:induction false} DistinctFit(chain: seq<Item>, s: set<Item>)
    requires forall i | 0 <= i < |chain| :: chain[i] in s
    requires forall i, j | 0 <= i < j < |chain| :: chain[i] != chain[j]
    ensures |chain| <= |s|
  {
    if chain != [] { DistinctFit(chain[1..], s - {chain[0]}); }
  }

  lemma {:induction false} UpInItems(items: seq<Item>, index: map<string, Item>, it: Item, k: nat)
    requires Covers(items, index) && it in items && Up(index, it, k).Some?
    ensures Up(index, it, k).value in items
    decreases k
  {
    if k > 0 { UpInItems(items, index, ParentOf(index, it).value, k - 1); }
  }

  /** An item and its first ancestors, all different. */
  ghost predicate Ancestry(items: seq<Item>, index: map<string, Item>, chain: seq<Item>) {
    && chain != [] && (forall i | 0 <= i < |chain| :: chain[i] in items)
    && (forall i | 0 <= i < |chain| :: Up(index, chain[0], i) == Some(chain[i]))
    && (forall i, j | 0 <= i < j < |chain| :: chain[i] != chain[j])
  }

  lemma OneMoreAncestor(items: seq<Item>, index: map<string, Item>, chain: seq<Item>, next: Item)
    requires Covers(items, index) && Acyclic(items, index) && Ancestry(items, index, chain)
    requires Up(index, chain[0], |chain|) == Some(next)
    ensures Ancestry(items, index, chain + [next])
  {
    UpInItems(items, index, chain[0], |chain|);
    forall i | 0 <= i < |chain|
      ensures chain[i] != next
    {
      UpAdds(index, chain[0], i, |chain| - i);
    }
  }

  /** Without a cycle a chain of parents repeats no item, so it ends. */
  lemma ChainEnds(items: seq<Item>, index: map<string, Item>, it: Item) returns (n: nat)
    requires Covers(items, index) && Acyclic(items, index) && it in items
    ensures HasAncestors(index, it, n)
  {
    var all := set x | x in items;
    var chain := [it];
    while Up(index, it, |chain|).Some?
      invariant Ancestry(items, index, chain) && chain[0] == it
      decreases |all| - |chain|
    {
      var more := chain + [Up(index, it, |chain|).value];
      OneMoreAncestor(items, index, chain, Up(index, it, |chain|).value);
      chain := more;
      DistinctFit(chain, all);
    }
    n := |chain| - 1;
    assert Up(index, it, n) == Some(chain[n]);
  }

  lemma {:induction false} LoopNeverEnds(index: map<string, Item>, it: Item, k: nat, n: nat)
    requires k > 0 && Up(index, it, k) == Some(it)
    ensures Up(index, it, n).Some?
    decreases n
  {
    if n < k {
      UpShorter(index, it, n, k);
    } else {
      UpAdds(index, it, k, n - k);
      LoopNeverEnds(index, it, k, n - k);
    }
  }

  /** There is no cycle iff every chain of parents ends. */
  lemma AcyclicIff(items: seq<Item>, index: map<string, Item>)
    requires Covers(items, index)
    ensures Acyclic(items, index) <==> forall it | it in items :: Ends(index, it)
  {
    if Acyclic(items, index) {
      forall it | it in items ensures Ends(index, it) { var n := ChainEnds(items, index, it); }
    } else {
      var it, k: nat :| it in items && k > 0 && Up(index, it, k) == Some(it);
      forall n: nat ensures !HasAncestors(index, it, n) { LoopNeverEnds(index, it, k, n + 1); }
    }
  }

  // ---------------------------------------------------------------- levels

  /** On every parent graph, cycles included, the level is the largest number of ancestors up
      to the cap. */
  lemma {:induction false} LevelIs(index: map<string, Item>, it: Item, depth: nat)
    requires depth <= MAX_DEPTH
    ensures var l := Level(index, it, depth);
            l <= MAX_DEPTH - depth && Up(index, it, l).Some? && (l < MAX_DEPTH - depth ==> Up(index, it, l + 1).None?)
    decreases MAX_DEPTH - depth
  {
    var parent := ParentOf(index, it);
    if parent.Some? && depth < MAX_DEPTH {
      LevelIs(index, parent.value, depth + 1);
    }
  }

  /** Where the chain of parents ends, the level is the smaller of its length and six. */
  lemma LevelOfEndingChain(index: map<string, Item>, it: Item, n: nat)
    requires HasAncestors(index, it, n)
    ensures Level(index, it, 0) == if n < MAX_DEPTH then n else MAX_DEPTH
  {
    LevelIs(index, it, 0);
    var l := Level(index, it, 0);
    if l < n { UpShorter(index, it, l + 1, n); }
    if n < l { UpShorter(index, it, n + 1, l); }
  }

  /** Without a cycle every level is the smaller of the number of ancestors and six. */
  lemma LevelOfAcyclic(items: seq<Item>, index: map<string, Item>, it: Item) returns (n: nat)
    requires Covers(items, index) && Acyclic(items, index) && it in items
    ensures HasAncestors(index, it, n)
    ensures Level(index, it, 0) == if n < 6 then n else 6
  {
    n := ChainEnds(items, index, it);
    LevelOfEndingChain(index, it, n);
  }

  /** A child is one level below its parent exactly when it has at most six ancestors. */
  lemma ChildBelowParentIff(index: map<string, Item>, it: Item)
    requires ParentOf(index, it).Some?
    ensures Level(index, it, 0) == Level(index, ParentOf(index, it).value, 0) + 1 <==> Up(index, it, MAX_DEPTH + 1).None?
  {
    var parent := ParentOf(index, it).value;
    LevelIs(index, it, 0);
    LevelIs(index, parent, 0);
    var l, m := Level(index, it, 0), Level(index, parent, 0);
    assert forall k: nat :: Up(index, it, k + 1) == Up(index, parent, k);
    if Up(index, it, MAX_DEPTH + 1).None? {
    } else {
      if m < MAX_DEPTH { UpShorter(index, it, m + 2, MAX_DEPTH + 1); }
    }
  }

  // ---------------------------------------------------------------- rows

  function Occupied(items: seq<Item>, index: map<string, Item>): set<nat> {
    set it | it in items :: Level(index, it, 0)
  }

  function Upto(n: nat): (s: set<nat>)
    ensures |s| == n && forall k :: k in s <==> 0 <= k < n
  {
    if n == 0 then {} else Upto(n - 1) + {n - 1}
  }

  lemma OccupiedHas(items: seq<Item>, index: map<string, Item>, it: Item)
    requires it in items
    ensures Level(index, it, 0) in Occupied(items, index)
  {
  }

  lemma OccupiedBy(items: seq<Item>, index: map<string, Item>, l: nat) returns (it: Item)
    requires l in Occupied(items, index)
    ensures it in items && Level(index, it, 0) == l
  {
    it :| it in items && Level(index, it, 0) == l;
  }

  lemma ParentOneHigher(index: map<string, Item>, it: Item, l: nat)
    requires Level(index, it, 0) == l && 0 < l < MAX_DEPTH
    ensures ParentOf(index, it).Some? && Level(index, ParentOf(index, it).value, 0) == l - 1
  {
    LevelIs(index, it, 0);
    var parent := ParentOf(index, it).value;
    assert HasAncestors(index, parent, l - 1);
    LevelOfEndingChain(index, parent, l - 1);
  }

  lemma ParentAbove(items: seq<Item>, index: map<string, Item>, it: Item, l: nat) returns (parent: Item)
    requires Covers(items, index) && Level(index, it, 0) == l && 0 < l < MAX_DEPTH
    ensures parent in items && Level(index, parent, 0) == l - 1
  {
    ParentOneHigher(index, it, l);
    parent := ParentOf(index, it).value;
  }

  /** Below the cap the occupied levels have no gaps: the level above an occupied one is
      held by the parent. */
  lemma NoGapsBelowCap(items: seq<Item>, index: map<string, Item>, l: nat)
    requires Covers(items, index) && l in Occupied(items, index) && 0 < l < MAX_DEPTH
    ensures l - 1 in Occupied(items, index)
  {
    var it := OccupiedBy(items, index, l);
    var parent := ParentAbove(items, index, it, l);
    OccupiedHas(items, index, parent);
  }

  lemma {:induction false} DownClosed(occ: set<nat>, l: nat, k: nat)
    requires forall j: nat | j in occ && 0 < j < MAX_DEPTH :: j - 1 in occ
    requires l in occ && k <= l < MAX_DEPTH
    ensures k in occ
    decreases l - k
  {
    if k < l { DownClosed(occ, l - 1, k); }
  }

  lemma FirstGap(occ: set<nat>) returns (m: nat)
    requires forall j: nat | j in occ && 0 < j < MAX_DEPTH :: j - 1 in occ
    ensures m <= MAX_DEPTH
    ensures forall l: nat | l < MAX_DEPTH :: l in occ <==> l < m
  {
    m := 0;
    while m < MAX_DEPTH && m in occ
      invariant m <= MAX_DEPTH
      invariant forall l: nat | l < m :: l in occ
    {
      m := m + 1;
    }
    forall l: nat | l < MAX_DEPTH && l in occ
      ensures l < m
    {
      if m <= l { DownClosed(occ, l, m); }
    }
  }

  lemma LevelsBounded(items: seq<Item>, index: map<string, Item>, l: nat)
    requires l in Occupied(items, index)
    ensures l <= MAX_DEPTH
  {
    var it := OccupiedBy(items, index, l);
    LevelIs(index, it, 0);
  }

  /** How many levels below the cap are occupied: they are 0 .. m-1. */
  lemma BelowCap(items: seq<Item>, index: map<string, Item>) returns (m: nat)
    requires Covers(items, index)
    ensures m <= MAX_DEPTH
    ensures forall l: nat | l < MAX_DEPTH :: l in Occupied(items, index) <==> l < m
  {
    forall j: nat | j in Occupied(items, index) && 0 < j < MAX_DEPTH
      ensures j - 1 in Occupied(items, index)
    {
      NoGapsBelowCap(items, index, j);
    }
    m := FirstGap(Occupied(items, index));
  }

  /** Rows are drawn for levels 0 .. depth-1, where depth is the number of occupied levels:
      every item is drawn when every occupied level is below that. */
  ghost predicate EveryItemDrawn(items: seq<Item>, index: map<string, Item>) {
    forall l | l in Occupied(items, index) :: l < |Occupied(items, index)|
  }

  lemma SameSet(s: set<nat>, t: set<nat>)
    requires forall k: nat :: k in s <==> k in t
    ensures s == t
  {
  }

  lemma SizeUpToCap(occ: set<nat>, m: nat, cap: nat)
    requires m <= cap && forall l | l in occ :: l <= cap
    requires forall l: nat | l < cap :: l in occ <==> l < m
    ensures |occ| == m + if cap in occ then 1 else 0
  {
    var top := if cap in occ then {cap} else {};
    SameSet(occ, Upto(m) + top);
    assert Upto(m) !! top;
  }

  /** The occupied levels are 0 .. m-1, and the cap if it is occupied. */
  lemma OccupiedSize(items: seq<Item>, index: map<string, Item>) returns (m: nat)
    requires Covers(items, index)
    ensures m <= MAX_DEPTH
    ensures forall l: nat | l < MAX_DEPTH :: l in Occupied(items, index) <==> l < m
    ensures |Occupied(items, index)| == m + if MAX_DEPTH in Occupied(items, index) then 1 else 0
  {
    m := BelowCap(items, index);
    forall l | l in Occupied(items, index) ensures l <= MAX_DEPTH { LevelsBounded(items, index, l); }
    SizeUpToCap(Occupied(items, index), m, MAX_DEPTH);
  }

  lemma CapLevelIff(index: map<string, Item>, it: Item)
    ensures Level(index, it, 0) == MAX_DEPTH <==> Up(index, it, MAX_DEPTH).Some?
  {
    LevelIs(index, it, 0);
    var l := Level(index, it, 0);
    if Up(index, it, MAX_DEPTH).Some? && l < MAX_DEPTH { UpShorter(index, it, l + 1, MAX_DEPTH); }
  }

  lemma CapOccupiedIff(items: seq<Item>, index: map<string, Item>)
    ensures MAX_DEPTH in Occupied(items, index) <==> exists it :: it in items && Up(index, it, MAX_DEPTH).Some?
  {
    if MAX_DEPTH in Occupied(items, index) {
      var it := OccupiedBy(items, index, MAX_DEPTH);
      CapLevelIff(index, it);
    }
    if it :| it in items && Up(index, it, MAX_DEPTH).Some? {
      CapLevelIff(index, it);
      OccupiedHas(items, index, it);
    }
  }

  lemma BelowCapOccupiedIff(items: seq<Item>, index: map<string, Item>, l: nat)
    requires l < MAX_DEPTH
    ensures l in Occupied(items, index) <==> exists it :: it in items && HasAncestors(index, it, l)
  {
    if l in Occupied(items, index) {
      var it := OccupiedBy(items, index, l);
      LevelIs(index, it, 0);
    }
    if it :| it in items && HasAncestors(index, it, l) {
      LevelOfEndingChain(index, it, l);
      OccupiedHas(items, index, it);
    }
  }

  lemma EveryLevelDrawnIff(items: seq<Item>, index: map<string, Item>)
    requires Covers(items, index)
    ensures EveryItemDrawn(items, index) <==> (MAX_DEPTH in Occupied(items, index) ==> MAX_DEPTH - 1 in Occupied(items, index))
  {
    var m := OccupiedSize(items, index);
    forall l | l in Occupied(items, index)
      ensures l <= MAX_DEPTH
    {
      LevelsBounded(items, index, l);
    }
  }

  /** Every item is drawn iff, where some item has a sixth ancestor, some item has exactly
      five. */
  lemma EveryItemDrawnIff(items: seq<Item>, index: map<string, Item>)
    requires Covers(items, index)
    ensures EveryItemDrawn(items, index) <==>
              ((exists it :: it in items && Up(index, it, MAX_DEPTH).Some?) ==>
                 exists it :: it in items && HasAncestors(index, it, MAX_DEPTH - 1))
  {
    CapOccupiedIff(items, index);
    BelowCapOccupiedIff(items, index, MAX_DEPTH - 1);
    EveryLevelDrawnIff(items, index);
  }

  lemma EndlessLevel(index: map<string, Item>, it: Item)
    requires !Ends(index, it)
    ensures Level(index, it, 0) == MAX_DEPTH
  {
    LevelIs(index, it, 0);
    assert !HasAncestors(index, it, Level(index, it, 0));
  }

  /** An item whose chain of parents never ends has the capped level, and a row is drawn for
      that level iff some item has exactly five ancestors. */
  lemma EndlessIsDrawnIff(items: seq<Item>, index: map<string, Item>, it: Item)
    requires Covers(items, index) && it in items && !Ends(index, it)
    ensures Level(index, it, 0) == MAX_DEPTH
    ensures MAX_DEPTH < |Occupied(items, index)| <==> exists x :: x in items && HasAncestors(index, x, MAX_DEPTH - 1)
  {
    EndlessLevel(index, it);
    OccupiedHas(items, index, it);
    BelowCapOccupiedIff(items, index, MAX_DEPTH - 1);
    var m := OccupiedSize(items, index);
  }

  /** An item whose chain is six or longer has an ancestor with exactly five. */
  lemma FifthLevel(items: seq<Item>, index: map<string, Item>, it: Item, n: nat)
    requires Covers(items, index) && it in items && HasAncestors(index, it, n) && n >= MAX_DEPTH
    ensures MAX_DEPTH - 1 in Occupied(items, index)
  {
    var k := n - (MAX_DEPTH - 1);
    UpShorter(index, it, k, n);
    var upper := Up(index, it, k).value;
    UpInItems(items, index, it, k);
    UpAdds(index, it, k, MAX_DEPTH - 1);
    UpAdds(index, it, k, MAX_DEPTH);
    LevelOfEndingChain(index, upper, MAX_DEPTH - 1);
    OccupiedHas(items, index, upper);
  }

  lemma ContiguousLevels(items: seq<Item>, index: map<string, Item>)
    requires Covers(items, index)
    requires MAX_DEPTH in Occupied(items, index) ==> MAX_DEPTH - 1 in Occupied(items, index)
    ensures Occupied(items, index) == Upto(|Occupied(items, index)|)
  {
    var occ := Occupied(items, index);
    var m := BelowCap(items, index);
    var n: nat := if MAX_DEPTH in occ then MAX_DEPTH + 1 else m;
    forall l: nat
      ensures l in occ <==> l < n
    {
      if l in occ { LevelsBounded(items, index, l); }
      assert l < MAX_DEPTH ==> (l in occ <==> l < m);
    }
    SameSet(occ, Upto(n));
  }

  /** Without a cycle the occupied levels are exactly 0 .. depth-1, and every item is drawn. */
  lemma AcyclicIsDrawn(items: seq<Item>, index: map<string, Item>)
    requires Covers(items, index) && Acyclic(items, index)
    ensures EveryItemDrawn(items, index) && Occupied(items, index) == Upto(|Occupied(items, index)|)
  {
    CapOccupiedIff(items, index);
    if it :| it in items && Up(index, it, MAX_DEPTH).Some? {
      var n := ChainEnds(items, index, it);
      if n < MAX_DEPTH { UpShorter(index, it, n + 1, MAX_DEPTH); }
      FifthLevel(items, index, it, n);
    }
    BelowCapOccupiedIff(items, index, MAX_DEPTH - 1);
    EveryLevelDrawnIff(items, index);
    ContiguousLevels(items, index);
  }

  // ---------------------------------------------------------------- the figure

  method IndexByLabel(items: seq<Item>) returns (index: map<string, Item>)
    ensures index == ByLabel(items)
  {
    index := map[];
    for k := 0 to |items|
      invariant index == ByLabel(items[..k])
    {
      index := index[items[k].name := items[k]];
      assert items[..k + 1][..k] == items[..k];
    }
    assert items[..|items|] == items;
  }

  /** The items of one level, in the order given and as often as given. */
  function AtLevel(items: seq<Item>, index: map<string, Item>, l: nat): seq<Item> {
    if items == [] then []
    else
      var last := items[|items| - 1];
      AtLevel(items[..|items| - 1], index, l) + if Level(index, last, 0) == l then [last] else []
  }

  lemma {:induction false} AtLevelHas(items: seq<Item>, index: map<string, Item>, l: nat)
    ensures forall it :: it in AtLevel(items, index, l) <==> it in items && Level(index, it, 0) == l
  {
    if items != [] {
      AtLevelHas(items[..|items| - 1], index, l);
      assert items == items[..|items| - 1] + [items[|items| - 1]];
    }
  }

  lemma AtLevelNext(items: seq<Item>, index: map<string, Item>, it: Item, l: nat)
    ensures AtLevel(items + [it], index, l) == AtLevel(items, index, l) + if Level(index, it, 0) == l then [it] else []
  {
    assert (items + [it])[..|items|] == items;
  }

  function RowAt(levels: map<nat, seq<Item>>, l: nat): seq<Item> {
    if l in levels then levels[l] else []
  }

  /** Each level some item has, with its items. */
  ghost predicate Grouped(items: seq<Item>, index: map<string, Item>, levels: map<nat, seq<Item>>) {
    && (forall l: nat :: RowAt(levels, l) == AtLevel(items, index, l))
    && (forall l | l in levels :: levels[l] != [])
  }

  lemma GroupOneMore(items: seq<Item>, index: map<string, Item>, levels: map<nat, seq<Item>>, it: Item)
    requires Grouped(items, index, levels)
    ensures var l := Level(index, it, 0);
            Grouped(items + [it], index, levels[l := RowAt(levels, l) + [it]])
  {
    var l := Level(index, it, 0);
    var next := levels[l := RowAt(levels, l) + [it]];
    forall k: nat
      ensures RowAt(next, k) == AtLevel(items + [it], index, k)
    {
      AtLevelNext(items, index, it, k);
      assert RowAt(levels, k) == AtLevel(items, index, k);
    }
  }

  method GroupByLevel(items: seq<Item>, index: map<string, Item>) returns (levels: map<nat, seq<Item>>)
    ensures Grouped(items, index, levels)
  {
    levels := map[];
    for k := 0 to |items|
      invariant Grouped(items[..k], index, levels)
    {
      GroupOneMore(items[..k], index, levels, items[k]);
      assert items[..k + 1] == items[..k] + [items[k]];
      var l := Level(index, items[k], 0);
      if l !in levels {
        levels := levels[l := []];
      }
      levels := levels[l := levels[l] + [items[k]]];
    }
    assert items[..|items|] == items;
  }

  lemma GroupedLevels(items: seq<Item>, levels: map<nat, seq<Item>>)
    requires Grouped(items, ByLabel(items), levels)
    ensures levels.Keys == Occupied(items, ByLabel(items))
  {
    forall l: nat
      ensures l in levels <==> l in Occupied(items, ByLabel(items))
    {
      AtLevelHas(items, ByLabel(items), l);
      if l in levels {
        assert levels[l][0] in AtLevel(items, ByLabel(items), l);
        OccupiedHas(items, ByLabel(items), levels[l][0]);
      }
      if l in Occupied(items, ByLabel(items)) {
        var it := OccupiedBy(items, ByLabel(items), l);
        assert it in AtLevel(items, ByLabel(items), l);
      }
    }
  }

  ghost predicate HasRow(items: seq<Item>, index: map<string, Item>, x: string, l: nat) {
    exists it :: it in items && it.name == x && Level(index, it, 0) == l
  }

  /** Each label has the row of an item with that label, and the items of the first `l`
      levels have one. */
  ghost predicate Placed(items: seq<Item>, index: map<string, Item>, rowOf: map<string, nat>, l: nat) {
    && (forall x | x in rowOf :: rowOf[x] < l && HasRow(items, index, x, rowOf[x]))
    && (forall it | it in items && Level(index, it, 0) < l :: it.name in rowOf)
  }

  ghost predicate InRow(row: seq<Item>, x: string) {
    exists i :: 0 <= i < |row| && row[i].name == x
  }

  /** The labels of a row are put at level `l`, the others keep their place. */
  ghost predicate RowAdded(rowOf: map<string, nat>, row: seq<Item>, l: nat, after: map<string, nat>) {
    && (forall x :: x in after <==> x in rowOf || InRow(row, x))
    && (forall x | x in after :: if InRow(row, x) then after[x] == l else x in rowOf && after[x] == rowOf[x])
  }

  lemma InRowSnoc(row: seq<Item>, it: Item, x: string)
    ensures InRow(row + [it], x) <==> InRow(row, x) || it.name == x
  {
    if InRow(row, x) {
      var i :| 0 <= i < |row| && row[i].name == x;
      assert (row + [it])[i].name == x;
    }
    assert (row + [it])[|row|] == it;
  }

  method PlaceRow(rowOf: map<string, nat>, row: seq<Item>, l: nat) returns (after: map<string, nat>)
    ensures RowAdded(rowOf, row, l, after)
  {
    after := rowOf;
    for j := 0 to |row|
      invariant RowAdded(rowOf, row[..j], l, after)
    {
      assert row[..j + 1] == row[..j] + [row[j]];
      forall x
        ensures InRow(row[..j + 1], x) <==> InRow(row[..j], x) || row[j].name == x
      {
        InRowSnoc(row[..j], row[j], x);
      }
      after := after[row[j].name := l];
    }
    assert row[..|row|] == row;
  }

  lemma PlacedNext(items: seq<Item>, index: map<string, Item>, levels: map<nat, seq<Item>>, l: nat,
                   rowOf: map<string, nat>, after: map<string, nat>)
    requires Grouped(items, index, levels) && Placed(items, index, rowOf, l)
    requires RowAdded(rowOf, RowAt(levels, l), l, after)
    ensures Placed(items, index, after, l + 1)
  {
    var row := RowAt(levels, l);
    assert row == AtLevel(items, index, l);
    AtLevelHas(items, index, l);
    forall x | x in after
      ensures after[x] < l + 1 && HasRow(items, index, x, after[x])
    {
      if InRow(row, x) {
        var i :| 0 <= i < |row| && row[i].name == x;
        assert row[i] in AtLevel(items, index, l);
      } else {
        assert HasRow(items, index, x, rowOf[x]);
      }
    }
    forall it | it in items && Level(index, it, 0) < l + 1
      ensures it.name in after
    {
      if Level(index, it, 0) == l {
        var i :| 0 <= i < |row| && row[i] == it;
        assert InRow(row, it.name);
      }
    }
  }

  /** The loop over rows that fills `pos`. */
  method DrawRows(items: seq<Item>, index: map<string, Item>, levels: map<nat, seq<Item>>, depth: nat)
    returns (rowOf: map<string, nat>)
    requires Grouped(items, index, levels)
    ensures Placed(items, index, rowOf, depth)
  {
    rowOf := map[];
    for l := 0 to depth
      invariant Placed(items, index, rowOf, l)
    {
      var row := RowAt(levels, l);
      var after := PlaceRow(rowOf, row, l);
      PlacedNext(items, index, levels, l, rowOf, after);
      rowOf := after;
    }
  }

  /** Where no chain of parents ends nothing is drawn at all. */
  lemma AllEndlessDrawsNothing(items: seq<Item>, rowOf: map<string, nat>)
    requires forall it | it in items :: !Ends(ByLabel(items), it)
    requires Placed(items, ByLabel(items), rowOf, |Occupied(items, ByLabel(items))|)
    ensures rowOf == map[]
  {
    var index := ByLabel(items);
    forall v | v in items
      ensures !HasAncestors(index, v, MAX_DEPTH - 1)
    {
      assert !Ends(index, v);
    }
    forall it | it in items
      ensures Level(index, it, 0) == MAX_DEPTH >= |Occupied(items, ByLabel(items))|
    {
      EndlessIsDrawnIff(items, index, it);
    }
    if x :| x in rowOf { assert false; }
  }

  lemma {:induction false} MutualNeverEnds(index: map<string, Item>, a: Item, b: Item, n: nat)
    requires ParentOf(index, a) == Some(b) && ParentOf(index, b) == Some(a)
    ensures Up(index, a, n).Some?
    decreases n
  {
    if n > 0 { MutualNeverEnds(index, b, a, n - 1); }
  }

  /** Two items that are each other's parent get no position. */
  lemma CycleIsNotDrawn(a: string, b: string, rowOf: map<string, nat>)
    requires a != "" && b != "" && a != b
    requires var items := [Item(a, b), Item(b, a)]; Placed(items, ByLabel(items), rowOf, |Occupied(items, ByLabel(items))|)
    ensures rowOf == map[]
  {
    var items := [Item(a, b), Item(b, a)];
    var index := ByLabel(items);
    assert items[..1] == [Item(a, b)];
    assert index == map[a := items[0], b := items[1]];
    forall it | it in items
      ensures !Ends(index, it)
    {
      forall n: nat ensures !HasAncestors(index, it, n) {
        if it == items[0] { MutualNeverEnds(index, items[0], items[1], n + 1); }
        else { MutualNeverEnds(index, items[1], items[0], n + 1); }
      }
    }
    AllEndlessDrawsNothing(items, rowOf);
  }

  /** The passes over the items that fill `levels` and then `pos`: each label gets the row of
      an item with that label, and an item's label gets one iff its level is below the
      number of occupied levels. */
  method PlaceRows(items: seq<Item>) returns (rowOf: map<string, nat>, depth: nat)
    ensures depth == |Occupied(items, ByLabel(items))|
    ensures Placed(items, ByLabel(items), rowOf, depth)
    ensures EveryItemDrawn(items, ByLabel(items)) ==> forall it | it in items :: it.name in rowOf
  {
    var index := IndexByLabel(items);
    var levels := GroupByLevel(items, index);
    GroupedLevels(items, levels);
    depth := |levels.Keys|;
    rowOf := DrawRows(items, index, levels, depth);
    forall it | it in items ensures Level(index, it, 0) in Occupied(items, index) { OccupiedHas(items, index, it); }
  }
}
