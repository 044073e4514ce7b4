/** The rules treat both colours and both board axes alike: exchanging the colours or
    transposing the board commutes with verdicts, moves, captures and territory. */
module GoSymmetry {
  import opened Points
  import opened Regions
  import opened Boards
  import opened GoRules
  import opened GoScoring

  // ---------------------------------------------------------------- exchanging the colours

  function SwapColor(color: int): int {
    if color == EMPTY then EMPTY else Opponent(color)
  }

  ghost function Swap(b: Grid): Grid {
    map p | p in b :: SwapColor(b[p])
  }

  lemma SwapGroups(b: Grid, size: nat, p: Point)
    requires IsGrid(b, size) && p in b
    ensures IsGrid(Swap(b), size)
    ensures Group(Swap(b), p) == Group(b, p)
    ensures forall g :: Liberties(Swap(b), g) == Liberties(b, g)
    ensures Alive(Swap(b), p) == Alive(b, p)
  {
    assert CellsOf(Swap(b), SwapColor(b[p])) == CellsOf(b, b[p]);
    forall g
      ensures Liberties(Swap(b), g) == Liberties(b, g)
    {
    }
  }

  lemma SwapDeadAt(b: Grid, size: nat, color: int, at: seq<Point>)
    requires IsGrid(b, size) && IsColor(color)
    ensures DeadAt(Swap(b), Opponent(color), at) == DeadAt(b, color, at)
  {
    forall m | m in b
      ensures Group(Swap(b), m) == Group(b, m) && Alive(Swap(b), m) == Alive(b, m)
    {
      SwapGroups(b, size, m);
    }
  }

  lemma SwapPlace(b: Grid, size: nat, color: int, p: Point)
    requires IsGrid(b, size) && IsColor(color) && p in b
    ensures Captured(Swap(b), size, Opponent(color), p) == Captured(b, size, color, p)
    ensures Place(Swap(b), size, Opponent(color), p) == Swap(Place(b, size, color, p))
  {
    assert Swap(b)[p := Opponent(color)] == Swap(b[p := color]);
    SwapDeadAt(b[p := color], size, Opponent(color), Neighbors(p, size));
  }

  /** With the colours exchanged the same move gets the same verdict. */
  lemma SwapJudge(b: Grid, size: nat, color: int, p: Point, ko: Option<Point>)
    requires IsGrid(b, size) && IsColor(color)
    ensures Judge(Swap(b), size, Opponent(color), p, ko) == Judge(b, size, color, p, ko)
  {
    if p in b {
      SwapPlace(b, size, color, p);
      ClearIsGrid(b[p := color], size, Captured(b, size, color, p));
      SwapGroups(Place(b, size, color, p), size, p);
    }
  }

  /** With the colours exchanged each side owns the other's territory. */
  lemma SwapTerritory(b: Grid, size: nat, color: int)
    requires IsGrid(b, size) && IsColor(color)
    ensures Territory(Swap(b), Opponent(color)) == Territory(b, color)
  {
    forall p | p in b && b[p] == EMPTY
      ensures OwnedBy(Swap(b), p, Opponent(color)) <==> OwnedBy(b, p, color)
    {
      SwapGroups(b, size, p);
      SwapTouches(b, size, Group(b, p), color);
      SwapTouches(b, size, Group(b, p), Opponent(color));
    }
  }

  lemma SwapTouches(b: Grid, size: nat, region: set<Point>, color: int)
    requires IsGrid(b, size) && IsColor(color)
    ensures Touches(Swap(b), region, Opponent(color)) <==> Touches(b, region, color)
  {
  }

  // ---------------------------------------------------------------- transposing the board

  function Flip(p: Point): Point {
    Point(p.col, p.row)
  }

  ghost function FlipSet(s: set<Point>): (t: set<Point>)
    ensures forall p :: p in t <==> Flip(p) in s
  {
    var t := set p | p in s :: Flip(p);
    assert forall p :: Flip(p) in s ==> Flip(Flip(p)) == p && p in t;
    t
  }

  ghost function FlipGrid(b: Grid): (t: Grid)
    ensures forall p :: p in t <==> Flip(p) in b
    ensures forall p :: p in t ==> t[p] == b[Flip(p)]
  {
    map p | p in FlipSet(b.Keys) :: b[Flip(p)]
  }

  function FlipKo(ko: Option<Point>): Option<Point> {
    if ko.Some? then Some(Flip(ko.value)) else None
  }

  lemma {:induction false} FlipSize(s: set<Point>)
    ensures |FlipSet(s)| == |s|
  {
    if s != {} {
      var p :| p in s;
      FlipSize(s - {p});
      assert Flip(Flip(p)) == p;
      assert FlipSet(s) == FlipSet(s - {p}) + {Flip(p)};
    }
  }

  lemma FlipReach(cells: set<Point>, p: Point, q: Point)
    requires Reach(cells, p, q)
    ensures Reach(FlipSet(cells), Flip(p), Flip(q))
  {
    var path :| Joins(cells, path, p, q);
    var flipped := seq(|path|, i requires 0 <= i < |path| => Flip(path[i]));
    assert Joins(FlipSet(cells), flipped, Flip(p), Flip(q));
  }

  lemma FlipComponent(cells: set<Point>, p: Point)
    ensures Component(FlipSet(cells), Flip(p)) == FlipSet(Component(cells, p))
  {
    assert FlipSet(FlipSet(cells)) == cells;
    forall q | q in FlipSet(cells)
      ensures Reach(FlipSet(cells), Flip(p), q) <==> Reach(cells, p, Flip(q))
    {
      if Reach(cells, p, Flip(q)) {
        FlipReach(cells, p, Flip(q));
      }
      if Reach(FlipSet(cells), Flip(p), q) {
        FlipReach(FlipSet(cells), Flip(p), q);
      }
    }
  }

  lemma FlipLiberties(b: Grid, g: set<Point>)
    ensures Liberties(FlipGrid(b), FlipSet(g)) == FlipSet(Liberties(b, g))
  {
    forall q | q in FlipGrid(b)
      ensures (exists p :: p in FlipSet(g) && Adjacent(p, q)) <==> (exists p :: p in g && Adjacent(p, Flip(q)))
    {
      if exists p :: p in g && Adjacent(p, Flip(q)) {
        var p :| p in g && Adjacent(p, Flip(q));
        assert Flip(p) in FlipSet(g) && Adjacent(Flip(p), q);
      }
      if exists p :: p in FlipSet(g) && Adjacent(p, q) {
        var p :| p in FlipSet(g) && Adjacent(p, q);
        assert Adjacent(Flip(p), Flip(q));
      }
    }
  }

  lemma FlipGroups(b: Grid, p: Point)
    requires p in b
    ensures Group(FlipGrid(b), Flip(p)) == FlipSet(Group(b, p))
    ensures Alive(FlipGrid(b), Flip(p)) == Alive(b, p)
  {
    assert CellsOf(FlipGrid(b), b[p]) == FlipSet(CellsOf(b, b[p]));
    FlipComponent(CellsOf(b, b[p]), p);
    FlipLiberties(b, Group(b, p));
    var l, m := Liberties(b, Group(b, p)), Liberties(FlipGrid(b), Group(FlipGrid(b), Flip(p)));
    assert m == FlipSet(l);
    if x :| x in l {
      assert Flip(Flip(x)) == x;
      assert Flip(x) in m;
    }
  }

  lemma FlipNeighbors(p: Point, size: nat, q: Point)
    ensures q in Neighbors(Flip(p), size) <==> Flip(q) in Neighbors(p, size)
  {
    NeighborsAreAdjacent(p, size);
    NeighborsAreAdjacent(Flip(p), size);
  }

  lemma FlipDeadAt(b: Grid, size: nat, color: int, p: Point, q: Point)
    requires q in DeadAt(b, color, Neighbors(p, size))
    ensures Flip(q) in DeadAt(FlipGrid(b), color, Neighbors(Flip(p), size))
  {
    var m :| m in Neighbors(p, size) && m in b && b[m] == color && !Alive(b, m) && q in Group(b, m);
    FlipGroups(b, m);
    FlipNeighbors(p, size, Flip(m));
  }

  lemma FlipCaptured(b: Grid, size: nat, color: int, p: Point)
    requires p in b
    ensures FlipGrid(b)[Flip(p) := color] == FlipGrid(b[p := color])
    ensures Captured(FlipGrid(b), size, color, Flip(p)) == FlipSet(Captured(b, size, color, p))
  {
    var b1, foe := b[p := color], Opponent(color);
    assert FlipGrid(b)[Flip(p) := color] == FlipGrid(b1);
    assert FlipGrid(FlipGrid(b1)) == b1;
    forall q
      ensures q in Captured(FlipGrid(b), size, color, Flip(p)) <==> Flip(q) in Captured(b, size, color, p)
    {
      if q in Captured(FlipGrid(b), size, color, Flip(p)) {
        FlipDeadAt(FlipGrid(b1), size, foe, Flip(p), q);
      }
      if Flip(q) in Captured(b, size, color, p) {
        FlipDeadAt(b1, size, foe, p, Flip(q));
      }
    }
  }

  lemma FlipClear(b: Grid, gone: set<Point>)
    ensures Clear(FlipGrid(b), FlipSet(gone)) == FlipGrid(Clear(b, gone))
  {
  }

  lemma FlipPlace(b: Grid, size: nat, color: int, p: Point)
    requires p in b
    ensures Place(FlipGrid(b), size, color, Flip(p)) == FlipGrid(Place(b, size, color, p))
  {
    FlipCaptured(b, size, color, p);
    FlipClear(b[p := color], Captured(b, size, color, p));
  }

  /** On the transposed board the transposed move gets the same verdict. */
  lemma FlipJudge(b: Grid, size: nat, color: int, p: Point, ko: Option<Point>)
    requires IsGrid(b, size)
    ensures IsGrid(FlipGrid(b), size)
    ensures Judge(FlipGrid(b), size, color, Flip(p), FlipKo(ko)) == Judge(b, size, color, p, ko)
  {
    assert FlipKo(ko) == Some(Flip(p)) <==> ko == Some(p);
    assert Flip(Flip(p)) == p;
    if p in b {
      FlipVerdict(b, size, color, p);
    }
  }

  lemma FlipVerdict(b: Grid, size: nat, color: int, p: Point)
    requires p in b
    ensures Alive(Place(FlipGrid(b), size, color, Flip(p)), Flip(p)) == Alive(Place(b, size, color, p), p)
  {
    FlipPlace(b, size, color, p);
    FlipGroups(Place(b, size, color, p), p);
  }

  lemma FlipTouches(b: Grid, region: set<Point>, color: int)
    requires Touches(b, region, color)
    ensures Touches(FlipGrid(b), FlipSet(region), color)
  {
    var p, q :| p in region && q in b && Adjacent(p, q) && b[q] == color;
    assert Flip(p) in FlipSet(region) && Flip(q) in FlipGrid(b) && Adjacent(Flip(p), Flip(q));
  }

  lemma FlipNotTouches(b: Grid, region: set<Point>, color: int)
    requires !Touches(b, region, color)
    ensures !Touches(FlipGrid(b), FlipSet(region), color)
  {
    assert FlipGrid(FlipGrid(b)) == b && FlipSet(FlipSet(region)) == region;
    if Touches(FlipGrid(b), FlipSet(region), color) {
      FlipTouches(FlipGrid(b), FlipSet(region), color);
    }
  }

  lemma FlipOwned(b: Grid, p: Point, color: int)
    requires OwnedBy(b, p, color)
    ensures OwnedBy(FlipGrid(b), Flip(p), color)
  {
    FlipGroups(b, p);
    FlipTouches(b, Group(b, p), color);
    FlipNotTouches(b, Group(b, p), Opponent(color));
  }

  /** The transposed board has the transposed territories, of the same size. */
  lemma FlipTerritory(b: Grid, color: int)
    ensures Territory(FlipGrid(b), color) == FlipSet(Territory(b, color))
    ensures |Territory(FlipGrid(b), color)| == |Territory(b, color)|
  {
    FlipSize(Territory(b, color));
    assert FlipGrid(FlipGrid(b)) == b;
    forall p
      ensures p in Territory(FlipGrid(b), color) <==> Flip(p) in Territory(b, color)
    {
      if p in Territory(FlipGrid(b), color) {
        FlipOwned(FlipGrid(b), p, color);
      }
      if Flip(p) in Territory(b, color) {
        FlipOwned(b, Flip(p), color);
      }
    }
  }
}
