/** Territory scoring: every maximal empty region counts once, for the only colour it touches. */
module GoScoring {
  import opened Points
  import opened Regions
  import opened Boards
  import opened GoRules
  import opened GoEngine

  // ---------------------------------------------------------------- territory

  ghost predicate Touches(b: Grid, region: set<Point>, color: int) {
    exists p, q :: p in region && q in b && Adjacent(p, q) && b[q] == color
  }

  /** The colours next to a region. */
  ghost function BoundaryColors(b: Grid, region: set<Point>): set<int> {
    set c | c in {BLACK, WHITE} && Touches(b, region, c)
  }

  /** An empty point whose maximal empty region touches `color` and not its opponent. */
  ghost predicate OwnedBy(b: Grid, p: Point, color: int) {
    && p in b && b[p] == EMPTY
    && Touches(b, Group(b, p), color) && !Touches(b, Group(b, p), Opponent(color))
  }

  ghost function Territory(b: Grid, color: int): set<Point> {
    set p | p in b && OwnedBy(b, p, color)
  }

  ghost function Neutral(b: Grid): set<Point> {
    set p | p in b && b[p] == EMPTY && !OwnedBy(b, p, BLACK) && !OwnedBy(b, p, WHITE)
  }

  lemma DisjointSum<T>(a: set<T>, b: set<T>)
    requires a !! b
    ensures |a + b| == |a| + |b|
  {
  }

  lemma {:induction false} RowCount(row: int, c: nat)
    ensures |RowPoints(row, c)| == c
  {
    if c > 0 {
      RowCount(row, c - 1);
      DisjointSum(RowPoints(row, c - 1), {Point(row, c - 1)});
    }
  }

  lemma RowsStep(r: nat, size: nat)
    ensures |RowsPoints(r + 1, size)| == |RowsPoints(r, size)| + size
  {
    RowCount(r, size);
    DisjointSum(RowsPoints(r, size), RowPoints(r, size));
  }

  lemma PointCount(size: nat)
    ensures |RowsPoints(size, size)| == size * size
  {
    var r, n := 0, 0;
    while r < size
      invariant r <= size && n == |RowsPoints(r, size)| && n == r * size
    {
      RowsStep(r, size);
      r, n := r + 1, n + size;
    }
  }

  lemma CellsCover(b: Grid, size: nat)
    requires IsGrid(b, size)
    ensures CellsOf(b, EMPTY) + CellsOf(b, BLACK) + CellsOf(b, WHITE) == RowsPoints(size, size)
  {
  }

  lemma StonesAndEmpties(b: Grid, size: nat)
    requires IsGrid(b, size)
    ensures |CellsOf(b, EMPTY)| + |CellsOf(b, BLACK)| + |CellsOf(b, WHITE)| == size * size
  {
    var e, k, w := CellsOf(b, EMPTY), CellsOf(b, BLACK), CellsOf(b, WHITE);
    DisjointSum(e, k);
    DisjointSum(e + k, w);
    CellsCover(b, size);
    PointCount(size);
  }

  /** Black territory, White territory, neutral points and stones cover the board exactly. */
  lemma BoardIsAccountedFor(b: Grid, size: nat)
    requires IsGrid(b, size)
    ensures |Territory(b, BLACK)| + |Territory(b, WHITE)| + |Neutral(b)|
      + |CellsOf(b, BLACK)| + |CellsOf(b, WHITE)| == size * size
  {
    var tb, tw, n := Territory(b, BLACK), Territory(b, WHITE), Neutral(b);
    DisjointSum(tb, tw);
    DisjointSum(tb + tw, n);
    assert tb + tw + n == CellsOf(b, EMPTY);
    StonesAndEmpties(b, size);
  }

  /** A set of points that contains, with a point, every neighbour on the board is the board. */
  lemma {:induction false} BoardConnected(b: Grid, size: nat, part: set<Point>, p: Point, q: Point)
    requires IsGrid(b, size) && Closed(b.Keys, part) && p in part && p in b && q in b
    ensures q in part
    decreases (if p.row < q.row then q.row - p.row else p.row - q.row)
            + (if p.col < q.col then q.col - p.col else p.col - q.col)
  {
    if p != q {
      var next :=
        if p.row < q.row then Point(p.row + 1, p.col) else if p.row > q.row then Point(p.row - 1, p.col)
        else if p.col < q.col then Point(p.row, p.col + 1) else Point(p.row, p.col - 1);
      assert next in b.Keys && Adjacent(p, next);
      BoardConnected(b, size, part, next, q);
    }
  }

  /** When only one colour is on the board, it owns every empty point. */
  lemma LoneColorOwnsAll(b: Grid, size: nat, color: int, stone: Point)
    requires IsGrid(b, size) && (color == 1 || color == 2) && stone in b && b[stone] == color
    requires forall q :: q in b ==> b[q] == 0 || b[q] == color
    ensures forall p :: p in Territory(b, color) <==> p in b && b[p] == 0
    ensures Territory(b, 3 - color) == {}
  {
    forall p | p in b && b[p] == 0
      ensures Touches(b, Group(b, p), color)
    {
      var g := Group(b, p);
      GroupOf(b, p);
      if !Touches(b, g, color) {
        forall x, y | x in g && y in b.Keys && Adjacent(x, y)
          ensures y in g
        {
          assert y in CellsOf(b, EMPTY);
        }
        BoardConnected(b, size, g, p, stone);
      }
    }
  }

  /** On a board without stones nobody owns anything. */
  lemma EmptyBoardIsNobodys(b: Grid, color: int)
    requires (forall p :: p in b ==> b[p] == 0) && (color == 1 || color == 2)
    ensures Territory(b, color) == {}
  {
  }

  /** Visiting one more whole region adds its size to its owner's count and nothing else. */
  lemma RegionCounts(b: Grid, visited: set<Point>, p: Point, color: int)
    requires p in b && b[p] == EMPTY && p !in visited
    requires visited <= CellsOf(b, EMPTY) && Closed(CellsOf(b, EMPTY), visited)
    ensures var more := visited + Group(b, p);
      && more <= CellsOf(b, EMPTY) && Closed(CellsOf(b, EMPTY), more)
      && |more * Territory(b, color)| ==
         |visited * Territory(b, color)| + if OwnedBy(b, p, color) then |Group(b, p)| else 0
  {
    var cells, g, t := CellsOf(b, EMPTY), Group(b, p), Territory(b, color);
    GroupOf(b, p);
    ComponentMinusClosed(cells, visited, p);
    assert g !! visited;
    assert (visited + g) * t == visited * t + g * t;
    if OwnedBy(b, p, color) {
      assert g * t == g;
    } else {
      assert g * t == {};
    }
  }

  // ---------------------------------------------------------------- the searches

  /** What a search has visited when it ends. */
  ghost function Visited(size: nat, cells: set<Point>, visited: set<Point>, queue: seq<Point>,
                         nbs: seq<Point>): set<Point>
    decreases |cells - visited|, |queue|, |nbs|
  {
    if nbs != [] then
      if nbs[0] in cells && nbs[0] !in visited then
        VisitShrinks(cells, visited, nbs[0]);
        Visited(size, cells, visited + {nbs[0]}, queue + [nbs[0]], nbs[1..])
      else Visited(size, cells, visited, queue, nbs[1..])
    else if queue != [] then Visited(size, cells, visited, queue[1..], Neighbors(queue[0], size))
    else visited
  }

  lemma {:induction false} VisitedIsFound(size: nat, cells: set<Point>, visited: set<Point>, queue: seq<Point>,
        nbs: seq<Point>)
    requires forall x :: x in queue ==> x in visited
    ensures Visited(size, cells, visited, queue, nbs) == visited + SetOf(Search(size, cells, visited, queue, nbs))
    decreases |cells - visited|, |queue|, |nbs|
  {
    if nbs != [] {
      if nbs[0] in cells && nbs[0] !in visited {
        VisitShrinks(cells, visited, nbs[0]);
        VisitedIsFound(size, cells, visited + {nbs[0]}, queue + [nbs[0]], nbs[1..]);
        SearchKeepsQueue(size, cells, visited + {nbs[0]}, queue + [nbs[0]], nbs[1..], |queue|);
      } else {
        VisitedIsFound(size, cells, visited, queue, nbs[1..]);
      }
    } else if queue != [] {
      VisitedIsFound(size, cells, visited, queue[1..], Neighbors(queue[0], size));
      var r := Search(size, cells, visited, queue[1..], Neighbors(queue[0], size));
      assert SetOf([queue[0]] + r) == {queue[0]} + SetOf(r);
    }
  }

  lemma {:induction false} SearchKeepsQueue(size: nat, cells: set<Point>, visited: set<Point>,
        queue: seq<Point>, nbs: seq<Point>, i: nat)
    requires i < |queue|
    ensures queue[i] in Search(size, cells, visited, queue, nbs)
    decreases |cells - visited|, |queue|, |nbs|
  {
    if nbs != [] {
      if nbs[0] in cells && nbs[0] !in visited {
        VisitShrinks(cells, visited, nbs[0]);
        SearchKeepsQueue(size, cells, visited + {nbs[0]}, queue + [nbs[0]], nbs[1..], i);
      } else {
        SearchKeepsQueue(size, cells, visited, queue, nbs[1..], i);
      }
    } else if i > 0 {
      SearchKeepsQueue(size, cells, visited, queue[1..], Neighbors(queue[0], size), i - 1);
    }
  }

  lemma VisitedStep(size: nat, cells: set<Point>, visited: set<Point>, queue: seq<Point>, nbs: seq<Point>, i: nat)
    requires i < |nbs|
    ensures var nb := nbs[i];
      Visited(size, cells, visited, queue, nbs[i..]) ==
      if nb in cells && nb !in visited
      then Visited(size, cells, visited + {nb}, queue + [nb], nbs[i + 1..])
      else Visited(size, cells, visited, queue, nbs[i + 1..])
  {
  }

  /** `base` and the stone colours among the first i of a list. */
  ghost function WithColors(base: set<int>, b: Grid, points: seq<Point>, i: nat): set<int>
    requires i <= |points|
  {
    if i == 0 then base
    else if points[i - 1] in b && b[points[i - 1]] != EMPTY then WithColors(base, b, points, i - 1) + {b[points[i - 1]]}
    else WithColors(base, b, points, i - 1)
  }

  lemma {:induction false} WithColorsSpec(base: set<int>, b: Grid, points: seq<Point>, i: nat)
    requires i <= |points|
    ensures forall c :: c in WithColors(base, b, points, i) <==>
      c in base || exists q :: q in points[..i] && q in b && b[q] == c && c != EMPTY
  {
    if i > 0 {
      WithColorsSpec(base, b, points, i - 1);
      var q := points[i - 1];
      assert points[..i] == points[..i - 1] + [q];
      forall c | c in base || exists x :: x in points[..i] && x in b && b[x] == c && c != EMPTY
        ensures c in WithColors(base, b, points, i)
      {
        if c !in base {
          var x :| x in points[..i] && x in b && b[x] == c && c != EMPTY;
          assert x == q || x in points[..i - 1];
        }
      }
      if q in b && b[q] != EMPTY {
        assert q in points[..i];
      }
      assert forall x :: x in points[..i - 1] ==> x in points[..i];
    }
  }

  /** The colours next to a list of points, gathered point by point. */
  ghost function ColorsAround(b: Grid, size: nat, done: seq<Point>): set<int> {
    if done == [] then {}
    else
      var nbs := Neighbors(done[|done| - 1], size);
      WithColors(ColorsAround(b, size, done[..|done| - 1]), b, nbs, |nbs|)
  }

  lemma ColorsAroundSnoc(b: Grid, size: nat, done: seq<Point>, p: Point)
    ensures var nbs := Neighbors(p, size);
      ColorsAround(b, size, done + [p]) == WithColors(ColorsAround(b, size, done), b, nbs, |nbs|)
  {
  }

  lemma {:induction false} ColorsAroundSpec(b: Grid, size: nat, done: seq<Point>)
    requires IsGrid(b, size)
    ensures ColorsAround(b, size, done) == BoundaryColors(b, SetOf(done))
  {
    if done == [] {
    } else {
      var front, p := done[..|done| - 1], done[|done| - 1];
      assert done == front + [p];
      var nbs := Neighbors(p, size);
      ColorsAroundSpec(b, size, front);
      NeighborsAreAdjacent(p, size);
      WithColorsSpec(ColorsAround(b, size, front), b, nbs, |nbs|);
      assert nbs[..|nbs|] == nbs;
      SetOfSnoc(front, p);
      forall c | c in {BLACK, WHITE}
        ensures Touches(b, SetOf(done), c) <==>
          Touches(b, SetOf(front), c) || exists q :: q in nbs && q in b && b[q] == c && c != EMPTY
      {
        TouchesSnoc(b, size, front, p, c);
      }
    }
  }

  lemma TouchesSnoc(b: Grid, size: nat, front: seq<Point>, p: Point, c: int)
    requires IsGrid(b, size) && c != EMPTY
    ensures Touches(b, SetOf(front + [p]), c) <==>
      Touches(b, SetOf(front), c) || exists q :: q in Neighbors(p, size) && q in b && b[q] == c && c != EMPTY
  {
    NeighborsAreAdjacent(p, size);
    SetOfSnoc(front, p);
    if Touches(b, SetOf(front + [p]), c) {
      var x, q :| x in SetOf(front + [p]) && q in b && Adjacent(x, q) && b[q] == c;
      if x == p {
        assert q in Neighbors(p, size);
      }
    }
    if exists q :: q in Neighbors(p, size) && q in b && b[q] == c && c != EMPTY {
      var q :| q in Neighbors(p, size) && q in b && b[q] == c && c != EMPTY;
      assert p in SetOf(front + [p]) && Adjacent(p, q);
    }
  }

  // ---------------------------------------------------------------- the methods

  /** One expansion that also collects the stone colours met. */
  method VisitWithColors(board: array2<int>, current: Point, visited0: set<Point>, queue0: seq<Point>,
                         colors0: set<int>, ghost cells: set<Point>)
    returns (visited: set<Point>, queue: seq<Point>, colors: set<int>)
    requires IsBoard(board) && Shows(board, EMPTY, cells, visited0)
    ensures Shows(board, EMPTY, cells, visited)
    ensures var nbs := Neighbors(current, board.Length0);
      && Search(board.Length0, cells, visited, queue, []) == Search(board.Length0, cells, visited0, queue0, nbs)
      && Visited(board.Length0, cells, visited, queue, []) == Visited(board.Length0, cells, visited0, queue0, nbs)
      && colors == WithColors(colors0, GridOf(board), nbs, |nbs|)
  {
    var size := board.Length0;
    visited, queue, colors := visited0, queue0, colors0;
    ghost var b := GridOf(board);
    var nbs := NeighborList(current.row, current.col, size);
    NeighborsAreAdjacent(current, size);
    assert nbs[0..] == nbs;
    for i := 0 to |nbs|
      invariant visited0 <= visited
      invariant Search(size, cells, visited, queue, nbs[i..]) == Search(size, cells, visited0, queue0, nbs)
      invariant Visited(size, cells, visited, queue, nbs[i..]) == Visited(size, cells, visited0, queue0, nbs)
      invariant colors == WithColors(colors0, b, nbs, i)
    {
      var nb := nbs[i];
      assert nb in nbs;
      SearchStep(size, cells, visited, queue, nbs, i);
      VisitedStep(size, cells, visited, queue, nbs, i);
      if board[nb.row, nb.col] == EMPTY && nb !in visited {
        visited := visited + {nb};
        queue := queue + [nb];
      } else if board[nb.row, nb.col] != EMPTY {
        colors := colors + {board[nb.row, nb.col]};
      }
    }
    assert nbs[|nbs|..] == [];
  }

  /** What a fill from an unvisited empty point finds when only whole regions were visited. */
  lemma FillFindsRegion(b: Grid, size: nat, visited: set<Point>, p: Point)
    requires IsGrid(b, size) && p in b && b[p] == EMPTY && p !in visited
    requires visited <= CellsOf(b, EMPTY) && Closed(CellsOf(b, EMPTY), visited)
    ensures var cells := CellsOf(b, EMPTY);
      && Visited(size, cells, visited + {p}, [p], []) == visited + Group(b, p)
      && ColorsAround(b, size, Search(size, cells, visited + {p}, [p], [])) == BoundaryColors(b, Group(b, p))
  {
    var cells := CellsOf(b, EMPTY);
    SearchIsComponent(size, cells, visited, p);
    VisitedIsFound(size, cells, visited + {p}, [p], []);
    GroupOf(b, p);
    ColorsAroundSpec(b, size, Search(size, cells, visited + {p}, [p], []));
  }

  /** Adds the maximal empty region of (row, col) to the shared visited set and returns the
      colours that border it. */
  method FloodFillTerritory(board: array2<int>, row: int, col: int, visited0: set<Point>)
    returns (visited: set<Point>, boundaryColors: set<int>)
    requires IsBoard(board) && InBounds(row, col, board.Length0)
    requires board[row, col] == EMPTY && Point(row, col) !in visited0
    requires visited0 <= CellsOf(GridOf(board), EMPTY) && Closed(CellsOf(GridOf(board), EMPTY), visited0)
    ensures visited == visited0 + Group(GridOf(board), Point(row, col))
    ensures boundaryColors == BoundaryColors(GridOf(board), Group(GridOf(board), Point(row, col)))
  {
    var size, start := board.Length0, Point(row, col);
    ghost var b := GridOf(board);
    ghost var cells, done: seq<Point> := CellsOf(b, EMPTY), [];
    boundaryColors := {};
    var queue := [start];
    visited := visited0 + {start};
    ghost var all, final := Search(size, cells, visited, queue, []), Visited(size, cells, visited, queue, []);
    while queue != []
      invariant Shows(board, EMPTY, cells, visited)
      invariant final == Visited(size, cells, visited, queue, [])
      invariant done + Search(size, cells, visited, queue, []) == all
      invariant boundaryColors == ColorsAround(b, size, done)
      decreases |all| - |done|
    {
      var current := queue[0];
      Dequeue(size, cells, visited, queue, done, all);
      ColorsAroundSnoc(b, size, done, current);
      queue, done := queue[1..], done + [current];
      visited, queue, boundaryColors := VisitWithColors(board, current, visited, queue, boundaryColors, cells);
    }
    assert done == all;
    FillFindsRegion(b, size, visited0, start);
  }

  /** The size of the maximal empty region of (row, col). */
  method CountRegion(board: array2<int>, row: int, col: int) returns (count: nat)
    requires IsBoard(board) && InBounds(row, col, board.Length0) && board[row, col] == EMPTY
    ensures count == |Group(GridOf(board), Point(row, col))|
  {
    var size, start := board.Length0, Point(row, col);
    ghost var b := GridOf(board);
    ghost var cells := CellsOf(b, EMPTY);
    count := 0;
    var regionVisited: set<Point> := {start};
    var queue := [start];
    ghost var todo := GroupSeq(b, size, start);
    while queue != []
      invariant Shows(board, EMPTY, cells, regionVisited)
      invariant todo == Search(size, cells, regionVisited, queue, [])
      invariant count + |todo| == |GroupSeq(b, size, start)|
      decreases |todo|
    {
      var current := queue[0];
      queue, todo := queue[1..], todo[1..];
      count := count + 1;
      regionVisited, queue := Visit(board, EMPTY, current, regionVisited, queue, cells);
    }
    GroupSeqIsGroup(b, size, start);
  }

  // ---------------------------------------------------------------- the score

  datatype Winner = BlackWins | WhiteWins | Draw

  /** The score; totals, komi and margin are counted in half points. */
  datatype ScoreResult = ScoreResult(
    blackTerritory: nat, whiteTerritory: nat, blackPrisoners: int, whitePrisoners: int,
    komi2: int, blackTotal2: int, whiteTotal2: int, winner: Winner, margin2: int)

  /** 6.5 points. */
  const KOMI2 := 13

  /** The scan has visited whole regions, among them that of every empty point already passed. */
  ghost predicate Covered(b: Grid, visited: set<Point>, r: int, c: int) {
    && visited <= CellsOf(b, EMPTY) && Closed(CellsOf(b, EMPTY), visited)
    && ScannedPart(CellsOf(b, EMPTY), r, c) <= visited
  }

  lemma CoveredStep(b: Grid, visited: set<Point>, r: int, c: int)
    requires Covered(b, visited, r, c)
    requires Point(r, c) in CellsOf(b, EMPTY) ==> Point(r, c) in visited
    ensures Covered(b, visited, r, c + 1)
  {
  }

  lemma CoveredMore(b: Grid, visited: set<Point>, r: int, c: int)
    requires Covered(b, visited, r, c) && Point(r, c) in b && b[Point(r, c)] == EMPTY && Point(r, c) !in visited
    ensures Covered(b, visited + Group(b, Point(r, c)), r, c)
    ensures Point(r, c) in Group(b, Point(r, c))
  {
    GroupOf(b, Point(r, c));
    RegionCounts(b, visited, Point(r, c), BLACK);
  }

  /** The owned part of what has been visited. */
  ghost function OwnedPart(b: Grid, visited: set<Point>, color: int): set<Point> {
    visited * Territory(b, color)
  }

  lemma CoveredAll(b: Grid, size: nat, visited: set<Point>, color: int)
    requires IsGrid(b, size) && Covered(b, visited, size, 0)
    ensures OwnedPart(b, visited, color) == Territory(b, color)
  {
  }

  lemma BoundaryDecides(b: Grid, p: Point)
    requires p in b && b[p] == EMPTY
    ensures var colors := BoundaryColors(b, Group(b, p));
      && (OwnedBy(b, p, BLACK) <==> BLACK in colors && WHITE !in colors)
      && (OwnedBy(b, p, WHITE) <==> WHITE in colors && BLACK !in colors)
  {
  }

  /** What the region of an unvisited empty point adds to both counts, read off its border. */
  lemma RegionIsCounted(b: Grid, visited: set<Point>, r: int, c: int)
    requires Covered(b, visited, r, c) && Point(r, c) in b && b[Point(r, c)] == EMPTY && Point(r, c) !in visited
    ensures var g := Group(b, Point(r, c));
      var colors := BoundaryColors(b, g);
      && Covered(b, visited + g, r, c + 1)
      && |OwnedPart(b, visited + g, BLACK)| ==
         |OwnedPart(b, visited, BLACK)| + (if BLACK in colors && WHITE !in colors then |g| else 0)
      && |OwnedPart(b, visited + g, WHITE)| ==
         |OwnedPart(b, visited, WHITE)| + (if WHITE in colors && BLACK !in colors then |g| else 0)
  {
    var p := Point(r, c);
    BoundaryDecides(b, p);
    RegionCounts(b, visited, p, BLACK);
    RegionCounts(b, visited, p, WHITE);
    CoveredMore(b, visited, r, c);
    CoveredStep(b, visited + Group(b, p), r, c);
  }

  /** One point of the scan: fills, classifies and counts its region if it is new. */
  method ScorePoint(board: array2<int>, r: int, c: int, visited0: set<Point>, black0: nat, white0: nat)
    returns (visited: set<Point>, black: nat, white: nat)
    requires IsBoard(board) && InBounds(r, c, board.Length0)
    requires Covered(GridOf(board), visited0, r, c)
    requires black0 == |OwnedPart(GridOf(board), visited0, BLACK)|
      && white0 == |OwnedPart(GridOf(board), visited0, WHITE)|
    ensures Covered(GridOf(board), visited, r, c + 1)
    ensures black == |OwnedPart(GridOf(board), visited, BLACK)| && white == |OwnedPart(GridOf(board), visited, WHITE)|
  {
    ghost var b := GridOf(board);
    visited, black, white := visited0, black0, white0;
    if board[r, c] == EMPTY && Point(r, c) !in visited {
      RegionIsCounted(b, visited0, r, c);
      var boundaryColors;
      visited, boundaryColors := FloodFillTerritory(board, r, c, visited);
      if BLACK in boundaryColors && WHITE !in boundaryColors {
        var count := CountRegion(board, r, c);
        black := black + count;
      } else if WHITE in boundaryColors && BLACK !in boundaryColors {
        var count := CountRegion(board, r, c);
        white := white + count;
      }
    } else {
      CoveredStep(b, visited, r, c);
    }
  }

  lemma NextRow(b: Grid, size: nat, visited: set<Point>, r: int)
    requires IsGrid(b, size)
    ensures Covered(b, visited, r, size) == Covered(b, visited, r + 1, 0)
  {
  }

  /** The two territories of a board. */
  method CountTerritories(board: array2<int>) returns (black: nat, white: nat)
    requires IsBoard(board)
    ensures black == |Territory(GridOf(board), BLACK)| && white == |Territory(GridOf(board), WHITE)|
  {
    var size := board.Length0;
    ghost var b := GridOf(board);
    var visited: set<Point> := {};
    black, white := 0, 0;
    ScannedAll(CellsOf(b, EMPTY), size);
    assert OwnedPart(b, {}, BLACK) == {} && OwnedPart(b, {}, WHITE) == {};
    for r := 0 to size
      invariant Covered(b, visited, r, 0)
      invariant black == |OwnedPart(b, visited, BLACK)| && white == |OwnedPart(b, visited, WHITE)|
    {
      for c := 0 to size
        invariant Covered(b, visited, r, c)
        invariant black == |OwnedPart(b, visited, BLACK)| && white == |OwnedPart(b, visited, WHITE)|
      {
        visited, black, white := ScorePoint(board, r, c, visited, black, white);
      }
      NextRow(b, size, visited, r);
    }
    CoveredAll(b, size, visited, BLACK);
    CoveredAll(b, size, visited, WHITE);
  }

  /** Black is credited with `whitePrisoners` and White with `blackPrisoners` and komi. */
  method CalculateScore(board: array2<int>, blackPrisoners: int, whitePrisoners: int) returns (score: ScoreResult)
    requires IsBoard(board)
    ensures score.blackTerritory == |Territory(GridOf(board), BLACK)|
    ensures score.whiteTerritory == |Territory(GridOf(board), WHITE)|
    ensures score.blackPrisoners == blackPrisoners && score.whitePrisoners == whitePrisoners && score.komi2 == 13
    ensures score.blackTotal2 == 2 * (score.blackTerritory + whitePrisoners)
    ensures score.whiteTotal2 == 2 * (score.whiteTerritory + blackPrisoners) + 13
    ensures var lead := (score.blackTerritory + whitePrisoners) - (score.whiteTerritory + blackPrisoners);
      && score.winner == (if lead >= 7 then BlackWins else WhiteWins)
      && score.margin2 == (if lead >= 7 then 2 * lead - 13 else 13 - 2 * lead)
  {
    var blackTerritory, whiteTerritory := CountTerritories(board);
    var blackTotal2 := 2 * (blackTerritory + whitePrisoners);
    var whiteTotal2 := 2 * (whiteTerritory + blackPrisoners) + KOMI2;
    var winner, margin2 := Draw, 0;
    if blackTotal2 > whiteTotal2 {
      winner, margin2 := BlackWins, blackTotal2 - whiteTotal2;
    } else if whiteTotal2 > blackTotal2 {
      winner, margin2 := WhiteWins, whiteTotal2 - blackTotal2;
    }
    score := ScoreResult(blackTerritory, whiteTerritory, blackPrisoners, whitePrisoners,
                         KOMI2, blackTotal2, whiteTotal2, winner, margin2);
  }
}
