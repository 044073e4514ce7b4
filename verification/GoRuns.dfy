/** Concrete runs from a new game: the immediate recapture of a ko, and games that go on after
    they have been completed or resigned. */
module GoRuns {
  import opened Points
  import opened Regions
  import opened Boards
  import opened GoRules
  import opened GoKo
  import opened GoGame

  /** An empty neighbour of a stone other than the point about to be played. */
  ghost predicate StaysOpen(b: Grid, x: Point, p: Point) {
    exists m :: m in b && m != p && b[m] == EMPTY && Adjacent(x, m)
  }

  /** A stone that leaves every enemy stone with an empty neighbour captures nothing. */
  lemma QuietPlace(b: Grid, size: nat, color: int, p: Point)
    requires CanPut(b, size, color, p)
    requires forall x :: x in b && b[x] == Opponent(color) ==> StaysOpen(b, x, p)
    ensures Captured(b, size, color, p) == {} && Captures(b, size, color, p) == []
    ensures Place(b, size, color, p) == b[p := color] && KoPoint(b, b[p := color], size, p) == None
  {
    var b1 := b[p := color];
    forall x | x in b && b[x] == Opponent(color)
      ensures x !in Captured(b, size, color, p)
    {
      var m :| m in b && m != p && b[m] == EMPTY && Adjacent(x, m);
      OpenIsAlive(b1, x, m);
      if x in Captured(b, size, color, p) {
        CapturedAreDead(b, size, color, p, x);
      }
    }
    CapturedClosed(b, size, color, p);
    assert Captured(b, size, color, p) == {};
    CapturesSize(b, size, color, p);
    KoPointIffOneCapture(b, size, color, p);
    assert Place(b, size, color, p) == b1;
  }

  // ---------------------------------------------------------------- positions by their stones

  ghost predicate HasOnly(b: Grid, size: nat, blacks: set<Point>, whites: set<Point>) {
    IsGrid(b, size) && forall x :: x in b ==>
      b[x] == if x in blacks then BLACK else if x in whites then WHITE else EMPTY
  }

  /** The board shows exactly these stones; nothing was captured and there is no ko point. */
  ghost predicate HasStones(g: GameState, blacks: set<Point>, whites: set<Point>, turn: Side) {
    && HasOnly(g.grid, g.size, blacks, whites)
    && g.turn == turn && g.ko == None && g.blackPrisoners == 0 && g.whitePrisoners == 0
  }

  lemma AddStone(g: GameState, blacks: set<Point>, whites: set<Point>, side: Side, p: Point, l: Point)
    requires HasStones(g, blacks, whites, side) && blacks !! whites
    requires p in g.grid && p !in blacks + whites && l in g.grid && l !in blacks + whites && Adjacent(p, l)
    requires forall x :: x in g.grid && x in (if side == Black then whites else blacks) ==> StaysOpen(g.grid, x, p)
    ensures Step(g, Play(Named(side), p.row, p.col)).Done?
    ensures var g' := After(g, Play(Named(side), p.row, p.col));
      && HasStones(g', if side == Black then blacks + {p} else blacks,
                   if side == Black then whites else whites + {p}, Other(side))
      && g'.status == g.status && g'.size == g.size && g'.history == g.history + [MoveRecord(side, p, [], false)]
  {
    OpenPointAccepted(g.grid, g.size, ColorOf(side), p, l);
    QuietPlace(g.grid, g.size, ColorOf(side), p);
  }

  lemma NewHasNoStones(requested: int)
    ensures HasStones(NewGame(requested), {}, {}, Black)
  {
  }

  lemma RunSnoc(g: GameState, requests: seq<Request>, last: Request)
    ensures Run(g, requests + [last]) == After(Run(g, requests), last)
  {
    assert (requests + [last])[..|requests|] == requests;
  }

  // ---------------------------------------------------------------- a ko in play

  const STONE1 := Play(Named(Black), 1, 0)
  const STONE2 := Play(Named(White), 0, 0)
  const STONE3 := Play(Named(White), 0, 2)
  const STONE4 := Play(Named(White), 1, 1)
  const TAKE := Play(Named(Black), 0, 1)
  const RETAKE := Play(Named(White), 0, 0)

  lemma FirstTwo(g: GameState)
    requires HasStones(g, {}, {}, Black) && g.size >= 3
    ensures var g' := After(After(g, STONE1), STONE2);
      HasStones(g', {Point(1, 0)}, {Point(0, 0)}, Black) && g'.size == g.size
  {
    AddStone(g, {}, {}, Black, Point(1, 0), Point(2, 0));
    var g1 := After(g, STONE1);
    assert g1.grid[Point(2, 0)] == EMPTY && Adjacent(Point(1, 0), Point(2, 0));
    AddStone(g1, {Point(1, 0)}, {}, White, Point(0, 0), Point(0, 1));
  }

  /** Black passes and White adds a stone that takes no liberty of the black stone. */
  lemma PassAndStone(g: GameState, whites: set<Point>, p: Point, l: Point)
    requires HasStones(g, {Point(1, 0)}, whites, Black) && g.size >= 3
      && Point(2, 0) !in whites && Point(1, 0) !in whites
    requires p in g.grid && p !in {Point(1, 0), Point(2, 0)} + whites
    requires l in g.grid && l !in {Point(1, 0)} + whites && Adjacent(p, l)
    ensures var g' := After(After(g, Pass(Named(Black))), Play(Named(White), p.row, p.col));
      HasStones(g', {Point(1, 0)}, whites + {p}, Black) && g'.size == g.size
  {
    var passed := After(g, Pass(Named(Black)));
    assert HasStones(passed, {Point(1, 0)}, whites, White);
    assert Point(2, 0) in g.grid && g.grid[Point(2, 0)] == EMPTY && Adjacent(Point(1, 0), Point(2, 0));
    assert StaysOpen(passed.grid, Point(1, 0), p);
    AddStone(passed, {Point(1, 0)}, whites, White, p, l);
  }

  lemma PassAndStoneRun(start: GameState, requests: seq<Request>, whites: set<Point>, p: Point, l: Point)
    requires HasStones(Run(start, requests), {Point(1, 0)}, whites, Black) && Run(start, requests).size >= 3
    requires Point(2, 0) !in whites && Point(1, 0) !in whites
    requires p in Run(start, requests).grid && p !in {Point(1, 0), Point(2, 0)} + whites
    requires l in Run(start, requests).grid && l !in {Point(1, 0)} + whites && Adjacent(p, l)
    ensures var g := Run(start, requests + [Pass(Named(Black))] + [Play(Named(White), p.row, p.col)]);
      HasStones(g, {Point(1, 0)}, whites + {p}, Black) && g.size == Run(start, requests).size
  {
    PassAndStone(Run(start, requests), whites, p, l);
    RunSnoc(start, requests, Pass(Named(Black)));
    RunSnoc(start, requests + [Pass(Named(Black))], Play(Named(White), p.row, p.col));
  }

  const OPENING := [STONE1] + [STONE2]
  const KO_SETUP := OPENING + [Pass(Named(Black))] + [STONE3] + [Pass(Named(Black))] + [STONE4]

  lemma OpeningRun(requested: int)
    requires BoardSize(requested) >= 3
    ensures var g := Run(NewGame(requested), OPENING);
      HasStones(g, {Point(1, 0)}, {Point(0, 0)}, Black) && g.size == BoardSize(requested)
  {
    var start := NewGame(requested);
    NewHasNoStones(requested);
    FirstTwo(start);
    RunSnoc(start, [], STONE1);
    assert [] + [STONE1] == [STONE1];
    RunSnoc(start, [STONE1], STONE2);
  }

  lemma SetupIsKo(requested: int)
    requires BoardSize(requested) >= 3
    ensures var g := Run(NewGame(requested), KO_SETUP);
      g.turn == Black && g.ko == None && IsKoExample(g.grid, g.size)
  {
    var start := NewGame(requested);
    OpeningRun(requested);
    PassAndStoneRun(start, OPENING, {Point(0, 0)}, Point(0, 2), Point(1, 2));
    var four := OPENING + [Pass(Named(Black))] + [STONE3];
    PassAndStoneRun(start, four, {Point(0, 0)} + {Point(0, 2)}, Point(1, 1), Point(1, 2));
  }

  lemma TakeAndRetake(g: GameState)
    requires g.turn == Black && g.ko == None && IsKoExample(g.grid, g.size) && AllAlive(g.grid)
    ensures Step(g, TAKE).Done? && Step(After(g, TAKE), RETAKE).Done?
    ensures After(After(g, TAKE), RETAKE).grid == g.grid
  {
    KoExampleShape(g.grid, g.size);
    ReplyRepeatsIffKoShape(g.grid, g.size, BLACK, Point(0, 1), Point(0, 0), None);
  }

  /** Article 6 fails in play: on every board of at least 3 x 3 points this run of accepted
      requests takes a stone in a ko and takes back at once, which restores the board. */
  lemma RecaptureInPlay(requested: int)
    requires BoardSize(requested) >= 3
    ensures var g := Run(NewGame(requested), KO_SETUP);
      && Step(g, TAKE).Done? && Step(After(g, TAKE), RETAKE).Done?
      && Run(NewGame(requested), KO_SETUP + [TAKE] + [RETAKE]).grid == g.grid
  {
    var start := NewGame(requested);
    SetupIsKo(requested);
    EveryRunIsSound(requested, KO_SETUP);
    TakeAndRetake(Run(start, KO_SETUP));
    RunSnoc(start, KO_SETUP, TAKE);
    RunSnoc(start, KO_SETUP + [TAKE], RETAKE);
  }

  // ---------------------------------------------------------------- games that go on

  /** The game has exactly one stone, of Black. */
  ghost predicate OneBlackStone(g: GameState) {
    StonesOf(g, Black) == 1 && StonesOf(g, White) == 0
  }

  lemma CornerStone(g: GameState)
    requires HasStones(g, {}, {}, Black) && g.size >= 2
    ensures Step(g, Play(Named(Black), 0, 0)).Done?
    ensures var g' := After(g, Play(Named(Black), 0, 0)); OneBlackStone(g') && g'.status == g.status
  {
    AddStone(g, {}, {}, Black, Point(0, 0), Point(0, 1));
    var g' := After(g, Play(Named(Black), 0, 0));
    assert CellsOf(g'.grid, BLACK) == {Point(0, 0)};
    assert CellsOf(g'.grid, WHITE) == {};
  }

  /** Two passes complete the game, and then a stone is played in it all the same. */
  lemma GoesOnAfterTwoPasses(requested: int)
    requires BoardSize(requested) >= 2
    ensures Run(NewGame(requested), [Pass(Missing)] + [Pass(Missing)]).status == Completed
    ensures var g := Run(NewGame(requested), [Pass(Missing)] + [Pass(Missing)] + [Play(Named(Black), 0, 0)]);
      g.status == Completed && OneBlackStone(g)
  {
    var start := NewGame(requested);
    NewHasNoStones(requested);
    RunSnoc(start, [], Pass(Missing));
    assert [] + [Pass(Missing)] == [Pass(Missing)];
    RunSnoc(start, [Pass(Missing)], Pass(Missing));
    RunSnoc(start, [Pass(Missing)] + [Pass(Missing)], Play(Named(Black), 0, 0));
    CornerStone(After(After(start, Pass(Missing)), Pass(Missing)));
  }

  /** The same after a resignation. */
  lemma GoesOnAfterResignation(requested: int)
    requires BoardSize(requested) >= 2
    ensures var g := Run(NewGame(requested), [Resign(Missing)] + [Play(Named(Black), 0, 0)]);
      g.status == Resigned && OneBlackStone(g)
  {
    var start := NewGame(requested);
    NewHasNoStones(requested);
    RunSnoc(start, [], Resign(Missing));
    assert [] + [Resign(Missing)] == [Resign(Missing)];
    RunSnoc(start, [Resign(Missing)], Play(Named(Black), 0, 0));
    CornerStone(After(start, Resign(Missing)));
  }
}
