/** Whose captures count for whom: the score against the documented meaning of the prisoner
    counters, where a side is credited with the stones it captured. */
module GoPrisoners {
  import opened Points
  import opened Regions
  import opened Boards
  import opened GoRules
  import opened GoKo
  import opened GoScoring
  import opened GoGame
  import opened GoHandlers
  import opened GoRuns

  /** The score credits each side with the stones it captured. */
  ghost predicate CreditsCaptors(g: GameState, score: ScoreResult) {
    && score.blackTotal2 == 2 * (|Territory(g.grid, BLACK)| + g.blackPrisoners)
    && score.whiteTotal2 == 2 * (|Territory(g.grid, WHITE)| + g.whitePrisoners) + 13
  }

  /** It does so exactly when both sides captured equally many. */
  lemma CreditsCaptorsIff(g: GameState, score: ScoreResult)
    requires Scores(g, score)
    ensures CreditsCaptors(g, score) <==> g.blackPrisoners == g.whitePrisoners
  {
  }

  /** A new game of any size is scored for White, who leads by the komi of six and a half points. */
  lemma NewGameScore(requested: int, score: ScoreResult)
    requires Scores(NewGame(requested), score)
    ensures score == ScoreResult(0, 0, 0, 0, 13, 0, 13, WhiteWins, 13)
  {
    EmptyBoardIsNobodys(NewGame(requested).grid, BLACK);
    EmptyBoardIsNobodys(NewGame(requested).grid, WHITE);
  }

  function Abs(n: int): nat {
    if n < 0 then -n else n
  }

  /** The reported winner differs from the one that crediting the captors gives exactly when
      twice the difference in captures outweighs Black's lead, in half points, without them. */
  lemma WinnerIsWrongIff(g: GameState, score: ScoreResult)
    requires Scores(g, score)
    ensures var lead2 := 2 * (|Territory(g.grid, BLACK)| - |Territory(g.grid, WHITE)|) - 13;
      var captures2 := 2 * (g.blackPrisoners - g.whitePrisoners);
      (score.winner == (if lead2 + captures2 > 0 then WhiteWins else BlackWins)) <==> Abs(captures2) > Abs(lead2)
  {
  }

  /** Taking the only enemy stone of the board, off a corner. */
  lemma CornerCapture(b: Grid, size: nat, b1: Grid)
    requires size >= 3 && CanPut(b, size, BLACK, Point(1, 0)) && b1 == b[Point(1, 0) := BLACK]
    requires b[Point(0, 0)] == WHITE && b[Point(0, 1)] == BLACK
    requires forall x :: x in b && b[x] == WHITE ==> x == Point(0, 0)
    ensures Captured(b, size, BLACK, Point(1, 0)) == {Point(0, 0)}
  {
    var q := Point(0, 0);
    LoneGroup(b1, q);
    assert Liberties(b1, {q}) == {};
    assert !Alive(b1, q);
    NeighborsAreAdjacent(Point(1, 0), size);
    assert q in Neighbors(Point(1, 0), size) && q in Group(b1, q);
    forall x | x in Captured(b, size, BLACK, Point(1, 0))
      ensures x == q
    {
      CapturedAreDead(b, size, BLACK, Point(1, 0), x);
    }
    assert q in Captured(b, size, BLACK, Point(1, 0));
  }

  const FIRST := Play(Named(Black), 0, 1)
  const SECOND := Play(Named(White), 0, 0)
  const THIRD := Play(Named(Black), 1, 0)

  lemma AfterTwo(g: GameState)
    requires HasStones(g, {}, {}, Black) && g.size >= 3
    ensures var g' := After(After(g, FIRST), SECOND);
      HasStones(g', {Point(0, 1)}, {Point(0, 0)}, Black) && g'.size == g.size
  {
    AddStone(g, {}, {}, Black, Point(0, 1), Point(0, 2));
    var g1 := After(g, FIRST);
    assert g1.grid[Point(0, 2)] == EMPTY && Adjacent(Point(0, 1), Point(0, 2));
    AddStone(g1, {Point(0, 1)}, {}, White, Point(0, 0), Point(1, 0));
  }

  lemma AfterThree(g: GameState)
    requires HasStones(g, {Point(0, 1)}, {Point(0, 0)}, Black) && g.size >= 3
    ensures After(g, THIRD).blackPrisoners == 1 && After(g, THIRD).whitePrisoners == 0
  {
    OpenPointAccepted(g.grid, g.size, BLACK, Point(1, 0), Point(2, 0));
    CornerCapture(g.grid, g.size, g.grid[Point(1, 0) := BLACK]);
    CapturesSize(g.grid, g.size, BLACK, Point(1, 0));
  }

  /** Black takes one stone in the corner; the score then credits White with it. */
  lemma CaptureIsMiscredited(requested: int, score: ScoreResult)
    requires BoardSize(requested) >= 3
    ensures var g := Run(NewGame(requested), [FIRST] + [SECOND] + [THIRD]);
      && g.blackPrisoners == 1 && g.whitePrisoners == 0
      && (Scores(g, score) ==> !CreditsCaptors(g, score))
  {
    var start := NewGame(requested);
    NewHasNoStones(requested);
    RunSnoc(start, [], FIRST);
    assert [] + [FIRST] == [FIRST];
    RunSnoc(start, [FIRST], SECOND);
    RunSnoc(start, [FIRST] + [SECOND], THIRD);
    AfterTwo(start);
    AfterThree(After(After(start, FIRST), SECOND));
  }
}
