/** A game as a state machine over its requests, and what every run of requests keeps. */
module GoGame {
  import opened Points
  import opened Regions
  import opened Boards
  import opened GoRules
  import opened GoKo
  import opened GoScoring

  datatype Side = Black | White

  /** The player field of a request: absent, a colour, or anything else. */
  datatype Field = Missing | Named(side: Side) | Unknown

  datatype Status = Playing | Passed | Resigned | Completed

  datatype MoveRecord = MoveRecord(player: Side, point: Point, captures: seq<Point>, isPass: bool)

  datatype GameState = GameState(
    size: nat, turn: Side, blackPrisoners: nat, whitePrisoners: nat, ko: Option<Point>,
    grid: Grid, history: seq<MoveRecord>, status: Status, passes: nat)

  datatype Error = BadSize | BadPlayer | WrongTurn | PointOutside | Illegal(verdict: Verdict)

  datatype Outcome = Done(game: GameState) | Refused(error: Error)

  datatype Request = Play(player: Field, row: int, col: int) | Pass(player: Field) | Resign(player: Field)

  function ColorOf(side: Side): int {
    if side == Black then BLACK else WHITE
  }

  function Other(side: Side): Side {
    if side == Black then White else Black
  }

  const DEFAULT_SIZE := 19

  function BoardSize(requested: int): (size: nat)
    ensures 1 <= size <= 19
  {
    if requested <= 0 || requested > 19 then DEFAULT_SIZE else requested
  }

  ghost function EmptyGrid(size: nat): Grid {
    map p | p in AllPoints(size) :: EMPTY
  }

  ghost function NewGame(requested: int): GameState {
    var size := BoardSize(requested);
    GameState(size, Black, 0, 0, None, EmptyGrid(size), [], Playing, 0)
  }

  // ---------------------------------------------------------------- requests

  /** The position of a game after an accepted stone. */
  ghost function Stone(g: GameState, side: Side, p: Point): GameState {
    var color := ColorOf(side);
    var grid := Place(g.grid, g.size, color, p);
    var captures := Captures(g.grid, g.size, color, p);
    g.(grid := grid,
       blackPrisoners := g.blackPrisoners + if side == Black then |captures| else 0,
       whitePrisoners := g.whitePrisoners + if side == White then |captures| else 0,
       ko := KoPoint(g.grid, grid, g.size, p),
       history := g.history + [MoveRecord(side, p, captures, false)],
       passes := 0,
       turn := Other(side))
  }

  ghost function PlayStep(g: GameState, player: Field, row: int, col: int): Outcome {
    if !player.Named? then Refused(BadPlayer)
    else if player.side != g.turn then Refused(WrongTurn)
    else if !InBounds(row, col, g.size) then Refused(PointOutside)
    else
      var verdict := Judge(g.grid, g.size, ColorOf(player.side), Point(row, col), g.ko);
      if verdict != Accepted then Refused(Illegal(verdict)) else Done(Stone(g, player.side, Point(row, col)))
  }

  /** The player a pass or a resignation is recorded for: the one named, else the one to move. */
  function Resolve(player: Field, turn: Side): Field {
    if player == Missing then Named(turn) else player
  }

  function PassStatus(passes: nat, status: Status): Status {
    if passes >= 2 then Completed else if status == Playing then Passed else status
  }

  ghost function PassStep(g: GameState, player: Field): Outcome {
    var who := Resolve(player, g.turn);
    if !who.Named? then Refused(BadPlayer)
    else Done(g.(passes := g.passes + 1,
                 history := g.history + [MoveRecord(who.side, Point(0, 0), [], true)],
                 status := PassStatus(g.passes + 1, g.status),
                 ko := None,
                 turn := Other(who.side)))
  }

  ghost function ResignStep(g: GameState, player: Field): Outcome {
    var who := Resolve(player, g.turn);
    if !who.Named? then Refused(BadPlayer)
    else Done(g.(status := Resigned,
                 history := g.history + [MoveRecord(who.side, Point(0, 0), [], false)]))
  }

  ghost function Step(g: GameState, request: Request): Outcome {
    match request
    case Play(player, row, col) => PlayStep(g, player, row, col)
    case Pass(player) => PassStep(g, player)
    case Resign(player) => ResignStep(g, player)
  }

  /** A refused request leaves the game as it was. */
  ghost function After(g: GameState, request: Request): GameState {
    var outcome := Step(g, request);
    if outcome.Done? then outcome.game else g
  }

  ghost function Run(g: GameState, requests: seq<Request>): GameState {
    if requests == [] then g
    else After(Run(g, requests[..|requests| - 1]), requests[|requests| - 1])
  }

  // ---------------------------------------------------------------- positions of every run

  /** A square position without dead stones, whose ko point (if any) is occupied. */
  ghost predicate Sound(g: GameState) {
    && IsGrid(g.grid, g.size) && AllAlive(g.grid)
    && (g.ko.Some? ==> g.ko.value in g.grid && g.grid[g.ko.value] != EMPTY)
  }

  lemma NewGameIsSound(requested: int)
    ensures Sound(NewGame(requested))
  {
  }

  lemma StoneIsSound(g: GameState, side: Side, p: Point)
    requires Sound(g) && Judge(g.grid, g.size, ColorOf(side), p, g.ko) == Accepted
    ensures Sound(Stone(g, side, p))
  {
    AcceptedMoveKeepsLiberties(g.grid, g.size, ColorOf(side), p, g.ko);
    KoPointIffOneCapture(g.grid, g.size, ColorOf(side), p);
    CapturedClosed(g.grid, g.size, ColorOf(side), p);
  }

  lemma StepIsSound(g: GameState, request: Request)
    requires Sound(g)
    ensures Sound(After(g, request))
  {
    if request.Play? && Step(g, request).Done? {
      StoneIsSound(g, request.player.side, Point(request.row, request.col));
    }
  }

  /** Article 4 over whole runs: whatever is requested, no group on the board is without a
      liberty, and a recorded ko point is an occupied point. */
  lemma {:induction false} EveryRunIsSound(requested: int, requests: seq<Request>)
    ensures Sound(Run(NewGame(requested), requests))
  {
    if requests == [] {
      NewGameIsSound(requested);
    } else {
      EveryRunIsSound(requested, requests[..|requests| - 1]);
      StepIsSound(Run(NewGame(requested), requests[..|requests| - 1]), requests[|requests| - 1]);
    }
  }

  /** The ko error is never reported in any run. */
  lemma {:induction false} KoErrorNeverReported(requested: int, requests: seq<Request>, request: Request)
    ensures Step(Run(NewGame(requested), requests), request) != Refused(Illegal(KoViolation))
  {
    EveryRunIsSound(requested, requests);
  }

  // ---------------------------------------------------------------- stone conservation

  /** How many stones a side has put down in a run. */
  ghost function Placements(g: GameState, requests: seq<Request>, side: Side): nat {
    if requests == [] then 0
    else
      var front, last := requests[..|requests| - 1], requests[|requests| - 1];
      Placements(g, front, side) +
        if last.Play? && last.player == Named(side) && Step(Run(g, front), last).Done? then 1 else 0
  }

  ghost function StonesOf(g: GameState, side: Side): nat {
    |CellsOf(g.grid, ColorOf(side))|
  }

  /** What the opponent has captured of a side's stones. */
  ghost function Lost(g: GameState, side: Side): nat {
    if side == Black then g.whitePrisoners else g.blackPrisoners
  }

  lemma OwnStones(b: Grid, size: nat, color: int, p: Point)
    requires CanPut(b, size, color, p)
    ensures |CellsOf(Place(b, size, color, p), color)| == |CellsOf(b, color)| + 1
  {
    CapturedClosed(b, size, color, p);
    DisjointSum(CellsOf(b, color), {p});
    assert CellsOf(Place(b, size, color, p), color) == CellsOf(b, color) + {p};
  }

  lemma EnemyStones(b: Grid, size: nat, color: int, p: Point)
    requires CanPut(b, size, color, p)
    ensures |CellsOf(Place(b, size, color, p), Opponent(color))| + |Captures(b, size, color, p)|
      == |CellsOf(b, Opponent(color))|
  {
    CapturedClosed(b, size, color, p);
    CapturesSize(b, size, color, p);
    ClearedStones(b, b[p := color], Opponent(color), Captured(b, size, color, p));
  }

  lemma ClearedStones(b: Grid, b1: Grid, color: int, gone: set<Point>)
    requires gone <= CellsOf(b1, color) && CellsOf(b1, color) == CellsOf(b, color) && color != EMPTY
    ensures |CellsOf(Clear(b1, gone), color)| + |gone| == |CellsOf(b, color)|
  {
    DisjointSum(CellsOf(Clear(b1, gone), color), gone);
    assert CellsOf(Clear(b1, gone), color) + gone == CellsOf(b, color);
  }

  lemma CapturesSize(b: Grid, size: nat, color: int, p: Point)
    requires CanPut(b, size, color, p)
    ensures |Captures(b, size, color, p)| == |Captured(b, size, color, p)|
  {
    OneByOneIsAllAtOnce(b[p := color], size, Opponent(color), Neighbors(p, size));
    DistinctSize(Captures(b, size, color, p));
  }

  lemma StoneConserves(g: GameState, side: Side, p: Point, other: Side)
    requires CanPut(g.grid, g.size, ColorOf(side), p)
    ensures var g' := Stone(g, side, p);
      StonesOf(g', other) + Lost(g', other) ==
        StonesOf(g, other) + Lost(g, other) + if other == side then 1 else 0
  {
    OwnStones(g.grid, g.size, ColorOf(side), p);
    EnemyStones(g.grid, g.size, ColorOf(side), p);
  }

  /** In every run a side's stones on the board and its captured stones add up to the stones
      it has put down. */
  lemma {:induction false} StonesAreConserved(requested: int, requests: seq<Request>, side: Side)
    ensures var g := Run(NewGame(requested), requests);
      StonesOf(g, side) + Lost(g, side) == Placements(NewGame(requested), requests, side)
  {
    var start := NewGame(requested);
    if requests == [] {
      assert CellsOf(start.grid, ColorOf(side)) == {};
    } else {
      var front, last := requests[..|requests| - 1], requests[|requests| - 1];
      var g := Run(start, front);
      StonesAreConserved(requested, front, side);
      EveryRunIsSound(requested, front);
      if last.Play? && Step(g, last).Done? {
        StoneConserves(g, last.player.side, Point(last.row, last.col), side);
      }
    }
  }

  /** Territory scoring and area scoring differ by the difference in stones put down. */
  lemma TerritoryAndAreaScores(requested: int, requests: seq<Request>)
    ensures var start := NewGame(requested);
      var g := Run(start, requests);
      var blackArea := |Territory(g.grid, BLACK)| + StonesOf(g, Black);
      var whiteArea := |Territory(g.grid, WHITE)| + StonesOf(g, White);
      (|Territory(g.grid, BLACK)| + g.blackPrisoners) - (|Territory(g.grid, WHITE)| + g.whitePrisoners) ==
        (blackArea - whiteArea) - (Placements(start, requests, Black) - Placements(start, requests, White))
  {
    StonesAreConserved(requested, requests, Black);
    StonesAreConserved(requested, requests, White);
  }

  lemma {:induction false} RunKeepsSize(requested: int, requests: seq<Request>)
    ensures Run(NewGame(requested), requests).size == BoardSize(requested)
  {
    if requests != [] {
      RunKeepsSize(requested, requests[..|requests| - 1]);
    }
  }

  // ---------------------------------------------------------------- status

  /** No request looks at the status: in the same position it is answered alike, whatever the
      status, and does the same to the board. */
  lemma StatusIsIgnored(g: GameState, status: Status, request: Request)
    ensures Step(g.(status := status), request).Done? <==> Step(g, request).Done?
    ensures Step(g, request).Refused? ==> Step(g.(status := status), request) == Step(g, request)
    ensures After(g.(status := status), request).grid == After(g, request).grid
  {
  }

  /** A pass is refused exactly for an unknown player: the turn and the status do not matter. */
  lemma PassRefusedIff(g: GameState, player: Field)
    ensures Step(g, Pass(player)).Refused? <==> player == Unknown
  {
  }

  lemma PlayChangesBoard(g: GameState, request: Request)
    requires Sound(g)
    ensures After(g, request).grid != g.grid <==> request.Play? && Step(g, request).Done?
  {
    if request.Play? && Step(g, request).Done? {
      var p := Point(request.row, request.col);
      PlacedColor(g.grid, g.size, ColorOf(request.player.side), p);
      assert g.grid[p] == EMPTY;
    }
  }

  lemma {:induction false} RunIsSound(g: GameState, requests: seq<Request>)
    requires Sound(g)
    ensures Sound(Run(g, requests))
  {
    if requests != [] {
      RunIsSound(g, requests[..|requests| - 1]);
      StepIsSound(Run(g, requests[..|requests| - 1]), requests[|requests| - 1]);
    }
  }

  /** No play of the run is accepted. */
  ghost predicate NothingPlayed(g: GameState, requests: seq<Request>) {
    if requests == [] then true
    else
      var front, last := requests[..|requests| - 1], requests[|requests| - 1];
      NothingPlayed(g, front) && (last.Play? ==> Step(Run(g, front), last).Refused?)
  }

  /** At no moment of the run has the board changed. */
  ghost predicate BoardStays(g: GameState, requests: seq<Request>) {
    Run(g, requests).grid == g.grid && (requests == [] || BoardStays(g, requests[..|requests| - 1]))
  }

  /** The board stays exactly when no play is accepted. */
  lemma {:induction false} BoardStaysIff(g: GameState, requests: seq<Request>)
    requires Sound(g)
    ensures BoardStays(g, requests) <==> NothingPlayed(g, requests)
  {
    if requests != [] {
      var front, last := requests[..|requests| - 1], requests[|requests| - 1];
      BoardStaysIff(g, front);
      RunIsSound(g, front);
      PlayChangesBoard(Run(g, front), last);
    }
  }

  lemma {:induction false} RunKeepsBoardSize(g: GameState, requests: seq<Request>)
    ensures Run(g, requests).size == g.size
  {
    if requests != [] {
      RunKeepsBoardSize(g, requests[..|requests| - 1]);
    }
  }

  lemma {:induction false} NothingPlayedOnOnePoint(g: GameState, requests: seq<Request>)
    requires Sound(g) && g.size <= 1
    ensures NothingPlayed(g, requests)
  {
    if requests != [] {
      var front, last := requests[..|requests| - 1], requests[|requests| - 1];
      var before := Run(g, front);
      NothingPlayedOnOnePoint(g, front);
      RunIsSound(g, front);
      RunKeepsBoardSize(g, front);
      if last.Play? && last.player.Named? {
        NoMoveOnOnePoint(before.grid, before.size, ColorOf(last.player.side), Point(last.row, last.col), before.ko);
      }
    }
  }

  function SideOf(color: int): Side {
    if color == BLACK then Black else White
  }

  /** A pass, by whomever, that leaves the side to move, and the side's play. */
  function PassAndPlay(side: Side, p: Point): seq<Request> {
    [Pass(Named(Other(side))), Play(Named(side), p.row, p.col)]
  }

  lemma PassAndPlayRun(g: GameState, side: Side, p: Point)
    requires Sound(g) && On(p, g.size) && Judge(g.grid, g.size, ColorOf(side), p, None) == Accepted
    ensures Run(g, PassAndPlay(side, p)).grid != g.grid
  {
    var requests := PassAndPlay(side, p);
    var passed := After(g, Pass(Named(Other(side))));
    assert requests[..1] == [Pass(Named(Other(side)))] && requests[..1][..0] == [];
    assert Run(g, requests[..1]) == passed;
    assert passed.grid == g.grid && passed.turn == side && passed.ko == None;
    PlayChangesBoard(passed, Play(Named(side), p.row, p.col));
  }

  /** Whether a game can still change depends on its board's size alone: two passes or a
      resignation end it exactly if nothing could be played from the start, on a board of at
      most one point. No completed or resigned game on 9, 13 or 19 ever ends. */
  lemma EndsIff(g: GameState)
    requires Sound(g)
    ensures (forall requests :: BoardStays(g, requests)) <==> g.size <= 1
  {
    if g.size <= 1 {
      forall requests
        ensures BoardStays(g, requests)
      {
        NothingPlayedOnOnePoint(g, requests);
        BoardStaysIff(g, requests);
      }
    } else {
      var color, p := SomeMove(g.grid, g.size);
      PassAndPlayRun(g, SideOf(color), p);
      assert !BoardStays(g, PassAndPlay(SideOf(color), p));
    }
  }

  /** So after any run on a new game the board can still change, but on a board of one point. */
  lemma NoGameEnds(requested: int, requests: seq<Request>)
    ensures (forall more :: BoardStays(Run(NewGame(requested), requests), more)) <==> BoardSize(requested) == 1
  {
    EveryRunIsSound(requested, requests);
    RunKeepsSize(requested, requests);
    EndsIff(Run(NewGame(requested), requests));
  }
}
