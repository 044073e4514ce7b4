/** What the client of a game is told and what becomes of the stored games, case by case. */
module GoOutcomes {
  import opened Points
  import opened Regions
  import opened Boards
  import opened GoRules
  import opened GoKo
  import opened GoGame

  datatype Response = NotFound | Rejected(error: Error) | Replied

  /** What a request does to the stored games when it runs alone: the addressed game takes the
      step, or nothing changes. */
  ghost function Served(games: map<string, GameState>, id: string, request: Request): map<string, GameState> {
    if id in games && Step(games[id], request).Done? then games[id := After(games[id], request)] else games
  }

  /** What the client is told about that request. */
  ghost function Answer(games: map<string, GameState>, id: string, request: Request): Response {
    if id !in games then NotFound
    else match Step(games[id], request)
      case Done(_) => Replied
      case Refused(e) => Rejected(e)
  }

  // ---------------------------------------------------------------- a play

  /** The stone was put down by the side to move: it shows in that side's colour (1 for Black, 2
      for White), the recorded captures, all of the other colour, are off the board, counted for
      the mover and listed once each, and nothing else on the board has changed. */
  ghost predicate Recorded(g: GameState, p: Point, r: MoveRecord, g': GameState) {
    && r.player == g.turn && r.point == p && !r.isPass && Distinct(r.captures)
    && p in g.grid && g.grid[p] == 0 && g'.grid.Keys == g.grid.Keys
    && g'.grid[p] == (if g.turn == Black then 1 else 2)
    && (forall q :: q in r.captures ==> q in g.grid && g.grid[q] == if g.turn == Black then 2 else 1)
    && (forall q :: q in g.grid && q != p ==> g'.grid[q] == if q in r.captures then 0 else g.grid[q])
    && g'.blackPrisoners == g.blackPrisoners + (if g.turn == Black then |r.captures| else 0)
    && g'.whitePrisoners == g.whitePrisoners + (if g.turn == White then |r.captures| else 0)
  }

  ghost predicate StonePutDown(g: GameState, p: Point, g': GameState) {
    && |g'.history| == |g.history| + 1 && g'.history[..|g.history|] == g.history
    && Recorded(g, p, g'.history[|g.history|], g')
    && g'.turn == (if g.turn == Black then White else Black)
    && g'.ko == (if |g'.history[|g.history|].captures| == 1 then Some(p) else None)
    && g'.passes == 0 && g'.size == g.size && g'.status == g.status
  }

  /** A play answers with the first check that fails, and then changes nothing; else the side to
      move has put down its stone in the addressed game. */
  ghost predicate PlayOutcome(before: map<string, GameState>, id: string, player: Field, row: int, col: int,
                              response: Response, after: map<string, GameState>) {
    && (response == NotFound <==> id !in before)
    && (response != Replied ==> after == before)
    && (id in before ==>
        var g, p := before[id], Point(row, col);
        var onBoard := 0 <= row < g.size && 0 <= col < g.size;
        && (response == Rejected(BadPlayer) <==> player == Missing || player == Unknown)
        && (response == Rejected(WrongTurn) <==> player == Named(if g.turn == Black then White else Black))
        && (response == Rejected(PointOutside) <==> player == Named(g.turn) && !onBoard)
        && (response == Rejected(Illegal(PointOccupied)) <==>
            player == Named(g.turn) && onBoard && p in g.grid && g.grid[p] != 0)
        && (response == Rejected(Illegal(KoViolation)) <==>
            player == Named(g.turn) && onBoard && p in g.grid && g.grid[p] == 0 && g.ko == Some(p))
        && response !in {Rejected(BadSize), Rejected(Illegal(Accepted)), Rejected(Illegal(OutsideBoard))}
        && (response == Replied ==>
            id in after && after == before[id := after[id]] && StonePutDown(g, p, after[id])))
  }

  lemma StoneIsPutDown(g: GameState, p: Point)
    requires CanPut(g.grid, g.size, ColorOf(g.turn), p)
    ensures StonePutDown(g, p, Stone(g, g.turn, p))
  {
    var color := ColorOf(g.turn);
    CapturedClosed(g.grid, g.size, color, p);
    OneByOneIsAllAtOnce(g.grid[p := color], g.size, Opponent(color), Neighbors(p, g.size));
    var captures := Captures(g.grid, g.size, color, p);
    assert forall q :: q in captures <==> q in SetOf(captures);
    CapturesSize(g.grid, g.size, color, p);
    KoPointIffOneCapture(g.grid, g.size, color, p);
  }

  lemma PlayComesTo(games: map<string, GameState>, id: string, player: Field, row: int, col: int)
    requires id in games ==> IsGrid(games[id].grid, games[id].size)
    ensures var request := Play(player, row, col);
      PlayOutcome(games, id, player, row, col, Answer(games, id, request), Served(games, id, request))
  {
    if id in games && Step(games[id], Play(player, row, col)).Done? {
      StoneIsPutDown(games[id], Point(row, col));
    }
  }

  // ---------------------------------------------------------------- a pass or a resignation

  /** Only an unknown player is refused; a missing one is the side to move. The record names the
      player, the other side is to move, a second pass in a row completes the game. */
  ghost predicate PassOutcome(before: map<string, GameState>, id: string, player: Field,
                              response: Response, after: map<string, GameState>) {
    && (response == NotFound <==> id !in before)
    && (response != Replied ==> after == before)
    && (id in before && player == Unknown ==> response == Rejected(BadPlayer))
    && (id in before && player != Unknown ==>
        var g := before[id];
        var who := if player == Missing then g.turn else player.side;
        && response == Replied
        && after == before[id := GameState(
             g.size, if who == Black then White else Black, g.blackPrisoners, g.whitePrisoners, None,
             g.grid, g.history + [MoveRecord(who, Point(0, 0), [], true)],
             if g.passes >= 1 then Completed else if g.status == Playing then Passed else g.status,
             g.passes + 1)])
  }

  lemma PassComesTo(games: map<string, GameState>, id: string, player: Field)
    ensures PassOutcome(games, id, player, Answer(games, id, Pass(player)), Served(games, id, Pass(player)))
  {
  }

  /** A resignation changes the status and the history, and not even the turn. */
  ghost predicate ResignOutcome(before: map<string, GameState>, id: string, player: Field,
                                response: Response, after: map<string, GameState>) {
    && (response == NotFound <==> id !in before)
    && (response != Replied ==> after == before)
    && (id in before && player == Unknown ==> response == Rejected(BadPlayer))
    && (id in before && player != Unknown ==>
        var g := before[id];
        var who := if player == Missing then g.turn else player.side;
        && response == Replied
        && after == before[id := GameState(
             g.size, g.turn, g.blackPrisoners, g.whitePrisoners, g.ko,
             g.grid, g.history + [MoveRecord(who, Point(0, 0), [], false)], Resigned, g.passes)])
  }

  lemma ResignComesTo(games: map<string, GameState>, id: string, player: Field)
    ensures ResignOutcome(games, id, player, Answer(games, id, Resign(player)), Served(games, id, Resign(player)))
  {
  }

  // ---------------------------------------------------------------- a new game

  /** A game nobody has played in: an empty board of that size, Black to move. */
  ghost predicate Untouched(g: GameState, size: nat) {
    && g.size == size && (forall p :: p in g.grid <==> 0 <= p.row < size && 0 <= p.col < size)
    && (forall p :: p in g.grid ==> g.grid[p] == 0)
    && g.turn == Black && g.blackPrisoners == 0 && g.whitePrisoners == 0
    && g.ko == None && g.history == [] && g.status == Playing && g.passes == 0
  }

  /** A new game has the size asked for, if that is between 1 and 19, else 19. */
  lemma NewIsUntouched(requested: int)
    ensures Untouched(NewGame(requested), if 1 <= requested <= 19 then requested else 19)
  {
  }
}
