/** The handlers of the game endpoints: each gets a copy of the game, works on the copy and
    stores it back. */
module GoHandlers {
  import opened Points
  import opened Boards
  import opened GoEngine
  import opened GoScoring
  import opened GoGame
  import opened GoOutcomes
  import opened Games
  import opened GameStore

  /** What a stone does to a board: the new board, the captures and the ko point. */
  method StoneEffect(board: array2<int>, color: int, row: int, col: int)
    returns (newBoard: array2<int>, captures: seq<Point>, koPoint: Option<Point>)
    requires IsBoard(board) && IsColor(color) && InBounds(row, col, board.Length0)
    ensures fresh(newBoard) && IsBoard(newBoard) && newBoard.Length0 == board.Length0
    ensures GridOf(newBoard) == Place(GridOf(board), board.Length0, color, Point(row, col))
    ensures captures == Captures(GridOf(board), board.Length0, color, Point(row, col))
    ensures koPoint == KoPoint(GridOf(board), GridOf(newBoard), board.Length0, Point(row, col))
  {
    var prevBoard := DeepCopyBoard(board);
    newBoard, captures := PlaceStone(board, color, row, col);
    koPoint := GetKoPoint(prevBoard, newBoard, Point(row, col));
  }

  /** Replaces the board, credits the captures and sets the ko point. */
  method SetPosition(game: Game, side: Side, newBoard: array2<int>, captured: nat, ko: Option<Point>)
    requires game.Valid() && IsBoard(newBoard) && newBoard.Length0 == game.boardSize
    modifies game
    ensures game.Valid() && game.id == old(game.id) && fresh(game.Repr - old(game.Repr) - {newBoard})
    ensures game.state == old(game.state).(
      grid := GridOf(newBoard), ko := ko,
      blackPrisoners := old(game.state).blackPrisoners + (if side == Side.Black then captured else 0),
      whitePrisoners := old(game.state).whitePrisoners + (if side == Side.White then captured else 0))
  {
    game.SetBoard(newBoard);
    game.Credit(side, captured);
    game.SetKo(ko);
  }

  /** Records the stone, resets the passes and passes the turn. */
  method RecordStone(game: Game, side: Side, p: Point, captures: seq<Point>)
    requires game.Valid()
    modifies game.Repr
    ensures game.Valid() && game.id == old(game.id) && fresh(game.Repr - old(game.Repr))
    ensures game.state == old(game.state).(
      history := old(game.state).history + [MoveRecord(side, p, captures, false)], passes := 0, turn := Other(side))
  {
    game.Append(side, p, captures, false);
    game.SetPasses(0);
    game.SetTurn(Other(side));
  }

  /** Carries out a validated stone. */
  method PutOn(game: Game, side: Side, row: int, col: int)
    requires game.Valid() && InBounds(row, col, game.boardSize)
    modifies game.Repr
    ensures game.Valid() && game.id == old(game.id) && fresh(game.Repr - old(game.Repr))
    ensures game.state == Stone(old(game.state), side, Point(row, col))
  {
    var newBoard, captures, koPoint := StoneEffect(game.board, ColorOf(side), row, col);
    SetPosition(game, side, newBoard, |captures|, koPoint);
    RecordStone(game, side, Point(row, col), captures);
  }

  /** What working on a copy came to: the step's game on it, or the step's error. */
  ghost predicate Worked(before: GameState, request: Request, error: Option<Error>, after: GameState) {
    match Step(before, request)
    case Done(g) => error == None && after == g
    case Refused(e) => error == Some(e)
  }

  /** Plays a stone on a private game if the turn, the point and the rules allow it. */
  method PlayOn(game: Game, player: Field, row: int, col: int) returns (error: Option<Error>)
    requires game.Valid()
    modifies game.Repr
    ensures game.Valid() && game.id == old(game.id) && fresh(game.Repr - old(game.Repr))
    ensures Worked(old(game.state), Play(player, row, col), error, game.state)
    ensures error.Some? ==> game.state == old(game.state)
    ensures error == Some(WrongTurn) <==> player.Named? && player.side != old(game.state).turn
  {
    if !player.Named? {
      return Some(BadPlayer);
    }
    if player.side != game.currentTurn {
      return Some(WrongTurn);
    }
    if !InBounds(row, col, game.boardSize) {
      return Some(PointOutside);
    }
    var color := ColorOf(player.side);
    var ko := if game.koPoint == null then None else Some(game.koPoint.point);
    var verdict := ValidateMove(game.board, color, row, col, ko);
    if verdict != Accepted {
      return Some(Illegal(verdict));
    }
    PutOn(game, player.side, row, col);
    return None;
  }

  /** Passes on a private game; the named player need not be the one to move. */
  method PassOn(game: Game, player: Field) returns (error: Option<Error>)
    requires game.Valid()
    modifies game.Repr
    ensures game.Valid() && game.id == old(game.id) && fresh(game.Repr - old(game.Repr))
    ensures Worked(old(game.state), Pass(player), error, game.state)
    ensures error.Some? ==> game.state == old(game.state)
  {
    var who := player;
    if who == Missing {
      who := Named(game.currentTurn);
    }
    if !who.Named? {
      return Some(BadPlayer);
    }
    game.SetPasses(game.passes + 1);
    game.Append(who.side, Point(0, 0), [], true);
    if game.passes >= 2 {
      game.SetStatus(Completed);
    } else if game.status == Playing {
      game.SetStatus(Passed);
    }
    game.SetKo(None);
    game.SetTurn(Other(who.side));
    return None;
  }

  /** Resigns a private game. */
  method ResignOn(game: Game, player: Field) returns (error: Option<Error>, resigned: Side)
    requires game.Valid()
    modifies game.Repr
    ensures game.Valid() && game.id == old(game.id) && fresh(game.Repr - old(game.Repr))
    ensures Worked(old(game.state), Resign(player), error, game.state)
    ensures error.Some? ==> game.state == old(game.state)
    ensures error == None ==> Named(resigned) == Resolve(player, old(game.state).turn)
  {
    var who := if player == Missing then Named(game.currentTurn) else player;
    resigned := Side.Black;
    if !who.Named? {
      return Some(BadPlayer), resigned;
    }
    resigned := who.side;
    game.SetStatus(Resigned);
    game.Append(resigned, Point(0, 0), [], false);
    return None, resigned;
  }

  /** The handlers' last phase: an error is reported, or the worked copy becomes the stored game. */
  method Save(gameStore: MemoryGameStore, game: Game, error: Option<Error>,
              ghost before: map<GameId, GameState>, ghost id: GameId, ghost request: Request)
    returns (response: Response)
    requires gameStore.Valid() && gameStore.View() == before
    requires game.Valid() && gameStore.Apart(game) && game.id == id && id in before
    requires Worked(before[id], request, error, game.state)
    modifies gameStore
    ensures gameStore.Valid() && gameStore.View() == Served(before, id, request)
    ensures response == Answer(before, id, request)
  {
    if error.Some? {
      return Rejected(error.value);
    }
    var _ := gameStore.UpdateGame(game);
    return Replied;
  }

  /** Creates a game of one of the three sizes on offer; Black begins. */
  method CreateGame(gameStore: MemoryGameStore, boardSize: int, generatedId: GameId) returns (response: Response)
    requires gameStore.Valid()
    modifies gameStore
    ensures gameStore.Valid()
    ensures response == if boardSize in {9, 13, 19} then Replied else Rejected(BadSize)
    ensures gameStore.View() == if response == Replied
      then old(gameStore.View())[generatedId := NewGame(boardSize)] else old(gameStore.View())
    ensures response == Replied ==> Untouched(gameStore.View()[generatedId], boardSize)
  {
    NewIsUntouched(boardSize);
    if boardSize != 9 && boardSize != 13 && boardSize != 19 {
      return Rejected(BadSize);
    }
    var _ := gameStore.CreateGame(boardSize, None, generatedId);
    return Replied;
  }

  method PlayMove(gameStore: MemoryGameStore, id: GameId, player: Field, row: int, col: int)
    returns (response: Response)
    requires gameStore.Valid()
    modifies gameStore
    ensures gameStore.Valid()
    ensures gameStore.View() == Served(old(gameStore.View()), id, Play(player, row, col))
    ensures response == Answer(old(gameStore.View()), id, Play(player, row, col))
    ensures PlayOutcome(old(gameStore.View()), id, player, row, col, response, gameStore.View())
  {
    ghost var before := gameStore.View();
    gameStore.ViewIsGrids();
    PlayComesTo(before, id, player, row, col);
    var game := gameStore.GetGame(id);
    if game == null {
      return NotFound;
    }
    var error := PlayOn(game, player, row, col);
    gameStore.Undisturbed();
    response := Save(gameStore, game, error, before, id, Play(player, row, col));
  }

  method PassMove(gameStore: MemoryGameStore, id: GameId, player: Field) returns (response: Response)
    requires gameStore.Valid()
    modifies gameStore
    ensures gameStore.Valid()
    ensures gameStore.View() == Served(old(gameStore.View()), id, Pass(player))
    ensures response == Answer(old(gameStore.View()), id, Pass(player))
    ensures PassOutcome(old(gameStore.View()), id, player, response, gameStore.View())
  {
    ghost var before := gameStore.View();
    PassComesTo(before, id, player);
    var game := gameStore.GetGame(id);
    if game == null {
      return NotFound;
    }
    var error := PassOn(game, player);
    gameStore.Undisturbed();
    response := Save(gameStore, game, error, before, id, Pass(player));
  }

  method ResignStored(gameStore: MemoryGameStore, id: GameId, player: Field)
    returns (response: Response, resigned: Side)
    requires gameStore.Valid()
    modifies gameStore
    ensures gameStore.Valid()
    ensures gameStore.View() == Served(old(gameStore.View()), id, Resign(player))
    ensures response == Answer(old(gameStore.View()), id, Resign(player))
    ensures ResignOutcome(old(gameStore.View()), id, player, response, gameStore.View())
    ensures response == Replied ==>
      resigned == if player == Missing then old(gameStore.View())[id].turn else player.side
  {
    ResignComesTo(gameStore.View(), id, player);
    ghost var before := gameStore.View();
    var game := gameStore.GetGame(id);
    if game == null {
      return NotFound, Side.Black;
    }
    var error;
    error, resigned := ResignOn(game, player);
    gameStore.Undisturbed();
    response := Save(gameStore, game, error, before, id, Resign(player));
  }

  /** The reported winner is the side that resigned, not its opponent. */
  method ResignGame(gameStore: MemoryGameStore, id: GameId, player: Field)
    returns (response: Response, resigned: Side, winner: Side)
    requires gameStore.Valid()
    modifies gameStore
    ensures gameStore.Valid()
    ensures gameStore.View() == Served(old(gameStore.View()), id, Resign(player))
    ensures response == Answer(old(gameStore.View()), id, Resign(player))
    ensures ResignOutcome(old(gameStore.View()), id, player, response, gameStore.View())
    ensures response == Replied ==>
      winner == resigned == if player == Missing then old(gameStore.View())[id].turn else player.side
  {
    winner := Side.White;
    response, resigned := ResignStored(gameStore, id, player);
    if resigned == Side.Black {
      winner := Side.Black;
    }
  }

  method GetScore(gameStore: MemoryGameStore, id: GameId) returns (score: Option<ScoreResult>)
    requires gameStore.Valid()
    ensures score.Some? <==> id in gameStore.View()
    ensures score.Some? ==> Scores(gameStore.View()[id], score.value)
  {
    var game := gameStore.GetGame(id);
    if game == null {
      return None;
    }
    var result := CalculateScore(game.board, game.blackPrisoners, game.whitePrisoners);
    return Some(result);
  }

  /** The reported score of a game: totals, komi and margin in half points; White wins unless
      Black is ahead by 7 points or more before komi, the prisoners credited as the code does. */
  ghost predicate Scores(g: GameState, score: ScoreResult) {
    && score.blackTerritory == |Territory(g.grid, BLACK)| && score.whiteTerritory == |Territory(g.grid, WHITE)|
    && score.blackPrisoners == g.blackPrisoners && score.whitePrisoners == g.whitePrisoners && score.komi2 == 13
    && score.blackTotal2 == 2 * (score.blackTerritory + g.whitePrisoners)
    && score.whiteTotal2 == 2 * (score.whiteTerritory + g.blackPrisoners) + 13
    && var lead := (score.blackTerritory + g.whitePrisoners) - (score.whiteTerritory + g.blackPrisoners);
      && score.winner == (if lead >= 7 then BlackWins else WhiteWins)
      && score.margin2 == (if lead >= 7 then 2 * lead - 13 else 13 - 2 * lead)
  }
}
