/** What the move history of a game tells: replayed from the empty board it gives the game back,
    except where a resignation has been recorded as if it were a stone. */
module GoHistory {
  import opened Points
  import opened Regions
  import opened Boards
  import opened GoRules
  import opened GoGame

  ghost predicate NoResign(requests: seq<Request>) {
    forall i :: 0 <= i < |requests| ==> !requests[i].Resign?
  }

  datatype Position = Position(grid: Grid, blackPrisoners: nat, whitePrisoners: nat)

  /** What one record does to a position. */
  ghost function Played(before: Position, size: nat, r: MoveRecord): Position {
    if r.isPass then before
    else
      Position(Place(before.grid, size, ColorOf(r.player), r.point),
               before.blackPrisoners + if r.player == Black then |r.captures| else 0,
               before.whitePrisoners + if r.player == White then |r.captures| else 0)
  }

  /** The position a history describes: its records replayed from the empty board. */
  ghost function Replay(size: nat, history: seq<MoveRecord>): Position {
    if history == [] then Position(EmptyGrid(size), 0, 0)
    else Played(Replay(size, history[..|history| - 1]), size, history[|history| - 1])
  }

  /** The captures that a record makes in a position. */
  ghost function CapturesIn(b: Grid, size: nat, r: MoveRecord): seq<Point> {
    if r.isPass then [] else Captures(b, size, ColorOf(r.player), r.point)
  }

  /** Each record lists the captures its replay makes. */
  ghost predicate CapturesReplay(size: nat, history: seq<MoveRecord>) {
    forall i :: 0 <= i < |history| ==>
      history[i].captures == CapturesIn(Replay(size, history[..i]).grid, size, history[i])
  }

  /** The history replays to the position, and its capture lists are those of the replay. */
  ghost predicate Tells(size: nat, history: seq<MoveRecord>, position: Position) {
    Replay(size, history) == position && CapturesReplay(size, history)
  }

  ghost predicate Replays(g: GameState) {
    Tells(g.size, g.history, PositionOf(g))
  }

  ghost function PositionOf(g: GameState): Position {
    Position(g.grid, g.blackPrisoners, g.whitePrisoners)
  }

  ghost function TrailingPasses(history: seq<MoveRecord>): nat {
    if history == [] || !history[|history| - 1].isPass then 0
    else 1 + TrailingPasses(history[..|history| - 1])
  }

  ghost predicate TwoPasses(history: seq<MoveRecord>) {
    exists i :: 0 <= i < |history| - 1 && history[i].isPass && history[i + 1].isPass
  }

  ghost predicate SomePass(history: seq<MoveRecord>) {
    exists i :: 0 <= i < |history| && history[i].isPass
  }

  /** Passes, turn and status as the history determines them. */
  ghost predicate Books(history: seq<MoveRecord>, passes: nat, turn: Side, status: Status) {
    && passes == TrailingPasses(history)
    && turn == (if history == [] then Black else Other(history[|history| - 1].player))
    && (status == Completed <==> TwoPasses(history))
    && (status == Passed <==> SomePass(history) && !TwoPasses(history))
    && (status == Playing <==> !SomePass(history))
  }

  /** The ko point as the history determines it: that of the last stone, none after a pass. */
  ghost function KoOf(size: nat, history: seq<MoveRecord>): Option<Point> {
    if history == [] || history[|history| - 1].isPass then None
    else
      var front, last := history[..|history| - 1], history[|history| - 1];
      KoPoint(Replay(size, front).grid, Replay(size, history).grid, size, last.point)
  }

  ghost predicate Bookkept(g: GameState) {
    Books(g.history, g.passes, g.turn, g.status) && g.ko == KoOf(g.size, g.history)
  }

  lemma ReplaySnoc(size: nat, history: seq<MoveRecord>, r: MoveRecord)
    ensures Replay(size, history + [r]) == Played(Replay(size, history), size, r)
  {
    assert (history + [r])[..|history|] == history;
  }

  lemma TellsSnoc(size: nat, history: seq<MoveRecord>, position: Position, r: MoveRecord)
    requires Tells(size, history, position) && r.captures == CapturesIn(position.grid, size, r)
    ensures Tells(size, history + [r], Played(position, size, r))
  {
    var h := history + [r];
    ReplaySnoc(size, history, r);
    forall i | 0 <= i < |h|
      ensures h[i].captures == CapturesIn(Replay(size, h[..i]).grid, size, h[i])
    {
      assert h[..i] == history[..i];
      if i == |history| {
        assert history[..i] == history;
      }
    }
  }

  lemma StoneReplays(g: GameState, side: Side, p: Point)
    requires Replays(g)
    ensures Replays(Stone(g, side, p))
  {
    TellsSnoc(g.size, g.history, PositionOf(g), MoveRecord(side, p, Captures(g.grid, g.size, ColorOf(side), p), false));
  }

  lemma PassReplays(g: GameState, side: Side)
    requires Replays(g)
    ensures Replays(After(g, Pass(Named(side))))
  {
    TellsSnoc(g.size, g.history, PositionOf(g), MoveRecord(side, Point(0, 0), [], true));
  }

  lemma StepReplays(g: GameState, request: Request)
    requires Replays(g) && !request.Resign?
    ensures Replays(After(g, request))
  {
    if Step(g, request).Done? {
      match request
      case Play(player, row, col) => StoneReplays(g, player.side, Point(row, col));
      case Pass(player) => PassReplays(g, Resolve(player, g.turn).side);
    }
  }

  lemma SomeSnoc(history: seq<MoveRecord>, r: MoveRecord)
    ensures SomePass(history + [r]) <==> SomePass(history) || r.isPass
  {
    var h, n := history + [r], |history|;
    assert h[n] == r;
    if SomePass(history) {
      var i :| 0 <= i < n && history[i].isPass;
      assert h[i].isPass;
    }
  }

  lemma TwoSnoc(history: seq<MoveRecord>, r: MoveRecord)
    ensures TwoPasses(history + [r]) <==>
      TwoPasses(history) || (r.isPass && history != [] && history[|history| - 1].isPass)
  {
    var h, n := history + [r], |history|;
    assert h[n] == r && forall i :: 0 <= i < n ==> h[i] == history[i];
    if TwoPasses(history) {
      var i :| 0 <= i < n - 1 && history[i].isPass && history[i + 1].isPass;
      assert h[i].isPass && h[i + 1].isPass;
    }
    if r.isPass && n > 0 && history[n - 1].isPass {
      assert h[n - 1].isPass && h[n - 1 + 1].isPass;
    }
  }

  lemma PassesSnoc(history: seq<MoveRecord>, r: MoveRecord)
    ensures TrailingPasses(history + [r]) == if r.isPass then TrailingPasses(history) + 1 else 0
    ensures SomePass(history + [r]) <==> SomePass(history) || r.isPass
    ensures TwoPasses(history + [r]) <==> TwoPasses(history) || (r.isPass && TrailingPasses(history) > 0)
  {
    SomeSnoc(history, r);
    TwoSnoc(history, r);
    assert (history + [r])[..|history|] == history;
  }

  lemma BooksAfterStone(history: seq<MoveRecord>, r: MoveRecord, passes: nat, turn: Side, status: Status)
    requires Books(history, passes, turn, status) && !r.isPass
    ensures Books(history + [r], 0, Other(r.player), status)
  {
    PassesSnoc(history, r);
  }

  lemma BooksAfterPass(history: seq<MoveRecord>, r: MoveRecord, passes: nat, turn: Side, status: Status)
    requires Books(history, passes, turn, status) && r.isPass
    ensures Books(history + [r], passes + 1, Other(r.player), PassStatus(passes + 1, status))
  {
    PassesSnoc(history, r);
    TrailingIsSome(history);
  }

  lemma StoneBookkeeps(g: GameState, side: Side, p: Point)
    requires Replays(g) && Bookkept(g)
    ensures Bookkept(Stone(g, side, p))
  {
    var r := MoveRecord(side, p, Captures(g.grid, g.size, ColorOf(side), p), false);
    BooksAfterStone(g.history, r, g.passes, g.turn, g.status);
    ReplaySnoc(g.size, g.history, r);
    assert (g.history + [r])[..|g.history|] == g.history;
  }

  lemma PassBookkeeps(g: GameState, side: Side)
    requires Bookkept(g)
    ensures Bookkept(After(g, Pass(Named(side))))
  {
    BooksAfterPass(g.history, MoveRecord(side, Point(0, 0), [], true), g.passes, g.turn, g.status);
  }

  lemma StepBookkeeps(g: GameState, request: Request)
    requires Replays(g) && Bookkept(g) && !request.Resign?
    ensures Bookkept(After(g, request))
  {
    if Step(g, request).Done? {
      match request
      case Play(player, row, col) => StoneBookkeeps(g, player.side, Point(row, col));
      case Pass(player) => PassBookkeeps(g, Resolve(player, g.turn).side);
    }
  }

  lemma TrailingIsSome(history: seq<MoveRecord>)
    ensures TrailingPasses(history) > 0 ==> SomePass(history)
    ensures TrailingPasses(history) > 1 ==> TwoPasses(history)
  {
    var n := |history|;
    if TrailingPasses(history) > 0 {
      assert history[n - 1].isPass;
      var front := history[..n - 1];
      if TrailingPasses(front) > 0 {
        assert front[n - 2].isPass && front[n - 2] == history[n - 2];
        assert history[n - 2].isPass && history[n - 2 + 1].isPass;
      }
    }
  }

  /** In every run of stones and passes the history tells the whole game: replaying it gives
      the board, each capture list and both prisoner counts, and it determines the pass count,
      the side to move and the status. */
  lemma {:induction false} HistoryTellsTheGame(requested: int, requests: seq<Request>)
    requires NoResign(requests)
    ensures Replays(Run(NewGame(requested), requests)) && Bookkept(Run(NewGame(requested), requests))
  {
    if requests != [] {
      var front, last := requests[..|requests| - 1], requests[|requests| - 1];
      HistoryTellsTheGame(requested, front);
      StepReplays(Run(NewGame(requested), front), last);
      StepBookkeeps(Run(NewGame(requested), front), last);
    }
  }

  /** A stone that opens a history is Black's, any other is by the opponent of the player before. */
  ghost predicate StonesAlternate(history: seq<MoveRecord>) {
    && (history != [] && !history[0].isPass ==> history[0].player == Black)
    && (forall i :: 0 < i < |history| && !history[i].isPass ==> history[i].player != history[i - 1].player)
  }

  lemma AlternateSnoc(history: seq<MoveRecord>, r: MoveRecord)
    requires StonesAlternate(history)
    requires r.isPass || r.player == if history == [] then Black else Other(history[|history| - 1].player)
    ensures StonesAlternate(history + [r])
  {
  }

  lemma StepInTurn(g: GameState, request: Request)
    requires StonesAlternate(g.history) && !request.Resign?
    requires g.turn == if g.history == [] then Black else Other(g.history[|g.history| - 1].player)
    ensures StonesAlternate(After(g, request).history)
  {
    if Step(g, request).Done? {
      AlternateSnoc(g.history, After(g, request).history[|g.history|]);
    }
  }

  /** The sides take turns: in every run of stones and passes, the first stone of the record is
      Black's if nothing comes before it, and every other one was put down by the opponent of
      whoever passed or played before. */
  lemma {:induction false} EveryStoneInTurn(requested: int, requests: seq<Request>)
    requires NoResign(requests)
    ensures StonesAlternate(Run(NewGame(requested), requests).history)
  {
    if requests != [] {
      var front, last := requests[..|requests| - 1], requests[|requests| - 1];
      EveryStoneInTurn(requested, front);
      HistoryTellsTheGame(requested, front);
      StepInTurn(Run(NewGame(requested), front), last);
    }
  }

  lemma SameStatus(history: seq<MoveRecord>, passes: nat, turn: Side, status: Status,
                   passes': nat, turn': Side, status': Status)
    requires Books(history, passes, turn, status) && Books(history, passes', turn', status')
    ensures passes == passes' && turn == turn' && status == status'
  {
  }

  lemma SameBooks(g: GameState, g': GameState)
    requires Replays(g) && Bookkept(g) && Replays(g') && Bookkept(g')
    requires g.size == g'.size && g.history == g'.history
    ensures g == g'
  {
    SameStatus(g.history, g.passes, g.turn, g.status, g'.passes, g'.turn, g'.status);
  }

  /** So two such runs on boards of one size that leave the same history leave the same game. */
  lemma HistoryDeterminesTheGame(requested: int, requests: seq<Request>, requested': int, requests': seq<Request>)
    requires NoResign(requests) && NoResign(requests')
    ensures var g, g' := Run(NewGame(requested), requests), Run(NewGame(requested'), requests');
      g.size == g'.size && g.history == g'.history ==> g == g'
  {
    var g, g' := Run(NewGame(requested), requests), Run(NewGame(requested'), requests');
    HistoryTellsTheGame(requested, requests);
    HistoryTellsTheGame(requested', requests');
    if g.size == g'.size && g.history == g'.history {
      SameBooks(g, g');
    }
  }

  // ---------------------------------------------------------------- resignation

  lemma NothingDies(b: Grid, size: nat, color: int, p: Point)
    requires AllAlive(b) && p in b && b[p] == color && IsColor(color)
    ensures Place(b, size, color, p) == b
  {
    assert b[p := color] == b;
    assert Captured(b, size, color, p) == {};
  }

  lemma NothingCaptured(b: Grid, size: nat, color: int, p: Point)
    requires IsGrid(b, size) && AllAlive(b) && p in b && b[p] == color && IsColor(color)
    ensures Captures(b, size, color, p) == []
  {
    assert b[p := color] == b;
    OneByOneIsAllAtOnce(b, size, Opponent(color), Neighbors(p, size));
    assert DeadAt(b, Opponent(color), Neighbors(p, size)) == {};
    DistinctSize(Captures(b, size, color, p));
  }

  const CORNER := Point(0, 0)

  /** The side has a stone on the first point. */
  ghost predicate HoldsCorner(g: GameState, side: Side) {
    CORNER in g.grid && g.grid[CORNER] == ColorOf(side)
  }

  /** The record of a resignation. */
  function ResignRecord(side: Side): MoveRecord {
    MoveRecord(side, CORNER, [], false)
  }

  lemma CornerRecord(size: nat, history: seq<MoveRecord>, position: Position, side: Side)
    requires Tells(size, history, position)
    requires IsGrid(position.grid, size) && AllAlive(position.grid) && CORNER in position.grid
    ensures var h := history + [ResignRecord(side)];
      var holds := position.grid[CORNER] == ColorOf(side);
      && (Tells(size, h, position) <==> holds)
      && (Replay(size, h).grid == position.grid <==> holds)
  {
    ReplaySnoc(size, history, ResignRecord(side));
    PlacedColor(position.grid, size, ColorOf(side), CORNER);
    if position.grid[CORNER] == ColorOf(side) {
      NothingDies(position.grid, size, ColorOf(side), CORNER);
      NothingCaptured(position.grid, size, ColorOf(side), CORNER);
      TellsSnoc(size, history, position, ResignRecord(side));
    }
  }

  lemma ResignRecorded(g: GameState, side: Side)
    ensures After(g, Resign(Named(side))) == g.(status := Resigned, history := g.history + [ResignRecord(side)])
  {
  }

  lemma ResignStepReplays(g: GameState, side: Side)
    requires Sound(g) && Replays(g) && CORNER in g.grid
    ensures Replays(After(g, Resign(Named(side)))) <==> HoldsCorner(g, side)
    ensures Replay(g.size, After(g, Resign(Named(side))).history).grid == g.grid <==> HoldsCorner(g, side)
  {
    CornerRecord(g.size, g.history, PositionOf(g), side);
    ResignRecorded(g, side);
  }

  /** Every resignation of the run is made while the side that resigns holds the first point. */
  ghost predicate ResignsOnCorner(g: GameState, requests: seq<Request>) {
    if requests == [] then true
    else
      var front, last := requests[..|requests| - 1], requests[|requests| - 1];
      && ResignsOnCorner(g, front)
      && (last.Resign? && last.player != Unknown ==>
        HoldsCorner(Run(g, front), Resolve(last.player, Run(g, front).turn).side))
  }

  /** At every moment of the run the history replays to the board, captures and counters. */
  ghost predicate AlwaysReplays(g: GameState, requests: seq<Request>) {
    Replays(Run(g, requests)) && (requests == [] || AlwaysReplays(g, requests[..|requests| - 1]))
  }

  lemma LastReplays(g: GameState, last: Request)
    requires Sound(g) && Replays(g) && CORNER in g.grid
    ensures Replays(After(g, last)) <==>
      (last.Resign? && last.player != Unknown ==> HoldsCorner(g, Resolve(last.player, g.turn).side))
  {
    if last.Resign? && last.player != Unknown {
      var side := Resolve(last.player, g.turn).side;
      ResignStepReplays(g, side);
      assert After(g, last) == After(g, Resign(Named(side)));
    } else if !last.Resign? {
      StepReplays(g, last);
    }
  }

  /** A resignation is recorded like a stone at the first point with no captures. So over any
      run the history replays to the game at every moment exactly when each resignation is made
      by a side that already has a stone there. */
  lemma {:induction false} HistoryReplaysIff(requested: int, requests: seq<Request>)
    ensures AlwaysReplays(NewGame(requested), requests) <==> ResignsOnCorner(NewGame(requested), requests)
  {
    var start := NewGame(requested);
    if requests != [] {
      var front, last := requests[..|requests| - 1], requests[|requests| - 1];
      HistoryReplaysIff(requested, front);
      EveryRunIsSound(requested, front);
      RunKeepsSize(requested, front);
      if AlwaysReplays(start, front) {
        LastReplays(Run(start, front), last);
      }
    }
  }

  /** After a run whose history has replayed so far, it goes on doing so over a resignation
      exactly when the side that resigns holds the first point. */
  lemma ResignReplaysIff(requested: int, requests: seq<Request>, player: Field)
    requires ResignsOnCorner(NewGame(requested), requests) && player != Unknown
    ensures var g := Run(NewGame(requested), requests);
      var g' := After(g, Resign(player));
      Replay(g'.size, g'.history).grid == g'.grid <==> HoldsCorner(g, Resolve(player, g.turn).side)
  {
    HistoryReplaysIff(requested, requests);
    EveryRunIsSound(requested, requests);
    RunKeepsSize(requested, requests);
    ResignStepReplays(Run(NewGame(requested), requests), Resolve(player, Run(NewGame(requested), requests).turn).side);
  }

  lemma PlayedTwice(position: Position, size: nat, side: Side, r: MoveRecord)
    requires r.player == side && r.point == CORNER && !r.isPass && CORNER in position.grid
    requires AllAlive(Place(position.grid, size, ColorOf(side), CORNER))
    ensures Played(Played(position, size, ResignRecord(side)), size, r) == Played(position, size, r)
  {
    var b1 := Place(position.grid, size, ColorOf(side), CORNER);
    PlacedColor(position.grid, size, ColorOf(side), CORNER);
    NothingDies(b1, size, ColorOf(side), CORNER);
    assert Played(position, size, ResignRecord(side)) == position.(grid := b1);
  }

  /** A resignation and a stone of the same side on the first point replay like the stone alone. */
  lemma CornerTwice(size: nat, history: seq<MoveRecord>, side: Side, r: MoveRecord)
    requires r.player == side && r.point == CORNER && !r.isPass
    requires var b := Replay(size, history).grid;
      CORNER in b && AllAlive(Place(b, size, ColorOf(side), CORNER))
    ensures Replay(size, history + [ResignRecord(side)] + [r]) == Replay(size, history + [r])
  {
    ReplaySnoc(size, history, ResignRecord(side));
    ReplaySnoc(size, history + [ResignRecord(side)], r);
    ReplaySnoc(size, history, r);
    PlayedTwice(Replay(size, history), size, side, r);
  }

  lemma ResignThenPlay(g: GameState, side: Side, r: MoveRecord)
    requires Step(g, Play(Named(side), 0, 0)).Done? && Stone(g, side, CORNER).history == g.history + [r]
    ensures After(After(g, Resign(Named(side))), Play(Named(side), 0, 0)) ==
      Stone(g, side, CORNER).(status := Resigned, history := g.history + [ResignRecord(side)] + [r])
  {
    var resigned := g.(status := Resigned, history := g.history + [ResignRecord(side)]);
    ResignRecorded(g, side);
    assert After(resigned, Play(Named(side), 0, 0)) == Stone(resigned, side, CORNER);
    assert Stone(g, side, CORNER).history[|g.history|] == r;
  }

  /** When the side to move resigns without that stone and then plays it after all, board and
      counters replay again. */
  lemma PlayingTheCornerRestores(g: GameState, side: Side)
    requires Sound(g) && Replays(g) && Step(g, Play(Named(side), 0, 0)).Done?
    ensures var after := After(After(g, Resign(Named(side))), Play(Named(side), 0, 0));
      Replay(g.size, after.history) == PositionOf(after)
  {
    var r := MoveRecord(side, CORNER, Captures(g.grid, g.size, ColorOf(side), CORNER), false);
    AcceptedMoveKeepsLiberties(g.grid, g.size, ColorOf(side), CORNER, g.ko);
    CornerTwice(g.size, g.history, side, r);
    StoneReplays(g, side, CORNER);
    var stone := Stone(g, side, CORNER);
    assert Replays(stone) && Replay(g.size, g.history + [r]) == PositionOf(stone);
    ResignThenPlay(g, side, r);
    var after := After(After(g, Resign(Named(side))), Play(Named(side), 0, 0));
    assert PositionOf(after) == PositionOf(stone);
    assert after.history == g.history + [ResignRecord(side)] + [r];
  }

  /** Two different games can have the same history: on every board of at least 2 x 2 points,
      Black resigning at once and Black playing the first point. */
  lemma HistoryIsAmbiguous(requested: int)
    requires BoardSize(requested) >= 2
    ensures var start := NewGame(requested);
      var g1 := Run(start, [Resign(Named(Black))]);
      var g2 := Run(start, [Play(Named(Black), 0, 0)]);
      g1.history == g2.history && g1.grid != g2.grid
  {
    var start, p := NewGame(requested), Point(0, 0);
    NewGameIsSound(requested);
    var b, size := start.grid, start.size;
    var b1 := b[p := BLACK];
    assert Captured(b, size, BLACK, p) == {};
    assert Place(b, size, BLACK, p) == b1;
    GroupOf(b1, p);
    assert Point(0, 1) in Liberties(b1, Group(b1, p));
    assert Captures(b, size, BLACK, p) == [] by {
      CapturesSize(b, size, BLACK, p);
    }
    var resign, play := [Resign(Named(Black))], [Play(Named(Black), 0, 0)];
    assert resign[..0] == [] && play[..0] == [];
    assert Run(start, resign) == After(start, resign[0]);
    assert Run(start, play) == After(start, play[0]);
    assert b1[p] == BLACK && b[p] == EMPTY;
  }
}
