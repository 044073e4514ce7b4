/** The rules engine on mutable boards. Every method is proved against the board values of
    module Boards; removal rewrites the board while it searches it. */
module GoEngine {
  import opened Points
  import opened Regions
  import opened Boards
  import opened GoRules

  ghost predicate IsBoard(board: array2<int>)
    reads board
  {
    && board.Length0 == board.Length1
    && forall r, c :: 0 <= r < board.Length0 && 0 <= c < board.Length1 ==> 0 <= board[r, c] <= 2
  }

  /** The position an array holds. */
  ghost function GridOf(board: array2<int>): (b: Grid)
    requires IsBoard(board)
    reads board
    ensures IsGrid(b, board.Length0)
  {
    map p | p in AllPoints(board.Length0) :: board[p.row, p.col]
  }

  /** The points at those offsets that lie on the board, in order. */
  method PointsAt(row: int, col: int, size: nat, deltas: seq<(int, int)>) returns (result: seq<Point>)
    ensures result == Shifted(Point(row, col), size, deltas)
  {
    result := [];
    ghost var p := Point(row, col);
    for i := 0 to |deltas|
      invariant result + Shifted(p, size, deltas[i..]) == Shifted(p, size, deltas)
    {
      var r, c := row + deltas[i].0, col + deltas[i].1;
      assert deltas[i..] == [deltas[i]] + deltas[i + 1..];
      ShiftedFirst(p, size, deltas[i], deltas[i + 1..]);
      if InBounds(r, c, size) {
        result := result + [Point(r, c)];
      }
    }
  }

  method NeighborList(row: int, col: int, size: nat) returns (result: seq<Point>)
    ensures result == Neighbors(Point(row, col), size)
  {
    result := PointsAt(row, col, size, DELTAS);
  }

  method DeepCopyBoard(board: array2<int>) returns (copy: array2<int>)
    requires IsBoard(board)
    ensures fresh(copy) && IsBoard(copy) && copy.Length0 == board.Length0
    ensures GridOf(copy) == GridOf(board)
  {
    var size := board.Length0;
    copy := new int[size, size];
    for i := 0 to size
      invariant forall r, c :: 0 <= r < i && 0 <= c < size ==> copy[r, c] == board[r, c]
    {
      for j := 0 to size
        invariant forall r, c :: 0 <= r < i && 0 <= c < size ==> copy[r, c] == board[r, c]
        invariant forall c :: 0 <= c < j ==> copy[i, c] == board[i, c]
      {
        copy[i, j] := board[i, j];
      }
    }
  }

  // ---------------------------------------------------------------- the flood fills

  /** `base` and the empty points among the first i of a list. */
  ghost function WithEmpty(base: set<Point>, b: Grid, points: seq<Point>, i: nat): set<Point>
    requires i <= |points|
  {
    if i == 0 then base
    else if points[i - 1] in b && b[points[i - 1]] == EMPTY then WithEmpty(base, b, points, i - 1) + {points[i - 1]}
    else WithEmpty(base, b, points, i - 1)
  }

  lemma {:induction false} WithEmptySpec(base: set<Point>, b: Grid, points: seq<Point>, i: nat)
    requires i <= |points|
    ensures forall q :: q in WithEmpty(base, b, points, i) <==>
      q in base || (q in points[..i] && q in b && b[q] == EMPTY)
  {
    if i > 0 {
      WithEmptySpec(base, b, points, i - 1);
      assert points[..i] == points[..i - 1] + [points[i - 1]];
    }
  }

  /** The empty points next to a list of points, gathered point by point. */
  ghost function Border(b: Grid, size: nat, done: seq<Point>): set<Point> {
    if done == [] then {}
    else
      var nbs := Neighbors(done[|done| - 1], size);
      WithEmpty(Border(b, size, done[..|done| - 1]), b, nbs, |nbs|)
  }

  lemma BorderSnoc(b: Grid, size: nat, done: seq<Point>, p: Point)
    ensures var nbs := Neighbors(p, size);
      Border(b, size, done + [p]) == WithEmpty(Border(b, size, done), b, nbs, |nbs|)
  {
  }

  lemma {:induction false} BorderIsLiberties(b: Grid, size: nat, done: seq<Point>)
    requires IsGrid(b, size)
    ensures Border(b, size, done) == Liberties(b, SetOf(done))
  {
    if done != [] {
      var front, p := done[..|done| - 1], done[|done| - 1];
      assert done == front + [p];
      var nbs := Neighbors(p, size);
      BorderIsLiberties(b, size, front);
      NeighborsAreAdjacent(p, size);
      WithEmptySpec(Border(b, size, front), b, nbs, |nbs|);
      assert nbs[..|nbs|] == nbs;
      SetOfSnoc(front, p);
    }
  }

  /** The number of distinct empty points that border the group of a stone; 0 off the board
      and on an empty point. */
  ghost function LibertyCount(b: Grid, p: Point): nat {
    if p !in b || b[p] == EMPTY then 0 else |Liberties(b, Group(b, p))|
  }

  lemma BorderOfGroup(b: Grid, size: nat, p: Point)
    requires IsGrid(b, size) && p in b && b[p] != EMPTY
    ensures |Border(b, size, GroupSeq(b, size, p))| == LibertyCount(b, p)
  {
    GroupSeqIsGroup(b, size, p);
    BorderIsLiberties(b, size, GroupSeq(b, size, p));
  }

  /** Away from the visited points, the searched cells are those of one colour. */
  ghost predicate Shows(board: array2<int>, color: int, cells: set<Point>, visited: set<Point>)
    reads board
  {
    && board.Length0 == board.Length1
    && forall q :: On(q, board.Length0) && q !in visited ==> (board[q.row, q.col] == color <==> q in cells)
  }

  ghost predicate Marked(queue: seq<Point>, visited: set<Point>) {
    forall i :: 0 <= i < |queue| ==> queue[i] in visited
  }

  /** One expansion: marks and enqueues the unvisited neighbours of the searched colour. */
  method Visit(board: array2<int>, color: int, current: Point, visited0: set<Point>, queue0: seq<Point>,
               ghost cells: set<Point>)
    returns (visited: set<Point>, queue: seq<Point>)
    requires Shows(board, color, cells, visited0)
    ensures Shows(board, color, cells, visited)
    ensures Marked(queue0, visited0) ==> Marked(queue, visited)
    ensures Search(board.Length0, cells, visited, queue, []) ==
      Search(board.Length0, cells, visited0, queue0, Neighbors(current, board.Length0))
  {
    var size := board.Length0;
    visited, queue := visited0, queue0;
    var nbs := NeighborList(current.row, current.col, size);
    NeighborsAreAdjacent(current, size);
    ghost var todo := Search(size, cells, visited, queue, nbs);
    assert nbs[0..] == nbs;
    for i := 0 to |nbs|
      invariant visited0 <= visited
      invariant Marked(queue0, visited0) ==> Marked(queue, visited)
      invariant todo == Search(size, cells, visited, queue, nbs[i..])
    {
      var nb := nbs[i];
      assert nb in nbs;
      SearchStep(size, cells, visited, queue, nbs, i);
      if board[nb.row, nb.col] == color && nb !in visited {
        visited := visited + {nb};
        queue := queue + [nb];
      }
    }
    assert nbs[|nbs|..] == [];
  }

  /** The same expansion, which also marks the empty neighbours as liberties. */
  method VisitWithLiberties(board: array2<int>, color: int, current: Point,
                            visited0: set<Point>, queue0: seq<Point>, liberties0: set<Point>, ghost cells: set<Point>)
    returns (visited: set<Point>, queue: seq<Point>, liberties: set<Point>)
    requires IsBoard(board) && Shows(board, color, cells, visited0) && color != EMPTY
    ensures Shows(board, color, cells, visited)
    ensures Search(board.Length0, cells, visited, queue, []) ==
      Search(board.Length0, cells, visited0, queue0, Neighbors(current, board.Length0))
    ensures var nbs := Neighbors(current, board.Length0);
      liberties == WithEmpty(liberties0, GridOf(board), nbs, |nbs|)
  {
    var size := board.Length0;
    visited, queue, liberties := visited0, queue0, liberties0;
    ghost var b := GridOf(board);
    var nbs := NeighborList(current.row, current.col, size);
    NeighborsAreAdjacent(current, size);
    ghost var todo := Search(size, cells, visited, queue, nbs);
    assert nbs[0..] == nbs;
    for i := 0 to |nbs|
      invariant visited0 <= visited
      invariant todo == Search(size, cells, visited, queue, nbs[i..])
      invariant liberties == WithEmpty(liberties0, b, nbs, i)
    {
      var nb := nbs[i];
      assert nb in nbs;
      SearchStep(size, cells, visited, queue, nbs, i);
      if board[nb.row, nb.col] == EMPTY {
        liberties := liberties + {nb};
      } else if board[nb.row, nb.col] == color && nb !in visited {
        visited := visited + {nb};
        queue := queue + [nb];
      }
    }
    assert nbs[|nbs|..] == [];
  }

  method CountLiberties(board: array2<int>, row: int, col: int) returns (count: nat)
    requires IsBoard(board)
    ensures count == LibertyCount(GridOf(board), Point(row, col))
  {
    var size := board.Length0;
    if !InBounds(row, col, size) || board[row, col] == EMPTY {
      return 0;
    }
    var color, start := board[row, col], Point(row, col);
    ghost var b := GridOf(board);
    ghost var cells, done := CellsOf(b, color), [];
    var liberties: set<Point> := {};
    var visited: set<Point> := {start};
    var queue := [start];
    ghost var all := GroupSeq(b, size, start);
    while queue != []
      invariant done + Search(size, cells, visited, queue, []) == all
      invariant Shows(board, color, cells, visited)
      invariant liberties == Border(b, size, done)
      decreases |all| - |done|
    {
      var current := queue[0];
      Dequeue(size, cells, visited, queue, done, all);
      BorderSnoc(b, size, done, current);
      queue, done := queue[1..], done + [current];
      visited, queue, liberties := VisitWithLiberties(board, color, current, visited, queue, liberties, cells);
    }
    assert done == all;
    BorderOfGroup(b, size, start);
    count := |liberties|;
  }

  /** The stones of the group of (row, col), in search order; none off the board or on an
      empty point. */
  method GetGroup(board: array2<int>, row: int, col: int) returns (group: seq<Point>)
    requires IsBoard(board)
    ensures var b, p := GridOf(board), Point(row, col);
      group == if p !in b || b[p] == EMPTY then [] else GroupSeq(b, board.Length0, p)
  {
    var size := board.Length0;
    group := [];
    if !InBounds(row, col, size) || board[row, col] == EMPTY {
      return;
    }
    var color, start := board[row, col], Point(row, col);
    ghost var b := GridOf(board);
    ghost var cells := CellsOf(b, color);
    var visited: set<Point> := {start};
    var queue := [start];
    ghost var all := GroupSeq(b, size, start);
    while queue != []
      invariant group + Search(size, cells, visited, queue, []) == all
      invariant Shows(board, color, cells, visited)
      decreases |all| - |group|
    {
      var current := queue[0];
      Dequeue(size, cells, visited, queue, group, all);
      queue := queue[1..];
      group := group + [current];
      visited, queue := Visit(board, color, current, visited, queue, cells);
    }
  }

  lemma GroupSeqMember(b: Grid, size: nat, p: Point, i: nat)
    requires IsGrid(b, size) && p in b && i < |GroupSeq(b, size, p)|
    ensures GroupSeq(b, size, p)[i] in b
  {
    GroupSeqIsGroup(b, size, p);
    assert GroupSeq(b, size, p)[i] in SetOf(GroupSeq(b, size, p));
  }

  /** A position with the listed points emptied one by one. */
  ghost function ClearSeq(b: Grid, gone: seq<Point>): Grid {
    if gone == [] then b else ClearSeq(b, gone[..|gone| - 1])[gone[|gone| - 1] := EMPTY]
  }

  lemma ClearSeqSnoc(b: Grid, gone: seq<Point>, p: Point)
    ensures ClearSeq(b, gone + [p]) == ClearSeq(b, gone)[p := EMPTY]
  {
  }

  lemma {:induction false} ClearSeqIsClear(b: Grid, gone: seq<Point>)
    requires forall x :: x in gone ==> x in b
    ensures ClearSeq(b, gone) == Clear(b, SetOf(gone))
  {
    if gone != [] {
      var front, p := gone[..|gone| - 1], gone[|gone| - 1];
      assert gone == front + [p];
      ClearSeqIsClear(b, front);
      SetOfSnoc(front, p);
    }
  }

  lemma ClearSeqOfGroup(b: Grid, size: nat, p: Point)
    requires IsGrid(b, size) && p in b
    ensures ClearSeq(b, GroupSeq(b, size, p)) == Clear(b, Group(b, p))
  {
    GroupSeqIsGroup(b, size, p);
    assert forall x :: x in GroupSeq(b, size, p) ==> x in SetOf(GroupSeq(b, size, p));
    ClearSeqIsClear(b, GroupSeq(b, size, p));
  }

  /** Empties a visited point of the board, one more of the points emptied so far. */
  method EmptyPoint(board: array2<int>, p: Point, ghost b: Grid, ghost removed: seq<Point>,
                    ghost color: int, ghost cells: set<Point>, ghost visited: set<Point>)
    requires IsBoard(board) && On(p, board.Length0) && GridOf(board) == ClearSeq(b, removed)
    requires Shows(board, color, cells, visited) && p in visited
    modifies board
    ensures IsBoard(board) && GridOf(board) == ClearSeq(b, removed + [p])
    ensures Shows(board, color, cells, visited)
  {
    board[p.row, p.col] := EMPTY;
    ClearSeqSnoc(b, removed, p);
    assert GridOf(board) == old(GridOf(board))[p := EMPTY];
  }

  /** Empties exactly the group of (row, col), and returns the sequence GetGroup gives on the
      old board, although the board changes during the search. */
  method RemoveGroup(board: array2<int>, row: int, col: int, color: int) returns (removed: seq<Point>)
    requires IsBoard(board) && InBounds(row, col, board.Length0)
    requires board[row, col] == color && color != EMPTY
    modifies board
    ensures IsBoard(board)
    ensures removed == GroupSeq(old(GridOf(board)), board.Length0, Point(row, col))
    ensures GridOf(board) == Clear(old(GridOf(board)), Group(old(GridOf(board)), Point(row, col)))
  {
    var size, start := board.Length0, Point(row, col);
    ghost var b := GridOf(board);
    ghost var cells := CellsOf(b, color);
    removed := [];
    var visited: set<Point> := {start};
    var queue := [start];
    ghost var all := GroupSeq(b, size, start);
    while queue != []
      invariant IsBoard(board)
      invariant Shows(board, color, cells, visited) && Marked(queue, visited)
      invariant removed + Search(size, cells, visited, queue, []) == all
      invariant GridOf(board) == ClearSeq(b, removed)
      decreases |all| - |removed|
    {
      var current := queue[0];
      Dequeue(size, cells, visited, queue, removed, all);
      queue := queue[1..];
      GroupSeqMember(b, size, start, |removed|);
      EmptyPoint(board, current, b, removed, color, cells, visited);
      removed := removed + [current];
      visited, queue := Visit(board, color, current, visited, queue, cells);
    }
    assert removed == all;
    ClearSeqOfGroup(b, size, start);
  }

  // ---------------------------------------------------------------- moves

  /** One neighbour of the placed stone: removed with its group when dead, else left. */
  lemma CaptureStep(b: Grid, size: nat, color: int, nbs: seq<Point>, i: nat)
    requires i < |nbs| && nbs[i] in b
    ensures var nb, rest := nbs[i], nbs[i + 1..];
      if b[nb] == color && !Alive(b, nb) then
        && CaptureSeq(b, size, color, nbs[i..]) ==
          GroupSeq(b, size, nb) + CaptureSeq(Clear(b, Group(b, nb)), size, color, rest)
        && CaptureBoard(b, color, nbs[i..]) == CaptureBoard(Clear(b, Group(b, nb)), color, rest)
      else
        && CaptureSeq(b, size, color, nbs[i..]) == CaptureSeq(b, size, color, rest)
        && CaptureBoard(b, color, nbs[i..]) == CaptureBoard(b, color, rest)
  {
  }

  lemma PlaceFromBoard(b: Grid, size: nat, color: int, p: Point)
    requires IsColor(color)
    ensures CaptureBoard(b[p := color], Opponent(color), Neighbors(p, size)) == Place(b, size, color, p)
  {
    OneByOneBoard(b[p := color], Opponent(color), Neighbors(p, size));
  }

  lemma StonePlaced(b: Grid, size: nat, color: int, p: Point)
    requires CanPut(b, size, color, p)
    ensures Place(b, size, color, p)[p] == color
    ensures LibertyCount(Place(b, size, color, p), p) == 0 <==> !Alive(Place(b, size, color, p), p)
  {
  }

  /** One step of the capture loop: takes the group of an enemy neighbour off when it is dead. */
  method RemoveIfDead(board: array2<int>, nb: Point, size: nat, opponent: int, ghost nbs: seq<Point>, ghost i: nat)
    returns (captured: seq<Point>)
    requires IsBoard(board) && size == board.Length0 && On(nb, size) && opponent != EMPTY
    requires i < |nbs| && nbs[i] == nb
    modifies board
    ensures IsBoard(board)
    ensures CaptureSeq(old(GridOf(board)), size, opponent, nbs[i..]) ==
      captured + CaptureSeq(GridOf(board), size, opponent, nbs[i + 1..])
    ensures CaptureBoard(old(GridOf(board)), opponent, nbs[i..]) == CaptureBoard(GridOf(board), opponent, nbs[i + 1..])
  {
    captured := [];
    CaptureStep(GridOf(board), size, opponent, nbs, i);
    if board[nb.row, nb.col] == opponent {
      var liberties := CountLiberties(board, nb.row, nb.col);
      if liberties == 0 {
        captured := RemoveGroup(board, nb.row, nb.col, opponent);
      }
    }
  }

  method PutStone(board: array2<int>, p: Point, color: int)
    requires IsBoard(board) && On(p, board.Length0) && IsColor(color)
    modifies board
    ensures IsBoard(board) && GridOf(board) == old(GridOf(board))[p := color]
  {
    board[p.row, p.col] := color;
  }

  /** The capture loop that placing and validating share. */
  method RemoveDeadNeighbors(board: array2<int>, row: int, col: int, opponent: int) returns (captures: seq<Point>)
    requires IsBoard(board) && opponent != EMPTY
    modifies board
    ensures IsBoard(board)
    ensures captures ==
      CaptureSeq(old(GridOf(board)), board.Length0, opponent, Neighbors(Point(row, col), board.Length0))
    ensures GridOf(board) == CaptureBoard(old(GridOf(board)), opponent, Neighbors(Point(row, col), board.Length0))
  {
    var size := board.Length0;
    captures := [];
    var nbs := NeighborList(row, col, size);
    NeighborsAreAdjacent(Point(row, col), size);
    ghost var all := CaptureSeq(GridOf(board), size, opponent, nbs);
    ghost var todo := all;
    assert nbs[0..] == nbs;
    for i := 0 to |nbs|
      invariant IsBoard(board)
      invariant todo == CaptureSeq(GridOf(board), size, opponent, nbs[i..])
      invariant captures + todo == all
      invariant CaptureBoard(GridOf(board), opponent, nbs[i..]) == CaptureBoard(old(GridOf(board)), opponent, nbs)
    {
      assert nbs[i] in nbs;
      ghost var before := captures;
      var captured := RemoveIfDead(board, nbs[i], size, opponent, nbs, i);
      captures, todo := captures + captured, CaptureSeq(GridOf(board), size, opponent, nbs[i + 1..]);
      assert captures + todo == before + (captured + todo);
    }
    assert nbs[|nbs|..] == [];
    assert captures == captures + todo;
  }

  /** The position and the capture list after a stone at (row, col); the given board stays. */
  method PlaceStone(board: array2<int>, color: int, row: int, col: int)
    returns (newBoard: array2<int>, allCaptures: seq<Point>)
    requires IsBoard(board) && IsColor(color) && InBounds(row, col, board.Length0)
    ensures fresh(newBoard) && IsBoard(newBoard) && newBoard.Length0 == board.Length0
    ensures GridOf(newBoard) == Place(GridOf(board), board.Length0, color, Point(row, col))
    ensures allCaptures == Captures(GridOf(board), board.Length0, color, Point(row, col))
  {
    newBoard := DeepCopyBoard(board);
    PutStone(newBoard, Point(row, col), color);
    allCaptures := RemoveDeadNeighbors(newBoard, row, col, Opponent(color));
    PlaceFromBoard(GridOf(board), board.Length0, color, Point(row, col));
  }

  /** The liberties the new stone's group would have after captures, found on a copy. */
  method SimulatedLiberties(board: array2<int>, color: int, row: int, col: int) returns (liberties: nat)
    requires IsBoard(board) && CanPut(GridOf(board), board.Length0, color, Point(row, col))
    ensures var b2, p := Place(GridOf(board), board.Length0, color, Point(row, col)), Point(row, col);
      p in b2 && (liberties == 0 <==> !Alive(b2, p))
  {
    var newBoard := DeepCopyBoard(board);
    PutStone(newBoard, Point(row, col), color);
    var _ := RemoveDeadNeighbors(newBoard, row, col, Opponent(color));
    PlaceFromBoard(GridOf(board), board.Length0, color, Point(row, col));
    StonePlaced(GridOf(board), board.Length0, color, Point(row, col));
    liberties := CountLiberties(newBoard, row, col);
  }

  /** The verdict on a move, found by playing it on a copy of the board. */
  method ValidateMove(board: array2<int>, color: int, row: int, col: int, koPoint: Option<Point>)
    returns (verdict: Verdict)
    requires IsBoard(board) && IsColor(color)
    ensures verdict == Judge(GridOf(board), board.Length0, color, Point(row, col), koPoint)
    ensures var n, p := board.Length0, Point(row, col);
      && (verdict == OutsideBoard <==> !(0 <= row < n && 0 <= col < n))
      && (verdict == PointOccupied <==> 0 <= row < n && 0 <= col < n && board[row, col] != 0)
      && (verdict == KoViolation <==> 0 <= row < n && 0 <= col < n && board[row, col] == 0 && koPoint == Some(p))
  {
    var size := board.Length0;
    if !InBounds(row, col, size) {
      return OutsideBoard;
    }
    if board[row, col] != EMPTY {
      return PointOccupied;
    }
    if koPoint.Some? && row == koPoint.value.row && col == koPoint.value.col {
      return KoViolation;
    }
    var liberties := SimulatedLiberties(board, color, row, col);
    if liberties == 0 {
      return Suicide;
    }
    return Accepted;
  }

  // ---------------------------------------------------------------- ko

  /** The set names the points other than the move at which the two boards differ. */
  ghost predicate Differ(prevBoard: array2<int>, newBoard: array2<int>, move: Point, changed: set<Point>)
    requires IsBoard(prevBoard) && IsBoard(newBoard) && newBoard.Length0 == prevBoard.Length0
    reads prevBoard, newBoard
  {
    && (forall q :: q in changed ==> On(q, newBoard.Length0))
    && (forall r, c :: InBounds(r, c, newBoard.Length0) ==>
        (Point(r, c) in changed <==> Point(r, c) != move && prevBoard[r, c] != newBoard[r, c]))
  }

  /** How many points other than the move changed, and one of them. */
  method CountChanged(prevBoard: array2<int>, newBoard: array2<int>, playerMove: Point, ghost changed: set<Point>)
    returns (diffs: nat, capturedPoint: Point)
    requires IsBoard(prevBoard) && IsBoard(newBoard) && newBoard.Length0 == prevBoard.Length0
    requires Differ(prevBoard, newBoard, playerMove, changed)
    ensures diffs == |changed| && (diffs > 0 ==> capturedPoint in changed)
  {
    var size := newBoard.Length0;
    diffs, capturedPoint := 0, Point(0, 0);
    ScannedAll(changed, size);
    for r := 0 to size
      invariant diffs == |ScannedPart(changed, r, 0)|
      invariant diffs > 0 ==> capturedPoint in changed
    {
      for c := 0 to size
        invariant diffs == |ScannedPart(changed, r, c)|
        invariant diffs > 0 ==> capturedPoint in changed
      {
        ScannedStep(changed, r, c);
        assert InBounds(r, c, size);
        if Point(r, c) != playerMove && prevBoard[r, c] != newBoard[r, c] {
          diffs, capturedPoint := diffs + 1, Point(r, c);
        }
      }
      ScannedRow(changed, r, size);
    }
  }

  method GetKoPoint(prevBoard: array2<int>, newBoard: array2<int>, playerMove: Point) returns (ko: Option<Point>)
    requires IsBoard(prevBoard) && IsBoard(newBoard) && newBoard.Length0 == prevBoard.Length0
    ensures ko == KoPoint(GridOf(prevBoard), GridOf(newBoard), newBoard.Length0, playerMove)
  {
    var size := newBoard.Length0;
    ghost var prev := GridOf(prevBoard);
    ghost var changed := Changed(prev, GridOf(newBoard), playerMove);
    var diffs, q := CountChanged(prevBoard, newBoard, playerMove, changed);
    if diffs == 1 {
      assert forall x :: x in changed ==> x == q by {
        forall x | x in changed
          ensures x == q
        {
          OneElement(changed, x, q);
        }
      }
      var capturedColor := prevBoard[q.row, q.col];
      var nbs := NeighborList(q.row, q.col, size);
      NeighborsAreAdjacent(q, size);
      for i := 0 to |nbs|
        invariant forall k :: 0 <= k < i ==> prev[nbs[k]] != prev[q]
      {
        assert nbs[i] in nbs;
        if prevBoard[nbs[i].row, nbs[i].col] == capturedColor {
          assert prev[nbs[i]] == prev[q] && !LoneIn(prev, size, q);
          return None;
        }
      }
      assert LoneIn(prev, size, q);
      return Some(playerMove);
    }
    return None;
  }
}
