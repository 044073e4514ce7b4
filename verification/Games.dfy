/** Games as objects: the board, the move list with its capture lists, and the ko cell are
    objects of their own, which a deep copy must not share. */
module Games {
  import opened Points
  import opened Boards
  import opened GoEngine
  import opened GoGame

  type GameId = string

  method EmptyBoard(size: nat) returns (board: array2<int>)
    ensures fresh(board) && IsBoard(board) && board.Length0 == size && GridOf(board) == EmptyGrid(size)
  {
    board := new int[size, size];
    for i := 0 to size
      invariant forall r, c :: 0 <= r < i && 0 <= c < size ==> board[r, c] == EMPTY
    {
      for j := 0 to size
        invariant forall r, c :: 0 <= r < i && 0 <= c < size ==> board[r, c] == EMPTY
        invariant forall c :: 0 <= c < j ==> board[i, c] == EMPTY
      {
        board[i, j] := EMPTY;
      }
    }
  }

  /** What a ko pointer points to. */
  class KoCell {
    var point: Point

    constructor (p: Point)
      ensures point == p
    {
      point := p;
    }
  }

  /** A slot of a move list; its captures are a list of their own. */
  datatype Entry = Entry(player: Side, point: Point, captures: array?<Point>, isPass: bool)

  /** The slot holds the record, with its captures in one of the given lists. */
  ghost predicate Holds(e: Entry, r: MoveRecord, lists: set<object>)
    reads e.captures
  {
    && e.player == r.player && e.point == r.point && e.isPass == r.isPass
    && (e.captures == null ==> r.captures == [])
    && (e.captures != null ==> e.captures in lists && e.captures[..] == r.captures)
  }

  /** A list of its own with the same points. */
  method CopyPoints(points: array<Point>) returns (copy: array<Point>)
    ensures fresh(copy) && copy[..] == points[..]
  {
    copy := new Point[points.Length];
    for i := 0 to points.Length
      invariant forall k :: 0 <= k < i ==> copy[k] == points[k]
    {
      copy[i] := points[i];
    }
  }

  method ListOf(points: seq<Point>) returns (list: array<Point>)
    ensures fresh(list) && list[..] == points
  {
    list := new Point[|points|](i requires 0 <= i < |points| => points[i]);
  }

  /** The first n slots in a list of their own, with capture lists of their own. */
  method CopyMoves(moves: array<Entry>, n: nat, ghost history: seq<MoveRecord>, ghost owned: set<object>)
    returns (copy: array<Entry>, ghost lists: set<object>)
    requires n == |history| <= moves.Length && forall i :: 0 <= i < n ==> Holds(moves[i], history[i], owned)
    ensures fresh(copy) && copy.Length == n && fresh(lists)
    ensures forall i :: 0 <= i < n ==> Holds(copy[i], history[i], lists)
  {
    copy, lists := new Entry[n], {};
    for i := 0 to n
      invariant fresh(lists) && copy !in lists
      invariant forall k :: 0 <= k < i ==> Holds(copy[k], history[k], lists)
      invariant forall k :: i <= k < n ==> Holds(moves[k], history[k], owned)
    {
      var e := moves[i];
      if e.captures != null {
        var list := CopyPoints(e.captures);
        e, lists := e.(captures := list), lists + {list};
      }
      copy[i] := e;
    }
  }

  class Game {
    var id: GameId
    var boardSize: nat
    var currentTurn: Side
    var blackPrisoners: nat
    var whitePrisoners: nat
    var koPoint: KoCell?
    var board: array2<int>
    var moves: array<Entry>     // the move history: its backing array, of which
    var played: nat             // this many slots are in use
    var status: Status
    var passes: nat
    ghost var state: GameState  // the game these fields hold
    ghost var Repr: set<object> // every object the game is made of

    ghost predicate Valid()
      reads this, Repr
    {
      && this in Repr && board in Repr && moves in Repr && (koPoint != null ==> koPoint in Repr)
      && IsBoard(board) && board.Length0 == boardSize
      && played == |state.history| <= moves.Length
      && (forall i :: 0 <= i < played ==>
          (moves[i].captures != null ==> moves[i].captures in Repr) && Holds(moves[i], state.history[i], Repr))
      && state == GameState(boardSize, currentTurn, blackPrisoners, whitePrisoners,
                            if koPoint == null then None else Some(koPoint.point),
                            GridOf(board), state.history, status, passes)
    }

    /** A fresh game with an empty grid. */
    constructor Fresh(gameId: GameId, requestedSize: int)
      ensures fresh(Repr) && Valid() && id == gameId
      ensures state == NewGame(requestedSize)
    {
      var size := BoardSize(requestedSize);
      id, boardSize, currentTurn := gameId, size, Side.Black;
      blackPrisoners, whitePrisoners, koPoint, played := 0, 0, null, 0;
      status, passes := Playing, 0;
      var grid := EmptyBoard(size);
      var none := new Entry[0];
      board, moves, state := grid, none, NewGame(requestedSize);
      Repr := {this, grid, none};
    }

    /** A deep copy: no object of the new game is one of the old. */
    constructor Clone(src: Game)
      requires src.Valid()
      ensures fresh(Repr) && Valid() && id == src.id
      ensures state == src.state
    {
      id, boardSize, currentTurn := src.id, src.boardSize, src.currentTurn;
      blackPrisoners, whitePrisoners := src.blackPrisoners, src.whitePrisoners;
      played, status, passes, state := src.played, src.status, src.passes, src.state;
      var grid := DeepCopyBoard(src.board);
      ghost var lists;
      var copy;
      copy, lists := CopyMoves(src.moves, src.played, src.state.history, src.Repr);
      board, moves, koPoint := grid, copy, null;
      Repr := lists + {this, grid, copy};
      if src.koPoint != null {
        var cell := new KoCell(src.koPoint.point);
        koPoint, Repr := cell, lists + {this, grid, copy, cell};
      }
    }

    method SetTurn(side: Side)
      requires Valid()
      modifies this
      ensures Valid() && Repr == old(Repr) && id == old(id)
      ensures state == old(state).(turn := side)
    {
      currentTurn, state := side, state.(turn := side);
    }

    method SetBoard(newBoard: array2<int>)
      requires Valid() && IsBoard(newBoard) && newBoard.Length0 == boardSize
      modifies this
      ensures Valid() && Repr == old(Repr) + {newBoard} && id == old(id)
      ensures state == old(state).(grid := GridOf(newBoard))
    {
      board, Repr, state := newBoard, Repr + {newBoard}, state.(grid := GridOf(newBoard));
    }

    method SetKo(ko: Option<Point>)
      requires Valid()
      modifies this
      ensures Valid() && fresh(Repr - old(Repr)) && id == old(id)
      ensures state == old(state).(ko := ko)
    {
      state := state.(ko := ko);
      if ko == None {
        koPoint := null;
      } else {
        var cell := new KoCell(ko.value);
        koPoint, Repr := cell, Repr + {cell};
      }
    }

    /** Credits captured stones to the side that captured them. */
    method Credit(side: Side, n: nat)
      requires Valid()
      modifies this
      ensures Valid() && Repr == old(Repr) && id == old(id)
      ensures state == old(state).(
        blackPrisoners := old(state).blackPrisoners + (if side == Side.Black then n else 0),
        whitePrisoners := old(state).whitePrisoners + (if side == Side.White then n else 0))
    {
      if n > 0 {
        if side == Side.Black {
          blackPrisoners := blackPrisoners + n;
        } else {
          whitePrisoners := whitePrisoners + n;
        }
      }
      state := state.(blackPrisoners := blackPrisoners, whitePrisoners := whitePrisoners);
    }

    method SetPasses(n: nat)
      requires Valid()
      modifies this
      ensures Valid() && Repr == old(Repr) && id == old(id)
      ensures state == old(state).(passes := n)
    {
      passes, state := n, state.(passes := n);
    }

    method SetStatus(s: Status)
      requires Valid()
      modifies this
      ensures Valid() && Repr == old(Repr) && id == old(id)
      ensures state == old(state).(status := s)
    {
      status, state := s, state.(status := s);
    }

    /** Makes room for one more slot: a list with no free slot is moved to a bigger array. */
    method Grow()
      requires Valid()
      modifies this
      ensures Valid() && fresh(Repr - old(Repr)) && id == old(id) && state == old(state)
      ensures played < moves.Length
    {
      if played == moves.Length {
        var bigger := new Entry[2 * played + 1];
        forall i | 0 <= i < played {
          bigger[i] := moves[i];
        }
        moves, Repr := bigger, Repr + {bigger};
      }
    }

    /** Appends a record: in place, in the game's own array, when there is a free slot. */
    method Append(side: Side, p: Point, captures: seq<Point>, isPass: bool)
      requires Valid()
      modifies Repr
      ensures Valid() && fresh(Repr - old(Repr)) && id == old(id)
      ensures state == old(state).(history := old(state).history + [MoveRecord(side, p, captures, isPass)])
    {
      Grow();
      var list := ListOf(captures);
      ghost var before := state.history;
      moves[played] := Entry(side, p, list, isPass);
      played, Repr := played + 1, Repr + {list};
      state := state.(history := before + [MoveRecord(side, p, captures, isPass)]);
    }
  }
}
