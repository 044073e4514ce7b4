/** The rules of play that the engine keeps: capture (Article 5), no stone without a liberty
    (Article 4), suicide and ko (Article 6), for every board size. */
module GoRules {
  import opened Points
  import opened Regions
  import opened Boards

  // ---------------------------------------------------------------- removing whole groups

  lemma GroupOf(b: Grid, p: Point)
    requires p in b
    ensures p in Group(b, p) && Closed(CellsOf(b, b[p]), Group(b, p)) && Group(b, p) <= CellsOf(b, b[p])
    ensures forall q :: q in Group(b, p) ==> q in b && b[q] == b[p] && Group(b, q) == Group(b, p)
  {
    ComponentClosed(CellsOf(b, b[p]), p);
    forall q | q in Group(b, p)
      ensures Group(b, q) == Group(b, p)
    {
      ComponentSame(CellsOf(b, b[p]), p, q);
    }
  }

  /** Taking off whole groups of one colour leaves the other groups of that colour, and their
      liberties, untouched; groups of the other colour stay and can only gain liberties. */
  lemma ClearKeepsGroups(b: Grid, color: int, gone: set<Point>, q: Point)
    requires color != EMPTY && gone <= CellsOf(b, color) && Closed(CellsOf(b, color), gone)
    requires q in b && b[q] != EMPTY && q !in gone
    ensures var b' := Clear(b, gone);
      && b'[q] == b[q]
      && Group(b', q) == Group(b, q)
      && Liberties(b, Group(b, q)) <= Liberties(b', Group(b', q))
      && (b[q] == color ==> Liberties(b', Group(b', q)) == Liberties(b, Group(b, q)))
  {
    var b' := Clear(b, gone);
    if b[q] == color {
      assert CellsOf(b', color) == CellsOf(b, color) - gone;
      ComponentMinusClosed(CellsOf(b, color), gone, q);
      forall l | l in Liberties(b', Group(b, q))
        ensures l in Liberties(b, Group(b, q))
      {
        var p :| p in Group(b, q) && Adjacent(p, l);
        if l in gone {
          assert Adjacent(l, p);
        }
      }
    } else {
      assert CellsOf(b', b[q]) == CellsOf(b, b[q]);
    }
  }

  lemma DeadAtClosed(b: Grid, color: int, at: seq<Point>)
    ensures DeadAt(b, color, at) <= CellsOf(b, color)
    ensures Closed(CellsOf(b, color), DeadAt(b, color, at))
  {
    forall x, y | x in DeadAt(b, color, at) && y in CellsOf(b, color) && Adjacent(x, y)
      ensures y in DeadAt(b, color, at)
    {
      var m :| m in at && m in b && b[m] == color && !Alive(b, m) && x in Group(b, m);
      GroupOf(b, m);
    }
  }

  lemma GroupSeqIsGroup(b: Grid, size: nat, p: Point)
    requires IsGrid(b, size) && p in b
    ensures Distinct(GroupSeq(b, size, p)) && SetOf(GroupSeq(b, size, p)) == Group(b, p)
    ensures |GroupSeq(b, size, p)| == |Group(b, p)|
  {
    assert {} + {p} == {p};
    SearchIsComponent(size, CellsOf(b, b[p]), {}, p);
  }

  lemma DeadAtAfterClear(b: Grid, color: int, m: Point, at: seq<Point>)
    requires color != EMPTY && m in b && b[m] == color && !Alive(b, m)
    ensures DeadAt(b, color, [m] + at) == Group(b, m) + DeadAt(Clear(b, Group(b, m)), color, at)
    ensures Group(b, m) !! DeadAt(Clear(b, Group(b, m)), color, at)
  {
    var g := Group(b, m);
    var b' := Clear(b, g);
    GroupOf(b, m);
    forall q | q in DeadAt(b, color, [m] + at) && q !in g
      ensures q in DeadAt(b', color, at)
    {
      var k :| k in [m] + at && k in b && b[k] == color && !Alive(b, k) && q in Group(b, k);
      GroupOf(b, k);
      ClearKeepsGroups(b, color, g, k);
      assert k in at;
    }
    forall q | q in DeadAt(b', color, at)
      ensures q in DeadAt(b, color, [m] + at)
    {
      var k :| k in at && k in b' && b'[k] == color && !Alive(b', k) && q in Group(b', k);
      ClearKeepsGroups(b, color, g, k);
      assert k in [m] + at;
    }
    forall q | q in g
      ensures q in DeadAt(b, color, [m] + at)
    {
      assert m in [m] + at;
    }
  }

  lemma ClearIsGrid(b: Grid, size: nat, gone: set<Point>)
    requires IsGrid(b, size)
    ensures IsGrid(Clear(b, gone), size)
  {
  }

  lemma DeadAtSkip(b: Grid, color: int, at: seq<Point>)
    requires at != [] && !(at[0] in b && b[at[0]] == color && !Alive(b, at[0]))
    ensures DeadAt(b, color, at) == DeadAt(b, color, at[1..])
  {
  }

  lemma JoinDisjoint<T>(s: seq<T>, t: seq<T>)
    requires Distinct(s) && Distinct(t) && SetOf(s) !! SetOf(t)
    ensures Distinct(s + t) && SetOf(s + t) == SetOf(s) + SetOf(t)
  {
    assert forall x :: x in s ==> x in SetOf(s);
    assert forall x :: x in t ==> x in SetOf(t);
    DistinctConcat(s, t);
  }

  /** The list names every point of the set once. */
  ghost predicate Names(s: seq<Point>, points: set<Point>) {
    Distinct(s) && SetOf(s) == points
  }

  lemma CaptureFirst(b: Grid, size: nat, color: int, m: Point, rest: seq<Point>, t: seq<Point>)
    requires IsGrid(b, size) && color != EMPTY && m in b && b[m] == color && !Alive(b, m)
    requires Names(t, DeadAt(Clear(b, Group(b, m)), color, rest))
    ensures Names(GroupSeq(b, size, m) + t, DeadAt(b, color, [m] + rest))
  {
    GroupSeqIsGroup(b, size, m);
    DeadAtAfterClear(b, color, m, rest);
    JoinDisjoint(GroupSeq(b, size, m), t);
  }

  /** Visiting the neighbours in any order, with repetitions or not, and removing dead groups
      one at a time captures exactly the stones that are dead before the first removal, and
      names each of them once. */
  lemma {:induction false} OneByOneIsAllAtOnce(b: Grid, size: nat, color: int, at: seq<Point>)
    requires IsGrid(b, size) && color != EMPTY
    ensures Names(CaptureSeq(b, size, color, at), DeadAt(b, color, at))
    decreases |at|
  {
    if at == [] {
    } else if at[0] in b && b[at[0]] == color && !Alive(b, at[0]) {
      var b' := Clear(b, Group(b, at[0]));
      ClearIsGrid(b, size, Group(b, at[0]));
      OneByOneIsAllAtOnce(b', size, color, at[1..]);
      CaptureFirst(b, size, color, at[0], at[1..], CaptureSeq(b', size, color, at[1..]));
      assert [at[0]] + at[1..] == at;
    } else {
      OneByOneIsAllAtOnce(b, size, color, at[1..]);
      DeadAtSkip(b, color, at);
    }
  }

  lemma ClearTwice(b: Grid, x: set<Point>, y: set<Point>)
    ensures Clear(Clear(b, x), y) == Clear(b, x + y)
  {
  }

  lemma {:induction false} OneByOneBoard(b: Grid, color: int, at: seq<Point>)
    requires color != EMPTY
    ensures CaptureBoard(b, color, at) == Clear(b, DeadAt(b, color, at))
    decreases |at|
  {
    if at == [] {
      assert Clear(b, DeadAt(b, color, at)) == b;
    } else if at[0] in b && b[at[0]] == color && !Alive(b, at[0]) {
      var g := Group(b, at[0]);
      OneByOneBoard(Clear(b, g), color, at[1..]);
      DeadAtAfterClear(b, color, at[0], at[1..]);
      ClearTwice(b, g, DeadAt(Clear(b, g), color, at[1..]));
      assert [at[0]] + at[1..] == at;
    } else {
      OneByOneBoard(b, color, at[1..]);
      DeadAtSkip(b, color, at);
    }
  }

  // ---------------------------------------------------------------- one move

  /** The stone can be put down: the point is on the board and empty. */
  ghost predicate CanPut(b: Grid, size: nat, color: int, p: Point) {
    IsGrid(b, size) && IsColor(color) && On(p, size) && b[p] == EMPTY
  }

  lemma CapturedClosed(b: Grid, size: nat, color: int, p: Point)
    requires CanPut(b, size, color, p)
    ensures var gone := Captured(b, size, color, p);
      && gone <= CellsOf(b[p := color], Opponent(color))
      && Closed(CellsOf(b[p := color], Opponent(color)), gone)
      && p !in gone
      && (forall q :: q in gone ==> b[q] == Opponent(color))
  {
    DeadAtClosed(b[p := color], Opponent(color), Neighbors(p, size));
  }

  lemma PlacedColor(b: Grid, size: nat, color: int, p: Point)
    requires IsColor(color) && p in b
    ensures Place(b, size, color, p)[p] == color
  {
  }

  /** An enemy group that had a liberty and has none after placement touches the new stone. */
  lemma NewlyDeadTouches(b: Grid, size: nat, color: int, p: Point, q: Point) returns (k: Point)
    requires CanPut(b, size, color, p)
    requires q in b && b[q] == Opponent(color) && Alive(b, q) && !Alive(b[p := color], q)
    ensures k in Group(b[p := color], q) && k in Neighbors(p, size)
  {
    var b1 := b[p := color];
    assert CellsOf(b1, b[q]) == CellsOf(b, b[q]);
    var g := Group(b, q);
    assert g == Group(b1, q);
    var l :| l in Liberties(b, g);
    k :| k in g && Adjacent(k, l);
    assert l == p by {
      assert l !in Liberties(b1, g);
    }
    NeighborsAreAdjacent(p, size);
  }

  lemma CapturedAreDead(b: Grid, size: nat, color: int, p: Point, q: Point)
    requires CanPut(b, size, color, p) && q in Captured(b, size, color, p)
    ensures b[p := color][q] == Opponent(color) && !Alive(b[p := color], q)
  {
    var b1, foe := b[p := color], Opponent(color);
    var m :| m in Neighbors(p, size) && m in b1 && b1[m] == foe && !Alive(b1, m) && q in Group(b1, m);
    GroupOf(b1, m);
  }

  lemma DeadAreCaptured(b: Grid, size: nat, color: int, p: Point, q: Point)
    requires CanPut(b, size, color, p)
    requires q in b && b[q] == Opponent(color) && Alive(b, q) && !Alive(b[p := color], q)
    ensures q in Captured(b, size, color, p)
  {
    var b1 := b[p := color];
    var k := NewlyDeadTouches(b, size, color, p, q);
    GroupOf(b1, q);
    assert Group(b1, k) == Group(b1, q);
    assert b1[k] == Opponent(color) && !Alive(b1, k) && q in Group(b1, k);
  }

  /** Article 5: from a board without dead stones, the move captures every enemy stone on the
      whole board that it leaves in a group without a liberty. */
  lemma CapturesAllDead(b: Grid, size: nat, color: int, p: Point)
    requires CanPut(b, size, color, p) && AllAlive(b)
    ensures var b1 := b[p := color];
      forall q :: q in Captured(b, size, color, p) <==>
        q in b1 && b1[q] == Opponent(color) && !Alive(b1, q)
  {
    var b1, foe := b[p := color], Opponent(color);
    forall q | q in Captured(b, size, color, p)
      ensures b1[q] == foe && !Alive(b1, q)
    {
      CapturedAreDead(b, size, color, p, q);
    }
    forall q | q in b1 && b1[q] == foe && !Alive(b1, q)
      ensures q in Captured(b, size, color, p)
    {
      assert Alive(b, q);
      DeadAreCaptured(b, size, color, p, q);
    }
  }

  /** A move that captures gives its stone a liberty. */
  lemma CaptureGivesLiberty(b: Grid, size: nat, color: int, p: Point)
    requires CanPut(b, size, color, p) && Captured(b, size, color, p) != {}
    ensures Alive(Place(b, size, color, p), p)
  {
    var b1, b2, foe := b[p := color], Place(b, size, color, p), Opponent(color);
    CapturedClosed(b, size, color, p);
    NeighborsAreAdjacent(p, size);
    var q :| q in Captured(b, size, color, p);
    var m :| m in Neighbors(p, size) && m in b1 && b1[m] == foe && !Alive(b1, m) && q in Group(b1, m);
    GroupOf(b1, m);
    assert m in Captured(b, size, color, p);
    GroupOf(b2, p);
    assert m in Liberties(b2, Group(b2, p));
  }

  /** The new stone's group on the final board is its group right after placement. */
  lemma PlaceKeepsGroups(b: Grid, size: nat, color: int, p: Point, q: Point)
    requires CanPut(b, size, color, p)
    requires q in b && b[p := color][q] != EMPTY && q !in Captured(b, size, color, p)
    ensures var b1, b2 := b[p := color], Place(b, size, color, p);
      && b2[q] == b1[q] && Group(b2, q) == Group(b1, q)
      && Liberties(b1, Group(b1, q)) <= Liberties(b2, Group(b2, q))
      && (b1[q] == Opponent(color) ==> Liberties(b2, Group(b2, q)) == Liberties(b1, Group(b1, q)))
  {
    CapturedClosed(b, size, color, p);
    ClearKeepsGroups(b[p := color], Opponent(color), Captured(b, size, color, p), q);
  }

  /** Suicide is exactly: nothing captured and the new stone's group has no liberty right
      after placement. */
  lemma SuicideIff(b: Grid, size: nat, color: int, p: Point, ko: Option<Point>)
    requires IsGrid(b, size) && IsColor(color)
    ensures Judge(b, size, color, p, ko) == Suicide <==>
      && CanPut(b, size, color, p) && ko != Some(p)
      && Captured(b, size, color, p) == {} && !Alive(b[p := color], p)
  {
    if CanPut(b, size, color, p) {
      PlaceKeepsGroups(b, size, color, p, p) by {
        CapturedClosed(b, size, color, p);
      }
      if Captured(b, size, color, p) == {} {
        assert Place(b, size, color, p) == b[p := color];
      } else {
        CaptureGivesLiberty(b, size, color, p);
      }
    }
  }

  /** A group away from the new stone keeps every liberty it had. */
  lemma OwnGroupStays(b: Grid, size: nat, color: int, p: Point, q: Point)
    requires CanPut(b, size, color, p) && q in b && b[q] == color && p !in Group(b[p := color], q)
    ensures Group(b[p := color], q) == Group(b, q)
    ensures Liberties(b, Group(b, q)) <= Liberties(b[p := color], Group(b, q))
  {
    var b1 := b[p := color];
    assert CellsOf(b1, color) == CellsOf(b, color) + {p};
    ComponentPlusFar(CellsOf(b, color), p, q);
    GroupOf(b1, q);
    forall l | l in Liberties(b, Group(b, q))
      ensures l != p
    {
      assert p in CellsOf(b1, color);
    }
  }

  /** Article 4 is kept: if no stone was without a liberty and the move is accepted, no stone
      is without a liberty afterwards. */
  lemma AcceptedMoveKeepsLiberties(b: Grid, size: nat, color: int, p: Point, ko: Option<Point>)
    requires IsGrid(b, size) && IsColor(color) && AllAlive(b)
    requires Judge(b, size, color, p, ko) == Accepted
    ensures IsGrid(Place(b, size, color, p), size) && AllAlive(Place(b, size, color, p))
  {
    var b1, b2 := b[p := color], Place(b, size, color, p);
    ClearIsGrid(b1, size, Captured(b, size, color, p));
    forall q | q in b2 && b2[q] != EMPTY
      ensures Alive(b2, q)
    {
      PlaceKeepsGroups(b, size, color, p, q);
      GroupOf(b1, q);
      if b1[q] == color {
        if p in Group(b1, q) {
          GroupOf(b2, q);
        } else {
          OwnGroupStays(b, size, color, p, q);
          assert Alive(b, q);
        }
      } else {
        CapturesAllDead(b, size, color, p);
      }
    }
  }

  /** Among the points that may be played, a move is accepted exactly when the position after
      it has no stone without a liberty. */
  lemma AcceptedIffAllAlive(b: Grid, size: nat, color: int, p: Point, ko: Option<Point>)
    requires IsGrid(b, size) && IsColor(color) && AllAlive(b) && CanPut(b, size, color, p) && ko != Some(p)
    ensures Judge(b, size, color, p, ko) == Accepted <==> AllAlive(Place(b, size, color, p))
  {
    CapturedClosed(b, size, color, p);
    if Judge(b, size, color, p, ko) == Accepted {
      AcceptedMoveKeepsLiberties(b, size, color, p, ko);
    }
  }

  // ---------------------------------------------------------------- there is always a move

  lemma OpenIsAlive(b: Grid, x: Point, l: Point)
    requires x in b && l in b && b[l] == EMPTY && Adjacent(x, l)
    ensures Alive(b, x)
  {
    GroupOf(b, x);
    assert l in Liberties(b, Group(b, x));
  }

  /** A stone next to an empty point is never suicide. */
  lemma OpenPointAccepted(b: Grid, size: nat, color: int, p: Point, l: Point)
    requires CanPut(b, size, color, p) && l in b && b[l] == EMPTY && Adjacent(p, l)
    ensures Judge(b, size, color, p, None) == Accepted
  {
    CapturedClosed(b, size, color, p);
    OpenIsAlive(Place(b, size, color, p), p, l);
  }

  /** A stone that joins a group with a liberty elsewhere is accepted. */
  lemma JoinAccepted(b: Grid, size: nat, color: int, p: Point, q: Point, l: Point)
    requires CanPut(b, size, color, p) && q in b && b[q] == color && Adjacent(p, q)
    requires l in Liberties(b, Group(b, q)) && l != p
    ensures Judge(b, size, color, p, None) == Accepted
  {
    var b1 := b[p := color];
    GroupOf(b1, q);
    assert p in Group(b1, q) by {
      assert Adjacent(q, p) && p in CellsOf(b1, color);
    }
    assert Closed(CellsOf(b, color), Group(b1, q));
    ComponentWithin(CellsOf(b, color), Group(b1, q), q);
    assert l in Liberties(b1, Group(b1, p));
    CapturedClosed(b, size, color, p);
    PlaceKeepsGroups(b, size, color, p, p);
  }

  /** A stone on the last liberty of an enemy group takes it and is accepted. */
  lemma TakeAccepted(b: Grid, size: nat, color: int, p: Point, q: Point)
    requires CanPut(b, size, color, p) && q in b && b[q] == Opponent(color) && Adjacent(p, q)
    requires Liberties(b, Group(b, q)) == {p}
    ensures Judge(b, size, color, p, None) == Accepted
  {
    var b1 := b[p := color];
    assert CellsOf(b1, b[q]) == CellsOf(b, b[q]);
    assert forall x :: x in Liberties(b1, Group(b1, q)) ==> x in Liberties(b, Group(b, q));
    assert !Alive(b1, q);
    DeadAreCaptured(b, size, color, p, q);
    CaptureGivesLiberty(b, size, color, p);
  }

  lemma EmptyPoint(b: Grid, size: nat) returns (p: Point)
    requires IsGrid(b, size) && AllAlive(b) && size >= 1
    ensures p in b && b[p] == EMPTY
  {
    var corner := Point(0, 0);
    if b[corner] == EMPTY {
      p := corner;
    } else {
      p :| p in Liberties(b, Group(b, corner));
    }
  }

  /** On a board of at least 2 x 2 points without dead stones one of the colours has a move that
      is accepted when there is no ko point. */
  lemma SomeMove(b: Grid, size: nat) returns (color: int, p: Point)
    requires IsGrid(b, size) && AllAlive(b) && size >= 2
    ensures CanPut(b, size, color, p) && Judge(b, size, color, p, None) == Accepted
  {
    p := EmptyPoint(b, size);
    var q := if p.row > 0 then Point(p.row - 1, p.col) else Point(p.row + 1, p.col);
    assert q in b && Adjacent(p, q);
    if b[q] == EMPTY {
      color := BLACK;
      OpenPointAccepted(b, size, color, p, q);
    } else {
      GroupOf(b, q);
      assert p in Liberties(b, Group(b, q)) by {
        assert Adjacent(q, p);
      }
      if l :| l in Liberties(b, Group(b, q)) && l != p {
        color := b[q];
        JoinAccepted(b, size, color, p, q, l);
      } else {
        color := Opponent(b[q]);
        TakeAccepted(b, size, color, p, q);
      }
    }
  }

  /** On a board of one point nothing may be played. */
  lemma NoMoveOnOnePoint(b: Grid, size: nat, color: int, p: Point, ko: Option<Point>)
    requires IsGrid(b, size) && IsColor(color) && size <= 1
    ensures Judge(b, size, color, p, ko) != Accepted
  {
    if CanPut(b, size, color, p) {
      NeighborsAreAdjacent(p, size);
      assert Captured(b, size, color, p) == {};
      assert Place(b, size, color, p) == b[p := color];
      assert Liberties(b[p := color], Group(b[p := color], p)) == {};
    }
  }
}
