/** Article 6 (ko): what the recorded ko point does and does not forbid. */
module GoKo {
  import opened Points
  import opened Regions
  import opened Boards
  import opened GoRules

  lemma ChangedIsCaptured(b: Grid, size: nat, color: int, p: Point)
    requires CanPut(b, size, color, p)
    ensures Changed(b, Place(b, size, color, p), p) == Captured(b, size, color, p)
  {
  }

  /** A ko point is recorded exactly when the move captured one stone, and it is always the
      point just played. */
  lemma KoPointIffOneCapture(b: Grid, size: nat, color: int, p: Point)
    requires CanPut(b, size, color, p)
    ensures KoPoint(b, Place(b, size, color, p), size, p) ==
      if |Captured(b, size, color, p)| == 1 then Some(p) else None
  {
    var gone, b1 := Captured(b, size, color, p), b[p := color];
    ChangedIsCaptured(b, size, color, p);
    CapturedClosed(b, size, color, p);
    if |gone| == 1 {
      forall q | q in gone
        ensures LoneIn(b, size, q)
      {
        NeighborsAreAdjacent(q, size);
        forall m | m in Neighbors(q, size) && m in b
          ensures b[m] != b[q]
        {
          if b[m] == b[q] {
            assert m in CellsOf(b1, Opponent(color));
            OneElement(gone, q, m);
          }
        }
      }
    }
  }

  /** For any two positions: a ko point is recorded exactly when they differ, apart from the move,
      at one point and no neighbour of that point had its colour before. */
  lemma KoPointCases(prev: Grid, next: Grid, size: nat, at: Point)
    requires IsGrid(prev, size) && IsGrid(next, size)
    ensures KoPoint(prev, next, size, at) in {None, Some(at)}
    ensures KoPoint(prev, next, size, at).Some? <==> exists q :: LoneChange(prev, next, at, q)
  {
    var diff := Changed(prev, next, at);
    if KoPoint(prev, next, size, at).Some? {
      var q :| q in diff;
      NeighborsAreAdjacent(q, size);
      forall x | x in diff
        ensures x == q
      {
        OneElement(diff, x, q);
      }
      assert LoneIn(prev, size, q);
      forall x | x in prev && x in next && x != at && x != q
        ensures prev[x] == next[x]
      {
        assert x !in diff;
      }
      assert LoneChange(prev, next, at, q);
    } else if q :| LoneChange(prev, next, at, q) {
      assert diff == {q};
      NeighborsAreAdjacent(q, size);
      assert LoneIn(prev, size, q);
    }
  }

  ghost predicate LoneChange(prev: Grid, next: Grid, at: Point, q: Point) {
    && q in prev && q in next && q != at && prev[q] != next[q]
    && (forall x :: x in prev && x in next && x != at && x != q ==> prev[x] == next[x])
    && (forall m :: m in prev && Adjacent(q, m) ==> prev[m] != prev[q])
  }

  /** With an occupied ko point the ko verdict is never given: occupancy is tested first. */
  lemma OccupiedKoNeverFires(b: Grid, size: nat, color: int, p: Point, ko: Option<Point>)
    requires ko.Some? ==> ko.value in b && b[ko.value] != EMPTY
    ensures Judge(b, size, color, p, ko) != KoViolation
    ensures Judge(b, size, color, p, ko) == Judge(b, size, color, p, None)
  {
  }

  /** The position after the mover's stone at p and the reply at q. */
  ghost function Reply(b: Grid, size: nat, color: int, p: Point, q: Point): Grid {
    Place(Place(b, size, color, p), size, Opponent(color), q)
  }

  /** If the reply brings the old position back, the first move captured exactly that point. */
  lemma RepetitionIsRecapture(b: Grid, size: nat, color: int, p: Point, q: Point)
    requires CanPut(b, size, color, p)
    requires CanPut(Place(b, size, color, p), size, Opponent(color), q)
    requires Reply(b, size, color, p, q) == b
    ensures Captured(b, size, color, p) == {q}
  {
  }

  /** The guard the rule asks for: the captured point itself, when one stone was taken. */
  ghost function CapturedKoPoint(b: Grid, size: nat, color: int, p: Point): (ko: Option<Point>)
    ensures ko.Some? ==> Captured(b, size, color, p) == {ko.value}
  {
    var gone := Captured(b, size, color, p);
    if |gone| == 1 then
      var q :| q in gone;
      assert forall x :: x in gone ==> x == q by {
        forall x | x in gone
          ensures x == q
        {
          OneElement(gone, x, q);
        }
      }
      Some(q)
    else None
  }

  /** With that guard no accepted reply ever repeats the position before the last move. */
  lemma CapturedPointGuardKeepsArticleSix(b: Grid, size: nat, color: int, p: Point, q: Point, ko: Option<Point>)
    requires IsGrid(b, size) && IsColor(color)
    requires Judge(b, size, color, p, ko) == Accepted
    requires Judge(Place(b, size, color, p), size, Opponent(color), q, CapturedKoPoint(b, size, color, p)) == Accepted
    ensures Reply(b, size, color, p, q) != b
  {
    ClearIsGrid(b[p := color], size, Captured(b, size, color, p));
    assert |{q}| == 1;
    if Reply(b, size, color, p, q) == b {
      RepetitionIsRecapture(b, size, color, p, q);
    }
  }

  /** The first move took one stone at q and left its own stone alone, with q as its only liberty. */
  ghost predicate KoShape(b: Grid, size: nat, color: int, p: Point, q: Point)
    requires On(p, size) && p in b
  {
    var b2 := Place(b, size, color, p);
    Captured(b, size, color, p) == {q} && Group(b2, p) == {p} && Liberties(b2, {p}) == {q}
  }

  lemma RepetitionNeedsKoShape(b: Grid, size: nat, color: int, p: Point, q: Point)
    requires CanPut(b, size, color, p)
    requires CanPut(Place(b, size, color, p), size, Opponent(color), q)
    requires Alive(Place(b, size, color, p), p)
    requires Reply(b, size, color, p, q) == b
    ensures KoShape(b, size, color, p, q)
  {
    var foe, b2 := Opponent(color), Place(b, size, color, p);
    var b2q := b2[q := foe];
    RepetitionIsRecapture(b, size, color, p, q);
    CapturedClosed(b, size, color, p);
    CapturedClosed(b2, size, foe, q);
    var lost := Captured(b2, size, foe, q);
    assert b2[p] == color;
    assert p in lost;
    assert CellsOf(b2q, color) == CellsOf(b2, color);
    GroupOf(b2, p);
    ComponentWithin(CellsOf(b2q, color), lost, p);
    forall x | x in Group(b2, p)
      ensures x == p
    {
      assert b[x] == EMPTY && b2[x] == color;
    }
    assert Group(b2, p) == {p} && Group(b2q, p) == {p};
    CapturedAreDead(b2, size, foe, q, p);
    forall l | l in Liberties(b2, {p})
      ensures l == q
    {
      assert l !in Liberties(b2q, {p});
    }
  }

  /** A group the first move did not join keeps a liberty other than the reply's point. */
  lemma BystanderSurvives(b: Grid, size: nat, color: int, p: Point, q: Point, x: Point)
    requires CanPut(b, size, color, p) && Captured(b, size, color, p) == {q}
    requires Group(Place(b, size, color, p), p) == {p}
    requires x in b && x != p && b[x] == color && Alive(b, x)
    ensures Alive(Place(b, size, color, p)[q := Opponent(color)], x)
  {
    var foe, b1, b2 := Opponent(color), b[p := color], Place(b, size, color, p);
    var b2q := b2[q := foe];
    CapturedClosed(b, size, color, p);
    assert CellsOf(b2q, color) == CellsOf(b2, color) == CellsOf(b1, color);
    PlaceKeepsGroups(b, size, color, p, p);
    GroupOf(b1, x);
    assert p !in Group(b1, x);
    OwnGroupStays(b, size, color, p, x);
    var l :| l in Liberties(b, Group(b, x));
    assert b[q] == foe;
    assert l in Liberties(b1, Group(b, x));
    assert l in Liberties(b2q, Group(b2q, x));
  }

  lemma KoStoneDies(b: Grid, size: nat, color: int, p: Point, q: Point)
    requires CanPut(b, size, color, p) && KoShape(b, size, color, p, q)
    requires Alive(Place(b, size, color, p), p)
    ensures CanPut(Place(b, size, color, p), size, Opponent(color), q)
    ensures p in Captured(Place(b, size, color, p), size, Opponent(color), q)
  {
    var foe, b2 := Opponent(color), Place(b, size, color, p);
    var b2q := b2[q := foe];
    CapturedClosed(b, size, color, p);
    assert q in Captured(b, size, color, p);
    ClearIsGrid(b[p := color], size, Captured(b, size, color, p));
    assert CellsOf(b2q, color) == CellsOf(b2, color);
    assert Liberties(b2q, {p}) == {} by {
      assert forall l :: l in Liberties(b2q, {p}) ==> l in Liberties(b2, {p});
    }
    DeadAreCaptured(b2, size, foe, q, p);
  }

  lemma OnlyKoStoneDies(b: Grid, size: nat, color: int, p: Point, q: Point, x: Point)
    requires CanPut(b, size, color, p) && KoShape(b, size, color, p, q)
    requires CanPut(Place(b, size, color, p), size, Opponent(color), q)
    requires x in Captured(Place(b, size, color, p), size, Opponent(color), q)
    requires x in b && b[x] == color ==> Alive(b, x)
    ensures x == p
  {
    var b2 := Place(b, size, color, p);
    CapturedClosed(b, size, color, p);
    CapturedAreDead(b2, size, Opponent(color), q, x);
    if x != p {
      BystanderSurvives(b, size, color, p, q, x);
    }
  }

  lemma LosingKoStoneRestores(b: Grid, size: nat, color: int, p: Point, q: Point)
    requires CanPut(b, size, color, p) && Captured(b, size, color, p) == {q}
    requires CanPut(Place(b, size, color, p), size, Opponent(color), q)
    requires Captured(Place(b, size, color, p), size, Opponent(color), q) == {p}
    ensures Reply(b, size, color, p, q) == b
  {
  }

  lemma KoShapeRepeats(b: Grid, size: nat, color: int, p: Point, q: Point)
    requires CanPut(b, size, color, p) && AllAlive(b) && KoShape(b, size, color, p, q)
    requires Alive(Place(b, size, color, p), p)
    ensures CanPut(Place(b, size, color, p), size, Opponent(color), q)
    ensures Captured(Place(b, size, color, p), size, Opponent(color), q) == {p}
    ensures Reply(b, size, color, p, q) == b
  {
    KoStoneDies(b, size, color, p, q);
    forall x | x in Captured(Place(b, size, color, p), size, Opponent(color), q)
      ensures x == p
    {
      OnlyKoStoneDies(b, size, color, p, q, x);
    }
    LosingKoStoneRestores(b, size, color, p, q);
  }

  lemma ReplyAcceptedInKoShape(b: Grid, size: nat, color: int, p: Point, q: Point)
    requires CanPut(b, size, color, p) && Captured(b, size, color, p) == {q}
    requires CanPut(Place(b, size, color, p), size, Opponent(color), q)
    requires Captured(Place(b, size, color, p), size, Opponent(color), q) == {p}
    ensures var b2 := Place(b, size, color, p);
      Judge(b2, size, Opponent(color), q, KoPoint(b, b2, size, p)) == Accepted
  {
    var b2 := Place(b, size, color, p);
    CapturedClosed(b, size, color, p);
    KoPointIffOneCapture(b, size, color, p);
    CaptureGivesLiberty(b2, size, Opponent(color), q);
    assert b2[p] == color;
  }

  /** Article 6 under the guard the engine records (the point just played): the reply at q is
      accepted and repeats the position exactly in the ko shape at q. */
  lemma ReplyRepeatsIffKoShape(b: Grid, size: nat, color: int, p: Point, q: Point, ko: Option<Point>)
    requires IsGrid(b, size) && IsColor(color) && AllAlive(b)
    requires Judge(b, size, color, p, ko) == Accepted
    ensures var b2 := Place(b, size, color, p);
      (Judge(b2, size, Opponent(color), q, KoPoint(b, b2, size, p)) == Accepted && Reply(b, size, color, p, q) == b)
      <==> KoShape(b, size, color, p, q)
  {
    var b2 := Place(b, size, color, p);
    ClearIsGrid(b[p := color], size, Captured(b, size, color, p));
    if KoShape(b, size, color, p, q) {
      KoShapeRepeats(b, size, color, p, q);
      ReplyAcceptedInKoShape(b, size, color, p, q);
    } else if Judge(b2, size, Opponent(color), q, KoPoint(b, b2, size, p)) == Accepted
              && Reply(b, size, color, p, q) == b {
      RepetitionNeedsKoShape(b, size, color, p, q);
    }
  }

  lemma LoneGroup(b: Grid, p: Point)
    requires p in b && forall m :: m in b && Adjacent(p, m) ==> b[m] != b[p]
    ensures Group(b, p) == {p}
  {
    GroupOf(b, p);
    ComponentWithin(CellsOf(b, b[p]), {p}, p);
  }

  /** A ko in a corner:  W . W / B W . / . . .  with Black to play between the two white stones. */
  function ExampleCell(p: Point): int {
    if p in [Point(0, 0), Point(0, 2), Point(1, 1)] then WHITE
    else if p == Point(1, 0) then BLACK
    else EMPTY
  }

  ghost function KoExample(size: nat): (b: Grid)
    requires size >= 3
    ensures IsKoExample(b, size)
  {
    map p | p in AllPoints(size) :: ExampleCell(p)
  }

  ghost predicate IsKoExample(b: Grid, size: nat) {
    size >= 3 && IsGrid(b, size) && forall p :: p in b ==> b[p] == ExampleCell(p)
  }

  lemma KoExampleLone(b: Grid, size: nat, b1: Grid, p: Point)
    requires IsKoExample(b, size) && (b1 == b || b1 == b[Point(0, 1) := BLACK])
    requires p in b1 && b1[p] != EMPTY
    ensures Group(b1, p) == {p}
  {
    LoneGroup(b1, p);
  }

  lemma KoExampleLiberty(b: Grid, size: nat, b1: Grid, p: Point, l: Point)
    requires IsKoExample(b, size) && (b1 == b || b1 == b[Point(0, 1) := BLACK])
    requires p in b1 && b1[p] != EMPTY && l in b1 && b1[l] == EMPTY && Adjacent(p, l)
    ensures Alive(b1, p)
  {
    KoExampleLone(b, size, b1, p);
    assert l in Liberties(b1, {p});
  }

  lemma KoExampleAlive(b: Grid, size: nat, p: Point)
    requires IsKoExample(b, size) && p in b && b[p] != EMPTY
    ensures Alive(b, p)
  {
    var l := if p == Point(0, 0) then Point(0, 1)
             else if p == Point(0, 2) then Point(1, 2)
             else if p == Point(1, 1) then Point(2, 1)
             else Point(2, 0);
    KoExampleLiberty(b, size, b, p, l);
  }

  lemma KoExampleCapture(b: Grid, size: nat)
    requires IsKoExample(b, size)
    ensures CanPut(b, size, BLACK, Point(0, 1))
    ensures Captured(b, size, BLACK, Point(0, 1)) == {Point(0, 0)}
  {
    var p, q := Point(0, 1), Point(0, 0);
    var b1 := b[p := BLACK];
    KoExampleLone(b, size, b1, q);
    assert Liberties(b1, {q}) == {};
    KoExampleAlive(b, size, q);
    DeadAreCaptured(b, size, BLACK, p, q);
    forall x | x in Captured(b, size, BLACK, p)
      ensures x == q
    {
      CapturedAreDead(b, size, BLACK, p, x);
      if x != q {
        KoExampleLiberty(b, size, b1, x, if x == Point(0, 2) then Point(1, 2) else Point(2, 1));
      }
    }
  }

  lemma KoExampleShape(b: Grid, size: nat)
    requires IsKoExample(b, size)
    ensures Judge(b, size, BLACK, Point(0, 1), None) == Accepted
    ensures KoShape(b, size, BLACK, Point(0, 1), Point(0, 0))
  {
    var p, q := Point(0, 1), Point(0, 0);
    KoExampleCapture(b, size);
    CaptureGivesLiberty(b, size, BLACK, p);
    var b2 := Place(b, size, BLACK, p);
    LoneGroup(b2, p);
    assert q in Captured(b, size, BLACK, p);
    forall l | l in b2 && b2[l] == EMPTY && Adjacent(p, l)
      ensures l == q
    {
    }
    assert b2[q] == EMPTY && Adjacent(p, q);
    assert Liberties(b2, {p}) == {q};
  }

  /** Article 6 does not hold of the engine on any board of at least 3 x 3 points: here the
      immediate recapture is accepted and brings the old position back. */
  lemma RecaptureAccepted(size: nat)
    requires size >= 3
    ensures var b, p, q := KoExample(size), Point(0, 1), Point(0, 0);
      && IsGrid(b, size) && AllAlive(b) && Judge(b, size, BLACK, p, None) == Accepted
      && Judge(Place(b, size, BLACK, p), size, WHITE, q, KoPoint(b, Place(b, size, BLACK, p), size, p)) == Accepted
      && Reply(b, size, BLACK, p, q) == b
  {
    var b := KoExample(size);
    forall p | p in b && b[p] != EMPTY
      ensures Alive(b, p)
    {
      KoExampleAlive(b, size, p);
    }
    KoExampleShape(b, size);
    ReplyRepeatsIffKoShape(b, size, BLACK, Point(0, 1), Point(0, 0), None);
  }
}
