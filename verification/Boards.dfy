/** The meaning of a position: groups, liberties, captures and verdicts, stated on board values. */
module Boards {
  import opened Points
  import opened Regions

  const EMPTY := 0
  const BLACK := 1
  const WHITE := 2

  /** The first c points of a row. */
  ghost function RowPoints(row: int, c: nat): (points: set<Point>)
    ensures forall p :: p in points <==> p.row == row && 0 <= p.col < c
  {
    if c == 0 then {} else RowPoints(row, c - 1) + {Point(row, c - 1)}
  }

  /** The points of the first r rows. */
  ghost function RowsPoints(r: nat, size: nat): (points: set<Point>)
    ensures forall p :: p in points <==> 0 <= p.row < r && 0 <= p.col < size
  {
    if r == 0 then {} else RowsPoints(r - 1, size) + RowPoints(r - 1, size)
  }

  ghost predicate CoversBoard(points: set<Point>, size: nat) {
    forall p :: p in points <==> On(p, size)
  }

  /** The points of a board. */
  ghost function AllPoints(size: nat): (points: set<Point>)
    ensures CoversBoard(points, size)
  {
    assert CoversBoard(RowsPoints(size, size), size);
    var points: set<Point> :| CoversBoard(points, size);
    points
  }

  /** A position: the colour of every point of a square board. */
  type Grid = map<Point, int>

  ghost predicate IsGrid(b: Grid, size: nat) {
    && (forall p :: p in b <==> On(p, size))
    && (forall p :: p in b ==> 0 <= b[p] <= 2)
  }

  function Opponent(color: int): int {
    3 - color
  }

  ghost predicate IsColor(color: int) {
    color == BLACK || color == WHITE
  }

  ghost function CellsOf(b: Grid, color: int): set<Point> {
    set p | p in b && b[p] == color
  }

  /** The maximal connected set of points of one colour around p: a group, or an empty region. */
  ghost function Group(b: Grid, p: Point): set<Point>
    requires p in b
  {
    Component(CellsOf(b, b[p]), p)
  }

  /** The points of a group in the order the engine's searches visit them. */
  ghost function GroupSeq(b: Grid, size: nat, p: Point): seq<Point>
    requires p in b
  {
    Search(size, CellsOf(b, b[p]), {p}, [p], [])
  }

  ghost function Liberties(b: Grid, group: set<Point>): set<Point> {
    set q | q in b && b[q] == EMPTY && exists p :: p in group && Adjacent(p, q)
  }

  ghost predicate Alive(b: Grid, p: Point)
    requires p in b
  {
    Liberties(b, Group(b, p)) != {}
  }

  /** Article 4: every stone on the board belongs to a group with a liberty. */
  ghost predicate AllAlive(b: Grid) {
    forall p :: p in b && b[p] != EMPTY ==> Alive(b, p)
  }

  ghost function Clear(b: Grid, gone: set<Point>): Grid {
    map p | p in b :: if p in gone then EMPTY else b[p]
  }

  /** The stones of `color` whose group contains a listed point and has no liberty. */
  ghost function DeadAt(b: Grid, color: int, at: seq<Point>): set<Point> {
    set q | q in b && b[q] == color &&
      exists m :: m in at && m in b && b[m] == color && !Alive(b, m) && q in Group(b, m)
  }

  /** What a move captures: the enemy groups next to the stone that it leaves without a liberty. */
  ghost function Captured(b: Grid, size: nat, color: int, p: Point): set<Point> {
    DeadAt(b[p := color], Opponent(color), Neighbors(p, size))
  }

  /** The position after a move: stone down, all those groups removed at once. */
  ghost function Place(b: Grid, size: nat, color: int, p: Point): Grid {
    Clear(b[p := color], Captured(b, size, color, p))
  }

  /** The capture list when the neighbours are visited one by one and each dead group is
      taken off before the next neighbour is looked at. */
  ghost function CaptureSeq(b: Grid, size: nat, color: int, at: seq<Point>): seq<Point> {
    if at == [] then []
    else if at[0] in b && b[at[0]] == color && !Alive(b, at[0]) then
      GroupSeq(b, size, at[0]) + CaptureSeq(Clear(b, Group(b, at[0])), size, color, at[1..])
    else CaptureSeq(b, size, color, at[1..])
  }

  /** The position after that one-by-one removal. */
  ghost function CaptureBoard(b: Grid, color: int, at: seq<Point>): Grid {
    if at == [] then b
    else if at[0] in b && b[at[0]] == color && !Alive(b, at[0]) then
      CaptureBoard(Clear(b, Group(b, at[0])), color, at[1..])
    else CaptureBoard(b, color, at[1..])
  }

  ghost function Captures(b: Grid, size: nat, color: int, p: Point): seq<Point> {
    CaptureSeq(b[p := color], size, Opponent(color), Neighbors(p, size))
  }

  datatype Verdict = Accepted | OutsideBoard | PointOccupied | KoViolation | Suicide

  /** The verdict on a move: the checks in the order in which they are made. */
  ghost function Judge(b: Grid, size: nat, color: int, p: Point, ko: Option<Point>): Verdict {
    if !On(p, size) || p !in b then OutsideBoard
    else if b[p] != EMPTY then PointOccupied
    else if ko == Some(p) then KoViolation
    else if !Alive(Place(b, size, color, p), p) then Suicide
    else Accepted
  }

  /** The points other than `at` whose colour differs between two positions. */
  ghost function Changed(prev: Grid, next: Grid, at: Point): set<Point> {
    set q | q in prev && q in next && q != at && prev[q] != next[q]
  }

  ghost predicate LoneIn(prev: Grid, size: nat, q: Point) {
    q in prev && forall m :: m in Neighbors(q, size) && m in prev ==> prev[m] != prev[q]
  }

  /** The ko point recorded after a move: the point just played, when exactly one other point
      changed and that point had no neighbour of its own colour before. */
  ghost function KoPoint(prev: Grid, next: Grid, size: nat, at: Point): Option<Point> {
    var diff := Changed(prev, next, at);
    if |diff| == 1 && (forall q :: q in diff ==> LoneIn(prev, size, q)) then Some(at) else None
  }

  /** The points of a set that a row-by-row scan has passed when it stands at (r, c). */
  ghost function ScannedPart(points: set<Point>, r: int, c: int): set<Point> {
    set q | q in points && (q.row < r || (q.row == r && q.col < c))
  }

  lemma ScannedStep(points: set<Point>, r: int, c: int)
    ensures ScannedPart(points, r, c + 1) ==
      ScannedPart(points, r, c) + if Point(r, c) in points then {Point(r, c)} else {}
    ensures Point(r, c) !in ScannedPart(points, r, c)
    ensures |ScannedPart(points, r, c + 1)| == |ScannedPart(points, r, c)| + if Point(r, c) in points then 1 else 0
  {
  }

  lemma ScannedRow(points: set<Point>, r: int, size: nat)
    requires forall q :: q in points ==> On(q, size)
    ensures ScannedPart(points, r, size) == ScannedPart(points, r + 1, 0)
  {
  }

  lemma ScannedAll(points: set<Point>, size: nat)
    requires forall q :: q in points ==> On(q, size)
    ensures ScannedPart(points, size, 0) == points && ScannedPart(points, 0, 0) == {}
  {
  }
}
