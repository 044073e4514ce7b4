/** Board coordinates: orthogonal adjacency, the neighbour list and the visited-map keys. */
module Points {

  datatype Option<+T> = None | Some(value: T)

  datatype Point = Point(row: int, col: int)

  predicate InBounds(row: int, col: int, size: int) {
    0 <= row < size && 0 <= col < size
  }

  predicate On(p: Point, size: int) {
    InBounds(p.row, p.col, size)
  }

  /** Two points share an edge of the grid. */
  predicate Adjacent(p: Point, q: Point) {
    || (p.row == q.row && (p.col == q.col + 1 || q.col == p.col + 1))
    || (p.col == q.col && (p.row == q.row + 1 || q.row == p.row + 1))
  }

  ghost predicate Distinct<T>(s: seq<T>) {
    forall i, j :: 0 <= i < j < |s| ==> s[i] != s[j]
  }

  ghost function SetOf<T>(s: seq<T>): set<T> {
    set x | x in s
  }

  const DELTAS: seq<(int, int)> := [(-1, 0), (1, 0), (0, -1), (0, 1)]

  /** The neighbours reached through a list of offsets, keeping those on the board. */
  function Shifted(p: Point, size: int, ds: seq<(int, int)>): seq<Point> {
    if ds == [] then []
    else
      var q := Point(p.row + ds[0].0, p.col + ds[0].1);
      (if On(q, size) then [q] else []) + Shifted(p, size, ds[1..])
  }

  /** Up, down, left, right: the order in which every flood fill expands. */
  function Neighbors(p: Point, size: int): seq<Point> {
    Shifted(p, size, DELTAS)
  }

  function OnePoint(row: int, col: int, size: int): seq<Point> {
    if InBounds(row, col, size) then [Point(row, col)] else []
  }

  lemma ShiftedFirst(p: Point, size: int, d: (int, int), ds: seq<(int, int)>)
    ensures Shifted(p, size, [d] + ds) == OnePoint(p.row + d.0, p.col + d.1, size) + Shifted(p, size, ds)
  {
  }

  lemma ShiftedTwice(p: Point, size: int, d: (int, int), e: (int, int), ds: seq<(int, int)>)
    ensures Shifted(p, size, [d, e] + ds) ==
      OnePoint(p.row + d.0, p.col + d.1, size) + OnePoint(p.row + e.0, p.col + e.1, size) + Shifted(p, size, ds)
  {
  }

  lemma NeighborsUnfold(p: Point, size: int)
    ensures Neighbors(p, size) ==
      OnePoint(p.row - 1, p.col, size) + OnePoint(p.row + 1, p.col, size)
      + (OnePoint(p.row, p.col - 1, size) + OnePoint(p.row, p.col + 1, size))
  {
    ShiftedTwice(p, size, (-1, 0), (1, 0), [(0, -1), (0, 1)]);
    ShiftedTwice(p, size, (0, -1), (0, 1), []);
    assert [(0, -1), (0, 1)] + [] == [(0, -1), (0, 1)];
    assert [(-1, 0), (1, 0)] + [(0, -1), (0, 1)] == DELTAS;
  }

  /** The neighbour list names exactly the adjacent points of the board. */
  lemma NeighborsAreAdjacent(p: Point, size: int)
    ensures forall q :: q in Neighbors(p, size) <==> On(q, size) && Adjacent(p, q)
  {
    NeighborsUnfold(p, size);
  }

  /** They are the points above, below, to the left and to the right. */
  lemma NeighborsAreFour(p: Point, size: int, q: Point)
    ensures q in Neighbors(p, size) <==>
      && 0 <= q.row < size && 0 <= q.col < size
      && (q == Point(p.row - 1, p.col) || q == Point(p.row + 1, p.col)
          || q == Point(p.row, p.col - 1) || q == Point(p.row, p.col + 1))
  {
    NeighborsUnfold(p, size);
  }

  lemma NeighborsDistinct(p: Point, size: int)
    ensures Distinct(Neighbors(p, size))
  {
    NeighborsUnfold(p, size);
  }

  // ---------------------------------------------------------------- visited-map keys

  function Digit(d: nat): char
    requires d < 10
  {
    ['0', '1', '2', '3', '4', '5', '6', '7', '8', '9'][d]
  }

  lemma DigitInjective(d: nat, e: nat)
    requires d < 10 && e < 10 && Digit(d) == Digit(e)
    ensures d == e
  {
  }

  /** Decimal digits of a coordinate. */
  function Itoa(n: nat): string {
    if n < 10 then [Digit(n)] else Itoa(n / 10) + [Digit(n % 10)]
  }

  function CoordKey(p: Point): string
    requires p.row >= 0 && p.col >= 0
  {
    Itoa(p.row) + ":" + Itoa(p.col)
  }

  lemma {:induction false} ItoaHasNoColon(n: nat)
    ensures ':' !in Itoa(n) && |Itoa(n)| > 0
  {
    if n >= 10 {
      ItoaHasNoColon(n / 10);
    }
  }

  lemma {:induction false} ItoaInjective(m: nat, n: nat)
    requires Itoa(m) == Itoa(n)
    ensures m == n
    decreases m + n
  {
    var a, b := Itoa(m), Itoa(n);
    ItoaHasNoColon(m / 10);
    ItoaHasNoColon(n / 10);
    assert a[|a| - 1] == Digit(m % 10) && b[|b| - 1] == Digit(n % 10);
    DigitInjective(m % 10, n % 10);
    if m >= 10 && n >= 10 {
      assert a[..|a| - 1] == Itoa(m / 10) && b[..|b| - 1] == Itoa(n / 10);
      ItoaInjective(m / 10, n / 10);
    }
  }

  /** Distinct points have distinct keys, so a map keyed by CoordKey is a set of points. */
  lemma CoordKeyInjective(p: Point, q: Point)
    requires p.row >= 0 && p.col >= 0 && q.row >= 0 && q.col >= 0
    requires CoordKey(p) == CoordKey(q)
    ensures p == q
  {
    var a, b := Itoa(p.row), Itoa(q.row);
    var k := CoordKey(p);
    ItoaHasNoColon(p.row);
    ItoaHasNoColon(q.row);
    assert k[|a|] == ':' && k[|b|] == ':';
    assert |a| == |b|;
    assert k[..|a|] == a && k[..|b|] == b;
    ItoaInjective(p.row, q.row);
    assert k[|a| + 1..] == Itoa(p.col) && k[|b| + 1..] == Itoa(q.col);
    ItoaInjective(p.col, q.col);
  }
}
