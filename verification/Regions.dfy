/** Connected components of a set of points, and the breadth-first search that every
    flood fill of the engine performs. */
module Regions {
  import opened Points

  /** A walk inside `cells` that moves to an adjacent point at every step. */
  ghost predicate IsPath(cells: set<Point>, path: seq<Point>) {
    && |path| > 0
    && (forall i :: 0 <= i < |path| ==> path[i] in cells)
    && (forall i :: 0 < i < |path| ==> Adjacent(path[i - 1], path[i]))
  }

  ghost predicate Joins(cells: set<Point>, path: seq<Point>, p: Point, q: Point) {
    IsPath(cells, path) && path[0] == p && path[|path| - 1] == q
  }

  ghost predicate Reach(cells: set<Point>, p: Point, q: Point) {
    exists path :: Joins(cells, path, p, q)
  }

  /** The maximal connected set of cells that contains p. */
  ghost function Component(cells: set<Point>, p: Point): set<Point> {
    set q | q in cells && Reach(cells, p, q)
  }

  /** No cell outside `part` is adjacent to a point of `part`. */
  ghost predicate Closed(cells: set<Point>, part: set<Point>) {
    forall x, y :: x in part && y in cells && Adjacent(x, y) ==> y in part
  }

  lemma ReachSelf(cells: set<Point>, p: Point)
    requires p in cells
    ensures Reach(cells, p, p)
  {
    assert Joins(cells, [p], p, p);
  }

  lemma ReachStep(cells: set<Point>, p: Point, q: Point, r: Point)
    requires Reach(cells, p, q) && r in cells && Adjacent(q, r)
    ensures Reach(cells, p, r)
  {
    var path :| Joins(cells, path, p, q);
    assert Joins(cells, path + [r], p, r);
  }

  lemma {:induction false} PathStays(cells: set<Point>, part: set<Point>, path: seq<Point>)
    requires IsPath(cells, path) && Closed(cells, part) && path[0] in part
    ensures path[|path| - 1] in part
  {
    if |path| > 1 {
      var front := path[..|path| - 1];
      assert IsPath(cells, front);
      PathStays(cells, part, front);
    }
  }

  /** A closed set that contains p contains the whole component of p. */
  lemma ComponentWithin(cells: set<Point>, part: set<Point>, p: Point)
    requires Closed(cells, part) && p in part
    ensures Component(cells, p) <= part
  {
    forall q | q in Component(cells, p)
      ensures q in part
    {
      var path :| Joins(cells, path, p, q);
      PathStays(cells, part, path);
    }
  }

  lemma ComponentClosed(cells: set<Point>, p: Point)
    requires p in cells
    ensures p in Component(cells, p) && Closed(cells, Component(cells, p))
  {
    ReachSelf(cells, p);
    forall x, y | x in Component(cells, p) && y in cells && Adjacent(x, y)
      ensures y in Component(cells, p)
    {
      ReachStep(cells, p, x, y);
    }
  }

  /** A connected set is the component of p as soon as it is closed and minimal. */
  lemma ComponentUnique(cells: set<Point>, part: set<Point>, p: Point)
    requires p in part && part <= Component(cells, p) && Closed(cells, part)
    ensures part == Component(cells, p)
  {
    ComponentWithin(cells, part, p);
  }

  lemma ClosedComplement(cells: set<Point>, part: set<Point>)
    requires Closed(cells, part)
    ensures Closed(cells, cells - part)
  {
  }

  /** Membership in a component is symmetric: components partition the cells. */
  lemma ComponentSame(cells: set<Point>, p: Point, q: Point)
    requires p in cells && q in Component(cells, p)
    ensures Component(cells, q) == Component(cells, p)
  {
    var cp, cq := Component(cells, p), Component(cells, q);
    ComponentClosed(cells, p);
    ComponentClosed(cells, q);
    ComponentWithin(cells, cp, q);
    if p !in cq {
      ClosedComplement(cells, cq);
      ComponentWithin(cells, cells - cq, p);
      assert false;
    }
    ComponentWithin(cells, cq, p);
  }

  /** Removing a union of whole components leaves every other component as it was. */
  lemma ComponentMinusClosed(cells: set<Point>, gone: set<Point>, p: Point)
    requires Closed(cells, gone) && p in cells && p !in gone
    ensures Component(cells - gone, p) == Component(cells, p)
    ensures Component(cells, p) !! gone
  {
    var rest := cells - gone;
    ClosedComplement(cells, gone);
    ComponentWithin(cells, rest, p);
    ComponentClosed(rest, p);
    var c := Component(rest, p);
    forall x, y | x in c && y in cells && Adjacent(x, y)
      ensures y in c
    {
      assert y in rest;
    }
    ComponentWithin(cells, c, p);
    ComponentClosed(cells, p);
    ComponentWithin(rest, Component(cells, p), p);
  }

  /** Adding a cell that does not touch a component leaves that component as it was. */
  lemma ComponentPlusFar(cells: set<Point>, extra: Point, p: Point)
    requires p in cells
    requires extra !in Component(cells + {extra}, p)
    ensures Component(cells + {extra}, p) == Component(cells, p)
  {
    var more := cells + {extra};
    ComponentClosed(more, p);
    ComponentClosed(cells, p);
    ComponentWithin(cells, Component(more, p), p);
    var c := Component(cells, p);
    forall x, y | x in c && y in more && Adjacent(x, y)
      ensures y in c
    {
      assert x in Component(more, p);
    }
    ComponentWithin(more, c, p);
  }

  // ---------------------------------------------------------------- breadth-first search

  lemma {:induction false} Smaller<T>(a: set<T>, b: set<T>)
    requires a <= b
    ensures |a| <= |b|
    decreases a
  {
    if a != {} {
      var x :| x in a;
      Smaller(a - {x}, b - {x});
    }
  }

  lemma VisitShrinks(cells: set<Point>, visited: set<Point>, p: Point)
    requires p in cells && p !in visited
    ensures |cells - (visited + {p})| < |cells - visited|
  {
    assert cells - (visited + {p}) == (cells - visited) - {p};
  }

  /** What a queue-and-visited search still dequeues, in order: first it looks at the pending
      neighbours `nbs`, marking and enqueuing the unvisited cells among them, then it takes the
      next point from the queue. */
  ghost function Search(size: nat, cells: set<Point>, visited: set<Point>, queue: seq<Point>,
                        nbs: seq<Point>): seq<Point>
    decreases |cells - visited|, |queue|, |nbs|
  {
    if nbs != [] then
      if nbs[0] in cells && nbs[0] !in visited then
        VisitShrinks(cells, visited, nbs[0]);
        Search(size, cells, visited + {nbs[0]}, queue + [nbs[0]], nbs[1..])
      else Search(size, cells, visited, queue, nbs[1..])
    else if queue != [] then
      [queue[0]] + Search(size, cells, visited, queue[1..], Neighbors(queue[0], size))
    else []
  }

  lemma SearchStep(size: nat, cells: set<Point>, visited: set<Point>, queue: seq<Point>, nbs: seq<Point>, i: nat)
    requires i < |nbs|
    ensures var nb := nbs[i];
      Search(size, cells, visited, queue, nbs[i..]) ==
      if nb in cells && nb !in visited
      then Search(size, cells, visited + {nb}, queue + [nb], nbs[i + 1..])
      else Search(size, cells, visited, queue, nbs[i + 1..])
  {
  }

  /** Taking the next point from the queue moves it to the output; what is still to come and
      what is out make up the whole search. */
  lemma Dequeue(size: nat, cells: set<Point>, visited: set<Point>, queue: seq<Point>, out: seq<Point>, all: seq<Point>)
    requires queue != [] && out + Search(size, cells, visited, queue, []) == all
    ensures out + [queue[0]] + Search(size, cells, visited, queue[1..], Neighbors(queue[0], size)) == all
    ensures |out| < |all| && all[|out|] == queue[0]
  {
  }

  /** The queue holds visited cells, each once. */
  ghost predicate Ready(cells: set<Point>, visited: set<Point>, queue: seq<Point>) {
    Distinct(queue) && forall x :: x in queue ==> x in visited && x in cells
  }

  lemma DistinctConcat<T>(s: seq<T>, t: seq<T>)
    requires Distinct(s) && Distinct(t)
    requires forall x :: x in s ==> x !in t
    ensures Distinct(s + t)
  {
    var u := s + t;
    forall i, j | 0 <= i < j < |u|
      ensures u[i] != u[j]
    {
      if i < |s| <= j {
        assert u[i] in s && u[j] in t;
      }
    }
  }

  /** From any intermediate state the search returns the queue and unvisited cells, each once. */
  lemma {:induction false} SearchDistinct(size: nat, cells: set<Point>, visited: set<Point>, queue: seq<Point>,
        nbs: seq<Point>)
    requires Ready(cells, visited, queue)
    ensures var r := Search(size, cells, visited, queue, nbs);
      && Distinct(r)
      && (forall x :: x in queue ==> x in r)
      && (forall x :: x in r ==> x in cells && (x in queue || x !in visited))
    decreases |cells - visited|, |queue|, |nbs|
  {
    if nbs != [] {
      if nbs[0] in cells && nbs[0] !in visited {
        VisitShrinks(cells, visited, nbs[0]);
        DistinctConcat(queue, [nbs[0]]);
        SearchDistinct(size, cells, visited + {nbs[0]}, queue + [nbs[0]], nbs[1..]);
      } else {
        SearchDistinct(size, cells, visited, queue, nbs[1..]);
      }
    } else if queue != [] {
      var nbs' := Neighbors(queue[0], size);
      SearchDistinct(size, cells, visited, queue[1..], nbs');
      DistinctConcat([queue[0]], Search(size, cells, visited, queue[1..], nbs'));
    }
  }

  /** The pending neighbours that are cells end up visited. */
  lemma {:induction false} SearchTakes(size: nat, cells: set<Point>, visited: set<Point>, queue: seq<Point>,
                                       nbs: seq<Point>, y: Point)
    requires Ready(cells, visited, queue) && y in nbs && y in cells
    ensures y in visited || y in Search(size, cells, visited, queue, nbs)
    decreases |cells - visited|, |queue|, |nbs|
  {
    if nbs[0] in cells && nbs[0] !in visited {
      VisitShrinks(cells, visited, nbs[0]);
      DistinctConcat(queue, [nbs[0]]);
      SearchDistinct(size, cells, visited + {nbs[0]}, queue + [nbs[0]], nbs[1..]);
      if y != nbs[0] {
        SearchTakes(size, cells, visited + {nbs[0]}, queue + [nbs[0]], nbs[1..], y);
      } else {
        assert y in queue + [y];
      }
    } else if y != nbs[0] {
      SearchTakes(size, cells, visited, queue, nbs[1..], y);
    }
  }

  /** The result is closed up to what was visited before. */
  lemma {:induction false} SearchCloses(size: nat, cells: set<Point>, visited: set<Point>, queue: seq<Point>,
                                        nbs: seq<Point>, x: Point, y: Point)
    requires OnBoard(cells, size) && Ready(cells, visited, queue)
    requires x in Search(size, cells, visited, queue, nbs) && y in cells && Adjacent(x, y)
    ensures y in visited || y in Search(size, cells, visited, queue, nbs)
    decreases |cells - visited|, |queue|, |nbs|
  {
    if nbs != [] {
      if nbs[0] in cells && nbs[0] !in visited {
        VisitShrinks(cells, visited, nbs[0]);
        DistinctConcat(queue, [nbs[0]]);
        SearchCloses(size, cells, visited + {nbs[0]}, queue + [nbs[0]], nbs[1..], x, y);
        SearchTakes(size, cells, visited, queue, nbs, nbs[0]);
      } else {
        SearchCloses(size, cells, visited, queue, nbs[1..], x, y);
      }
    } else {
      NeighborsAreAdjacent(queue[0], size);
      if x == queue[0] {
        SearchTakes(size, cells, visited, queue[1..], Neighbors(x, size), y);
      } else {
        SearchCloses(size, cells, visited, queue[1..], Neighbors(queue[0], size), x, y);
      }
    }
  }

  /** The search stays inside every closed set that holds the queue and the pending cells. */
  lemma {:induction false} SearchWithin(size: nat, cells: set<Point>, visited: set<Point>, queue: seq<Point>,
                                        nbs: seq<Point>, part: set<Point>)
    requires Closed(cells, part)
    requires forall x :: x in queue ==> x in part
    requires forall x :: x in nbs && x in cells ==> x in part
    ensures forall x :: x in Search(size, cells, visited, queue, nbs) ==> x in part
    decreases |cells - visited|, |queue|, |nbs|
  {
    if nbs != [] {
      if nbs[0] in cells && nbs[0] !in visited {
        VisitShrinks(cells, visited, nbs[0]);
        SearchWithin(size, cells, visited + {nbs[0]}, queue + [nbs[0]], nbs[1..], part);
      } else {
        SearchWithin(size, cells, visited, queue, nbs[1..], part);
      }
    } else if queue != [] {
      NeighborsAreAdjacent(queue[0], size);
      SearchWithin(size, cells, visited, queue[1..], Neighbors(queue[0], size), part);
    }
  }

  ghost predicate OnBoard(cells: set<Point>, size: nat) {
    forall p :: p in cells ==> On(p, size)
  }

  /** Started at p with whole regions already visited, the search visits exactly the
      component of p, each point once. */
  lemma SearchIsComponent(size: nat, cells: set<Point>, done: set<Point>, p: Point)
    requires OnBoard(cells, size) && p in cells && p !in done && Closed(cells, done)
    ensures var r := Search(size, cells, done + {p}, [p], []);
      Distinct(r) && SetOf(r) == Component(cells, p) && |r| == |Component(cells, p)|
  {
    var r := Search(size, cells, done + {p}, [p], []);
    SearchDistinct(size, cells, done + {p}, [p], []);
    ComponentClosed(cells, p);
    SearchWithin(size, cells, done + {p}, [p], [], Component(cells, p));
    var part := SetOf(r);
    assert p in [p];
    forall x, y | x in part && y in cells && Adjacent(x, y)
      ensures y in part
    {
      SearchCloses(size, cells, done + {p}, [p], [], x, y);
      assert Adjacent(y, x);
    }
    ComponentUnique(cells, part, p);
    DistinctSize(r);
  }

  lemma {:induction false} DistinctSize<T>(s: seq<T>)
    requires Distinct(s)
    ensures |SetOf(s)| == |s|
  {
    if s != [] {
      var t := s[..|s| - 1];
      DistinctSize(t);
      assert SetOf(s) == SetOf(t) + {s[|s| - 1]};
    }
  }

  lemma SetOfSnoc<T>(s: seq<T>, x: T)
    ensures SetOf(s + [x]) == SetOf(s) + {x}
  {
  }

  lemma OneElement<T>(s: set<T>, x: T, y: T)
    requires |s| == 1 && x in s && y in s
    ensures x == y
  {
    if x != y {
      Smaller({x, y}, s);
    }
  }
}
