/** Parent-child links between tickets and the search that is meant to keep them acyclic. */
module TaskLinks {
  import opened Points
  import opened Regions

  type TicketId = string

  datatype Link = Link(parent: TicketId, child: TicketId)

  // ---------------------------------------------------------------- ancestry

  /** A walk upwards: each ticket's successor on it is one of its parents. */
  ghost predicate IsChain(links: set<Link>, chain: seq<TicketId>) {
    |chain| > 0 && forall i :: 0 < i < |chain| ==> Link(chain[i], chain[i - 1]) in links
  }

  ghost predicate Climbs(links: set<Link>, chain: seq<TicketId>, low: TicketId, high: TicketId) {
    IsChain(links, chain) && chain[0] == low && chain[|chain| - 1] == high
  }

  /** `high` is `low` itself or one of its ancestors. */
  ghost predicate Above(links: set<Link>, low: TicketId, high: TicketId) {
    exists chain :: Climbs(links, chain, low, high)
  }

  /** No link's parent is below its own child: nothing is its own ancestor. */
  ghost predicate Acyclic(links: set<Link>) {
    forall l :: l in links ==> !Above(links, l.parent, l.child)
  }

  lemma AboveSelf(links: set<Link>, x: TicketId)
    ensures Above(links, x, x)
  {
    assert Climbs(links, [x], x, x);
  }

  lemma AboveStep(links: set<Link>, x: TicketId, y: TicketId, z: TicketId)
    requires Above(links, x, y) && Link(z, y) in links
    ensures Above(links, x, z)
  {
    var chain :| Climbs(links, chain, x, y);
    assert Climbs(links, chain + [z], x, z);
  }

  lemma AboveTrans(links: set<Link>, x: TicketId, y: TicketId, z: TicketId)
    requires Above(links, x, y) && Above(links, y, z)
    ensures Above(links, x, z)
  {
    var lower :| Climbs(links, lower, x, y);
    var upper :| Climbs(links, upper, y, z);
    var chain := lower + upper[1..];
    forall i | 0 < i < |chain|
      ensures Link(chain[i], chain[i - 1]) in links
    {
      if i >= |lower| {
        assert chain[i] == upper[i - |lower| + 1];
        assert chain[i - 1] == upper[i - |lower|];
      }
    }
    assert Climbs(links, chain, x, z);
  }

  lemma AboveMore(links: set<Link>, more: set<Link>, x: TicketId, y: TicketId)
    requires Above(links, x, y) && links <= more
    ensures Above(more, x, y)
  {
    var chain :| Climbs(links, chain, x, y);
    assert Climbs(more, chain, x, y);
  }

  /** A set of tickets that contains every parent of its members contains every ancestor. */
  lemma {:induction false} ChainStays(links: set<Link>, part: set<TicketId>, chain: seq<TicketId>)
    requires IsChain(links, chain) && chain[0] in part
    requires forall l :: l in links && l.child in part ==> l.parent in part
    ensures chain[|chain| - 1] in part
  {
    if |chain| > 1 {
      var front := chain[..|chain| - 1];
      assert IsChain(links, front);
      ChainStays(links, part, front);
      assert Link(chain[|chain| - 1], chain[|chain| - 2]) in links;
    }
  }

  /** What one more link adds to ancestry: the walks that pass over it once. */
  lemma {:induction false} ChainOverLink(links: set<Link>, l: Link, chain: seq<TicketId>)
    requires IsChain(links + {l}, chain)
    ensures Above(links, chain[0], chain[|chain| - 1]) ||
      (Above(links, chain[0], l.child) && Above(links, l.parent, chain[|chain| - 1]))
  {
    var n := |chain|;
    if n == 1 {
      AboveSelf(links, chain[0]);
    } else {
      var front := chain[..n - 1];
      assert IsChain(links + {l}, front);
      ChainOverLink(links, l, front);
      var step := Link(chain[n - 1], chain[n - 2]);
      assert step in links + {l};
      if step == l {
        AboveSelf(links, l.parent);
      } else if Above(links, chain[0], chain[n - 2]) {
        AboveStep(links, chain[0], chain[n - 2], chain[n - 1]);
      } else {
        AboveStep(links, l.parent, chain[n - 2], chain[n - 1]);
      }
    }
  }

  lemma AboveOverLink(links: set<Link>, l: Link, x: TicketId, y: TicketId)
    ensures Above(links + {l}, x, y) <==>
      Above(links, x, y) || (Above(links, x, l.child) && Above(links, l.parent, y))
  {
    var more := links + {l};
    if Above(more, x, y) {
      var chain :| Climbs(more, chain, x, y);
      ChainOverLink(links, l, chain);
    }
    if Above(links, x, y) {
      AboveMore(links, more, x, y);
    }
    if Above(links, x, l.child) && Above(links, l.parent, y) {
      AboveMore(links, more, x, l.child);
      AboveMore(links, more, l.parent, y);
      AboveStep(more, x, l.child, l.parent);
      AboveTrans(more, x, l.parent, y);
    }
  }

  // ---------------------------------------------------------------- the search

  /** The rows of the parent query, in whatever order the database returns them. */
  method QueryParents(links: set<Link>, child: TicketId) returns (parents: seq<TicketId>)
    ensures Distinct(parents) && forall p :: p in parents <==> Link(p, child) in links
  {
    parents := [];
    var left := links;
    while left != {}
      invariant left <= links && Distinct(parents)
      invariant forall p :: p in parents <==> Link(p, child) in links - left
      decreases left
    {
      var l :| l in left;
      left := left - {l};
      if l.child == child {
        parents := parents + [l.parent];
      }
    }
  }

  ghost function Tickets(links: set<Link>): set<TicketId> {
    (set l | l in links :: l.parent) + (set l | l in links :: l.child)
  }

  /** Every ancestor of the child not yet seen is above something still queued. */
  ghost predicate Covers(links: set<Link>, visited: set<TicketId>, queue: seq<TicketId>) {
    forall l :: l in links && l.child in visited ==> l.parent in visited || l.parent in queue
  }

  lemma SearchDone(links: set<Link>, visited: set<TicketId>, child: TicketId, parent: TicketId)
    requires Covers(links, visited, []) && child in visited && parent !in visited
    ensures !Above(links, child, parent)
  {
    if Above(links, child, parent) {
      var chain :| Climbs(links, chain, child, parent);
      ChainStays(links, visited, chain);
    }
  }

  /** Breadth-first from `child` along parent edges. The queue may hold a ticket many times and
      the links may form cycles; the search ends because a ticket is expanded only once. It
      reports exactly whether `parent` is `child` or one of its ancestors. */
  method DetectCycle(links: set<Link>, parent: TicketId, child: TicketId) returns (found: bool)
    ensures found <==> Above(links, child, parent)
  {
    var visited: set<TicketId> := {};
    var queue := [child];
    ghost var all := Tickets(links) + {child};
    AboveSelf(links, child);
    while queue != []
      invariant visited <= all && parent !in visited
      invariant forall x :: x in queue ==> x in all && Above(links, child, x)
      invariant child in visited || child in queue
      invariant Covers(links, visited, queue)
      decreases |all - visited|, |queue|
    {
      var current := queue[0];
      ghost var before := queue;
      queue := queue[1..];
      assert forall x :: x in before ==> x == current || x in queue;
      if current == parent {
        return true;
      }
      if current in visited {
        continue;
      }
      assert current in all - visited;
      Smaller(all - (visited + {current}), (all - visited) - {current});
      visited := visited + {current};
      var rows := QueryParents(links, current);
      forall p | p in rows
        ensures p in all && Above(links, child, p)
      {
        AboveStep(links, child, current, p);
        assert Link(p, current) in links;
      }
      queue := queue + rows;
    }
    SearchDone(links, visited, child, parent);
    return false;
  }

  // ---------------------------------------------------------------- the table

  datatype LinkError = SelfLink | CycleDetected | LinkNotFound

  /** Whether AddTaskLink inserts the pair, as the search decides it. */
  ghost predicate Accepts(links: set<Link>, parent: TicketId, child: TicketId) {
    parent != child && !Above(links, child, parent)
  }

  class TaskLinkTable {
    var links: set<Link>

    constructor ()
      ensures links == {}
    {
      links := {};
    }

    /** Inserts the link unless it is a self-link or the search finds the parent. */
    method AddTaskLink(parent: TicketId, child: TicketId) returns (error: Option<LinkError>)
      modifies this
      ensures error == None <==> Accepts(old(links), parent, child)
      ensures error == None <==> parent != child && !Above(old(links), child, parent)
      ensures error == Some(SelfLink) <==> parent == child
      ensures error != Some(LinkNotFound)
      ensures links == if error == None then old(links) + {Link(parent, child)} else old(links)
    {
      if parent == child {
        return Some(SelfLink);
      }
      var found := DetectCycle(links, parent, child);
      if found {
        return Some(CycleDetected);
      }
      links := links + {Link(parent, child)};
      return None;
    }

    method RemoveTaskLink(parent: TicketId, child: TicketId) returns (error: Option<LinkError>)
      modifies this
      ensures links == old(links) - {Link(parent, child)}
      ensures error == (if Link(parent, child) in old(links) then None else Some(LinkNotFound))
    {
      if Link(parent, child) !in links {
        return Some(LinkNotFound);
      }
      links := links - {Link(parent, child)};
      return None;
    }

    /** The parents and the children of a ticket, each once. */
    method GetTaskLinks(ticket: TicketId) returns (parents: seq<TicketId>, children: seq<TicketId>)
      ensures Distinct(parents) && forall p :: p in parents <==> Link(p, ticket) in links
      ensures Distinct(children) && forall c :: c in children <==> Link(ticket, c) in links
    {
      parents := QueryParents(links, ticket);
      children := [];
      var left := links;
      while left != {}
        invariant left <= links && Distinct(children)
        invariant forall c :: c in children <==> Link(ticket, c) in links - left
        decreases left
      {
        var l :| l in left;
        left := left - {l};
        if l.parent == ticket {
          children := children + [l.child];
        }
      }
    }
  }

  // ---------------------------------------------------------------- what the guard is worth

  /** Exactly when one more link keeps the links acyclic: the child must not already be the
      parent or an ancestor of it. */
  lemma LinkKeepsAcyclicIff(links: set<Link>, parent: TicketId, child: TicketId)
    requires Acyclic(links)
    ensures Acyclic(links + {Link(parent, child)}) <==> !Above(links, parent, child)
  {
    var l := Link(parent, child);
    var more := links + {l};
    AboveOverLink(links, l, parent, child);
    if !Above(links, parent, child) {
      forall m | m in more
        ensures !Above(more, m.parent, m.child)
      {
        AboveOverLink(links, l, m.parent, m.child);
        if m != l && Above(links, m.parent, l.child) && Above(links, l.parent, m.child) {
          AboveSelf(links, m.child);
          AboveStep(links, m.child, m.child, m.parent);
          AboveTrans(links, l.parent, m.child, m.parent);
          AboveTrans(links, l.parent, m.parent, l.child);
        }
      }
    } else {
      assert l in more;
    }
  }

  /** The guard as written looks the other way: on acyclic links, apart from self-links, it
      never refuses a link that would have closed a cycle. */
  lemma RefusalsAreNeedless(links: set<Link>, parent: TicketId, child: TicketId)
    requires Acyclic(links) && parent != child && !Accepts(links, parent, child)
    ensures Acyclic(links + {Link(parent, child)})
  {
    if Above(links, parent, child) {
      var chain :| Climbs(links, chain, parent, child);
      assert |chain| > 1;
      var upper := chain[1..];
      assert Link(chain[1], parent) in links;
      assert IsChain(links, upper) && Climbs(links, upper, chain[1], child);
      assert Above(links, chain[1], child);
      AboveTrans(links, chain[1], child, parent);
    }
    LinkKeepsAcyclicIff(links, parent, child);
  }

  /** A link and its reverse are both accepted, whatever the two tickets are. */
  lemma ReverseLinkAccepted(a: TicketId, b: TicketId)
    requires a != b
    ensures Accepts({}, a, b) && Accepts({Link(a, b)}, b, a) && !Acyclic({Link(a, b), Link(b, a)})
  {
    if Above({}, b, a) {
      var chain :| Climbs({}, chain, b, a);
      ChainStays({}, {b}, chain);
    }
    if Above({Link(a, b)}, a, b) {
      var chain :| Climbs({Link(a, b)}, chain, a, b);
      ChainStays({Link(a, b)}, {a}, chain);
    }
    var both := {Link(a, b), Link(b, a)};
    assert Climbs(both, [a, b], a, b);
  }

  /** The guard with the two roles exchanged: DetectCycle(links, child, parent) reports false. */
  ghost predicate AcceptsSwapped(links: set<Link>, parent: TicketId, child: TicketId) {
    parent != child && !Above(links, parent, child)
  }

  datatype Edit = Add(parent: TicketId, child: TicketId) | Remove(parent: TicketId, child: TicketId)

  /** The table after a run of edits, each link being inserted if the guard accepts it. */
  ghost function Edited(edits: seq<Edit>, accepts: (set<Link>, TicketId, TicketId) -> bool): set<Link> {
    if edits == [] then {}
    else
      var before := Edited(edits[..|edits| - 1], accepts);
      match edits[|edits| - 1]
      case Add(p, c) => if accepts(before, p, c) then before + {Link(p, c)} else before
      case Remove(p, c) => before - {Link(p, c)}
  }

  lemma FewerStayAcyclic(links: set<Link>, fewer: set<Link>)
    requires Acyclic(links) && fewer <= links
    ensures Acyclic(fewer)
  {
    forall l | l in fewer
      ensures !Above(fewer, l.parent, l.child)
    {
      if Above(fewer, l.parent, l.child) {
        AboveMore(fewer, links, l.parent, l.child);
      }
    }
  }

  /** With the roles exchanged every run of edits keeps the links acyclic. */
  lemma {:induction false} SwappedGuardKeepsAcyclic(edits: seq<Edit>)
    ensures Acyclic(Edited(edits, AcceptsSwapped))
  {
    if edits != [] {
      var front := edits[..|edits| - 1];
      var before := Edited(front, AcceptsSwapped);
      SwappedGuardKeepsAcyclic(front);
      match edits[|edits| - 1]
      case Add(p, c) =>
        if AcceptsSwapped(before, p, c) {
          LinkKeepsAcyclicIff(before, p, c);
        }
      case Remove(p, c) => FewerStayAcyclic(before, before - {Link(p, c)});
    }
  }
}
