/** How many active in-progress tickets the claimers can hold. */
module TicketRules {
  import opened Points
  import opened Regions
  import opened Tickets
  import Columns

  // ---------------------------------------------------------------- one claim

  /** The number a first-time claimer holds after the claim: one is freed when there was one,
      and the target counts unless it is archived. */
  function HeldAfterClaim(before: nat, archived: bool): nat {
    (if before > 0 then before - 1 else 0) + (if archived then 0 else 1)
  }

  lemma InProgressColumns()
    ensures InProgress("inprogress-0") && !InProgress("todo-0")
  {
  }

  lemma ClaimerCount(before: TicketMap, id: TicketId, name: string, released: Option<TicketId>, after: TicketMap)
    requires FirstClaim(before, id, name, released, after)
    ensures |ActiveOf(after, name)| == HeldAfterClaim(|ActiveOf(before, name)|, before[id].archived)
  {
    var k := ActiveOf(before, name);
    var mid := if released.Some? then before[released.value := Freed(before[released.value])] else before;
    if released.Some? {
      FreeingKeeps(before, released.value, name);
      assert ActiveOf(mid, name) == k - {released.value};
    }
    TakingOn(mid, id, name);
    assert id !in ActiveOf(mid, name);
  }

  lemma FreeingKeeps(before: TicketMap, id: TicketId, name: string)
    requires id in before && name != ""
    ensures ActiveOf(before[id := Freed(before[id])], name) == ActiveOf(before, name) - {id}
  {
  }

  lemma TakingOn(before: TicketMap, id: TicketId, name: string)
    requires id in before
    ensures ActiveOf(before[id := Claimed(before[id], name)], name) ==
      if before[id].archived then ActiveOf(before, name) - {id} else ActiveOf(before, name) + {id}
  {
  }

  /** A successful first-time claim of a ticket that is not archived leaves the claimer with
      exactly max(1, k) active tickets; of an archived one, with max(0, k - 1). */
  lemma ClaimLeavesMax(before: TicketMap, id: TicketId, name: string, released: Option<TicketId>, after: TicketMap)
    requires FirstClaim(before, id, name, released, after)
    ensures var k := |ActiveOf(before, name)|;
      |ActiveOf(after, name)| == (if before[id].archived then (if k > 0 then k - 1 else 0) else if k > 1 then k else 1)
  {
    ClaimerCount(before, id, name, released, after);
  }

  /** A claim changes at most two tickets. */
  lemma ClaimChangesAtMostTwo(before: TicketMap, id: TicketId, name: string, released: Option<TicketId>,
                              after: TicketMap)
    requires ClaimEffect(before, id, name, released, after)
    ensures after.Keys == before.Keys
    ensures forall x :: x in before && x != id && released != Some(x) ==> after[x] == before[x]
  {
  }

  lemma OthersDoNotGain(before: TicketMap, id: TicketId, name: string, released: Option<TicketId>,
                        after: TicketMap, other: string)
    requires ClaimEffect(before, id, name, released, after)
    requires other != name && other != ""
    ensures ActiveOf(after, other) == ActiveOf(before, other) - {id}
  {
  }

  const FORGOTTEN := Ticket("z", "board", "todo-0", "", true, 0)

  /** A claimer of an archived ticket who held one active ticket holds none afterwards. */
  lemma ArchivedClaimLosesOne()
    ensures var before := map["a" := HELD, "z" := FORGOTTEN];
      var after := before["a" := Freed(HELD)]["z" := Claimed(FORGOTTEN, "x")];
      && FirstClaim(before, "z", "x", Some("a"), after)
      && |ActiveOf(before, "x")| == 1 && |ActiveOf(after, "x")| == 0
  {
    InProgressColumns();
    var before := map["a" := HELD, "z" := FORGOTTEN];
    assert "a"[0] == 'a' && "z"[0] == 'z';
    assert ActiveOf(before, "x") == {"a"};
    var after := before["a" := Freed(HELD)]["z" := Claimed(FORGOTTEN, "x")];
    assert "a" in ActiveOf(before, "x") - {"z"} && |"x"| == 1 && |""| == 0;
    assert FirstClaim(before, "z", "x", Some("a"), after);
    ClaimLeavesMax(before, "z", "x", Some("a"), after);
  }

  // ---------------------------------------------------------------- runs of claims and releases

  /** Nobody holds more than one active in-progress ticket. */
  ghost predicate AtMostOneEach(tickets: TicketMap) {
    forall name :: name != "" ==> |ActiveOf(tickets, name)| <= 1
  }

  lemma StepKeepsAtMostOne(before: TicketMap, after: TicketMap)
    requires AtMostOneEach(before) && ClaimOrRelease(before, after)
    ensures AtMostOneEach(after)
  {
    forall other | other != ""
      ensures |ActiveOf(after, other)| <= 1
    {
      assert |ActiveOf(before, other)| <= 1;
      if after == before {
      } else if id, name, released :| FirstClaim(before, id, name, released, after) {
        if other == name {
          ClaimerCount(before, id, name, released, after);
        } else {
          OthersDoNotGain(before, id, name, released, after, other);
          Smaller(ActiveOf(after, other), ActiveOf(before, other));
        }
      } else {
        var id :| id in before && after == before[id := Freed(before[id])];
        FreeingKeeps(before, id, other);
        Smaller(ActiveOf(after, other), ActiveOf(before, other));
      }
    }
  }

  /** Over every run of Claim and Release calls alone, holding at most one each is kept. */
  lemma {:induction false} RunKeepsAtMostOne(states: seq<TicketMap>)
    requires |states| > 0 && AtMostOneEach(states[0])
    requires forall i :: 0 < i < |states| ==> ClaimOrRelease(states[i - 1], states[i])
    ensures AtMostOneEach(states[|states| - 1])
  {
    var n := |states|;
    if n > 1 {
      RunKeepsAtMostOne(states[..n - 1]);
      assert ClaimOrRelease(states[n - 2], states[n - 1]);
      StepKeepsAtMostOne(states[n - 2], states[n - 1]);
    }
  }

  /** Moves do not keep it: moving a ticket into progress keeps it exactly when nobody is
      assigned or the assignee holds no other active ticket. */
  lemma MoveKeepsAtMostOneIff(before: TicketMap, id: TicketId)
    requires AtMostOneEach(before) && id in before && !before[id].archived
    ensures var t := before[id];
      AtMostOneEach(before[id := t.(column := "inprogress-0")]) <==>
        t.assignee == "" || ActiveOf(before, t.assignee) - {id} == {}
  {
    InProgressColumns();
    var t := before[id];
    var after := before[id := t.(column := "inprogress-0")];
    forall name | name != ""
      ensures ActiveOf(after, name) ==
        if name == t.assignee then ActiveOf(before, name) + {id} else ActiveOf(before, name)
    {
    }
    if t.assignee != "" {
      var k := ActiveOf(before, t.assignee);
      assert |k| <= 1 && ActiveOf(after, t.assignee) == k + {id};
      if k - {id} == {} {
        assert k + {id} == {id};
      } else {
        var x :| x in k - {id};
        Smaller({x, id}, k + {id});
        assert |{x, id}| == 2;
      }
    }
    forall name | name != "" && name != t.assignee
      ensures |ActiveOf(after, name)| <= 1
    {
      assert |ActiveOf(before, name)| <= 1;
    }
  }

  const HELD := Ticket("a", "board", "inprogress-0", "x", false, 0)
  const GIVEN := Ticket("b", "board", "todo-0", "x", false, 0)

  /** An assignee who holds one ticket moves another one, assigned but still to do, and holds two. */
  lemma MoveGivesASecond()
    ensures var before := map["a" := HELD, "b" := GIVEN];
      var moved := MoveTicket(GIVEN, Columns.InProgress, false, User("x", NormalAI));
      && AtMostOneEach(before) && moved.Moved?
      && !AtMostOneEach(before["b" := moved.ticket])
  {
    var before := map["a" := HELD, "b" := GIVEN];
    InProgressColumns();
    assert "todo-0"[0] == 't' && "inprogress-0"[0] == 'i';
    forall name | name != ""
      ensures ActiveOf(before, name) <= {"a"}
    {
    }
    forall name | name != ""
      ensures |ActiveOf(before, name)| <= 1
    {
      Smaller(ActiveOf(before, name), {"a"});
    }
    assert "a" in ActiveOf(before, "x") - {"b"};
    MoveKeepsAtMostOneIff(before, "b");
  }

  /** Leaving Done or Cancelled for another status takes force or a human admin; nothing else
      about a permitted move to a valid status is refused. */
  lemma MoveAllowedIff(t: Ticket, target: Columns.Status, force: bool, user: User)
    requires !t.archived && !target.Other? && (t.assignee == user.name || user.role in {HumanAdmin, OverseerAI})
    ensures var current := Columns.ColumnIDToStatus(t.column);
      MoveTicket(t, target, force, user).Moved? <==>
        !(current.Done? || current.Cancelled?) || current == target || force || user.role == HumanAdmin
    ensures MoveTicket(t, target, force, user).Moved? ==>
      Columns.ColumnIDToStatus(MoveTicket(t, target, force, user).ticket.column) == target
  {
  }
}
