/** Tickets, users, and the claim, release and move services over the ticket store. */
module Tickets {
  import opened Points
  import Columns

  type TicketId = string
  type BoardId = string

  /** A ticket as the store's reads return it; `details` stands for the fields no rule looks at. */
  datatype Ticket = Ticket(id: TicketId, board: BoardId, column: string, assignee: string, archived: bool, details: int)

  /** The ticket in that column, with that assignee, and otherwise what it was. */
  predicate IsNow(was: Ticket, now: Ticket, column: string, assignee: string) {
    && now.column == column && now.assignee == assignee
    && now.id == was.id && now.board == was.board && now.archived == was.archived && now.details == was.details
  }

  /** A live ticket in progress that the name is assigned to. */
  predicate WorkedOnBy(t: Ticket, name: string) {
    !t.archived && |t.column| >= 10 && t.column[..10] == "inprogress" && t.assignee == name
  }

  /** Any role text other than the two privileged ones has the rights of NormalAI. */
  datatype Role = HumanAdmin | OverseerAI | NormalAI

  datatype User = User(name: string, role: Role)

  predicate Privileged(user: User) {
    user.role == HumanAdmin || user.role == OverseerAI
  }

  predicate CanClaim(user: User, assignee: string) {
    Privileged(user) || assignee == "" || assignee == user.name
  }

  predicate CanRelease(user: User, assignee: string) {
    Privileged(user) || assignee == user.name
  }

  datatype ServiceError =
    | Unauthorized
    | FetchFailed
    | Forbidden
    | Archived
    | InvalidTransition
    | InvalidStatus
    | StoreFailed

  type TicketMap = map<TicketId, Ticket>

  /** Tickets are filed under their id. */
  ghost predicate Filed(tickets: TicketMap) {
    forall id :: id in tickets ==> tickets[id].id == id
  }

  predicate InProgress(column: string) {
    "inprogress" <= column
  }

  predicate Active(t: Ticket, name: string) {
    !t.archived && InProgress(t.column) && t.assignee == name
  }

  /** The active in-progress tickets of a name. */
  ghost function ActiveOf(tickets: TicketMap, name: string): set<TicketId> {
    set id | id in tickets && Active(tickets[id], name)
  }

  function Claimed(t: Ticket, name: string): Ticket {
    t.(column := "inprogress-0", assignee := name)
  }

  function Freed(t: Ticket): Ticket {
    t.(column := "todo-0", assignee := "")
  }

  /** IsValidTransition: leaving Done or Cancelled needs force or a human admin. */
  function Transition(current: Columns.Status, target: Columns.Status, force: bool, role: Role): Option<ServiceError> {
    if current == target then None
    else if (current.Done? || current.Cancelled?) && !force && role != HumanAdmin then Some(InvalidTransition)
    else if target.Other? then Some(InvalidStatus)
    else None
  }

  /** What Move does: the moved ticket, or why not. */
  datatype MoveResult = Moved(ticket: Ticket) | Refused(error: ServiceError)

  function MoveTicket(t: Ticket, target: Columns.Status, force: bool, user: User): MoveResult {
    var current := Columns.ColumnIDToStatus(t.column);
    if t.archived then Refused(Archived)
    else if current == target then Moved(t)
    else if !Privileged(user) && t.assignee != user.name then Refused(Forbidden)
    else
      var verdict := Transition(current, target, force, user.role);
      // both transition errors leave the service wrapped as an invalid transition
      if verdict.Some? then Refused(InvalidTransition)
      else Moved(t.(column := Columns.StatusToColumnID(target)))
  }

  /** A user entitled to move the ticket, a valid status, and no terminal status left without
      force or a human admin. */
  predicate MayMove(t: Ticket, target: Columns.Status, force: bool, user: User) {
    && (t.assignee == user.name || user.role in {HumanAdmin, OverseerAI}) && !target.Other?
    && (t.column == "done-0" || t.column == "cancelled-0" ==> force || user.role == HumanAdmin)
  }

  /** The committed effect of a first-time claim: at most one other ticket of the claimer is
      freed, and one is freed whenever there is one; then the target is claimed. */
  ghost predicate ClaimEffect(before: TicketMap, id: TicketId, name: string, released: Option<TicketId>,
                              after: TicketMap) {
    && id in before
    && (released == None <==> ActiveOf(before, name) - {id} == {})
    && (released.Some? ==> released.value in ActiveOf(before, name) - {id})
    && after == (if released.Some? then before[released.value := Freed(before[released.value])] else before)
        [id := Claimed(before[id], name)]
  }

  /** A claim by somebody the ticket does not belong to yet. */
  ghost predicate FirstClaim(before: TicketMap, id: TicketId, name: string, released: Option<TicketId>,
                             after: TicketMap) {
    name != "" && ClaimEffect(before, id, name, released, after) && before[id].assignee != name
  }

  /** What one Claim or Release call, by anybody and with any outcome, can do to the tickets. */
  ghost predicate ClaimOrRelease(before: TicketMap, after: TicketMap) {
    || after == before
    || (exists id, name, released :: FirstClaim(before, id, name, released, after))
    || (exists id :: id in before && after == before[id := Freed(before[id])])
  }

  class TicketStore {
    const keepsKeys: bool            // whether inserts write the idempotency key: SQLite's do
    var tickets: TicketMap
    var keys: map<TicketId, string>  // the idempotency key column, which no read returns

    constructor (sqlite: bool)
      ensures tickets == map[] && keys == map[] && keepsKeys == sqlite
    {
      tickets, keys, keepsKeys := map[], map[], sqlite;
    }

    /** The ids of the matching rows, in whatever order the database returns them. */
    method ActiveIds(name: string) returns (ids: seq<TicketId>)
      ensures Distinct(ids) && forall id :: id in ids <==> id in ActiveOf(tickets, name)
      ensures forall id :: id in ids <==> id in tickets && WorkedOnBy(tickets[id], name)
    {
      ids := [];
      var left := tickets.Keys;
      while left != {}
        invariant left <= tickets.Keys && Distinct(ids)
        invariant forall id :: id in ids <==> id in ActiveOf(tickets, name) && id !in left
        decreases left
      {
        var id :| id in left;
        left := left - {id};
        if Active(tickets[id], name) {
          ids := ids + [id];
        }
      }
    }

    /** Claims a ticket for a user. `commits` says whether the transaction commits; when it does
        not, or on any other error, nothing changes. Whether the ticket is archived is not looked at. */
    method Claim(id: TicketId, user: Option<User>, commits: bool)
      returns (error: Option<ServiceError>, ticket: Option<Ticket>, released: Option<TicketId>)
      modifies this`tickets
      ensures error.Some? ==> tickets == old(tickets) && ticket == None && released == None
      ensures error == None ==> user.Some? && id in old(tickets) && id in tickets && ticket == Some(tickets[id])
      ensures error == None && old(tickets)[id].assignee == user.value.name ==>
        tickets == old(tickets) && released == None
      ensures error == None && old(tickets)[id].assignee != user.value.name ==>
        FirstClaim(old(tickets), id, user.value.name, released, tickets)
      ensures error == None && old(tickets)[id].assignee != user.value.name ==>
        && tickets.Keys == old(tickets).Keys
        && IsNow(old(tickets)[id], tickets[id], "inprogress-0", user.value.name)
        && (forall x :: x in tickets && x != id && released != Some(x) ==> tickets[x] == old(tickets)[x])
        && (released == None ==> forall x :: x in tickets && x != id ==> !WorkedOnBy(tickets[x], user.value.name))
      ensures released.Some? ==>
        && released.value != id && released.value in old(tickets) && released.value in tickets
        && WorkedOnBy(old(tickets)[released.value], user.value.name)
        && IsNow(old(tickets)[released.value], tickets[released.value], "todo-0", "")
      ensures ClaimOrRelease(old(tickets), tickets)
      ensures error == None <==>
        && user.Some? && user.value.name != "" && id in old(tickets)
        && (old(tickets)[id].assignee == user.value.name
            || (commits && (old(tickets)[id].assignee == "" || user.value.role in {HumanAdmin, OverseerAI})))
      ensures error.Some? ==>
        error.value == if user == None || user.value.name == "" then Unauthorized
        else if id !in old(tickets) then FetchFailed
        else if old(tickets)[id].assignee != "" && user.value.role == NormalAI then Forbidden
        else StoreFailed
    {
      ticket, released := None, None;
      if user == None || user.value.name == "" {
        return Some(Unauthorized), None, None;
      }
      var name := user.value.name;
      if id !in tickets {
        return Some(FetchFailed), None, None;
      }
      var target := tickets[id];
      if target.assignee == name {
        return None, Some(target), None;
      }
      if !CanClaim(user.value, target.assignee) {
        return Some(Forbidden), None, None;
      }
      var tx := tickets;
      var existing := ActiveIds(name);
      for i := 0 to |existing|
        invariant tx == tickets && released == None
        invariant forall k :: 0 <= k < i ==> existing[k] == id
      {
        if existing[i] == id {
          continue;
        }
        assert existing[i] in existing;
        tx := tx[existing[i] := Freed(tx[existing[i]])];
        released := Some(existing[i]);
        break;
      }
      assert released.Some? ==> released.value in ActiveOf(tickets, name) - {id};
      assert released == None ==> ActiveOf(tickets, name) - {id} == {} by {
        if released == None {
          forall x | x in ActiveOf(tickets, name)
            ensures x == id
          {
            assert x in existing;
          }
        }
      }
      tx := tx[id := Claimed(target, name)];
      if !commits {
        return Some(StoreFailed), None, None;
      }
      ghost var before := tickets;
      tickets := tx;
      assert FirstClaim(before, id, name, released, tickets);
      return None, Some(tx[id]), released;
    }

    /** Releases a ticket: clears the assignee and sends it back to the todo column. */
    method Release(id: TicketId, user: Option<User>, commits: bool)
      returns (error: Option<ServiceError>, ticket: Option<Ticket>)
      modifies this`tickets
      ensures error.Some? ==> tickets == old(tickets) && ticket == None
      ensures error == None ==> id in old(tickets) && id in tickets && ticket == Some(tickets[id])
      ensures error == None && old(tickets)[id].assignee == "" ==> tickets == old(tickets)
      ensures error == None && old(tickets)[id].assignee != "" ==>
        tickets == old(tickets)[id := Freed(old(tickets)[id])]
      ensures error == None && old(tickets)[id].assignee != "" ==> IsNow(old(tickets)[id], tickets[id], "todo-0", "")
      ensures ClaimOrRelease(old(tickets), tickets)
      ensures error == None <==>
        && user.Some? && id in old(tickets) && !old(tickets)[id].archived
        && (old(tickets)[id].assignee == ""
            || (commits
                && (old(tickets)[id].assignee == user.value.name || user.value.role in {HumanAdmin, OverseerAI})))
      ensures error.Some? ==>
        error.value == if user == None then Unauthorized
        else if id !in old(tickets) then FetchFailed
        else if old(tickets)[id].archived then Archived
        else if old(tickets)[id].assignee != user.value.name && user.value.role == NormalAI then Forbidden
        else StoreFailed
    {
      if user == None {
        return Some(Unauthorized), None;
      }
      if id !in tickets {
        return Some(FetchFailed), None;
      }
      var t := tickets[id];
      if t.archived {
        return Some(Archived), None;
      }
      if t.assignee == "" {
        return None, Some(t);
      }
      if !CanRelease(user.value, t.assignee) {
        return Some(Forbidden), None;
      }
      if !commits {
        return Some(StoreFailed), None;
      }
      tickets := tickets[id := Freed(t)];
      return None, Some(Freed(t));
    }

    /** Moves a ticket to the column of a status. */
    method Move(id: TicketId, target: Columns.Status, force: bool, user: Option<User>, commits: bool)
      returns (error: Option<ServiceError>, ticket: Option<Ticket>)
      modifies this`tickets
      ensures error.Some? ==> tickets == old(tickets) && ticket == None
      ensures error == None ==>
        && user.Some? && id in old(tickets)
        && MoveTicket(old(tickets)[id], target, force, user.value).Moved?
        && tickets == old(tickets)[id := MoveTicket(old(tickets)[id], target, force, user.value).ticket]
        && ticket == Some(tickets[id])
      ensures error == None ==>
        var was := old(tickets)[id];
        if Columns.ColumnIDToStatus(was.column) == target then tickets == old(tickets)
        else IsNow(was, tickets[id], Columns.StatusToColumnID(target), was.assignee)
      ensures error == None <==>
        && user.Some? && id in old(tickets) && !old(tickets)[id].archived
        && (Columns.ColumnIDToStatus(old(tickets)[id].column) == target
            || (commits && MayMove(old(tickets)[id], target, force, user.value)))
      ensures error.Some? ==>
        error.value == if user == None then Unauthorized
        else if id !in old(tickets) then FetchFailed
        else if old(tickets)[id].archived then Archived
        else if old(tickets)[id].assignee != user.value.name && user.value.role == NormalAI then Forbidden
        else if MayMove(old(tickets)[id], target, force, user.value) then StoreFailed
        else InvalidTransition
    {
      if user == None {
        return Some(Unauthorized), None;
      }
      if id !in tickets {
        return Some(FetchFailed), None;
      }
      var t := tickets[id];
      if t.archived {
        return Some(Archived), None;
      }
      var current := Columns.ColumnIDToStatus(t.column);
      if current == target {
        return None, Some(t);
      }
      if !Privileged(user.value) && t.assignee != user.value.name {
        return Some(Forbidden), None;
      }
      if Transition(current, target, force, user.value.role).Some? {
        return Some(InvalidTransition), None;
      }
      var columnId := Columns.StatusToColumnID(target);
      if columnId == "" {
        return Some(InvalidStatus), None;
      }
      if !commits {
        return Some(StoreFailed), None;
      }
      tickets := tickets[id := t.(column := columnId)];
      return None, Some(tickets[id]);
    }
  }
}
