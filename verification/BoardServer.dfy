/** The handlers that change tickets: each commits to the store and then edits the cached board
    columns. Run one after another they keep the cache in agreement with the store. */
module BoardServer {
  import opened Points
  import opened Columns
  import opened Tickets
  import opened BoardColumns

  datatype BoardConfig = BoardConfig(id: BoardId, columns: seq<string>)

  datatype Request =
    | Claim(id: TicketId, user: User)
    | Release(id: TicketId, user: User)
    | Move(id: TicketId, target: Status, force: bool, user: User)
    | Update(id: TicketId, assignee: Option<string>, details: Option<int>)
    | Create(ticket: Ticket, key: string)
    | Delete(id: TicketId)
    | Archive(id: TicketId, user: User)
    | ArchiveMany(ids: seq<TicketId>, user: User)

  /** A request, and whether its transaction commits. */
  datatype Call = Call(request: Request, commits: bool)

  /** What the two requests create is told apart by id and, if they have keys, by key. */
  ghost predicate ToldApart(r: Request, q: Request)
    requires r.Create? && q.Create?
  {
    r.ticket.id != q.ticket.id && (r.key != "" ==> r.key != q.key)
  }

  ghost predicate Fresh(r: Request, tickets: TicketMap, keys: Keys)
    requires r.Create?
  {
    r.ticket.id !in tickets && r.ticket.id !in keys && !r.ticket.archived && !KeyHit(tickets, keys, r.key)
  }

  /** New tickets have ids and keys of their own and are not archived; creates and deletes commit. */
  ghost predicate Orderly(calls: seq<Call>, tickets: TicketMap, keys: Keys) {
    && (forall i :: 0 <= i < |calls| && (calls[i].request.Create? || calls[i].request.Delete?) ==> calls[i].commits)
    && (forall i :: 0 <= i < |calls| && calls[i].request.Create? ==> Fresh(calls[i].request, tickets, keys))
    && (forall i, j :: 0 <= i < j < |calls| && calls[i].request.Create? && calls[j].request.Create? ==>
        ToldApart(calls[i].request, calls[j].request))
  }

  /** At most that ticket and its key are new. */
  ghost predicate OnlyNew(before: TicketMap, keys: Keys, after: TicketMap, keys': Keys, t: Ticket, key: string) {
    && after in {before, before[t.id := t]}
    && keys' in {keys, keys[t.id := key]}
  }

  lemma StaysFresh(before: TicketMap, keys: Keys, after: TicketMap, keys': Keys, r: Request)
    requires r.Create? && Fresh(r, before, keys) && NothingNew(before, keys, after, keys')
    ensures Fresh(r, after, keys')
  {
    KeyStaysFree(before, keys, after, keys', r.key);
  }

  lemma StaysFreshBeside(before: TicketMap, keys: Keys, after: TicketMap, keys': Keys, q: Request, r: Request)
    requires q.Create? && r.Create? && ToldApart(q, r) && Fresh(r, before, keys)
    requires OnlyNew(before, keys, after, keys', q.ticket, q.key)
    requires Fresh(q, before, keys)
    ensures Fresh(r, after, keys')
  {
  }

  class Server {
    const store: TicketStore
    var boards: Boards

    /** The cache agrees with the store. */
    ghost predicate InSync()
      reads this, store
    {
      Agrees(store.tickets, boards)
    }

    // -------------------------------------------------------------- cache edits

    /** Cuts the first ticket of that id out of a list. */
    static method CutFirst(tickets: seq<Ticket>, id: TicketId) returns (r: seq<Ticket>)
      ensures r == Without(tickets, id)
    {
      for i := 0 to |tickets|
        invariant Without(tickets, id) == tickets[..i] + Without(tickets[i..], id)
      {
        if tickets[i].id == id {
          assert tickets[i..][1..] == tickets[i + 1..];
          return tickets[..i] + tickets[i + 1..];
        }
        assert tickets[i..] == [tickets[i]] + tickets[i + 1..];
        assert tickets[..i + 1] == tickets[..i] + [tickets[i]];
      }
      assert tickets[..|tickets|] == tickets;
      return tickets;
    }

    /** Cuts the ticket out of every column of a board. */
    static method CutAll(columns: seq<Column>, id: TicketId) returns (r: seq<Column>)
      ensures r == WithoutAll(columns, id)
    {
      r := columns;
      for i := 0 to |columns|
        invariant |r| == |columns|
        invariant forall j :: 0 <= j < i ==> r[j] == WithoutAll(columns, id)[j]
        invariant forall j :: i <= j < |r| ==> r[j] == columns[j]
      {
        var left := CutFirst(r[i].tickets, id);
        r := r[i := r[i].(tickets := left)];
      }
    }

    /** Appends the ticket to the first column with that id. */
    static method Append(columns: seq<Column>, columnId: string, t: Ticket) returns (r: seq<Column>)
      ensures r == PutIn(columns, columnId, t)
    {
      for i := 0 to |columns|
        invariant PutIn(columns, columnId, t) == columns[..i] + PutIn(columns[i..], columnId, t)
      {
        PutInStep(columns, i, columnId, t);
        if columns[i].id == columnId {
          return columns[i := columns[i].(tickets := columns[i].tickets + [t])];
        }
      }
      assert columns[..|columns|] == columns;
      return columns;
    }

    /** Takes the ticket out of all columns of its board and appends it to its own column. */
    method SyncTicketInMemory(t: Ticket)
      modifies this
      ensures boards == Synced(old(boards), t)
    {
      if t.board !in boards {
        return;
      }
      var columns := CutAll(boards[t.board], t.id);
      columns := Append(columns, GetColumnID(t.column), t);
      boards := boards[t.board := columns];
    }

    // -------------------------------------------------------------- loading

    static method FreshColumns(titles: seq<string>) returns (columns: seq<Column>)
      ensures |columns| == |titles|
      ensures forall i :: 0 <= i < |titles| ==> columns[i] == Column(GetColumnID(titles[i]), titles[i], [])
    {
      columns := [];
      for i := 0 to |titles|
        invariant |columns| == i
        invariant forall j :: 0 <= j < i ==> columns[j] == Column(GetColumnID(titles[j]), titles[j], [])
      {
        columns := columns + [Column(GetColumnID(titles[i]), titles[i], [])];
      }
    }

    /** A ticket of a known board goes to the end of its column. */
    method AddTicketToMemory(t: Ticket)
      modifies this
      ensures boards == Added(old(boards), t)
    {
      if t.board !in boards {
        return;
      }
      var columns := Append(boards[t.board], GetColumnID(t.column), t);
      boards := boards[t.board := columns];
    }

    /** The boards of the configuration, then every ticket that is not archived, in whatever
        order the store lists them. Columns of one board need different ids for the cache to agree. */
    constructor (configs: seq<BoardConfig>, ticketStore: TicketStore)
      requires Filed(ticketStore.tickets)
      ensures store == ticketStore && boards.Keys == (set c | c in configs :: c.id)
      ensures forall b :: b in boards ==> exists c :: c in configs && c.id == b && Titled(boards[b], c.columns)
      ensures store.tickets == old(ticketStore.tickets) && store.keys == old(ticketStore.keys)
      ensures (forall c :: c in configs ==> DistinctIds(c.columns)) ==> InSync() && OnlyLive(boards)
    {
      store := ticketStore;
      boards := map[];
      new;
      for i := 0 to |configs|
        invariant boards.Keys == set c | c in configs[..i] :: c.id
        invariant forall b :: b in boards ==>
          exists c :: c in configs[..i] && c.id == b && EmptyBoard(boards[b], c.columns)
        invariant unchanged(ticketStore)
      {
        var columns := FreshColumns(configs[i].columns);
        ghost var before := boards;
        boards := boards[configs[i].id := columns];
        assert configs[..i + 1] == configs[..i] + [configs[i]];
        assert EmptyBoard(boards[configs[i].id], configs[i].columns);
      }
      assert configs[..|configs|] == configs;
      ghost var good := forall c :: c in configs ==> DistinctIds(c.columns);
      ghost var empty := boards;
      if good {
        EmptyAgrees(boards, configs);
      }
      var left := store.tickets.Keys;
      ghost var loaded: TicketMap := map[];
      while left != {}
        invariant unchanged(ticketStore) && left <= store.tickets.Keys
        invariant SameColumns(empty, boards)
        invariant forall x :: x in loaded <==> x in store.tickets && x !in left && !store.tickets[x].archived
        invariant forall x :: x in loaded ==> loaded[x] == store.tickets[x]
        invariant good ==> Agrees(loaded, boards)
        decreases left
      {
        var id :| id in left;
        left := left - {id};
        var t := store.tickets[id];
        if !t.archived {
          if good {
            AddKeepsAgreement(loaded, boards, t);
          }
          AddedColumns(boards, t);
          AddTicketToMemory(t);
          loaded := loaded[id := t];
        }
      }
      if good {
        ArchivedNeedNotShow(loaded, store.tickets, boards);
        AgreeingIsLive(loaded, boards);
      }
      StillTitled(empty, boards, configs);
    }

    // -------------------------------------------------------------- handlers

    /** Claims a ticket, then syncs it and the ticket freed for it. */
    method HandleClaim(id: TicketId, user: User, commits: bool) returns (error: Option<ServiceError>)
      requires InSync()
      modifies this, store
      ensures InSync() && ClaimOrRelease(old(store.tickets), store.tickets)
      ensures store.tickets.Keys == old(store.tickets).Keys && store.keys == old(store.keys)
      ensures NothingNew(old(store.tickets), old(store.keys), store.tickets, store.keys)
      ensures error.Some? ==> store.tickets == old(store.tickets) && boards == old(boards)
      ensures error == None ==> id in old(store.tickets)
      ensures error == None && old(store.tickets)[id].assignee == user.name ==> store.tickets == old(store.tickets)
      ensures error == None && old(store.tickets)[id].assignee != user.name ==>
        exists released :: FirstClaim(old(store.tickets), id, user.name, released, store.tickets)
      ensures error == None && old(store.tickets)[id].assignee != user.name ==>
        && IsNow(old(store.tickets)[id], store.tickets[id], "inprogress-0", user.name)
        && (forall x :: x in store.tickets && x != id && store.tickets[x] != old(store.tickets)[x] ==>
            && WorkedOnBy(old(store.tickets)[x], user.name)
            && IsNow(old(store.tickets)[x], store.tickets[x], "todo-0", ""))
      ensures error == None <==>
        && user.name != "" && id in old(store.tickets)
        && (old(store.tickets)[id].assignee == user.name
            || (commits && (old(store.tickets)[id].assignee == "" || user.role in {HumanAdmin, OverseerAI})))
    {
      ghost var before, cached := store.tickets, boards;
      var ticket, released;
      error, ticket, released := store.Claim(id, Some(user), commits);
      if error.Some? {
        return;
      }
      ghost var claimed := before[id := ticket.value];
      SyncKeepsAgreement(before, cached, ticket.value);
      SyncTicketInMemory(ticket.value);
      assert Agrees(claimed, boards);
      if released.Some? {
        var freed := store.tickets[released.value];
        SyncKeepsAgreement(claimed, boards, freed);
        SyncTicketInMemory(freed);
        assert store.tickets == claimed[released.value := freed];
      } else {
        assert store.tickets == claimed;
      }
    }

    /** Releases a ticket, then syncs it. */
    method HandleRelease(id: TicketId, user: User, commits: bool) returns (error: Option<ServiceError>)
      requires InSync()
      modifies this, store
      ensures InSync() && ClaimOrRelease(old(store.tickets), store.tickets)
      ensures store.tickets.Keys == old(store.tickets).Keys && store.keys == old(store.keys)
      ensures NothingNew(old(store.tickets), old(store.keys), store.tickets, store.keys)
      ensures error.Some? ==> store.tickets == old(store.tickets) && boards == old(boards)
      ensures error == None ==> id in old(store.tickets)
      ensures error == None ==> store.tickets == if old(store.tickets)[id].assignee == ""
        then old(store.tickets) else old(store.tickets)[id := store.tickets[id]]
      ensures error == None && old(store.tickets)[id].assignee != "" ==>
        IsNow(old(store.tickets)[id], store.tickets[id], "todo-0", "")
      ensures error == None <==>
        && id in old(store.tickets) && !old(store.tickets)[id].archived
        && (old(store.tickets)[id].assignee == ""
            || (commits && (old(store.tickets)[id].assignee == user.name || user.role in {HumanAdmin, OverseerAI})))
    {
      ghost var before := store.tickets;
      var ticket;
      error, ticket := store.Release(id, Some(user), commits);
      if error.Some? {
        return;
      }
      SyncKeepsAgreement(before, boards, ticket.value);
      assert store.tickets == before[id := ticket.value];
      SyncTicketInMemory(ticket.value);
    }

    /** Moves a ticket, then syncs it. A target that is no valid status is refused at once. */
    method HandleMove(id: TicketId, target: Status, force: bool, user: User, commits: bool)
      returns (error: Option<ServiceError>)
      requires InSync()
      modifies this, store
      ensures InSync()
      ensures store.tickets.Keys == old(store.tickets).Keys && store.keys == old(store.keys)
      ensures NothingNew(old(store.tickets), old(store.keys), store.tickets, store.keys)
      ensures error.Some? ==> store.tickets == old(store.tickets) && boards == old(boards)
      ensures error == None ==>
        && id in old(store.tickets) && MoveTicket(old(store.tickets)[id], target, force, user).Moved?
        && store.tickets == old(store.tickets)[id := MoveTicket(old(store.tickets)[id], target, force, user).ticket]
      ensures error == None ==>
        var was := old(store.tickets)[id];
        if ColumnIDToStatus(was.column) == target then store.tickets == old(store.tickets)
        else IsNow(was, store.tickets[id], StatusToColumnID(target), was.assignee)
      ensures error == None <==>
        && !target.Other? && id in old(store.tickets) && !old(store.tickets)[id].archived
        && (ColumnIDToStatus(old(store.tickets)[id].column) == target
            || (commits && MayMove(old(store.tickets)[id], target, force, user)))
      ensures target.Other? ==> error == Some(InvalidStatus)
      ensures !target.Other? && id in old(store.tickets) && commits && error.Some? ==>
        MoveTicket(old(store.tickets)[id], target, force, user) == Refused(error.value)
    {
      if target.Other? {
        return Some(InvalidStatus);
      }
      ghost var before := store.tickets;
      var ticket;
      error, ticket := store.Move(id, target, force, Some(user), commits);
      if error.Some? {
        return;
      }
      SyncKeepsAgreement(before, boards, ticket.value);
      assert store.tickets == before[id := ticket.value];
      SyncTicketInMemory(ticket.value);
    }

    /** The place of the first cached entry of the ticket: a column and an index in it. */
    static method FindEntry(columns: seq<Column>, id: TicketId) returns (place: Option<(nat, nat)>)
      ensures place == None ==> forall i :: 0 <= i < |columns| ==> !HasEntry(columns[i], id)
      ensures place.Some? ==>
        && place.value.0 < |columns| && place.value.1 < |columns[place.value.0].tickets|
        && columns[place.value.0].tickets[place.value.1].id == id
        && forall l :: 0 <= l < place.value.1 ==> columns[place.value.0].tickets[l].id != id
    {
      for i := 0 to |columns|
        invariant forall j :: 0 <= j < i ==> !HasEntry(columns[j], id)
      {
        var listed := columns[i].tickets;
        for k := 0 to |listed|
          invariant forall l :: 0 <= l < k ==> listed[l].id != id
        {
          if listed[k].id == id {
            return Some((i, k));
          }
        }
      }
      return None;
    }

    /** Overwrites the first cached entry of the ticket, boards in any order. */
    method ReplaceTicketInCache(t: Ticket, ghost tickets: TicketMap)
      requires Agrees(tickets, boards) && t.id in tickets && SamePlace(tickets[t.id], t)
      modifies this
      ensures boards == OverwrittenIn(old(boards), t) && Agrees(tickets[t.id := t], boards)
    {
      var left := boards.Keys;
      while left != {}
        invariant left <= boards.Keys && boards == old(boards)
        invariant forall b, i :: b in boards && b !in left && 0 <= i < |boards[b]| ==> !HasEntry(boards[b][i], t.id)
        decreases left
      {
        var b :| b in left;
        left := left - {b};
        var place := FindEntry(boards[b], t.id);
        if place.Some? {
          var (i, k) := place.value;
          ReplaceKeepsAgreement(tickets, boards, b, i, k, t);
          OneOverwriteIsAll(tickets, boards, b, i, k, t);
          boards := boards[b := boards[b][i := boards[b][i].(tickets := boards[b][i].tickets[k := t])]];
          return;
        }
      }
      UncachedReplaceKeepsAgreement(tickets, boards, t);
      NoOverwriteIsAll(boards, t);
    }

    /** Updates the fields that a request names, none of which moves the ticket: the store first,
        then the cached entry. */
    method HandleUpdateTicket(id: TicketId, assignee: Option<string>, details: Option<int>, commits: bool)
      returns (ok: bool)
      requires InSync()
      modifies this, store
      ensures InSync() && ok == (id in old(store.tickets) && commits) && store.keys == old(store.keys)
      ensures !ok ==> store.tickets == old(store.tickets) && boards == old(boards)
      ensures ok ==> store.tickets == old(store.tickets)[id := old(store.tickets)[id].(
        assignee := if assignee.Some? then assignee.value else old(store.tickets)[id].assignee,
        details := if details.Some? then details.value else old(store.tickets)[id].details)]
    {
      if id !in store.tickets {
        return false;
      }
      var t := store.tickets[id];
      if assignee.Some? {
        t := t.(assignee := assignee.value);
      }
      if details.Some? {
        t := t.(details := details.value);
      }
      if !commits {
        return false;
      }
      ghost var before := store.tickets;
      store.tickets := store.tickets[id := t];
      ReplaceTicketInCache(t, before);
      return true;
    }

    /** Cuts the ticket out of every column of every board. */
    method CutEverywhere(id: TicketId)
      modifies this
      ensures boards == CutFrom(old(boards), id)
    {
      var left := boards.Keys;
      while left != {}
        invariant left <= boards.Keys == old(boards).Keys
        invariant forall b :: b in boards ==>
          boards[b] == if b in left then old(boards)[b] else WithoutAll(old(boards)[b], id)
        decreases left
      {
        var b :| b in left;
        left := left - {b};
        var columns := CutAll(boards[b], id);
        boards := boards[b := columns];
      }
    }

    /** Deletes a ticket. The cache is edited before the store is known to follow: when it does
        not, the cache still agrees exactly if the ticket had no business there. */
    method HandleDeleteTicket(id: TicketId, commits: bool) returns (ok: bool)
      requires InSync()
      modifies this, store
      ensures ok == (id in old(store.tickets) && commits)
      ensures store.tickets == if ok then old(store.tickets) - {id} else old(store.tickets)
      ensures store.keys == (if ok then old(store.keys) - {id} else old(store.keys))
      ensures SameColumns(old(boards), boards)
      ensures ok || id !in old(store.tickets) ==> InSync()
      ensures !ok && id in store.tickets ==>
        (InSync() <==> store.tickets[id].archived || !HasPlace(boards, store.tickets[id]))
    {
      if id !in store.tickets {
        return false;
      }
      CutKeepsAgreement(store.tickets, store.tickets - {id}, boards, id);
      EarlyCut(store.tickets, boards, id);
      CutEverywhere(id);
      if !commits {
        return false;
      }
      store.tickets, store.keys := store.tickets - {id}, store.keys - {id};
      return true;
    }

    /** Cuts the first cached entry of an archived ticket, boards in any order. */
    method SyncArchivedTicketInMemory(id: TicketId, ghost tickets: TicketMap)
      requires Agrees(tickets, boards)
      modifies this
      ensures boards == CutFrom(old(boards), id)
    {
      var left := boards.Keys;
      while left != {}
        invariant left <= boards.Keys && boards == old(boards)
        invariant forall b, i :: b in boards && b !in left && 0 <= i < |boards[b]| ==> !HasEntry(boards[b][i], id)
        decreases left
      {
        var b :| b in left;
        left := left - {b};
        var place := FindEntry(boards[b], id);
        if place.Some? {
          var i := place.value.0;
          assert boards[b][i].tickets[place.value.1] in boards[b][i].tickets;
          OneCutIsAll(tickets, boards, b, i, id);
          var kept := CutFirst(boards[b][i].tickets, id);
          boards := boards[b := boards[b][i := boards[b][i].(tickets := kept)]];
          return;
        }
      }
      NoCutIsAll(boards, id);
    }

    /** Archives a ticket, for an admin or overseer. */
    method SingleArchive(id: TicketId, user: User, commits: bool) returns (ok: bool)
      requires InSync()
      modifies this, store
      ensures InSync() && store.keys == old(store.keys)
      ensures ok <==> user.role in {HumanAdmin, OverseerAI} && id in old(store.tickets) && commits
      ensures store.tickets == if ok
        then old(store.tickets)[id := old(store.tickets)[id].(archived := true)] else old(store.tickets)
    {
      if !Privileged(user) {
        return false;
      }
      if id !in store.tickets || !commits {
        return false;
      }
      ghost var before := store.tickets;
      store.tickets := store.tickets[id := store.tickets[id].(archived := true)];
      CutKeepsAgreement(before, store.tickets, boards, id);
      SyncArchivedTicketInMemory(id, before);
      return true;
    }

    /** Archives every ticket of a list that the store has, in one transaction, then cuts them
        from the cache one after another; for an admin or overseer. */
    method BulkArchive(ids: seq<TicketId>, user: User, commits: bool) returns (ok: bool, notFound: seq<TicketId>)
      requires InSync()
      modifies this, store
      ensures InSync() && store.keys == old(store.keys)
      ensures ok <==>
        && user.role in {HumanAdmin, OverseerAI} && ids != []
        && (commits || forall id :: id in ids ==> id !in old(store.tickets))
      ensures store.tickets == if ok then AllArchived(old(store.tickets), ids) else old(store.tickets)
      ensures ok ==> ArchivedExactly(old(store.tickets), ids, store.tickets)
      ensures ok ==> forall id :: id in notFound <==> id in ids && id !in old(store.tickets)
    {
      ghost var before := store.tickets;
      AllArchivedExactly(before, ids);
      var existing := [];
      notFound := [];
      if !Privileged(user) {
        return false, [];
      }
      if ids == [] {
        return false, [];
      }
      for i := 0 to |ids|
        invariant unchanged(this) && unchanged(store)
        invariant forall id :: id in existing <==> id in ids[..i] && id in before
        invariant forall id :: id in notFound <==> id in ids[..i] && id !in before
      {
        assert ids[..i + 1] == ids[..i] + [ids[i]];
        if ids[i] in store.tickets {
          existing := existing + [ids[i]];
        } else {
          notFound := notFound + [ids[i]];
        }
      }
      assert ids[..|ids|] == ids;
      assert AllArchived(before, ids) == AllArchived(before, existing);
      if existing == [] {
        assert forall id :: id in ids && id in before ==> id in existing;
        assert AllArchived(before, existing) == before;
        return true, notFound;
      }
      assert existing[0] in existing;
      if !commits {
        return false, notFound;
      }
      store.tickets := AllArchived(store.tickets, existing);
      assert AllArchived(before, existing[..0]) == before;
      for i := 0 to |existing|
        invariant store.tickets == AllArchived(before, existing) && store.keys == old(store.keys)
        invariant Agrees(AllArchived(before, existing[..i]), boards)
      {
        assert existing[..i + 1] == existing[..i] + [existing[i]];
        ghost var sofar, next := AllArchived(before, existing[..i]), AllArchived(before, existing[..i + 1]);
        CutKeepsAgreement(sofar, next, boards, existing[i]);
        SyncArchivedTicketInMemory(existing[i], sofar);
      }
      assert existing[..|existing|] == existing;
      return true, notFound;
    }

    /** The live ticket with that key, if there is one. */
    method FindKey(key: string) returns (hit: Option<TicketId>)
      ensures hit.Some? <==> KeyHit(store.tickets, store.keys, key)
      ensures hit.Some? ==>
        && hit.value in store.tickets && !store.tickets[hit.value].archived
        && hit.value in store.keys && store.keys[hit.value] == key
      ensures hit == None <==> key == "" || forall id ::
        id in store.tickets && id in store.keys && store.keys[id] == key ==> store.tickets[id].archived
    {
      if key == "" {
        return None;
      }
      var left := store.tickets.Keys;
      while left != {}
        invariant left <= store.tickets.Keys
        invariant forall x :: x in store.tickets && x in store.keys && x !in left ==>
          store.keys[x] != key || store.tickets[x].archived
        decreases left
      {
        var id :| id in left;
        left := left - {id};
        if id in store.keys && store.keys[id] == key && !store.tickets[id].archived {
          return Some(id);
        }
      }
      return None;
    }

    /** Creates a ticket with a fresh id, or answers with the live ticket that has its key. The
        cache gets the new ticket before the store looks at the key or commits: when the key hits
        or the commit fails, the store has no such ticket, and the cache still agrees exactly if
        it had no column for it. */
    method HandleCreateTicket(t: Ticket, key: string, commits: bool) returns (reply: Option<Ticket>)
      requires InSync() && t.id !in store.tickets && !t.archived
      modifies this, store
      ensures var hit := KeyHit(old(store.tickets), old(store.keys), key);
        var created := t.board in old(boards) && !hit && commits;
        && (reply == Some(t) <==> created)
        && store.tickets == (if created then old(store.tickets)[t.id := t] else old(store.tickets))
        && store.keys == (if created && store.keepsKeys then old(store.keys)[t.id := key] else old(store.keys))
        && (created ==> InSync())
        && (!created ==> (InSync() <==> !HasPlace(boards, t)))
        && (reply.Some? <==> t.board in old(boards) && (hit || commits))
        && (hit && reply.Some? ==> reply.value.id in store.keys && store.keys[reply.value.id] == key)
      ensures reply.Some? ==>
        reply.value.id in store.tickets && store.tickets[reply.value.id] == reply.value && !reply.value.archived
      ensures SameColumns(old(boards), boards)
    {
      if t.board !in boards {
        return None;
      }
      ghost var cached := boards;
      AddKeepsAgreement(store.tickets, boards, t);
      AddedColumns(boards, t);
      var columns := Append(boards[t.board], GetColumnID(t.column), t);
      boards := boards[t.board := columns];
      assert boards == Added(cached, t);
      var hit := FindKey(key);
      if hit.Some? {
        AppendDisagrees(store.tickets, cached, t);
        return Some(store.tickets[hit.value]);
      }
      if !commits {
        AppendDisagrees(store.tickets, cached, t);
        return None;
      }
      store.tickets := store.tickets[t.id := t];
      if store.keepsKeys {
        store.keys := store.keys[t.id := key];
      }
      return Some(t);
    }

    /** A create repeated with its key is answered with the first ticket exactly if the store's
        inserts write the key; otherwise a second ticket is made. */
    method CreateTwice(t: Ticket, u: Ticket, key: string) returns (first: Option<Ticket>, second: Option<Ticket>)
      requires InSync() && Fresh(Create(t, key), store.tickets, store.keys) && key != ""
      requires Fresh(Create(u, key), store.tickets, store.keys) && u.id != t.id
      requires t.board in boards && u.board in boards
      modifies this, store
      ensures first == Some(t) && second == (if store.keepsKeys then Some(t) else Some(u))
      ensures store.tickets == if store.keepsKeys then old(store.tickets)[t.id := t]
        else old(store.tickets)[t.id := t][u.id := u]
      ensures InSync() <==> !store.keepsKeys || !HasPlace(boards, u)
      ensures SameColumns(old(boards), boards)
    {
      first := HandleCreateTicket(t, key, true);
      assert store.keepsKeys ==> KeyHit(store.tickets, store.keys, key) by {
        if store.keepsKeys {
          assert t.id in store.tickets && store.keys[t.id] == key;
        }
      }
      second := HandleCreateTicket(u, key, true);
    }

    /** A sequential run: whatever is requested and whatever fails, the cache agrees with the
        store afterwards, as long as no create hits a key in use and no create or delete fails
        to commit. */
    method Serve(calls: seq<Call>)
      requires InSync() && Orderly(calls, store.tickets, store.keys)
      modifies this, store
      ensures InSync()
    {
      for i := 0 to |calls|
        invariant InSync()
        invariant forall j :: i <= j < |calls| && calls[j].request.Create? ==>
          Fresh(calls[j].request, store.tickets, store.keys)
      {
        ghost var before, keys := store.tickets, store.keys;
        ServeOne(calls[i]);
        forall j | i < j < |calls| && calls[j].request.Create?
          ensures Fresh(calls[j].request, store.tickets, store.keys)
        {
          if calls[i].request.Create? {
            StaysFreshBeside(before, keys, store.tickets, store.keys, calls[i].request, calls[j].request);
          } else {
            StaysFresh(before, keys, store.tickets, store.keys, calls[j].request);
          }
        }
      }
    }

    method ServeOne(call: Call)
      requires InSync() && (call.request.Create? || call.request.Delete? ==> call.commits)
      requires call.request.Create? ==> Fresh(call.request, store.tickets, store.keys)
      modifies this, store
      ensures InSync()
      ensures if call.request.Create?
        then OnlyNew(old(store.tickets), old(store.keys), store.tickets, store.keys,
                     call.request.ticket, call.request.key)
        else NothingNew(old(store.tickets), old(store.keys), store.tickets, store.keys)
    {
      var commits := call.commits;
      match call.request
      case Claim(id, user) =>
        var _ := HandleClaim(id, user, commits);
      case Release(id, user) =>
        var _ := HandleRelease(id, user, commits);
      case Move(id, target, force, user) =>
        var _ := HandleMove(id, target, force, user, commits);
      case Update(id, assignee, details) =>
        var _ := HandleUpdateTicket(id, assignee, details, commits);
      case Create(t, key) =>
        var _ := HandleCreateTicket(t, key, commits);
      case Delete(id) =>
        var _ := HandleDeleteTicket(id, commits);
      case Archive(id, user) =>
        var _ := SingleArchive(id, user, commits);
      case ArchiveMany(ids, user) =>
        var _, _ := BulkArchive(ids, user, commits);
    }
  }

  // ---------------------------------------------------------------- lemmas of the handlers

  ghost predicate DistinctIds(titles: seq<string>) {
    forall i, j :: 0 <= i < j < |titles| ==> GetColumnID(titles[i]) != GetColumnID(titles[j])
  }

  ghost predicate EmptyBoard(columns: seq<Column>, titles: seq<string>) {
    && |columns| == |titles|
    && forall i :: 0 <= i < |titles| ==> columns[i] == Column(GetColumnID(titles[i]), titles[i], [])
  }

  /** The columns have the titles, in order, and their ids. */
  ghost predicate Titled(columns: seq<Column>, titles: seq<string>) {
    && |columns| == |titles|
    && forall i :: 0 <= i < |titles| ==> columns[i].title == titles[i] && columns[i].id == GetColumnID(titles[i])
  }

  /** Nothing archived is listed. */
  ghost predicate OnlyLive(boards: Boards) {
    forall b, i, e :: b in boards && 0 <= i < |boards[b]| && e in boards[b][i].tickets ==> !e.archived
  }

  lemma AgreeingIsLive(loaded: TicketMap, boards: Boards)
    requires Agrees(loaded, boards) && forall x :: x in loaded ==> !loaded[x].archived
    ensures OnlyLive(boards)
  {
    forall b, i, e | b in boards && 0 <= i < |boards[b]| && e in boards[b][i].tickets
      ensures !e.archived
    {
      assert BoardAgrees(loaded, b, boards[b]) && ColumnAgrees(loaded, b, boards[b][i]);
    }
  }

  lemma StillTitled(empty: Boards, boards: Boards, configs: seq<BoardConfig>)
    requires SameColumns(empty, boards)
    requires forall b :: b in empty ==> exists c :: c in configs && c.id == b && EmptyBoard(empty[b], c.columns)
    ensures forall b :: b in boards ==> exists c :: c in configs && c.id == b && Titled(boards[b], c.columns)
  {
    forall b | b in boards
      ensures exists c :: c in configs && c.id == b && Titled(boards[b], c.columns)
    {
      var c :| c in configs && c.id == b && EmptyBoard(empty[b], c.columns);
      assert Titled(boards[b], c.columns);
    }
  }

  lemma EmptyAgrees(boards: Boards, configs: seq<BoardConfig>)
    requires forall b :: b in boards ==> exists c :: c in configs && EmptyBoard(boards[b], c.columns)
    requires forall c :: c in configs ==> DistinctIds(c.columns)
    ensures Agrees(map[], boards)
  {
  }

  lemma AddedColumns(boards: Boards, t: Ticket)
    ensures SameColumns(boards, Added(boards, t))
  {
    if t.board in boards {
      PutInColumns(boards[t.board], GetColumnID(t.column), t);
    }
  }

  lemma {:induction false} PutInColumns(columns: seq<Column>, columnId: string, t: Ticket)
    ensures forall i :: 0 <= i < |columns| ==>
      PutIn(columns, columnId, t)[i].id == columns[i].id && PutIn(columns, columnId, t)[i].title == columns[i].title
  {
    if columns != [] && columns[0].id != columnId {
      PutInColumns(columns[1..], columnId, t);
    }
  }

  /** A cached ticket that the store does not have is a disagreement. */
  lemma AppendDisagrees(tickets: TicketMap, boards: Boards, t: Ticket)
    requires Agrees(tickets, boards) && t.board in boards && t.id !in tickets
    ensures Agrees(tickets, Added(boards, t)) <==> !HasPlace(Added(boards, t), t)
  {
    var columns, after := boards[t.board], Added(boards, t)[t.board];
    assert BoardAgrees(tickets, t.board, columns);
    PutInSpec(columns, GetColumnID(t.column), t);
    if i :| 0 <= i < |after| && after[i].id == GetColumnID(t.column) {
      assert after[i].tickets[|columns[i].tickets|] == t;
      assert t in after[i].tickets;
      assert !ColumnAgrees(tickets, t.board, after[i]);
      assert !BoardAgrees(tickets, t.board, after);
    } else {
      assert after == columns;
      assert Added(boards, t) == boards;
    }
  }

  /** Cutting a ticket the store keeps is a disagreement when the ticket is live and has a place. */
  lemma EarlyCut(tickets: TicketMap, boards: Boards, id: TicketId)
    requires Agrees(tickets, boards) && id in tickets
    ensures Agrees(tickets, CutFrom(boards, id)) <==>
      tickets[id].archived || !HasPlace(CutFrom(boards, id), tickets[id])
  {
    var t, after := tickets[id], CutFrom(boards, id);
    if t.archived {
      CutKeepsAgreement(tickets, tickets, boards, id);
    } else if HasPlace(after, t) {
      var i :| 0 <= i < |after[t.board]| && after[t.board][i].id == GetColumnID(t.column);
      assert BoardAgrees(tickets, t.board, boards[t.board]);
      WithoutSpec(boards[t.board][i].tickets, id);
      assert t !in after[t.board][i].tickets;
      assert !ColumnAgrees(tickets, t.board, after[t.board][i]);
      assert !BoardAgrees(tickets, t.board, after[t.board]);
    } else {
      forall b, i | b in boards && 0 <= i < |boards[b]|
        ensures !HasEntry(boards[b][i], id)
      {
        assert BoardAgrees(tickets, b, boards[b]) && ColumnAgrees(tickets, b, boards[b][i]);
        assert after[b][i].id == boards[b][i].id;
      }
      NoCutIsAll(boards, id);
    }
  }

  // ---------------------------------------------------------------- the default configuration

  const DEFAULT_TITLES := ["Backlog", "To Do", "In Progress", "Review", "Done", "Cancelled"]
  const DEFAULT_IDS := ["backlog-0", "todo-0", "inprogress-0", "review-0", "done-0", "cancelled-0"]

  lemma DefaultIds(i: nat)
    requires i < 6
    ensures GetColumnID(DEFAULT_TITLES[i]) == DEFAULT_IDS[i]
  {
    DefaultTitle(DEFAULT_TITLES[i]);
  }

  /** The six ids start with different letters. */
  lemma DefaultInitials(i: nat)
    requires i < 6
    ensures |DEFAULT_IDS[i]| > 0 && DEFAULT_IDS[i][0] == "btirdc"[i]
  {
  }

  /** The default titles stand for six different columns. */
  lemma DefaultIdsDistinct()
    ensures DistinctIds(DEFAULT_TITLES)
  {
    forall i, j | 0 <= i < j < 6
      ensures GetColumnID(DEFAULT_TITLES[i]) != GetColumnID(DEFAULT_TITLES[j])
    {
      DefaultIds(i);
      DefaultIds(j);
      DefaultInitials(i);
      DefaultInitials(j);
    }
  }

  /** A server that loads the two default boards: whatever tickets the store holds, each board has
      the columns of the six statuses and the cache agrees with the store. */
  method DefaultServer(ticketStore: TicketStore) returns (server: Server)
    requires Filed(ticketStore.tickets)
    ensures server.store == ticketStore && server.InSync() && OnlyLive(server.boards)
    ensures server.store.tickets == old(ticketStore.tickets)
    ensures server.boards.Keys == {"human-to-ai", "ai-to-human"}
    ensures forall b :: b in server.boards ==>
      ColumnIds(server.boards[b]) == ["backlog-0", "todo-0", "inprogress-0", "review-0", "done-0", "cancelled-0"]
  {
    var first, second := BoardConfig("human-to-ai", DEFAULT_TITLES), BoardConfig("ai-to-human", DEFAULT_TITLES);
    var configs := [first, second];
    DefaultIdsDistinct();
    server := new Server(configs, ticketStore);
    assert (set c | c in configs :: c.id) == {configs[0].id, configs[1].id};
    forall b | b in server.boards
      ensures ColumnIds(server.boards[b]) == DEFAULT_IDS
    {
      assert Titled(server.boards[b], DEFAULT_TITLES);
      forall i | 0 <= i < 6
        ensures server.boards[b][i].id == DEFAULT_IDS[i]
      {
        DefaultIds(i);
      }
    }
  }

  function ColumnIds(columns: seq<Column>): seq<string> {
    seq(|columns|, i requires 0 <= i < |columns| => columns[i].id)
  }

  // ---------------------------------------------------------------- caches that stop agreeing

  /** A server with one board of one column, on an empty SQLite store. */
  method SmallServer() returns (server: Server)
    ensures server.InSync() && server.store.keepsKeys && server.store.tickets == map[] && server.store.keys == map[]
    ensures "b" in server.boards && Titled(server.boards["b"], ["To Do"])
    ensures fresh(server) && fresh(server.store)
  {
    var store := new TicketStore(true);
    var config := BoardConfig("b", ["To Do"]);
    server := new Server([config], store);
    assert config in [config];
  }

  lemma SmallHasPlace(boards: Boards, t: Ticket)
    requires "b" in boards && Titled(boards["b"], ["To Do"]) && t.board == "b" && t.column == "To Do"
    ensures HasPlace(boards, t)
  {
    assert boards["b"][0].id == GetColumnID(["To Do"][0]);
  }

  /** A create whose key hits leaves a cached ticket that is not stored. */
  method KeyHitBreaksSync() returns (server: Server)
    ensures !server.InSync()
  {
    server := SmallServer();
    var t, u := Ticket("t", "b", "To Do", "", false, 0), Ticket("u", "b", "To Do", "", false, 0);
    var _, _ := server.CreateTwice(t, u, "key");
    SmallHasPlace(server.boards, u);
  }

  /** A delete that does not commit leaves a stored ticket that is not cached. */
  method FailedDeleteBreaksSync() returns (server: Server)
    ensures !server.InSync()
  {
    server := SmallServer();
    var t := Ticket("t", "b", "To Do", "", false, 0);
    var _ := server.HandleCreateTicket(t, "", true);
    var _ := server.HandleDeleteTicket("t", false);
    SmallHasPlace(server.boards, t);
  }
}
