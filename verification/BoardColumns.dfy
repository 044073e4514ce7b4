/** The in-memory board columns as values: how single edits change them, and what it means for
    them to agree with the ticket store. */
module BoardColumns {
  import opened Points
  import opened Tickets
  import opened Columns

  datatype Column = Column(id: string, title: string, tickets: seq<Ticket>)

  type Boards = map<BoardId, seq<Column>>

  // ---------------------------------------------------------------- edits

  /** A ticket list without its first ticket of that id. */
  function Without(tickets: seq<Ticket>, id: TicketId): seq<Ticket> {
    if tickets == [] then []
    else if tickets[0].id == id then tickets[1..]
    else [tickets[0]] + Without(tickets[1..], id)
  }

  /** Every column without its first ticket of that id. */
  function WithoutAll(columns: seq<Column>, id: TicketId): (r: seq<Column>)
    ensures |r| == |columns|
    ensures forall i :: 0 <= i < |r| ==> r[i] == columns[i].(tickets := Without(columns[i].tickets, id))
  {
    if columns == [] then []
    else [columns[0].(tickets := Without(columns[0].tickets, id))] + WithoutAll(columns[1..], id)
  }

  /** The ticket at the end of the first column with that id, if there is one. */
  function PutIn(columns: seq<Column>, columnId: string, t: Ticket): (r: seq<Column>)
    ensures |r| == |columns|
  {
    if columns == [] then []
    else if columns[0].id == columnId then [columns[0].(tickets := columns[0].tickets + [t])] + columns[1..]
    else [columns[0]] + PutIn(columns[1..], columnId, t)
  }

  function WithTicket(column: Column, columnId: string, t: Ticket): Column {
    if column.id == columnId then column.(tickets := column.tickets + [t]) else column
  }

  function Added(boards: Boards, t: Ticket): Boards {
    if t.board in boards then boards[t.board := PutIn(boards[t.board], GetColumnID(t.column), t)] else boards
  }

  function CutFrom(boards: Boards, id: TicketId): Boards {
    map b | b in boards :: WithoutAll(boards[b], id)
  }

  function Synced(boards: Boards, t: Ticket): Boards {
    if t.board in boards
    then boards[t.board := PutIn(WithoutAll(boards[t.board], t.id), GetColumnID(t.column), t)]
    else boards
  }

  // ---------------------------------------------------------------- agreement

  ghost predicate OneOfEach(tickets: seq<Ticket>) {
    forall k, l :: 0 <= k < l < |tickets| ==> tickets[k].id != tickets[l].id
  }

  /** The column of the board that a ticket belongs in. */
  predicate Belongs(t: Ticket, board: BoardId, columnId: string) {
    t.board == board && GetColumnID(t.column) == columnId
  }

  /** The list holds only stored tickets of that column, and every one that is not archived. */
  ghost predicate Lists(tickets: TicketMap, board: BoardId, columnId: string, listed: seq<Ticket>) {
    && (forall e :: e in listed ==> e.id in tickets && tickets[e.id] == e && Belongs(e, board, columnId))
    && (forall id :: id in tickets && !tickets[id].archived && Belongs(tickets[id], board, columnId) ==>
        tickets[id] in listed)
  }

  /** A column lists stored tickets of its own, each once, and every one that is not archived. */
  ghost predicate ColumnAgrees(tickets: TicketMap, board: BoardId, column: Column) {
    OneOfEach(column.tickets) && Lists(tickets, board, column.id, column.tickets)
  }

  ghost predicate DistinctColumns(columns: seq<Column>) {
    forall i, j :: 0 <= i < j < |columns| ==> columns[i].id != columns[j].id
  }

  ghost predicate BoardAgrees(tickets: TicketMap, board: BoardId, columns: seq<Column>) {
    DistinctColumns(columns) && forall i :: 0 <= i < |columns| ==> ColumnAgrees(tickets, board, columns[i])
  }

  ghost predicate Agrees(tickets: TicketMap, boards: Boards) {
    Filed(tickets) && forall b :: b in boards ==> BoardAgrees(tickets, b, boards[b])
  }

  /** Agreement, read off a column: a ticket that is not archived is listed exactly once if the
      store has it in that board and column, and not at all otherwise. */
  lemma AgreementShowsLiveTickets(tickets: TicketMap, boards: Boards, b: BoardId, i: nat, t: Ticket)
    requires Agrees(tickets, boards) && b in boards && i < |boards[b]| && !t.archived
    ensures multiset(boards[b][i].tickets)[t] ==
      if t.id in tickets && tickets[t.id] == t && Belongs(t, b, boards[b][i].id) then 1 else 0
  {
    assert ColumnAgrees(tickets, b, boards[b][i]);
    CountOnce(boards[b][i].tickets, t);
  }

  lemma {:induction false} CountOnce(tickets: seq<Ticket>, t: Ticket)
    requires OneOfEach(tickets)
    ensures multiset(tickets)[t] == if t in tickets then 1 else 0
  {
    if tickets == [] {
    } else {
      var front, last := tickets[..|tickets| - 1], tickets[|tickets| - 1];
      assert tickets == front + [last];
      CountOnce(front, t);
      forall k | 0 <= k < |front|
        ensures front[k].id != last.id
      {
        assert front[k] == tickets[k];
      }
      assert last !in front;
    }
  }

  // ---------------------------------------------------------------- what the edits do

  lemma {:induction false} WithoutSpec(tickets: seq<Ticket>, id: TicketId)
    requires OneOfEach(tickets)
    ensures OneOfEach(Without(tickets, id))
    ensures forall e :: e in Without(tickets, id) <==> e in tickets && e.id != id
  {
    if tickets == [] {
    } else if tickets[0].id == id {
      forall e | e in tickets[1..]
        ensures e.id != id
      {
        var k :| 1 <= k < |tickets| && tickets[k] == e;
      }
      assert forall e :: e in tickets <==> e == tickets[0] || e in tickets[1..];
    } else {
      var rest := Without(tickets[1..], id);
      WithoutSpec(tickets[1..], id);
      assert forall e :: e in tickets <==> e == tickets[0] || e in tickets[1..];
      forall k | 0 <= k < |rest|
        ensures rest[k].id != tickets[0].id
      {
        assert rest[k] in tickets[1..];
        var l :| 1 <= l < |tickets| && tickets[l] == rest[k];
      }
    }
  }

  lemma {:induction false} PutInSpec(columns: seq<Column>, columnId: string, t: Ticket)
    requires DistinctColumns(columns)
    ensures forall i :: 0 <= i < |columns| ==> PutIn(columns, columnId, t)[i] == WithTicket(columns[i], columnId, t)
  {
    if columns != [] && columns[0].id != columnId {
      PutInSpec(columns[1..], columnId, t);
    }
  }

  lemma PutInStep(columns: seq<Column>, i: nat, columnId: string, t: Ticket)
    requires i < |columns|
    ensures columns[..i] + PutIn(columns[i..], columnId, t) ==
      if columns[i].id == columnId then columns[i := columns[i].(tickets := columns[i].tickets + [t])]
      else columns[..i + 1] + PutIn(columns[i + 1..], columnId, t)
  {
    assert columns[i..][0] == columns[i] && columns[i..][1..] == columns[i + 1..];
  }

  lemma OneMore(kept: seq<Ticket>, t: Ticket)
    requires OneOfEach(kept) && forall e :: e in kept ==> e.id != t.id
    ensures OneOfEach(kept + [t])
  {
  }

  lemma ListsAfterSync(tickets: TicketMap, b: BoardId, columnId: string, listed: seq<Ticket>,
                       kept: seq<Ticket>, t: Ticket)
    requires Filed(tickets) && Lists(tickets, b, columnId, listed) && t.board == b
    requires forall e :: e in kept <==> e in listed && e.id != t.id
    ensures Lists(tickets[t.id := t], b, columnId, if columnId == GetColumnID(t.column) then kept + [t] else kept)
  {
  }

  /** One column after a stored ticket of its board has become t and been synced. */
  lemma ColumnAfterSync(tickets: TicketMap, b: BoardId, column: Column, t: Ticket)
    requires Filed(tickets) && ColumnAgrees(tickets, b, column) && t.board == b
    ensures var kept := Without(column.tickets, t.id);
      ColumnAgrees(tickets[t.id := t], b,
        column.(tickets := if column.id == GetColumnID(t.column) then kept + [t] else kept))
  {
    var kept := Without(column.tickets, t.id);
    WithoutSpec(column.tickets, t.id);
    OneMore(kept, t);
    ListsAfterSync(tickets, b, column.id, column.tickets, kept, t);
  }

  /** A column of another board, when the ticket did not come from that board. */
  lemma ColumnElsewhere(tickets: TicketMap, b: BoardId, column: Column, t: Ticket)
    requires Filed(tickets) && ColumnAgrees(tickets, b, column) && t.board != b
    requires t.id in tickets ==> tickets[t.id].board != b
    ensures ColumnAgrees(tickets[t.id := t], b, column)
  {
  }

  /** Storing a ticket (new, or without changing its board) and syncing it keeps the agreement. */
  lemma SyncKeepsAgreement(tickets: TicketMap, boards: Boards, t: Ticket)
    requires Agrees(tickets, boards)
    requires t.id in tickets ==> tickets[t.id].board == t.board
    ensures Agrees(tickets[t.id := t], Synced(boards, t))
  {
    var after := Synced(boards, t);
    forall b | b in after
      ensures BoardAgrees(tickets[t.id := t], b, after[b])
    {
      assert BoardAgrees(tickets, b, boards[b]);
      if b == t.board {
        BoardAfterSync(tickets, b, boards[b], t);
      } else {
        forall i | 0 <= i < |boards[b]|
          ensures ColumnAgrees(tickets[t.id := t], b, boards[b][i])
        {
          ColumnElsewhere(tickets, b, boards[b][i], t);
        }
      }
    }
  }

  lemma BoardAfterSync(tickets: TicketMap, b: BoardId, columns: seq<Column>, t: Ticket)
    requires Filed(tickets) && BoardAgrees(tickets, b, columns) && t.board == b
    ensures BoardAgrees(tickets[t.id := t], b, PutIn(WithoutAll(columns, t.id), GetColumnID(t.column), t))
  {
    var cut := WithoutAll(columns, t.id);
    assert DistinctColumns(cut);
    PutInSpec(cut, GetColumnID(t.column), t);
    forall i | 0 <= i < |columns|
      ensures ColumnAgrees(tickets[t.id := t], b, PutIn(cut, GetColumnID(t.column), t)[i])
    {
      ColumnAfterSync(tickets, b, columns[i], t);
    }
  }

  /** The store after a ticket was dropped or archived; all others are as they were. */
  ghost predicate Gone(tickets: TicketMap, after: TicketMap, id: TicketId) {
    && (forall x :: x != id && x in tickets ==> x in after && after[x] == tickets[x])
    && (forall x :: x in after ==> x == id || x in tickets)
    && (id in after ==> after[id].archived)
  }

  lemma ListsAfterCut(tickets: TicketMap, after: TicketMap, b: BoardId, columnId: string, listed: seq<Ticket>,
                      kept: seq<Ticket>, id: TicketId)
    requires Filed(tickets) && Lists(tickets, b, columnId, listed) && Gone(tickets, after, id)
    requires forall e :: e in kept <==> e in listed && e.id != id
    ensures Lists(after, b, columnId, kept)
  {
  }

  lemma ColumnAfterCut(tickets: TicketMap, after: TicketMap, b: BoardId, column: Column, id: TicketId)
    requires Filed(tickets) && ColumnAgrees(tickets, b, column) && Gone(tickets, after, id)
    ensures ColumnAgrees(after, b, column.(tickets := Without(column.tickets, id)))
  {
    WithoutSpec(column.tickets, id);
    ListsAfterCut(tickets, after, b, column.id, column.tickets, Without(column.tickets, id), id);
  }

  /** Removing the ticket from every column keeps the agreement when the store has dropped or
      archived it. */
  lemma CutKeepsAgreement(tickets: TicketMap, after: TicketMap, boards: Boards, id: TicketId)
    requires Agrees(tickets, boards) && Filed(after) && Gone(tickets, after, id)
    ensures Agrees(after, CutFrom(boards, id))
  {
    forall b | b in boards
      ensures BoardAgrees(after, b, WithoutAll(boards[b], id))
    {
      assert BoardAgrees(tickets, b, boards[b]);
      forall i | 0 <= i < |boards[b]|
        ensures ColumnAgrees(after, b, WithoutAll(boards[b], id)[i])
      {
        ColumnAfterCut(tickets, after, b, boards[b][i], id);
      }
    }
  }

  /** Where the entry of an id can be: nowhere but in the board and column of the stored ticket. */
  lemma EntryPlace(tickets: TicketMap, boards: Boards, b: BoardId, i: nat, e: Ticket)
    requires Agrees(tickets, boards) && b in boards && i < |boards[b]| && e in boards[b][i].tickets
    ensures e.id in tickets && tickets[e.id] == e && Belongs(e, b, boards[b][i].id)
    ensures forall c, j :: c in boards && 0 <= j < |boards[c]| && (c != b || j != i) ==>
      forall x :: x in boards[c][j].tickets ==> x.id != e.id
  {
  }

  lemma {:induction false} WithoutAbsent(tickets: seq<Ticket>, id: TicketId)
    requires forall e :: e in tickets ==> e.id != id
    ensures Without(tickets, id) == tickets
  {
    if tickets != [] {
      assert tickets[0] in tickets;
      WithoutAbsent(tickets[1..], id);
    }
  }

  lemma NothingToCut(tickets: TicketMap, b: BoardId, columns: seq<Column>, id: TicketId)
    requires BoardAgrees(tickets, b, columns) && (id in tickets ==> tickets[id].board != b)
    ensures WithoutAll(columns, id) == columns
  {
    forall i | 0 <= i < |columns|
      ensures Without(columns[i].tickets, id) == columns[i].tickets
    {
      assert ColumnAgrees(tickets, b, columns[i]);
      WithoutAbsent(columns[i].tickets, id);
    }
  }

  /** Appending a ticket that is new to the store keeps the agreement. */
  lemma AddKeepsAgreement(tickets: TicketMap, boards: Boards, t: Ticket)
    requires Agrees(tickets, boards) && t.id !in tickets
    ensures Agrees(tickets[t.id := t], Added(boards, t))
  {
    SyncKeepsAgreement(tickets, boards, t);
    if t.board in boards {
      NothingToCut(tickets, t.board, boards[t.board], t.id);
    }
  }

  /** Archived tickets need not be cached. */
  lemma ArchivedNeedNotShow(live: TicketMap, tickets: TicketMap, boards: Boards)
    requires Agrees(live, boards) && Filed(tickets)
    requires forall x :: x in live ==> x in tickets && tickets[x] == live[x]
    requires forall x :: x in tickets && x !in live ==> tickets[x].archived
    ensures Agrees(tickets, boards)
  {
  }

  // ---------------------------------------------------------------- overwriting

  /** A ticket list with its first ticket of that id overwritten. */
  function Overwritten(tickets: seq<Ticket>, t: Ticket): seq<Ticket> {
    if tickets == [] then []
    else if tickets[0].id == t.id then [t] + tickets[1..]
    else [tickets[0]] + Overwritten(tickets[1..], t)
  }

  function OverwrittenAll(columns: seq<Column>, t: Ticket): (r: seq<Column>)
    ensures |r| == |columns|
    ensures forall i :: 0 <= i < |r| ==> r[i] == columns[i].(tickets := Overwritten(columns[i].tickets, t))
  {
    if columns == [] then []
    else [columns[0].(tickets := Overwritten(columns[0].tickets, t))] + OverwrittenAll(columns[1..], t)
  }

  function OverwrittenIn(boards: Boards, t: Ticket): Boards {
    map b | b in boards :: OverwrittenAll(boards[b], t)
  }

  lemma {:induction false} OverwrittenAt(tickets: seq<Ticket>, k: nat, t: Ticket)
    requires k < |tickets| && tickets[k].id == t.id && forall l :: 0 <= l < k ==> tickets[l].id != t.id
    ensures Overwritten(tickets, t) == tickets[k := t]
  {
    if k > 0 {
      OverwrittenAt(tickets[1..], k - 1, t);
      assert tickets[k := t] == [tickets[0]] + tickets[1..][k - 1 := t];
    }
  }

  lemma {:induction false} OverwrittenAbsent(column: Column, t: Ticket)
    requires !HasEntry(column, t.id)
    ensures Overwritten(column.tickets, t) == column.tickets
    decreases |column.tickets|
  {
    if column.tickets != [] {
      assert column.tickets[0] in column.tickets;
      OverwrittenAbsent(column.(tickets := column.tickets[1..]), t);
    }
  }

  lemma BoardNotOverwritten(columns: seq<Column>, t: Ticket)
    requires forall i :: 0 <= i < |columns| ==> !HasEntry(columns[i], t.id)
    ensures OverwrittenAll(columns, t) == columns
  {
    forall i | 0 <= i < |columns|
      ensures Overwritten(columns[i].tickets, t) == columns[i].tickets
    {
      OverwrittenAbsent(columns[i], t);
    }
  }

  lemma BoardOverwrittenOnce(columns: seq<Column>, i: nat, t: Ticket)
    requires i < |columns| && forall j :: 0 <= j < |columns| && j != i ==> !HasEntry(columns[j], t.id)
    ensures OverwrittenAll(columns, t) == columns[i := columns[i].(tickets := Overwritten(columns[i].tickets, t))]
  {
    forall j | 0 <= j < |columns| && j != i
      ensures Overwritten(columns[j].tickets, t) == columns[j].tickets
    {
      OverwrittenAbsent(columns[j], t);
    }
  }

  /** Overwriting the first entry found is overwriting the ticket everywhere. */
  lemma OneOverwriteIsAll(tickets: TicketMap, boards: Boards, b: BoardId, i: nat, k: nat, t: Ticket)
    requires Agrees(tickets, boards) && b in boards && i < |boards[b]| && k < |boards[b][i].tickets|
    requires boards[b][i].tickets[k].id == t.id && forall l :: 0 <= l < k ==> boards[b][i].tickets[l].id != t.id
    ensures boards[b := boards[b][i := boards[b][i].(tickets := boards[b][i].tickets[k := t])]]
      == OverwrittenIn(boards, t)
  {
    EntryPlace(tickets, boards, b, i, boards[b][i].tickets[k]);
    OverwrittenAt(boards[b][i].tickets, k, t);
    BoardOverwrittenOnce(boards[b], i, t);
    forall c | c in boards && c != b
      ensures OverwrittenAll(boards[c], t) == boards[c]
    {
      BoardNotOverwritten(boards[c], t);
    }
  }

  lemma NoOverwriteIsAll(boards: Boards, t: Ticket)
    requires forall b, i :: b in boards && 0 <= i < |boards[b]| ==> !HasEntry(boards[b][i], t.id)
    ensures OverwrittenIn(boards, t) == boards
  {
    forall b | b in boards
      ensures OverwrittenAll(boards[b], t) == boards[b]
    {
      BoardNotOverwritten(boards[b], t);
    }
  }

  // ---------------------------------------------------------------- idempotency keys

  type Keys = map<TicketId, string>

  /** A live ticket was stored with that idempotency key. */
  ghost predicate KeyHit(tickets: TicketMap, keys: Keys, key: string) {
    key != "" && exists id :: id in tickets && id in keys && keys[id] == key && !tickets[id].archived
  }

  /** No ticket is new or comes back from the archive, and no key is. */
  ghost predicate NothingNew(before: TicketMap, keys: Keys, after: TicketMap, keys': Keys) {
    && (forall id :: id in after ==> id in before && (before[id].archived ==> after[id].archived))
    && (forall id :: id in keys' ==> id in keys && keys'[id] == keys[id])
  }

  lemma KeyStaysFree(before: TicketMap, keys: Keys, after: TicketMap, keys': Keys, key: string)
    requires NothingNew(before, keys, after, keys') && !KeyHit(before, keys, key)
    ensures !KeyHit(after, keys', key)
  {
  }

  /** Boards of the same ids, with columns of the same ids and titles. */
  ghost predicate SameColumns(boards: Boards, after: Boards) {
    && boards.Keys == after.Keys
    && (forall b :: b in boards ==> |after[b]| == |boards[b]|)
    && (forall b, i :: b in boards && 0 <= i < |boards[b]| ==>
        after[b][i].id == boards[b][i].id && after[b][i].title == boards[b][i].title)
  }

  // ---------------------------------------------------------------- archiving

  /** The cache has a column for the ticket. */
  ghost predicate HasPlace(boards: Boards, t: Ticket) {
    t.board in boards && exists i :: 0 <= i < |boards[t.board]| && boards[t.board][i].id == GetColumnID(t.column)
  }

  /** The store after the tickets of a list were archived. */
  function AllArchived(tickets: TicketMap, ids: seq<TicketId>): TicketMap {
    map x | x in tickets :: if x in ids then tickets[x].(archived := true) else tickets[x]
  }

  /** The listed tickets were archived, in no other way changed, and no other ticket was. */
  ghost predicate ArchivedExactly(before: TicketMap, ids: seq<TicketId>, after: TicketMap) {
    && after.Keys == before.Keys
    && (forall id :: id in before && id in ids ==> after[id] == before[id].(archived := true))
    && (forall id :: id in before && id !in ids ==> after[id] == before[id])
  }

  lemma AllArchivedExactly(tickets: TicketMap, ids: seq<TicketId>)
    ensures ArchivedExactly(tickets, ids, AllArchived(tickets, ids))
  {
  }

  ghost predicate HasEntry(column: Column, id: TicketId) {
    exists e :: e in column.tickets && e.id == id
  }

  lemma BoardNotCut(columns: seq<Column>, id: TicketId)
    requires forall i :: 0 <= i < |columns| ==> !HasEntry(columns[i], id)
    ensures WithoutAll(columns, id) == columns
  {
    forall i | 0 <= i < |columns|
      ensures Without(columns[i].tickets, id) == columns[i].tickets
    {
      assert !HasEntry(columns[i], id);
      WithoutAbsent(columns[i].tickets, id);
    }
  }

  lemma BoardCutOnce(columns: seq<Column>, i: nat, id: TicketId)
    requires i < |columns| && forall j :: 0 <= j < |columns| && j != i ==> !HasEntry(columns[j], id)
    ensures WithoutAll(columns, id) == columns[i := columns[i].(tickets := Without(columns[i].tickets, id))]
  {
    forall j | 0 <= j < |columns| && j != i
      ensures Without(columns[j].tickets, id) == columns[j].tickets
    {
      assert !HasEntry(columns[j], id);
      WithoutAbsent(columns[j].tickets, id);
    }
  }

  /** Cutting the one entry found is cutting the ticket everywhere. */
  lemma OneCutIsAll(tickets: TicketMap, boards: Boards, b: BoardId, i: nat, id: TicketId)
    requires Agrees(tickets, boards) && b in boards && i < |boards[b]| && HasEntry(boards[b][i], id)
    ensures boards[b := boards[b][i := boards[b][i].(tickets := Without(boards[b][i].tickets, id))]]
      == CutFrom(boards, id)
  {
    var e :| e in boards[b][i].tickets && e.id == id;
    EntryPlace(tickets, boards, b, i, e);
    BoardCutOnce(boards[b], i, id);
    forall c | c in boards && c != b
      ensures WithoutAll(boards[c], id) == boards[c]
    {
      BoardNotCut(boards[c], id);
    }
  }

  lemma NoCutIsAll(boards: Boards, id: TicketId)
    requires forall b, i :: b in boards && 0 <= i < |boards[b]| ==> !HasEntry(boards[b][i], id)
    ensures CutFrom(boards, id) == boards
  {
    forall b | b in boards
      ensures WithoutAll(boards[b], id) == boards[b]
    {
      BoardNotCut(boards[b], id);
    }
  }

  // ---------------------------------------------------------------- replacing an entry

  /** The same place on the boards. */
  ghost predicate SamePlace(t: Ticket, u: Ticket) {
    t.id == u.id && t.board == u.board && t.column == u.column && t.archived == u.archived
  }

  lemma OneOfEachReplaced(listed: seq<Ticket>, k: nat, t: Ticket)
    requires OneOfEach(listed) && k < |listed| && listed[k].id == t.id
    ensures OneOfEach(listed[k := t])
    ensures forall e :: e in listed[k := t] <==> e == t || (e in listed && e.id != t.id)
  {
    var r := listed[k := t];
    assert r[k] == t;
    forall e | e in listed && e.id != t.id
      ensures e in r
    {
      var l :| 0 <= l < |listed| && listed[l] == e;
      assert r[l] == e;
    }
    forall e | e in r && e != t
      ensures e in listed && e.id != t.id
    {
      var l :| 0 <= l < |r| && r[l] == e;
      assert l != k && listed[l] == e;
      if l < k {
        assert listed[l].id != listed[k].id;
      }
    }
  }

  lemma ListsReplaced(tickets: TicketMap, b: BoardId, columnId: string, listed: seq<Ticket>,
                      after: seq<Ticket>, t: Ticket)
    requires Filed(tickets) && Lists(tickets, b, columnId, listed)
    requires t.id in tickets && SamePlace(tickets[t.id], t)
    requires (tickets[t.id] in listed && forall e :: e in after <==> e == t || (e in listed && e.id != t.id))
      || (after == listed && forall e :: e in listed ==> e.id != t.id)
    ensures Lists(tickets[t.id := t], b, columnId, after)
  {
  }

  /** Replacing the cached entry of a ticket that keeps its place keeps the agreement. */
  lemma ReplaceKeepsAgreement(tickets: TicketMap, boards: Boards, b: BoardId, i: nat, k: nat, t: Ticket)
    requires Agrees(tickets, boards) && t.id in tickets && SamePlace(tickets[t.id], t)
    requires b in boards && i < |boards[b]| && k < |boards[b][i].tickets| && boards[b][i].tickets[k].id == t.id
    ensures Agrees(tickets[t.id := t],
                   boards[b := boards[b][i := boards[b][i].(tickets := boards[b][i].tickets[k := t])]])
  {
    var listed := boards[b][i].tickets;
    var after := boards[b := boards[b][i := boards[b][i].(tickets := listed[k := t])]];
    assert listed[k] in listed;
    EntryPlace(tickets, boards, b, i, listed[k]);
    forall c | c in boards
      ensures BoardAgrees(tickets[t.id := t], c, after[c])
    {
      assert BoardAgrees(tickets, c, boards[c]);
      forall j | 0 <= j < |after[c]|
        ensures ColumnAgrees(tickets[t.id := t], c, after[c][j])
      {
        assert ColumnAgrees(tickets, c, boards[c][j]);
        if c == b && j == i {
          OneOfEachReplaced(listed, k, t);
        }
        ListsReplaced(tickets, c, boards[c][j].id, boards[c][j].tickets, after[c][j].tickets, t);
      }
    }
  }

  lemma UncachedReplaceKeepsAgreement(tickets: TicketMap, boards: Boards, t: Ticket)
    requires Agrees(tickets, boards) && t.id in tickets && SamePlace(tickets[t.id], t)
    requires forall b, i :: b in boards && 0 <= i < |boards[b]| ==> !HasEntry(boards[b][i], t.id)
    ensures Agrees(tickets[t.id := t], boards)
  {
  }
}
