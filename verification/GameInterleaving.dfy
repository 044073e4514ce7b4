/** Handlers that run at the same time: the store locks each get and each update, but nothing
    spans a whole handler, so the three phases of different handlers interleave freely. */
module GameInterleaving {
  import opened Points
  import opened Boards
  import opened GoGame
  import opened GoHistory
  import opened GoHandlers
  import opened GoOutcomes
  import opened GoRuns
  import Games

  type GameId = Games.GameId

  /** A handler between its get and its update: the copy it works on, and whether its request
      has been carried out on it. */
  datatype Held = Held(id: GameId, game: GameState, worked: bool)

  datatype World = World(games: map<GameId, GameState>, held: map<nat, Held>)

  datatype Event =
    | Create(id: GameId, size: int)
    | Get(handler: nat, id: GameId)
    | Work(handler: nat, request: Request)
    | Update(handler: nat)

  /** One atomic phase of one handler; a phase that does not apply changes nothing. */
  ghost function Next(w: World, e: Event): World {
    match e
    case Create(id, size) => w.(games := w.games[id := NewGame(size)])
    case Get(h, id) => if id in w.games then w.(held := w.held[h := Held(id, w.games[id], false)]) else w
    case Work(h, request) =>
      if h !in w.held || w.held[h].worked then w
      else
        var step := Step(w.held[h].game, request);
        if step.Done? then w.(held := w.held[h := Held(w.held[h].id, step.game, true)])
        else w.(held := w.held - {h})
    case Update(h) =>
      if h !in w.held || !w.held[h].worked then w
      else
        var mine := w.held[h];
        World(if mine.id in w.games then w.games[mine.id := mine.game] else w.games, w.held - {h})
  }

  ghost function ExecuteFrom(w: World, events: seq<Event>): World {
    if events == [] then w
    else Next(ExecuteFrom(w, events[..|events| - 1]), events[|events| - 1])
  }

  ghost function Execute(events: seq<Event>): World {
    ExecuteFrom(World(map[], map[]), events)
  }

  // ---------------------------------------------------------------- what is stored

  /** The requests, served one after the other, make this game of a new one; with `calm`, none
      of them is a resignation. */
  ghost predicate Makes(g: GameState, size: int, requests: seq<Request>, calm: bool) {
    (calm ==> NoResign(requests)) && g == Run(NewGame(size), requests)
  }

  ghost predicate Sequential(g: GameState, calm: bool) {
    exists size, requests :: Makes(g, size, requests, calm)
  }

  lemma SequentialNew(size: int, calm: bool)
    ensures Sequential(NewGame(size), calm)
  {
    assert Makes(NewGame(size), size, [], calm);
  }

  lemma SequentialAfter(g: GameState, request: Request, calm: bool)
    requires Sequential(g, calm) && (calm ==> !request.Resign?)
    ensures Sequential(After(g, request), calm)
  {
    var size, requests :| Makes(g, size, requests, calm);
    RunSnoc(NewGame(size), requests, request);
    assert Makes(After(g, request), size, requests + [request], calm);
  }

  ghost predicate AllSequential(w: World, calm: bool) {
    && (forall id :: id in w.games ==> Sequential(w.games[id], calm))
    && (forall h :: h in w.held ==> Sequential(w.held[h].game, calm))
  }

  predicate Resigns(e: Event) {
    e.Work? && e.request.Resign?
  }

  ghost predicate NoneResigns(events: seq<Event>) {
    forall i :: 0 <= i < |events| ==> !Resigns(events[i])
  }

  lemma NextSequential(w: World, e: Event, calm: bool)
    requires AllSequential(w, calm) && (calm ==> !Resigns(e))
    ensures AllSequential(Next(w, e), calm)
  {
    match e
    case Create(id, size) => SequentialNew(size, calm);
    case Get(h, id) =>
    case Work(h, request) =>
      if h in w.held {
        SequentialAfter(w.held[h].game, request, calm);
      }
    case Update(h) =>
  }

  lemma {:induction false} ExecuteSequential(w: World, events: seq<Event>, calm: bool)
    requires AllSequential(w, calm) && (calm ==> NoneResigns(events))
    ensures AllSequential(ExecuteFrom(w, events), calm)
  {
    if events != [] {
      ExecuteSequential(w, events[..|events| - 1], calm);
      NextSequential(ExecuteFrom(w, events[..|events| - 1]), events[|events| - 1], calm);
    }
  }

  /** However the phases interleave, every stored game is one that a sequential run of requests
      on a new game reaches; in particular it has no stone without a liberty. */
  lemma StoredGamesAreSequential(events: seq<Event>)
    ensures AllSequential(Execute(events), false)
    ensures forall id :: id in Execute(events).games ==> Sound(Execute(events).games[id])
  {
    ExecuteSequential(World(map[], map[]), events, false);
    forall id | id in Execute(events).games
      ensures Sound(Execute(events).games[id])
    {
      assert Sequential(Execute(events).games[id], false);
      var size, requests :| Makes(Execute(events).games[id], size, requests, false);
      EveryRunIsSound(size, requests);
    }
  }

  // ---------------------------------------------------------------- a handler among others

  predicate IsOf(e: Event, h: nat) {
    match e
    case Create(_, _) => false
    case Get(k, _) => k == h
    case Work(k, _) => k == h
    case Update(k) => k == h
  }

  ghost predicate OfOthers(events: seq<Event>, h: nat) {
    forall i :: 0 <= i < |events| ==> !IsOf(events[i], h)
  }

  /** The phase stores a game under that id. */
  ghost predicate Stores(w: World, e: Event, id: GameId) {
    match e
    case Create(i, _) => i == id
    case Update(k) => k in w.held && w.held[k].worked && w.held[k].id == id
    case _ => false
  }

  /** None of the phases stores a game under that id. */
  ghost predicate NoneStores(w: World, events: seq<Event>, id: GameId) {
    if events == [] then true
    else
      var front := events[..|events| - 1];
      NoneStores(w, front, id) && !Stores(ExecuteFrom(w, front), events[|events| - 1], id)
  }

  lemma {:induction false} HeldStays(w: World, events: seq<Event>, h: nat)
    requires OfOthers(events, h) && h in w.held
    ensures h in ExecuteFrom(w, events).held && ExecuteFrom(w, events).held[h] == w.held[h]
  {
    if events != [] {
      HeldStays(w, events[..|events| - 1], h);
      assert !IsOf(events[|events| - 1], h);
    }
  }

  lemma {:induction false} NotHeldStays(w: World, events: seq<Event>, h: nat)
    requires OfOthers(events, h) && h !in w.held
    ensures h !in ExecuteFrom(w, events).held
  {
    if events != [] {
      NotHeldStays(w, events[..|events| - 1], h);
      assert !IsOf(events[|events| - 1], h);
    }
  }

  lemma {:induction false} GameRemains(w: World, events: seq<Event>, id: GameId)
    requires id in w.games
    ensures id in ExecuteFrom(w, events).games
    ensures NoneStores(w, events, id) ==> ExecuteFrom(w, events).games[id] == w.games[id]
  {
    if events != [] {
      GameRemains(w, events[..|events| - 1], id);
    }
  }

  /** The world just before the handler's update, when it got the game, carried out its request
      and other handlers' phases came in between. */
  ghost function BeforeUpdate(w: World, h: nat, id: GameId, front: seq<Event>, request: Request, back: seq<Event>)
    : World
  {
    ExecuteFrom(Next(ExecuteFrom(Next(w, Get(h, id)), front), Work(h, request)), back)
  }

  lemma WindowHeld(w: World, h: nat, id: GameId, front: seq<Event>, request: Request, back: seq<Event>)
    requires id in w.games && OfOthers(front, h) && OfOthers(back, h)
    ensures var w' := BeforeUpdate(w, h, id, front, request, back);
      && id in w'.games
      && (h in w'.held <==> Step(w.games[id], request).Done?)
      && (h in w'.held ==> w'.held[h] == Held(id, After(w.games[id], request), true))
  {
    var w1 := Next(w, Get(h, id));
    var w2 := ExecuteFrom(w1, front);
    var w3 := Next(w2, Work(h, request));
    HeldStays(w1, front, h);
    GameRemains(w1, front, id);
    GameRemains(w3, back, id);
    if Step(w.games[id], request).Done? {
      HeldStays(w3, back, h);
    } else {
      NotHeldStays(w3, back, h);
    }
  }

  /** When nothing is stored under the id between a handler's get and its update, then whatever
      else interleaves, the update does to the games stored by then what the request does when
      it is served alone, and the client is told the same. */
  lemma UndisturbedUpdateIsServed(w: World, h: nat, id: GameId, front: seq<Event>, request: Request, back: seq<Event>)
    requires id in w.games && OfOthers(front, h) && OfOthers(back, h)
    requires NoneStores(Next(w, Get(h, id)), front, id)
    requires NoneStores(Next(ExecuteFrom(Next(w, Get(h, id)), front), Work(h, request)), back, id)
    ensures var w' := BeforeUpdate(w, h, id, front, request, back);
      && Next(w', Update(h)).games == Served(w'.games, id, request)
      && Answer(w'.games, id, request) == Answer(w.games, id, request)
  {
    var w1 := Next(w, Get(h, id));
    WindowHeld(w, h, id, front, request, back);
    GameRemains(w1, front, id);
    GameRemains(Next(ExecuteFrom(w1, front), Work(h, request)), back, id);
  }

  /** In any case an update stores the fetched history and one record: what was stored under
      the id in between is overwritten. */
  lemma UpdateStoresFetchedAndOne(w: World, h: nat, id: GameId, front: seq<Event>, request: Request, back: seq<Event>)
    requires id in w.games && OfOthers(front, h) && OfOthers(back, h) && Step(w.games[id], request).Done?
    ensures var w' := BeforeUpdate(w, h, id, front, request, back);
      var stored := Next(w', Update(h)).games;
      && stored == w'.games[id := After(w.games[id], request)]
      && stored[id].history[..|w.games[id].history|] == w.games[id].history
      && |stored[id].history| == |w.games[id].history| + 1
  {
    WindowHeld(w, h, id, front, request, back);
    OneRecord(w.games[id], request);
  }

  lemma OneRecord(g: GameState, request: Request)
    requires Step(g, request).Done?
    ensures |After(g, request).history| == |g.history| + 1
    ensures After(g, request).history[..|g.history|] == g.history && After(g, request).size == g.size
  {
  }

  /** The update is served: it does what the request does to the games stored by then. */
  ghost predicate UpdateServes(w: World, h: nat, id: GameId, request: Request)
    requires id in w.games
  {
    Step(w.games[id], request).Done? && Next(w, Update(h)).games == Served(w.games, id, request)
  }

  /** An update is served only if the stored history is still the fetched one. */
  lemma ServedOnlyIfUnchanged(w: World, h: nat, id: GameId, front: seq<Event>, request: Request, back: seq<Event>)
    requires id in w.games && OfOthers(front, h) && OfOthers(back, h) && Step(w.games[id], request).Done?
    ensures var w' := BeforeUpdate(w, h, id, front, request, back);
      id in w'.games && (UpdateServes(w', h, id, request) ==>
        w'.games[id].history == w.games[id].history && w'.games[id].size == w.games[id].size)
  {
    var w' := BeforeUpdate(w, h, id, front, request, back);
    WindowHeld(w, h, id, front, request, back);
    OneRecord(w.games[id], request);
    if UpdateServes(w', h, id, request) {
      OneRecord(w'.games[id], request);
      assert Next(w', Update(h)).games[id] == After(w.games[id], request);
      assert Served(w'.games, id, request)[id] == After(w'.games[id], request);
    }
  }

  /** Where nobody resigns that is exact: whatever came before and whatever interleaves, an
      accepted request's update is served exactly if the stored history is still the fetched
      one, which a handler could compare before it stores. */
  lemma ServedIffUnchanged(events: seq<Event>, h: nat, id: GameId, front: seq<Event>, request: Request,
                           back: seq<Event>)
    requires NoneResigns(events) && NoneResigns(front) && NoneResigns(back) && !request.Resign?
    requires var w := Execute(events); id in w.games && Step(w.games[id], request).Done?
    requires OfOthers(front, h) && OfOthers(back, h)
    ensures var w := Execute(events);
      var w' := BeforeUpdate(w, h, id, front, request, back);
      id in w'.games && (UpdateServes(w', h, id, request) <==>
        w'.games[id].history == w.games[id].history && w'.games[id].size == w.games[id].size)
  {
    var w := Execute(events);
    var w' := BeforeUpdate(w, h, id, front, request, back);
    ServedOnlyIfUnchanged(w, h, id, front, request, back);
    WindowHeld(w, h, id, front, request, back);
    if w'.games[id].history == w.games[id].history && w'.games[id].size == w.games[id].size {
      ExecuteSequential(World(map[], map[]), events, true);
      WindowSequential(w, h, id, front, request, back);
      SameHistorySameGame(w.games[id], w'.games[id]);
      UnchangedIsServed(w', h, id, request);
    }
  }

  lemma UnchangedIsServed(w: World, h: nat, id: GameId, request: Request)
    requires id in w.games && h in w.held && w.held[h] == Held(id, After(w.games[id], request), true)
    requires Step(w.games[id], request).Done?
    ensures UpdateServes(w, h, id, request)
  {
  }

  lemma WindowSequential(w: World, h: nat, id: GameId, front: seq<Event>, request: Request, back: seq<Event>)
    requires AllSequential(w, true) && NoneResigns(front) && NoneResigns(back) && !request.Resign?
    ensures AllSequential(BeforeUpdate(w, h, id, front, request, back), true)
  {
    NextSequential(w, Get(h, id), true);
    ExecuteSequential(Next(w, Get(h, id)), front, true);
    NextSequential(ExecuteFrom(Next(w, Get(h, id)), front), Work(h, request), true);
    ExecuteSequential(Next(ExecuteFrom(Next(w, Get(h, id)), front), Work(h, request)), back, true);
  }

  lemma SameHistorySameGame(g: GameState, g': GameState)
    requires Sequential(g, true) && Sequential(g', true) && g.size == g'.size && g.history == g'.history
    ensures g == g'
  {
    var size, requests :| Makes(g, size, requests, true);
    var size', requests' :| Makes(g', size', requests', true);
    HistoryDeterminesTheGame(size, requests, size', requests');
  }

  /** The three phases of one handler with nothing of another in between are the handler served
      alone, whatever else is held. */
  lemma AloneIsServed(w: World, h: nat, id: GameId, request: Request)
    requires id in w.games && h !in w.held
    ensures var w' := Next(Next(Next(w, Get(h, id)), Work(h, request)), Update(h));
      w'.games == Served(w.games, id, request) && w'.held == w.held
  {
  }

  lemma WorkStep(w: World, h: nat, id: GameId, g: GameState, request: Request)
    requires h in w.held && w.held[h] == Held(id, g, false) && Step(g, request).Done?
    ensures Next(w, Work(h, request)) == World(w.games, w.held[h := Held(id, After(g, request), true)])
  {
  }

  lemma BothWorked(w: World, h1: nat, h2: nat, id: GameId, r1: Request, r2: Request)
    requires id in w.games && h1 != h2
    requires Step(w.games[id], r1).Done? && Step(w.games[id], r2).Done?
    ensures Next(Next(Next(Next(w, Get(h1, id)), Get(h2, id)), Work(h1, r1)), Work(h2, r2)) ==
      World(w.games, w.held[h1 := Held(id, After(w.games[id], r1), true)][h2 := Held(id, After(w.games[id], r2), true)])
  {
    var g := w.games[id];
    var w2 := Next(Next(w, Get(h1, id)), Get(h2, id));
    assert w2 == World(w.games, w.held[h1 := Held(id, g, false)][h2 := Held(id, g, false)]);
    WorkStep(w2, h1, id, g, r1);
    var w3 := World(w2.games, w2.held[h1 := Held(id, After(g, r1), true)]);
    WorkStep(w3, h2, id, g, r2);
    assert w3.held[h2 := Held(id, After(g, r2), true)] ==
      w.held[h1 := Held(id, After(g, r1), true)][h2 := Held(id, After(g, r2), true)];
  }

  lemma UpdateStep(w: World, h: nat)
    requires h in w.held && w.held[h].worked && w.held[h].id in w.games
    ensures Next(w, Update(h)) == World(w.games[w.held[h].id := w.held[h].game], w.held - {h})
  {
  }

  /** Overlapping handlers lose updates: when two get the same game before either stores it,
      the first one's accepted request leaves no trace. */
  lemma OverlappingUpdateIsLost(w: World, h1: nat, h2: nat, id: GameId, r1: Request, r2: Request)
    requires id in w.games && h1 != h2
    requires Step(w.games[id], r1).Done? && Step(w.games[id], r2).Done?
    ensures var w1 := Next(Next(Next(Next(w, Get(h1, id)), Get(h2, id)), Work(h1, r1)), Work(h2, r2));
      Next(Next(w1, Update(h1)), Update(h2)).games == Served(w.games, id, r2)
  {
    BothWorked(w, h1, h2, id, r1, r2);
    var first, second := After(w.games[id], r1), After(w.games[id], r2);
    var w1 := World(w.games, w.held[h1 := Held(id, first, true)][h2 := Held(id, second, true)]);
    UpdateStep(w1, h1);
    UpdateStep(Next(w1, Update(h1)), h2);
  }

  /** It happens: two handlers get a new game, both have Black's first stone accepted, and in
      the end only the second handler's is stored. */
  lemma FirstStoneIsLost(id: GameId, size: int)
    requires BoardSize(size) >= 3
    ensures var one, two := Play(Named(Black), 0, 0), Play(Named(Black), 2, 2);
      var w := ExecuteFrom(World(map[], map[]), [Create(id, size)]);
      var w1 := Next(Next(Next(Next(w, Get(1, id)), Get(2, id)), Work(1, one)), Work(2, two));
      && id in w.games && Answer(w.games, id, one) == Replied && Answer(w.games, id, two) == Replied
      && id in Next(w1, Update(1)).games && id in Next(Next(w1, Update(1)), Update(2)).games
      && Next(w1, Update(1)).games[id].history == [MoveRecord(Black, Point(0, 0), [], false)]
      && Next(Next(w1, Update(1)), Update(2)).games[id].history == [MoveRecord(Black, Point(2, 2), [], false)]
  {
    var one, two := Play(Named(Black), 0, 0), Play(Named(Black), 2, 2);
    var g := NewGame(size);
    var none := World(map[], map[]);
    assert [Create(id, size)][..0] == [] && ExecuteFrom(none, []) == none;
    var w := ExecuteFrom(none, [Create(id, size)]);
    assert w == Next(none, Create(id, size));
    NewHasNoStones(size);
    AddStone(g, {}, {}, Black, Point(0, 0), Point(0, 1));
    AddStone(g, {}, {}, Black, Point(2, 2), Point(1, 2));
    OverlappingUpdateIsLost(w, 1, 2, id, one, two);
    OneUpdate(w, 1, 2, id, one, two);
  }

  lemma OneUpdate(w: World, h1: nat, h2: nat, id: GameId, r1: Request, r2: Request)
    requires id in w.games && h1 != h2
    requires Step(w.games[id], r1).Done? && Step(w.games[id], r2).Done?
    ensures var w1 := Next(Next(Next(Next(w, Get(h1, id)), Get(h2, id)), Work(h1, r1)), Work(h2, r2));
      Next(w1, Update(h1)).games == Served(w.games, id, r1)
  {
    BothWorked(w, h1, h2, id, r1, r2);
  }
}
