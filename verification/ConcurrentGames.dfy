/** Handlers at work at the same time, on objects: the store, and the copies that handlers hold
    between their get and their update. No handler's work shows in the store, or in another
    handler's copy, before it is stored; every phase does to the objects what it does to the
    values of module GameInterleaving. */
module ConcurrentGames {
  import opened Points
  import opened GoGame
  import opened Games
  import opened GameStore
  import opened GoHandlers
  import opened GoOutcomes
  import opened GameInterleaving

  /** A handler between its get and its update. */
  datatype Session = Session(game: Game, worked: bool)

  /** What its copy is worth, and the objects it is made of. */
  datatype Copy = Copy(held: Held, parts: set<object>)

  /** No two copies have an object in common. */
  ghost predicate Disjoint(copies: map<nat, Copy>) {
    forall h, k :: h in copies && k in copies && h != k ==> copies[h].parts !! copies[k].parts
  }

  ghost function Parts(copies: map<nat, Copy>): (r: set<object>)
    ensures forall h, o :: h in copies && o in copies[h].parts ==> o in r
  {
    set h, o | h in copies && o in copies[h].parts :: o
  }

  lemma OneMorePart(copies: map<nat, Copy>, h: nat, copy: Copy)
    requires Disjoint(copies) && copy.parts !! Parts(copies - {h})
    ensures Disjoint(copies[h := copy]) && Parts(copies[h := copy]) == Parts(copies - {h}) + copy.parts
  {
    assert forall k :: k in copies && k != h ==> k in copies - {h};
    assert forall k :: k in copies - {h} ==> k in copies[h := copy] && copies[h := copy][k] == copies[k];
    assert copies[h := copy][h] == copy;
  }

  lemma OnePartLess(copies: map<nat, Copy>, h: nat)
    requires Disjoint(copies)
    ensures Disjoint(copies - {h}) && Parts(copies - {h}) <= Parts(copies)
  {
  }

  lemma PartsApart(copies: map<nat, Copy>, h: nat)
    requires Disjoint(copies) && h in copies
    ensures copies[h].parts <= Parts(copies) && copies[h].parts !! Parts(copies - {h})
  {
  }

  lemma PartsOver(copies: map<nat, Copy>, h: nat, copy: Copy)
    ensures Parts(copies[h := copy]) <= Parts(copies) + copy.parts
  {
  }

  /** The session's game is that copy. */
  ghost predicate Is(s: Session, copy: Copy)
    reads s.game, copy.parts
  {
    && s.game.Repr == copy.parts && s.game.Valid()
    && copy.held == Held(s.game.id, s.game.state, s.worked)
  }

  // ---------------------------------------------------------------- the copies

  class Copies {
    var sessions: map<nat, Session>   // by handler
    ghost var copies: map<nat, Copy>  // what their games are

    /** The copies are well formed and no two have an object in common. */
    ghost predicate Valid()
      reads this, Parts(copies)
    {
      && this !in Parts(copies) && Disjoint(copies) && sessions.Keys == copies.Keys
      && (forall h :: h in sessions ==> sessions[h].game in copies[h].parts && Is(sessions[h], copies[h]))
    }

    constructor ()
      ensures Valid() && copies == map[]
    {
      sessions, copies := map[], map[];
    }

    /** So no two handlers' copies share a board, a move list, a capture list or a ko cell. */
    lemma NothingIsShared(h: nat, k: nat)
      requires Valid() && h in sessions && k in sessions && h != k
      ensures sessions[h].game.Repr !! sessions[k].game.Repr
    {
      assert Is(sessions[h], copies[h]) && Is(sessions[k], copies[k]);
    }

    lemma InSession(h: nat)
      requires Valid()
      ensures h in sessions <==> h in copies
      ensures h in sessions ==> Is(sessions[h], copies[h])
    {
    }

    /** A copy none of whose objects has changed is what it was. */
    twostate lemma Still(k: nat)
      requires k in old(sessions) && k in old(copies) && old(Is(sessions[k], copies[k]))
      requires forall o :: o in old(copies[k].parts) ==> unchanged(o)
      ensures Is(old(sessions[k]), old(copies[k]))
    {
      StillValid(old(sessions[k].game));
    }

    /** Work on other objects does not show in the copies. */
    twostate lemma Undisturbed()
      requires old(Valid()) && unchanged(this) && forall o :: o in Parts(copies) ==> unchanged(o)
      ensures Valid()
    {
      forall k | k in old(sessions)
        ensures Is(old(sessions[k]), old(copies[k]))
      {
        assert old(copies[k].parts) <= Parts(copies);
        Still(k);
      }
    }

    /** Everything is in order but, perhaps, for one handler's copy. */
    ghost predicate ValidBut(h: nat)
      reads this, Parts(copies)
    {
      && this !in Parts(copies) && Disjoint(copies) && sessions.Keys == copies.Keys
      && (forall k :: k in sessions && k != h ==> sessions[k].game in copies[k].parts && Is(sessions[k], copies[k]))
    }

    /** Makes a game the handler's copy. */
    method Put(h: nat, game: Game, worked: bool)
      requires ValidBut(h) && game.Valid() && this !in game.Repr && game.Repr !! Parts(copies - {h})
      modifies this
      ensures Valid()
      ensures copies == old(copies)[h := Copy(Held(game.id, old(game.state), worked), old(game.Repr))]
    {
      ghost var copy := Copy(Held(game.id, game.state, worked), game.Repr);
      OnePartLess(copies, h);
      OneMorePart(copies, h, copy);
      sessions, copies := sessions[h := Session(game, worked)], copies[h := copy];
      StillValid(game);
      forall k | k in old(sessions) && k != h
        ensures Is(old(sessions[k]), old(copies[k]))
      {
        Still(k);
      }
    }

    /** Lets go of a copy. */
    method Drop(h: nat) returns (game: Game)
      requires Valid() && h in sessions
      modifies this
      ensures Valid() && copies == old(copies) - {h}
      ensures Is(old(sessions[h]), old(copies)[h]) && game == old(sessions[h].game)
    {
      game := sessions[h].game;
      OnePartLess(copies, h);
      sessions, copies := sessions - {h}, copies - {h};
      forall k | k in old(sessions)
        ensures Is(old(sessions[k]), old(copies[k]))
      {
        Still(k);
      }
    }

    /** Work on one copy leaves the others alone. */
    twostate lemma OthersStay(h: nat)
      requires old(Valid()) && unchanged(this) && h in sessions
      requires forall o :: o in Parts(copies) && o !in copies[h].parts ==> unchanged(o)
      ensures ValidBut(h)
    {
      forall k | k in old(sessions) && k != h
        ensures Is(old(sessions[k]), old(copies[k]))
      {
        Still(k);
      }
    }

    /** Carries out a request on one copy. */
    method WorkOn(h: nat, request: Request) returns (error: Option<Error>)
      requires Valid() && h in sessions
      modifies this, copies[h].parts
      ensures Valid() && h in copies
      ensures copies == old(copies)[h := copies[h]]
      ensures copies[h].held.id == old(copies[h].held.id) && copies[h].held.worked
      ensures Worked(old(copies[h].held.game), request, error, copies[h].held.game)
      ensures forall o :: o in copies[h].parts && o !in old(copies[h].parts) ==> fresh(o)
    {
      var game := sessions[h].game;
      PartsApart(copies, h);
      error := Carried(game, request);
      OthersStay(h);
      Put(h, game, true);
    }

    static method Carried(game: Game, request: Request) returns (error: Option<Error>)
      requires game.Valid()
      modifies game.Repr
      ensures game.Valid() && game.id == old(game.id) && fresh(game.Repr - old(game.Repr))
      ensures Worked(old(game.state), request, error, game.state)
    {
      match request
      case Play(player, row, col) => error := PlayOn(game, player, row, col);
      case Pass(player) => error := PassOn(game, player);
      case Resign(player) =>
        var resigned;
        error, resigned := ResignOn(game, player);
    }
  }

  // ---------------------------------------------------------------- handlers at work

  /** What the copies are worth. */
  ghost function Values(copies: map<nat, Copy>): (r: map<nat, Held>)
    ensures r.Keys == copies.Keys && forall h :: h in copies ==> r[h] == copies[h].held
  {
    map h | h in copies :: copies[h].held
  }

  lemma ValuesOver(copies: map<nat, Copy>, h: nat, copy: Copy)
    ensures Values(copies[h := copy]) == Values(copies)[h := copy.held]
    ensures Values(copies - {h}) == Values(copies) - {h}
  {
  }

  lemma NextWork(games: map<GameId, GameState>, before: map<nat, Copy>, h: nat, request: Request,
                 error: Option<Error>, copy: Copy)
    requires h in before && !before[h].held.worked
    requires Worked(before[h].held.game, request, error, copy.held.game)
    requires copy.held.id == before[h].held.id && copy.held.worked
    ensures Next(World(games, Values(before)), Work(h, request)) ==
      World(games, Values(if error.Some? then before[h := copy] - {h} else before[h := copy]))
  {
    ValuesOver(before, h, copy);
    ValuesOver(before[h := copy], h, copy);
    assert Values(before)[h := copy.held] - {h} == Values(before) - {h};
  }

  /** The stored games after an update. */
  ghost function PutBack(games: map<GameId, GameState>, id: GameId, game: GameState): map<GameId, GameState> {
    if id in games then games[id := game] else games
  }

  lemma NextUpdate(games: map<GameId, GameState>, before: map<nat, Copy>, h: nat)
    requires h in before && before[h].held.worked
    ensures Next(World(games, Values(before)), Update(h)) ==
      World(PutBack(games, before[h].held.id, before[h].held.game), Values(before - {h}))
  {
    ValuesOver(before, h, before[h]);
  }

  /** The store, and the handlers that are between their get and their update. */
  class Handlers {
    const gameStore: MemoryGameStore
    const copies: Copies

    /** No object of a handler's copy is one that was ever stored. */
    ghost predicate Valid()
      reads gameStore, gameStore.games.Values, gameStore.owner.Keys, copies, Parts(copies.copies)
    {
      && gameStore.Valid() && copies.Valid()
      && copies !in gameStore.owner && gameStore !in Parts(copies.copies)
      && Parts(copies.copies) !! gameStore.owner.Keys
    }

    /** So no copy shares an object with a stored game. */
    lemma CopyIsPrivate(h: nat, id: GameId)
      requires Valid() && h in copies.sessions && id in gameStore.games
      ensures copies.sessions[h].game.Repr !! gameStore.games[id].Repr
    {
      copies.InSession(h);
      assert RecordedUnder(gameStore.games[id].Repr, gameStore.owner, id);
      assert copies.copies[h].parts <= Parts(copies.copies);
    }

    /** The values that the objects stand for. */
    ghost function Abstract(): World
      reads gameStore, gameStore.games.Values, copies
    {
      World(gameStore.View(), Values(copies.copies))
    }

    /** The objects that copies have come to be made of are new ones. */
    twostate predicate OnlyNew()
      reads copies
    {
      forall o :: o in Parts(copies.copies) && o !in old(Parts(copies.copies)) ==> fresh(o)
    }

    constructor ()
      ensures fresh(gameStore) && fresh(copies) && Valid() && Abstract() == World(map[], map[])
    {
      gameStore := new MemoryGameStore();
      copies := new Copies();
    }

    method CreateGame(id: GameId, size: int)
      requires Valid()
      modifies gameStore
      ensures Valid() && Abstract() == Next(old(Abstract()), Create(id, size))
    {
      var _ := gameStore.CreateGame(size, None, id);
      copies.Undisturbed();
    }

    /** A game apart from all others becomes a handler's copy. */
    method Hold(h: nat, game: Game)
      requires Valid() && game.Valid() && gameStore.Apart(game)
      requires copies !in game.Repr && game.Repr !! Parts(copies.copies)
      modifies copies
      ensures Valid() && gameStore.View() == old(gameStore.View())
      ensures copies.copies == old(copies.copies)[h := Copy(Held(game.id, old(game.state), false), old(game.Repr))]
    {
      ghost var before, copy := copies.copies, Copy(Held(game.id, game.state, false), game.Repr);
      OnePartLess(before, h);
      OneMorePart(before, h, copy);
      copies.Put(h, game, false);
      gameStore.Undisturbed();
    }

    method GetGame(h: nat, id: GameId)
      requires Valid()
      modifies copies
      ensures Valid() && Abstract() == Next(old(Abstract()), Get(h, id))
      ensures OnlyNew()
    {
      ghost var before := copies.copies;
      var game := gameStore.GetGame(id);
      if game != null {
        copies.Undisturbed();
        ghost var copy := Copy(Held(id, game.state, false), game.Repr);
        Hold(h, game);
        PartsOver(before, h, copy);
        ValuesOver(before, h, copy);
      }
    }

    /** A handler carries out its request on its copy. */
    method CarryOut(h: nat, request: Request) returns (error: Option<Error>)
      requires Valid() && h in copies.sessions
      modifies copies, Parts(copies.copies)
      ensures Valid() && gameStore.View() == old(gameStore.View()) && h in copies.copies
      ensures copies.copies == old(copies.copies)[h := copies.copies[h]]
      ensures copies.copies[h].held.id == old(copies.copies[h].held.id) && copies.copies[h].held.worked
      ensures Worked(old(copies.copies[h].held.game), request, error, copies.copies[h].held.game)
      ensures OnlyNew()
    {
      ghost var before := copies.copies;
      error := copies.WorkOn(h, request);
      gameStore.Undisturbed();
      PartsOver(before, h, copies.copies[h]);
      assert forall o :: o in Parts(copies.copies) && o !in Parts(before) ==> fresh(o);
    }

    /** A handler is done with its copy. */
    method Finish(h: nat)
      requires gameStore.Valid() && copies.Valid() && h in copies.sessions
      requires copies !in gameStore.owner && gameStore !in Parts(copies.copies)
      modifies copies
      ensures gameStore.Valid() && copies.Valid() && gameStore.View() == old(gameStore.View())
      ensures copies.copies == old(copies.copies) - {h}
    {
      var _ := copies.Drop(h);
      gameStore.Undisturbed();
    }

    /** A handler works on its copy; a refused request is reported and the copy is given up. */
    method WorkOnCopy(h: nat, request: Request)
      requires Valid()
      modifies copies, Parts(copies.copies)
      ensures Valid() && Abstract() == Next(old(Abstract()), Work(h, request))
      ensures OnlyNew()
    {
      copies.InSession(h);
      if h !in copies.sessions || copies.sessions[h].worked {
        return;
      }
      ghost var before := copies.copies;
      var error := CarryOut(h, request);
      ghost var copy := copies.copies[h];
      PartsOver(before, h, copy);
      NextWork(gameStore.View(), before, h, request, error, copy);
      if error.Some? {
        OnePartLess(before[h := copy], h);
        Finish(h);
      }
    }

    /** A handler stores its copy and is done with it. */
    method StoreBack(h: nat)
      requires Valid() && h in copies.sessions && h in copies.copies
      modifies gameStore, copies
      ensures Valid() && copies.copies == old(copies.copies) - {h}
      ensures gameStore.View() ==
        PutBack(old(gameStore.View()), old(copies.copies[h].held.id), old(copies.copies[h].held.game))
    {
      PartsApart(copies.copies, h);
      OnePartLess(copies.copies, h);
      copies.InSession(h);
      var _ := gameStore.UpdateGame(copies.sessions[h].game);
      Finish(h);
    }

    /** The update of a handler that has worked on its copy. */
    method UpdateGame(h: nat)
      requires Valid()
      modifies gameStore, copies
      ensures Valid() && Abstract() == Next(old(Abstract()), Update(h))
      ensures Parts(copies.copies) <= old(Parts(copies.copies))
    {
      copies.InSession(h);
      if h !in copies.sessions || !copies.sessions[h].worked {
        return;
      }
      NextUpdate(gameStore.View(), copies.copies, h);
      OnePartLess(copies.copies, h);
      StoreBack(h);
    }

    /** One phase of one handler. */
    method Serve(e: Event)
      requires Valid()
      modifies gameStore, copies, Parts(copies.copies)
      ensures Valid() && Abstract() == Next(old(Abstract()), e)
      ensures OnlyNew()
    {
      match e
      case Create(id, size) => CreateGame(id, size);
      case Get(h, id) => GetGame(h, id);
      case Work(h, request) => WorkOnCopy(h, request);
      case Update(h) => UpdateGame(h);
    }

    /** Any interleaving: the objects go through what the values go through. */
    method Run(events: seq<Event>)
      requires Valid()
      modifies gameStore, copies, Parts(copies.copies)
      ensures Valid() && Abstract() == ExecuteFrom(old(Abstract()), events)
      ensures OnlyNew()
    {
      if events != [] {
        Run(events[..|events| - 1]);
        Serve(events[|events| - 1]);
      }
    }
  }

  /** From the empty store, however the phases of the handlers interleave, every stored object
      is a game without dead stones. */
  method RunFromEmpty(events: seq<Event>) returns (handlers: Handlers)
    ensures handlers.Valid() && handlers.Abstract() == Execute(events)
    ensures forall id :: id in handlers.gameStore.games ==> Sound(handlers.gameStore.games[id].state)
  {
    handlers := new Handlers();
    handlers.Run(events);
    StoredGamesAreSequential(events);
  }
}
