/** The in-memory game store. It hands out deep copies and keeps what handlers store back. */
module GameStore {
  import opened Points
  import opened Boards
  import opened GoGame
  import opened Games

  /** The record of owners after objects have been stored under an id. */
  ghost function Stored(owner: map<object, GameId>, parts: set<object>, id: GameId): (r: map<object, GameId>)
    ensures forall o :: o in parts ==> o in r && r[o] == id
    ensures forall o :: o in owner && o !in parts ==> o in r && r[o] == owner[o]
    ensures forall o :: o in r ==> o in owner || o in parts
  {
    owner + map o | o in parts :: id
  }

  /** The objects are recorded under that id, and apart from some others. */
  ghost predicate RecordedUnder(parts: set<object>, owner: map<object, GameId>, id: GameId) {
    forall o :: o in parts ==> o in owner && owner[o] == id
  }

  lemma OthersStayOwned(parts: set<object>, owner: map<object, GameId>, k: GameId, added: set<object>, id: GameId)
    requires RecordedUnder(parts, owner, k) && forall o :: o in added ==> o !in owner
    ensures RecordedUnder(parts, Stored(owner, added, id), k) && RecordedUnder(added, Stored(owner, added, id), id)
  {
  }

  /** A game is what it was when none of its objects has changed. */
  twostate lemma StillValid(game: Game)
    requires old(game.Valid()) && forall o :: o in old(game.Repr) ==> unchanged(o)
    ensures game.Valid() && game.Repr == old(game.Repr) && game.state == old(game.state) && game.id == old(game.id)
  {
  }

  twostate lemma StillAllValid<K>(games: map<K, Game>)
    requires forall k :: k in games ==> old(games[k].Valid())
    requires forall k, o :: k in games && o in old(games[k].Repr) ==> unchanged(o)
    ensures forall k :: k in games ==>
      && games[k].Valid() && games[k].id == old(games[k].id)
      && games[k].state == old(games[k].state) && games[k].Repr == old(games[k].Repr)
  {
    forall k | k in games
      ensures games[k].Valid() && games[k].id == old(games[k].id)
      ensures games[k].state == old(games[k].state) && games[k].Repr == old(games[k].Repr)
    {
      StillValid(games[k]);
    }
  }

  class MemoryGameStore {
    var games: map<GameId, Game>
    ghost var owner: map<object, GameId> // the id under which an object was stored

    /** Stored games are well formed and filed under their id, and each is made of objects
        stored under its own id only. */
    ghost predicate Valid()
      reads this, games.Values, owner.Keys
    {
      && this !in owner
      && (forall k :: k in games ==> RecordedUnder(games[k].Repr, owner, k))
      && (forall k :: k in games ==> games[k].Valid() && games[k].id == k)
    }

    /** So no two stored games share a board, a move list, a capture list or a ko cell. */
    lemma NothingIsShared(k: GameId, m: GameId)
      requires Valid() && k in games && m in games && k != m
      ensures games[k].Repr !! games[m].Repr
    {
      forall o | o in games[k].Repr
        ensures o !in games[m].Repr
      {
        assert RecordedUnder(games[k].Repr, owner, k) && RecordedUnder(games[m].Repr, owner, m);
      }
    }

    /** The stored game states. */
    ghost function View(): (v: map<GameId, GameState>)
      reads this, games.Values
      ensures v.Keys == games.Keys && forall k :: k in games ==> v[k] == games[k].state
    {
      map k | k in games :: games[k].state
    }

    /** Every stored position is a board of its game's size. */
    lemma ViewIsGrids()
      requires Valid()
      ensures forall k :: k in View() ==> IsGrid(View()[k].grid, View()[k].size)
    {
      forall k | k in games
        ensures IsGrid(View()[k].grid, View()[k].size)
      {
        assert View()[k] == games[k].state && games[k].Valid();
      }
    }

    constructor ()
      ensures Valid() && View() == map[]
    {
      games, owner := map[], map[];
    }

    /** No part of the game, board, move list, capture list or ko cell, was ever stored. */
    ghost predicate Apart(game: Game)
      reads this, game
    {
      this !in game.Repr && forall o :: o in game.Repr ==> o !in owner
    }

    /** Work on other objects does not show in the store. */
    twostate lemma Undisturbed()
      requires old(Valid()) && unchanged(this)
      requires forall o :: o in owner ==> unchanged(o)
      ensures Valid() && View() == old(View())
    {
      StillAllValid(games);
    }

    lemma SameView(states: map<GameId, GameState>)
      requires states.Keys == games.Keys && forall k :: k in games ==> games[k].state == states[k]
      ensures View() == states
    {
    }

    method Put(game: Game)
      requires Valid() && game.Valid() && Apart(game)
      modifies this
      ensures Valid() && games == old(games)[game.id := game]
      ensures View() == old(View())[game.id := game.state]
      ensures owner == Stored(old(owner), game.Repr, game.id)
    {
      ghost var before, stored, owned := View(), games, owner;
      assert forall k :: k in games ==> this !in games[k].Repr;
      OthersStayOwned({}, owner, game.id, game.Repr, game.id);
      games, owner := games[game.id := game], Stored(owner, game.Repr, game.id);
      StillValid(game);
      StillAllValid(stored);
      forall k | k in stored
        ensures RecordedUnder(stored[k].Repr, owner, k)
      {
        OthersStayOwned(stored[k].Repr, owned, k, game.Repr, game.id);
      }
      SameView(before[game.id := game.state]);
    }

    /** Files a new game under a generated id, with the starting turn asked for if any, and
        returns an independent copy of it. */
    method CreateGame(requestedSize: int, first: Option<Side>, generatedId: GameId) returns (game: Game)
      requires Valid()
      modifies this
      ensures Valid() && fresh(game.Repr) && game.Valid() && game.id == generatedId
      ensures Apart(game)
      ensures game.state == NewGame(requestedSize).(turn := if first.Some? then first.value else Side.Black)
      ensures View() == old(View())[generatedId := game.state]
      ensures forall o :: o in owner && o !in old(owner) ==> fresh(o)
    {
      var newGame := new Game.Fresh(generatedId, requestedSize);
      if first.Some? {
        newGame.SetTurn(first.value);
      }
      game := new Game.Clone(newGame);
      Undisturbed();
      Put(newGame);
    }

    /** An independent copy of a stored game. */
    method GetGame(id: GameId) returns (game: Game?)
      requires Valid()
      ensures Valid() && View() == old(View())
      ensures game == null <==> id !in View()
      ensures game != null ==>
        && fresh(game.Repr) && game.Valid() && game.id == id
        && game.state == View()[id] && Apart(game)
    {
      if id !in games {
        return null;
      }
      game := new Game.Clone(games[id]);
      Undisturbed();
    }

    /** Stores the given game itself, if a game with its id is stored. */
    method UpdateGame(game: Game) returns (found: bool)
      requires Valid() && game.Valid() && Apart(game)
      modifies this
      ensures Valid() && found == (game.id in old(View()))
      ensures View() == if found then old(View())[game.id := game.state] else old(View())
      ensures owner == (if found then Stored(old(owner), game.Repr, game.id) else old(owner))
    {
      if game.id !in games {
        return false;
      }
      Put(game);
      return true;
    }
  }
}
