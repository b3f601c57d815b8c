/** The game-session registry and the message dispatcher of the relay server:
    one process-wide map from game code to the connections in that game, and,
    per connection, the code of the game it last hosted or joined. */
module Sessions {
  import opened Messages
  import opened Relay

  type Games = map<Id, seq<Handle>>

  /** `currentGameId` of every connection; a connection absent from the map
      has `currentGameId == null`. */
  type Current = map<Handle, Id>

  /** The two-player bound: every game holds one or two connections. */
  predicate Bounded(games: Games)
  {
    forall id :: id in games ==> 1 <= |games[id]| <= 2
  }

  /** A join is accepted when the named game exists and holds exactly one player. */
  predicate CanJoin(games: Games, gameId: Option<Id>)
  {
    gameId.Some? && gameId.value in games && |games[gameId.value]| == 1
  }

  /** The close handler acts when `currentGameId` is truthy (not null and not
      the empty string) and names a game that still exists. */
  predicate Live(games: Games, current: Current, h: Handle)
  {
    h in current && current[h] != "" && current[h] in games
  }

  /** The effect of `host` with the freshly drawn code `id`: the code is bound
      to a one-player game (overwriting any game under the same code), the caller
      now belongs to it, and only the caller hears back. */
  predicate HostEffect(g0: Games, c0: Current, h: Handle, id: Id, g1: Games, c1: Current, out: Sends)
  {
    g1 == g0[id := [h]] && c1 == c0[h := id] && out == [(h, Hosted(id))]
  }

  /** The effect of `join`: on success the joiner is appended to the one-player
      game and both players are told to start (host as player 1, joiner as player
      2); otherwise nothing changes and only the caller is sent an error. */
  predicate JoinEffect(g0: Games, c0: Current, h: Handle, gameId: Option<Id>, g1: Games, c1: Current, out: Sends)
  {
    if CanJoin(g0, gameId) then
      var id := gameId.value;
      && g1 == g0[id := g0[id] + [h]]
      && c1 == c0[h := id]
      && out == [(g0[id][0], Start(1)), (h, Start(2))]
    else
      g1 == g0 && c1 == c0 && out == [(h, Error(InvalidGameMessage))]
  }

  /** The effect of `move`: no state changes; the payload goes to every other
      open player of the caller's current game, or to nobody if there is none. */
  predicate MoveEffect(g0: Games, c0: Current, h: Handle, move: Payload, open: set<Handle>,
                       g1: Games, c1: Current, out: Sends)
  {
    && g1 == g0 && c1 == c0
    && out == if h in c0 && c0[h] in g0 then Broadcast(g0[c0[h]], h, open, MoveRelay(move)) else []
  }

  /** The effect of a connection closing: when its current game is live, that
      game is removed and every other open player of it is told the opponent
      left; `currentGameId` itself is left as it was. */
  predicate CloseEffect(g0: Games, c0: Current, h: Handle, open: set<Handle>, g1: Games, c1: Current, out: Sends)
  {
    && c1 == c0
    && if Live(g0, c0, h) then
         g1 == g0 - {c0[h]} && out == Broadcast(g0[c0[h]], h, open, Error(DisconnectMessage))
       else
         g1 == g0 && out == []
  }

  /** The effect of one inbound message on the connection `h`. */
  predicate Step(g0: Games, c0: Current, h: Handle, msg: Inbound, freshId: Id, open: set<Handle>,
                 g1: Games, c1: Current, out: Sends)
  {
    match msg
    case Host => HostEffect(g0, c0, h, freshId, g1, c1, out)
    case Join(gameId) => JoinEffect(g0, c0, h, gameId, g1, c1, out)
    case Move(move) => MoveEffect(g0, c0, h, move, open, g1, c1, out)
    case Other => g1 == g0 && c1 == c0 && out == []
    case Malformed => g1 == g0 && c1 == c0 && out == []
  }

  class Registry {
    var games: Games
    var current: Current

    ghost predicate Valid()
      reads this
    {
      Bounded(games)
    }

    constructor ()
      ensures Valid()
      ensures games == map[] && current == map[]
    {
      games := map[];
      current := map[];
    }

    /** A new connection starts with `currentGameId = null`. */
    method Connect(h: Handle)
      requires Valid()
      modifies this
      ensures Valid()
      ensures games == old(games) && current == old(current) - {h}
    {
      current := current - {h};
    }

    method Host(h: Handle, id: Id) returns (out: Sends)
      requires Valid()
      modifies this
      ensures Valid()
      ensures HostEffect(old(games), old(current), h, id, games, current, out)
    {
      games := games[id := [h]];
      current := current[h := id];
      out := [(h, Hosted(id))];
    }

    method Join(h: Handle, gameId: Option<Id>) returns (out: Sends)
      requires Valid()
      modifies this
      ensures Valid()
      ensures JoinEffect(old(games), old(current), h, gameId, games, current, out)
    {
      if gameId.Some? && gameId.value in games && |games[gameId.value]| == 1 {
        var id := gameId.value;
        var game := games[id] + [h];
        games := games[id := game];
        current := current[h := id];
        out := [(game[0], Start(1)), (game[1], Start(2))];
      } else {
        out := [(h, Error(InvalidGameMessage))];
      }
    }

    /** Changes nothing; the sends are those of `MoveEffect`. */
    method Move(h: Handle, move: Payload, open: set<Handle>) returns (out: Sends)
      ensures out == if h in current && current[h] in games
                     then Broadcast(games[current[h]], h, open, MoveRelay(move))
                     else []
    {
      out := [];
      if h in current && current[h] in games {
        out := SendToOthers(games[current[h]], h, open, MoveRelay(move));
      }
    }

    method Close(h: Handle, open: set<Handle>) returns (out: Sends)
      requires Valid()
      modifies this
      ensures Valid()
      ensures CloseEffect(old(games), old(current), h, open, games, current, out)
    {
      out := [];
      if h in current && current[h] != "" && current[h] in games {
        var id := current[h];
        var game := games[id];
        games := games - {id};
        out := SendToOthers(game, h, open, Error(DisconnectMessage));
      }
    }

    /** Routes one inbound message of connection `h` by its type. `freshId` is
        the code a `host` message would draw; `open` are the connections whose
        transport is open. */
    method Dispatch(h: Handle, msg: Inbound, freshId: Id, open: set<Handle>) returns (out: Sends)
      requires Valid()
      modifies this
      ensures Valid()
      ensures Step(old(games), old(current), h, msg, freshId, open, games, current, out)
    {
      match msg
      case Host => out := Host(h, freshId);
      case Join(gameId) => out := Join(h, gameId);
      case Move(move) => out := Move(h, move, open);
      case Other => out := [];
      case Malformed => out := [];
    }
  }

  /** Every handler keeps the two-player bound: host creates one-player games,
      join only grows a one-player game, close only removes. This is the fact
      that `Registry.Valid()` states of the fields. */
  lemma HandlersKeepBound(g0: Games, c0: Current, h: Handle, msg: Inbound, freshId: Id, open: set<Handle>,
                          g1: Games, c1: Current, out: Sends)
    requires Bounded(g0)
    ensures Step(g0, c0, h, msg, freshId, open, g1, c1, out) ==> Bounded(g1)
    ensures CloseEffect(g0, c0, h, open, g1, c1, out) ==> Bounded(g1)
  {
  }

  /** The move relay, stated per recipient: a message reaches `p` only if `p`
      is an open player of the sender's current game other than the sender,
      it carries the sender's payload unchanged, and `p` receives it once per
      place it holds in that game. */
  lemma MoveRelayed(g0: Games, c0: Current, h: Handle, move: Payload, open: set<Handle>,
                    g1: Games, c1: Current, out: Sends, p: Handle, m: Outbound)
    requires MoveEffect(g0, c0, h, move, open, g1, c1, out)
    ensures (p, m) in out
        <==> h in c0 && c0[h] in g0 && p in g0[c0[h]] && p != h && p in open && m == MoveRelay(move)
    ensures multiset(out)[(p, MoveRelay(move))]
         == if h in c0 && c0[h] in g0 && p != h && p in open then multiset(g0[c0[h]])[p] else 0
  {
    if h in c0 && c0[h] in g0 {
      BroadcastMembership(g0[c0[h]], h, open, MoveRelay(move), p, m);
      BroadcastMultiplicity(g0[c0[h]], h, open, MoveRelay(move), p);
    }
  }

  /** Close, stated per game and per recipient: the live game is gone, every
      other game is untouched, and the notice reaches exactly the other open
      players, once per place each holds in the game. */
  lemma CloseNotifies(g0: Games, c0: Current, h: Handle, open: set<Handle>,
                      g1: Games, c1: Current, out: Sends, p: Handle, m: Outbound)
    requires CloseEffect(g0, c0, h, open, g1, c1, out)
    ensures Live(g0, c0, h) ==> c0[h] !in g1
    ensures forall id :: id in g0 && !(Live(g0, c0, h) && id == c0[h]) ==> id in g1 && g1[id] == g0[id]
    ensures g1.Keys <= g0.Keys
    ensures (p, m) in out
        <==> Live(g0, c0, h) && p in g0[c0[h]] && p != h && p in open && m == Error(DisconnectMessage)
    ensures multiset(out)[(p, Error(DisconnectMessage))]
         == if Live(g0, c0, h) && p != h && p in open then multiset(g0[c0[h]])[p] else 0
  {
    if Live(g0, c0, h) {
      BroadcastMembership(g0[c0[h]], h, open, Error(DisconnectMessage), p, m);
      BroadcastMultiplicity(g0[c0[h]], h, open, Error(DisconnectMessage), p);
    }
  }
}
