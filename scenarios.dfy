/** Whole sessions driven through the registry, showing what the handler
    contracts imply when they are composed. */
module Scenarios {
  import opened Messages
  import opened Sessions
  import Relay

  /** Host `a` opens game `id`, `b` joins it, a third client `c` is turned away
      because the game is full, `b` moves, and then `a` disconnects. */
  method PlayAndLeave(a: Handle, b: Handle, c: Handle, id: Id, move: Payload, open: set<Handle>)
    returns (hosted: Sends, started: Sends, rejected: Sends, relayed: Sends, closed: Sends, left: Games)
    requires a != b
    ensures hosted == [(a, Hosted(id))]
    ensures started == [(a, Start(1)), (b, Start(2))]
    ensures rejected == [(c, Error(InvalidGameMessage))]
    ensures relayed == if a in open then [(a, MoveRelay(move))] else []
    ensures closed == if id != "" && b in open then [(b, Error(DisconnectMessage))] else []
    ensures left == if id != "" then map[] else map[id := [a, b]]
  {
    var r := new Registry();
    r.Connect(a);
    r.Connect(b);
    r.Connect(c);
    hosted := r.Dispatch(a, Host, id, open);
    started := r.Dispatch(b, Join(Some(id)), id, open);
    rejected := r.Dispatch(c, Join(Some(id)), id, open);
    assert [a] + [b] == [a, b];
    assert r.games == map[id := [a, b]] && r.current[b] == id;
    assert [a, b][..1] == [a] && [a][..0] == [];
    assert Relay.Broadcast([a], b, open, MoveRelay(move)) == if a in open then [(a, MoveRelay(move))] else [];
    assert Relay.Broadcast([a, b], b, open, MoveRelay(move)) == Relay.Broadcast([a], b, open, MoveRelay(move));
    assert Relay.Broadcast([a], a, open, Error(DisconnectMessage)) == [];
    relayed := r.Dispatch(b, Move(move), id, open);
    closed := r.Close(a, open);
    left := r.games;
    assert id != "" ==> left.Keys == {};
  }

  /** Hosting twice moves the host to the new game but never removes the
      earlier one, and the earlier one can still be joined. */
  method HostTwice(h: Handle, j: Handle, id1: Id, id2: Id)
    returns (games: Games, current: Current, joined: Sends)
    requires id1 != id2 && h != j
    ensures games == map[id1 := [h, j], id2 := [h]]
    ensures current == map[h := id2, j := id1]
    ensures joined == [(h, Start(1)), (j, Start(2))]
  {
    var r := new Registry();
    r.Connect(h);
    r.Connect(j);
    var out := r.Dispatch(h, Host, id1, {});
    out := r.Dispatch(h, Host, id2, {});
    joined := r.Dispatch(j, Join(Some(id1)), id1, {});
    assert [h] + [j] == [h, j];
    games, current := r.games, r.current;
  }

  /** An existing game is silently replaced when a later host draws the same code. */
  method CodeCollision(a: Handle, b: Handle, id: Id) returns (games: Games, current: Current)
    requires a != b
    ensures games == map[id := [b]]
    ensures current == map[a := id, b := id]
  {
    var r := new Registry();
    var out := r.Dispatch(a, Host, id, {});
    out := r.Dispatch(b, Host, id, {});
    games, current := r.games, r.current;
  }

  /** Close does not reset the remaining player's `currentGameId`: host `a`
      leaves, a new host `c` draws the same code, and a move by the joiner `b`
      is relayed to `c`. */
  method StaleGameAfterClose(a: Handle, b: Handle, c: Handle, id: Id, move: Payload, open: set<Handle>)
    returns (relayed: Sends)
    requires a != b && b != c && id != ""
    ensures relayed == if c in open then [(c, MoveRelay(move))] else []
  {
    var r := new Registry();
    var out := r.Dispatch(a, Host, id, open);
    out := r.Dispatch(b, Join(Some(id)), id, open);
    out := r.Close(a, open);
    out := r.Dispatch(c, Host, id, open);
    assert r.games[id] == [c] && r.current[b] == id;
    assert [c][..0] == [];
    relayed := r.Dispatch(b, Move(move), id, open);
  }

  /** A malformed or unrecognised message is dropped: nothing is sent and the
      registry is as it was. */
  method Dropped(h: Handle, id: Id) returns (ignored: Sends, games: Games)
    ensures ignored == []
    ensures games == map[id := [h]]
  {
    var r := new Registry();
    var out := r.Dispatch(h, Host, id, {h});
    ignored := r.Dispatch(h, Malformed, id, {h});
    out := r.Dispatch(h, Other, id, {h});
    ignored := ignored + out;
    games := r.games;
  }
}
