/** The "send to every other open player" loop that the move and close
    handlers share. */
module Relay {
  import opened Messages

  /** The sends produced by walking `players` in order and sending `msg` to
      each player that is not `sender` and whose connection is open. */
  function Broadcast(players: seq<Handle>, sender: Handle, open: set<Handle>, msg: Outbound): (out: Sends)
    ensures |out| <= |players|
  {
    if players == [] then []
    else
      var last := players[|players| - 1];
      Broadcast(players[..|players| - 1], sender, open, msg)
        + (if last != sender && last in open then [(last, msg)] else [])
  }

  /** A pair is sent exactly when its handle is an open player other than the
      sender and its message is `msg`: the sender never hears its own message. */
  lemma {:induction false} BroadcastMembership(players: seq<Handle>, sender: Handle, open: set<Handle>,
                                               msg: Outbound, p: Handle, m: Outbound)
    ensures (p, m) in Broadcast(players, sender, open, msg)
        <==> p in players && p != sender && p in open && m == msg
  {
    if players != [] {
      var init := players[..|players| - 1];
      BroadcastMembership(init, sender, open, msg, p, m);
      assert players == init + [players[|players| - 1]];
    }
  }

  /** Each open player other than the sender receives `msg` once per place it
      holds in `players`, and nobody else receives anything. */
  lemma {:induction false} BroadcastMultiplicity(players: seq<Handle>, sender: Handle, open: set<Handle>,
                                                 msg: Outbound, p: Handle)
    ensures multiset(Broadcast(players, sender, open, msg))[(p, msg)]
         == if p != sender && p in open then multiset(players)[p] else 0
  {
    if players != [] {
      var init := players[..|players| - 1];
      var last := players[|players| - 1];
      BroadcastMultiplicity(init, sender, open, msg, p);
      assert players == init + [last];
      assert multiset(players) == multiset(init) + multiset{last};
    }
  }

  /** The `forEach` loop itself: visits the players in order, accumulating the
      sends it makes. */
  method SendToOthers(players: seq<Handle>, sender: Handle, open: set<Handle>, msg: Outbound)
    returns (out: Sends)
    ensures out == Broadcast(players, sender, open, msg)
  {
    out := [];
    for i := 0 to |players|
      invariant out == Broadcast(players[..i], sender, open, msg)
    {
      var player := players[i];
      assert players[..i + 1][..i] == players[..i];
      if player != sender && player in open {
        out := out + [(player, msg)];
      }
    }
    assert players[..|players|] == players;
  }
}
