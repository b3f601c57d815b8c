# Game-session registry of the ultimate tic-tac-toe relay server

This project models the registry and message dispatcher of the relay server
in `server.js`. The server keeps one map from game code to the connections
playing that game. Each connection also remembers the code of the game it
last hosted or joined (`currentGameId`). Four events drive this state:

- `host` puts the caller alone in a game under a freshly drawn code.
- `join` adds the caller to a game that exists and holds exactly one player.
- `move` passes an opaque payload on to the other open players of the caller's game.
- a connection closing deletes its current game and tells the other open players.

The model is imperative, like the source. `Sessions.Registry` is a class.
Its field `games` is a `map<Id, seq<Handle>>` and its field `current` is a
`map<Handle, Id>`. A connection that is missing from `current` has
`currentGameId == null`. Each handler is a method that updates these fields
and returns the messages it sends, in order, as `(recipient, message)` pairs.

Each handler's effect is written once, as a predicate over the old state, the
new state and the sends (`HostEffect`, `JoinEffect`, `MoveEffect`,
`CloseEffect`, and `Step` for the dispatcher). The methods are proved to meet
these predicates. Lemmas state the per-recipient relay guarantees, and the
class invariant is the two-player bound. The two `forEach` loops share the
shape "send to every other open player". Both are modelled by the loop
`Relay.SendToOthers`, which is proved equal to the recursive specification
`Relay.Broadcast`.

Inputs from outside the model:

- connections are opaque `nat` handles;
- the new game code is a parameter of `Host` and `Dispatch`;
- the transport's `readyState == OPEN` is a set `open` of handles, given to `Move` and `Close`;
- messages arrive already parsed (`Messages.Inbound`). `Malformed` stands for a payload that is not JSON. `Other` stands for a parsed message whose `type` is none of the three;
- the `move` field is an opaque string that is relayed without being looked at.

Behaviour of the code worth knowing:

- There is no uniqueness check on host codes. A second host drawing the same code replaces the first game (`Scenarios.CodeCollision`).
- A failed join changes nothing, and a missing game and a full game get the same `Invalid or full game ID` reply.
- There are no game rules at all, because `move` is a blind relay.
- Hosting again does not remove the earlier game (`Scenarios.HostTwice`).
- The close handler tests `currentGameId` for truthiness. A game whose code is the empty string is therefore never removed on close. `Math.random()` returning 0 would draw that code.
- Close does not reset the other player's `currentGameId`. If a later host draws the same code, the left-behind player's moves go to the new game (`Scenarios.StaleGameAfterClose`).

## Model

| member | source | states |
|---|---|---|
| `Relay.Broadcast` | server.js:51-55 | the players who are sent the relayed value, in list order; there are never more sends than players |
| `Relay.BroadcastMembership` | server.js:51-55 | a pair is sent if and only if its recipient is in the list, is not the sender, is open, and the message is the one being relayed |
| `Relay.BroadcastMultiplicity` | server.js:64-68 | each open non-sender receives the message exactly as many times as it occurs in the player list; every other handle receives nothing |
| `Relay.SendToOthers` | server.js:51-55 | the `forEach` loop with the `player !== ws && readyState === OPEN` filter builds exactly the `Broadcast` sends |
| `Sessions.Registry.constructor` | server.js:11 | the registry starts with no games and no connection bound to a game |
| `Sessions.Registry.Connect` | server.js:13-14 | a new connection starts with `currentGameId` null; games are untouched |
| `Sessions.Registry.Host` | server.js:25-31 | `games[id]` becomes exactly `[caller]`, overwriting any game with that code, and no other key changes; the caller's current game becomes `id`; exactly one `hosted` message with `id` goes to the caller only; the two-player bound is kept |
| `Sessions.Registry.Join` | server.js:33-46 | succeeds if and only if the game exists with exactly one player; then the joiner is appended at index 1, its current game is set, player 1's start goes to index 0 and player 2's to the joiner. Otherwise games and current games are unchanged and exactly one `Invalid or full game ID` error goes to the caller only |
| `Sessions.Registry.Move` | server.js:48-57 | changes nothing; if the caller's current game exists, the sends are the `Broadcast` of the payload over that game from the caller, otherwise there are none |
| `Sessions.Registry.Close` | server.js:60-71 | when `currentGameId` is truthy and names a live game, that key is removed, all other games are unchanged, and the other open players get `Opponent disconnected`; otherwise nothing changes and nothing is sent; `currentGameId` is not reset |
| `Sessions.Registry.Dispatch` | server.js:16-58 | routes by `type` to host, join or move; a malformed payload or an unknown type changes nothing and sends nothing; the two-player bound is kept |
| `Sessions.HandlersKeepBound` | server.js:27-63 | any inbound message, and any close, maps a state where every game has one or two players to another such state; this is the value-level form of the class invariant `Valid()` |
| `Sessions.MoveRelayed` | server.js:49-55 | a move reaches `p` if and only if `p` is an open player of the sender's current game other than the sender, and with the payload unchanged; `p` receives it once per place it holds in the game; when there is no current game nothing is sent |
| `Sessions.CloseNotifies` | server.js:61-68 | after close the live game is gone, every other game is unchanged and no game is added; the disconnect notice reaches exactly the other open players of that game, once per place each holds |
| `Scenarios.PlayAndLeave` | server.js:25-68 | host, join, a rejected third join, a relayed move and the host's disconnect produce exactly the expected sends; the game is removed unless its code is empty |
| `Scenarios.HostTwice` | server.js:26-37 | hosting twice keeps the first game, moves the host to the second code, and the first game can still be joined |
| `Scenarios.CodeCollision` | server.js:26-28 | a second host drawing an existing code silently replaces that game |
| `Scenarios.StaleGameAfterClose` | server.js:28-68 | after the host leaves, the joiner keeps its stale code; when a new host draws that code, the joiner's move is relayed to the new host |
| `Scenarios.Dropped` | server.js:18-23 | a malformed or unrecognised message is dropped without any send or state change |

## Left out

- Express static file serving, the HTTP server and listening on a port (server.js:2-9, 74-81): I/O plumbing.
- The WebSocket transport: accepting connections, framing, delivering and actually sending messages. `readyState` appears only as the `open` set. `start` messages are sent without an open check, as in the source, and what the transport does with a send on a closed socket is not modelled.
- JSON parsing and serialisation: inbound messages are the `Inbound` datatype and outbound ones the `Outbound` datatype.
- A payload that parses to `null` makes `data.type` throw inside the message listener. Nothing catches it, and no `uncaughtException` handler is installed, so the likely result is that the process ends and every game is lost. The model has no such case. Any other JSON value that is not an object of a known type reaches the `Other` no-op.
- `Math.random().toString(36).substring(2, 8)`: randomness and number formatting. The drawn code is a parameter.
- `console.log` / `console.error` logging.
- Concurrency: the server runs each handler to completion on one thread, so the model treats each event as one atomic method call.
