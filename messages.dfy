/** Values exchanged between the relay server and its clients. */
module Messages {

  /** An opaque identity for one client connection (the `ws` object). */
  type Handle = nat

  /** A game code, compared by exact string equality. */
  type Id = string

  /** The `move` field of an inbound move message, relayed without inspection. */
  type Payload = string

  datatype Option<+T> = None | Some(value: T)

  /** An inbound message once the transport has tried to parse it. */
  datatype Inbound =
    | Host
      /** `gameId` is None when the field is missing or is not a string: such a
          value never equals a key of the games map. */
    | Join(gameId: Option<Id>)
    | Move(move: Payload)
      /** Parsed, but its `type` is none of host, join, move. */
    | Other
      /** The payload is not valid JSON. */
    | Malformed

  /** An outbound message, before serialisation. */
  datatype Outbound =
    | Hosted(gameId: Id)
    | Start(player: nat)
    | MoveRelay(move: Payload)
    | Error(message: string)

  const InvalidGameMessage: string := "Invalid or full game ID"
  const DisconnectMessage: string := "Opponent disconnected"

  /** The messages one handler sends, in order, each with its recipient. */
  type Sends = seq<(Handle, Outbound)>
}
