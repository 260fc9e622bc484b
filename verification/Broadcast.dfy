/** Bounded broadcast channels. */
module Broadcast {

  /** What one receive yields. */
  datatype Received<T> = Item(value: T) | Lagged(skipped: nat) | Closed | NothingYet

  /** A channel is an append-only log of which a receiver can still read the
      last `capacity` entries. A receiver that fell behind is told once how many
      entries it missed and goes on with the oldest one left. */
  function Receive<T>(log: seq<T>, capacity: nat, closed: bool, cursor: nat): Received<T> {
    if cursor + capacity < |log| then Lagged(|log| - capacity - cursor)
    else if cursor < |log| then Item(log[cursor])
    else if closed then Closed
    else NothingYet
  }

  function Advance<T>(cursor: nat, r: Received<T>): nat {
    match r
    case Item(_) => cursor + 1
    case Lagged(n) => cursor + n
    case _ => cursor
  }
}
