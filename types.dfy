/**
 * Value types shared by the room engine: the optional value, the u16 connection
 * index, and the three values the engine borrows from `conclave_types`
 * (knowledge score, term counter and the link-to-leader report).
 */
module Types {

  datatype Option<T> = None | Some(value: T)

  /** `ConnectionIndex(pub u16)`: an identifier in the u16 range. */
  newtype ConnectionIndex = x: int | 0 <= x < 0x1_0000

  /** The largest index; `ConnectionIndex::next` overflows past it. */
  const MaxConnectionIndex: ConnectionIndex := 0xFFFF

  /** Number of distinct connection indices (the size of the u16 range). */
  const IndexSpace: nat := 0x1_0000

  /** `Knowledge`: only its total order is used, so an unbounded natural number. */
  type Knowledge = nat

  /** `Term`: only equality and `next` (which is `+ 1`) are used. */
  type Term = nat

  /** What a connection last reported about its own link to the leader. */
  datatype ConnectionToLeader = Unknown | Connected | Disconnected

  /** Instants are ticks of a monotonic clock supplied by the caller. */
  type Instant = nat

  /** Ticks in one second. */
  const TicksPerSecond: nat := 1000
}
