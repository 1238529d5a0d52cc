# Room session leader election, modelled in Dafny

This project models the leader-election engine of one session room from
`crates/session/src/lib.rs`. A `Room` keeps a registry of connections keyed by
a u16 `ConnectionIndex`, an optional leader, a term counter, an id counter and
the instant of the latest ping. Connections report three values on every ping:
the term they believe in, whether they still reach the leader, and a knowledge
score. The room elects leaders from those reports:

- **Admission.** `create_connection` advances the id counter and admits a
  fresh connection under it. The newcomer becomes leader only if the room has
  none.
- **Removal with hand-off.** `destroy_connection` of the leader first runs a
  reselection, so the leader never names a removed connection.
- **Reselection.** The most knowledgeable connection other than the outgoing
  leader becomes leader, or nobody does when no other connection exists. The
  term advances by one on every reselection.
- **Down-vote.** A strict majority of the room, counting only reports made in
  the current term, says it lost the leader. It never fires in a room without
  a leader.
- **Non-responsive leader.** The leader's own quality assessment recommends
  disconnecting it. A sole leader is dropped only when the configuration
  allows it.
- **Sweep.** `update` runs these steps in order:
  1. It refreshes every connection's quality.
  2. It marks badly rated connections as disconnected, and destroys them if
     that is configured.
  3. It runs the down-vote check.
  4. It runs the non-responsive check only if the down-vote did not fire.
- **Ping intake and abandonment.** `on_ping` stamps the room, overwrites the
  pinged connection's reports and sweeps. `is_abandoned` says whether the room
  has been silent for more than two seconds.

Layout:

- `types.dfy` (`Types`) holds the index, term, knowledge and link-status values.
- `connection.dfy` (`Connections`) holds the connection record and its updates.
- `election.dfy` (`Election`) holds the configuration and the side-effect-free
  queries: quorum, best candidate, sole-leader guard and abandonment.
- `room_spec.dfy` (`RoomSpec`) holds the room as a value (`RoomState`) and
  every room operation as a function of the old state, with the lemmas that
  state what each operation promises.
- `room.dfy` (`Rooms`) holds the `Room` class. Its fields are updated in place
  and its loops mirror the source. Every method is proved to produce exactly
  the state the matching `RoomSpec` function computes. The constructors,
  `CreateConnection`, `DestroyConnection`, `Update` and `OnPing` are also
  proved to keep the room invariant: the leader keys a live connection, every
  record carries its key as its id, and no key is above the id counter.
- `scenarios.dfy` (`Scenarios`) restates the crate's unit tests as lemmas, and
  proves two consequences of the code that no test exercises.

Four facts about the code shape the model:

- Reselection compares knowledge only (lib.rs:204-208), although the
  function's name also mentions quality.
- Exhausting the index space panics (lib.rs:255). No error value is returned.
- The sole-leader guard protects only against the non-responsive check. Under
  the default configuration, a sole leader that reports on the current term
  that it lost the leader is a majority of one, and the down-vote drops it
  (`Scenarios.SoleLeaderCanBeDownVotedByDefault`).
- Destroying several bad connections in a row runs one hand-off per destroyed
  leader. The hand-off does not skip connections that are still queued for
  destruction, so leadership can pass to such a connection and then on again,
  spending one term each time
  (`Scenarios.DestructionCanHandOverToQueuedConnection`).

## Model

| member | source | states |
|---|---|---|
| `Connections.Connection.OnPing` | crates/session/src/lib.rs:79-90 | the reported term, link status and knowledge replace the old ones; the ping instant is appended to what the estimator saw; id, lifecycle state and current assessment are unchanged |
| `Connections.Connection.Assessment` | crates/session/src/lib.rs:96-98 | the connection's assessment is the one its estimator currently holds |
| `Connections.Connection.Refresh` | crates/session/src/lib.rs:92-98 | only the assessment changes, to the classifier's verdict at the given instant |
| `Connections.NewConnection` | crates/session/src/lib.rs:63-77 | a new connection carries the given id and term, zero knowledge, an unknown link to the leader and the online state; its estimator starts at the given instant and threshold, with no pings and `InsufficientData` |
| `Connections.OnPingLastWriteWins` | crates/session/src/lib.rs:79-90 | after two pings the record equals one that received only the second report, except that the estimator saw both instants in order |
| `Election.DefaultConfig` | crates/session/src/lib.rs:110-119 | a sole leader may not be removed, so the non-responsive check can switch leaders exactly when the room has more than one connection; bad connections are marked but not destroyed; the threshold is 5 pings per second |
| `Election.HasMostLostConnectionToLeader` | crates/session/src/lib.rs:188-198 | comparing the current-term "disconnected" count with half the room rounded down is the same as a strict majority; it needs at least one voter |
| `Election.StaleReportsNeverCount` | crates/session/src/lib.rs:192-195 | a connection reporting on another term cannot change the quorum decision, whatever link status it reports |
| `Election.DownVoteMonotone` | crates/session/src/lib.rs:189-198 | one more current-term "disconnected" report never cancels a down-vote that fires |
| `Election.BestKeyBelow` | crates/session/src/lib.rs:204-208 | the filter and max-by-knowledge scan: the result is a non-excluded connection whose knowledge is at least every other non-excluded one's, and `None` only when all are excluded |
| `Election.ConnectionWithMostKnowledge` | crates/session/src/lib.rs:200-209 | `None` exactly when every connection is excluded; otherwise, when records carry their keys, a live non-excluded connection of maximal knowledge |
| `Election.IsPossibleToSwitchLeader` | crates/session/src/lib.rs:231-233 | true exactly when the configuration allows removing a sole leader or two distinct connections exist |
| `Election.IsAbandoned` | crates/session/src/lib.rs:311-319 | abandoned exactly when no ping was ever recorded or the instant is strictly more than two seconds after the latest ping |
| `Election.AbandonmentPersists` | crates/session/src/lib.rs:318-318 | without a new ping, an abandoned room stays abandoned at every later instant |
| `RoomSpec.ReselectionPicksBest` | crates/session/src/lib.rs:211-216 | term + 1; new leader `None` iff no connection besides the outgoing leader; otherwise a live connection other than the outgoing leader with maximal knowledge; invariant kept |
| `RoomSpec.CreateAdmitsOne` | crates/session/src/lib.rs:262-277 | the new id is the old counter + 1 and was free; exactly one entry is added and old entries are untouched; the record is online, at the room's term, with zero knowledge and unknown link; the leader is set only when there was none; term unchanged |
| `RoomSpec.DestroyRemovesOne` | crates/session/src/lib.rs:344-352 | exactly the given entry disappears and the others are untouched; removing the leader runs one reselection (term + 1); otherwise leader and term are unchanged; the invariant is kept |
| `RoomSpec.DestroyAllRemovesAll` | crates/session/src/lib.rs:296-300 | destroying a list, in any order, removes exactly its ids and keeps the invariant; the term rises by at most one per id; the leader changes only with the term, and then the old leader is among the removed |
| `RoomSpec.ElectionChangesLeaderAtMostOnce` | crates/session/src/lib.rs:303-308 | the checks run at most one reselection, exactly when the down-vote or the non-responsive check fires; a down-vote takes precedence; a leaderless room is left alone, and a sole leader without the override is left alone by the non-responsive check unless down-voted |
| `RoomSpec.SweepBeforeDestructionKeepsKeys` | crates/session/src/lib.rs:281-294 | refreshing and marking keep the invariant, and marking does not change which connections are rated badly |
| `RoomSpec.UpdateSweeps` | crates/session/src/lib.rs:280-309 | badly rated connections are removed only when both flags are set; each survivor is refreshed and, if configured, marked; the term rises by at most one per destroyed connection plus one; the leader changes exactly when the term does |
| `RoomSpec.OnPingRecords` | crates/session/src/lib.rs:322-334 | the room is stamped with the ping instant: live for two seconds after it and abandoned strictly after; if the pinged connection survives, it carries exactly the reported values; all other survivors keep theirs; the term only rises, by at most one per destroyed connection plus one, and the leader changes exactly when the term does |
| `Rooms.Room.constructor` | crates/session/src/lib.rs:163-179 | a room with the default configuration, no connections, no leader, term 0 and no ping |
| `Rooms.Room.WithConfig` | crates/session/src/lib.rs:181-186 | the same empty room with the given configuration |
| `Rooms.Room.FindUniqueConnectionIndex` | crates/session/src/lib.rs:249-260 | the first index at or above the counter that no connection uses |
| `Rooms.Room.CreateConnection` | crates/session/src/lib.rs:262-278 | the new state is `RoomSpec.CreateConnection` of the old one, so the found index equals the counter; returns the new counter |
| `Rooms.Room.SwitchLeaderToBestKnowledgeAndQuality` | crates/session/src/lib.rs:211-216 | the new state is `RoomSpec.Reselect` of the old one |
| `Rooms.Room.DestroyConnection` | crates/session/src/lib.rs:344-352 | the new state is `RoomSpec.DestroyConnection` of the old one, and the invariant holds |
| `Rooms.Room.ChangeLeaderIfDownVoted` | crates/session/src/lib.rs:218-229 | returns whether there was a leader and a current-term quorum lost it; reselects exactly then, and otherwise changes nothing |
| `Rooms.Room.SwitchLeaderIfNonResponsive` | crates/session/src/lib.rs:235-247 | reselects exactly when the leader is rated `RecommendDisconnect` and may be dropped; otherwise changes nothing |
| `Rooms.Room.RefreshConnections` | crates/session/src/lib.rs:281-283 | every connection, and only its assessment, is refreshed |
| `Rooms.Room.DisconnectBadConnections` | crates/session/src/lib.rs:285-294 | every badly rated connection is marked disconnected; when destruction is configured, the returned list names each badly rated connection exactly once, and otherwise it is empty |
| `Rooms.Room.Update` | crates/session/src/lib.rs:280-309 | the new state is `RoomSpec.Update` of the old one, for the order in which the map yielded the destroyed ids; the invariant holds |
| `Rooms.Room.OnPing` | crates/session/src/lib.rs:322-334 | the new state is `RoomSpec.OnPing` of the old one; the invariant holds |
| `Scenarios.FirstAdmissionsAreNumberedFromOne` | crates/session/src/lib.rs:408-419 | the first two admissions get ids 1 and 2, the first leads and keeps leading, and the term stays 0 |
| `Scenarios.DestroyingSoleLeaderEmptiesRoom` | crates/session/src/lib.rs:536-546 | destroying the only connection, the leader, leaves an empty leaderless room in term 1 |
| `Scenarios.SilentLeaderIsReplacedByPeer` | crates/session/src/lib.rs:407-436 | once the silent leader is rated badly, a ping from the peer moves leadership to the peer in term 1 |
| `Scenarios.SoleLeaderIsRetainedByDefault` | crates/session/src/lib.rs:438-462 | with the default configuration a sole leader is kept, in term 0, however it is rated |
| `Scenarios.SoleLeaderIsDroppedWhenAllowed` | crates/session/src/lib.rs:509-533 | with sole-leader removal allowed, a badly rated sole leader is dropped: no leader, term 1, the connection stays |
| `Scenarios.SoleLeaderCanBeDownVotedByDefault` | crates/session/src/lib.rs:218-229 | under the default configuration, a sole leader that pings reporting it lost the leader on the current term is dropped: no leader, term 1, the connection stays |
| `Scenarios.DestructionCanHandOverToQueuedConnection` | crates/session/src/lib.rs:296-300 | destroying leader `x` and then `y`, where `y` out-knows `z`, first makes `y` leader and then `z`, two terms later, leaving only `z` |
| `Scenarios.NewRoomIsAbandoned` | crates/session/src/lib.rs:312-316 | a room that never received a ping is abandoned at every instant |

## Left out

- The `connection_quality` and `metrics` modules are not part of this model. These are the ping-rate estimator and the classifier that produces a `QualityAssessment`. A connection keeps what the room gives its estimator: the threshold, the creation instant, the ping instants and the current assessment. The refresh is an input `assess: (Quality, Instant) -> QualityAssessment` to every sweep. A new connection starts as `InsufficientData`. The f32 threshold is carried as a `real` and never interpreted.
- `RoomConfig::recommended_for_debug` and `recommended_for_release` are left out, because they only preset an f32 threshold. The builder setters and `build` are left out too: a configuration is a record value (`DefaultConfig().(allowedToRemoveSingleLeader := true)`) handed to `Rooms.Room.WithConfig`.
- `Room::get` and `Room::get_mut` are left out. They are plain lookups that panic on a missing id.
- Instants are natural-number ticks, with 1000 ticks per second. `Instant - Instant` saturates at zero, as Rust's does. No other `Duration` arithmetic is modelled.
- `Rooms.Room.CreateConnection` requires the id counter to be below 65535. It does not model the u16 overflow of `ConnectionIndex::next` (a panic in debug builds, a wrap-around in release builds) or what admission does after a wrap.
- `Rooms.Room.FindUniqueConnectionIndex` requires a free index at or above the counter. It does not model the scan running past 65535, or the panic at line 255 when every index is in use.
- `Rooms.Room.OnPing` requires the pinged id to exist, and `Rooms.Room.SwitchLeaderIfNonResponsive` requires the leader to be in the map. The source's `unwrap`s panic in those cases.
- HashMap iteration order is not modelled. The loops visit keys in an unspecified order. The order in which `update` destroys connections is returned as a ghost value, and every lemma holds for any such order.
- `Election.ConnectionWithMostKnowledge` does not promise which of several equally knowledgeable connections it picks, because `max_by_key` decides ties by iteration order. The model's own scan picks the largest key.
- `Knowledge` and `Term` (from `conclave_types`, which is not part of this model) are unbounded naturals. Only their order, their equality and the term's `+ 1` are used.
- The `check_ping` and `custom_timeout_config` tests are left out, because their outcomes depend on the rate estimator's arithmetic.
- `Display` and `Debug` are left out. They have no behaviour.
