/**
 * The side-effect-free queries of the room: the room configuration, the
 * quorum down-vote count, the choice of the most knowledgeable candidate, the
 * sole-leader guard and room abandonment. Each is a function over the
 * connection map (or the fields it reads), so the lemmas here relate them to
 * independent characterisations.
 */
module Election {
  import opened Types
  import opened Connections

  /** `RoomConfig`, chosen when the room is built and never changed by it. */
  datatype RoomConfig = RoomConfig(
    allowedToRemoveSingleLeader: bool,
    pingsPerSecondThreshold: real,
    disconnectBadConnections: bool,
    destroyDisconnectedConnections: bool)

  /**
   * `RoomConfig::default()`: a sole leader is never dropped, badly rated
   * connections are marked disconnected but kept, and the rate threshold is
   * five pings per second.
   */
  function DefaultConfig(): (c: RoomConfig)
    ensures !c.allowedToRemoveSingleLeader && c.pingsPerSecondThreshold == 5.0
    ensures c.disconnectBadConnections && !c.destroyDisconnectedConnections
    ensures forall connections :: IsPossibleToSwitchLeader(connections, c) <==> |connections| > 1
  {
    RoomConfig(false, 5.0, true, false)
  }

  /** A room stops being live when no ping arrived for more than two seconds. */
  const AbandonedTimeout: nat := 2 * TicksPerSecond

  // ---------------------------------------------------------------------------
  // Quorum down-vote

  /** The connections whose current-term report says they lost the leader. */
  function DownVoters(connections: map<ConnectionIndex, Connection>, term: Term): (voters: set<ConnectionIndex>)
    ensures voters <= connections.Keys
  {
    set k | k in connections && connections[k].hasConnectionHost == ConnectionToLeader.Disconnected
                             && connections[k].lastReportedTerm == term
  }

  /**
   * `has_most_lost_connection_to_leader`: the count of current-term
   * "disconnected" reports is compared with half the room, rounded down.
   * That is exactly a strict majority of the room.
   */
  function HasMostLostConnectionToLeader(connections: map<ConnectionIndex, Connection>, term: Term): (r: bool)
    ensures r <==> 2 * |DownVoters(connections, term)| > |connections|
    ensures r ==> |connections| > 0 && |DownVoters(connections, term)| > 0
  {
    |DownVoters(connections, term)| > |connections| / 2
  }

  /**
   * A report that carries a stale term never counts: whatever link status a
   * connection on another term reports, the quorum decision is the same.
   */
  lemma {:induction false} StaleReportsNeverCount(
    connections: map<ConnectionIndex, Connection>, term: Term, k: ConnectionIndex, link: ConnectionToLeader)
    requires k in connections && connections[k].lastReportedTerm != term
    ensures HasMostLostConnectionToLeader(connections[k := connections[k].(hasConnectionHost := link)], term)
        == HasMostLostConnectionToLeader(connections, term)
  {
    var updated := connections[k := connections[k].(hasConnectionHost := link)];
    assert updated.Keys == connections.Keys;
    assert DownVoters(updated, term) == DownVoters(connections, term);
  }

  /**
   * One more connection reporting, on the current term, that it lost the
   * leader can only add to the quorum: a down-vote that fires keeps firing.
   */
  lemma {:induction false} DownVoteMonotone(
    connections: map<ConnectionIndex, Connection>, term: Term, k: ConnectionIndex)
    requires k in connections
    requires HasMostLostConnectionToLeader(connections, term)
    ensures HasMostLostConnectionToLeader(
      connections[k := connections[k].(hasConnectionHost := ConnectionToLeader.Disconnected, lastReportedTerm := term)], term)
  {
    var updated := connections[k := connections[k].(hasConnectionHost := ConnectionToLeader.Disconnected, lastReportedTerm := term)];
    assert updated.Keys == connections.Keys;
    assert DownVoters(connections, term) <= DownVoters(updated, term);
    SubsetCardinality(DownVoters(connections, term), DownVoters(updated, term));
  }

  lemma SubsetCardinality<T>(a: set<T>, b: set<T>)
    requires a <= b
    ensures |a| <= |b|
  {
    assert b == a + (b - a);
  }

  // ---------------------------------------------------------------------------
  // Reselection candidate

  /**
   * The most knowledgeable connection among those whose key is below `n` and
   * whose own id is not `exclude`. Ties go to the larger key; nothing else in
   * the model depends on which of several equally knowledgeable connections
   * is chosen.
   */
  function BestKeyBelow(connections: map<ConnectionIndex, Connection>, exclude: Option<ConnectionIndex>, n: nat)
    : (r: Option<ConnectionIndex>)
    requires n <= IndexSpace
    ensures r.Some? ==> r.value in connections && (r.value as int) < n && Some(connections[r.value].id) != exclude
    ensures r.Some? ==> forall k :: k in connections && (k as int) < n && Some(connections[k].id) != exclude ==>
                          connections[k].knowledge <= connections[r.value].knowledge
    ensures r.None? <==> forall k :: k in connections && (k as int) < n ==> Some(connections[k].id) == exclude
    decreases n
  {
    if n == 0 then None
    else
      var k := (n - 1) as ConnectionIndex;
      var best := BestKeyBelow(connections, exclude, n - 1);
      if k !in connections || Some(connections[k].id) == exclude then best
      else if best.None? || connections[best.value].knowledge <= connections[k].knowledge then Some(k)
      else best
  }

  /**
   * `connection_with_most_knowledge_and_acceptable_quality`: among the
   * connections whose id is not `exclude`, one with maximal knowledge, as its
   * id; `None` exactly when every connection is excluded. When every record's
   * id is its key, the result keys a connection other than `exclude`.
   */
  function ConnectionWithMostKnowledge(connections: map<ConnectionIndex, Connection>, exclude: Option<ConnectionIndex>)
    : (r: Option<ConnectionIndex>)
    ensures r.None? <==> forall k :: k in connections ==> Some(connections[k].id) == exclude
    ensures KeysAreIds(connections) && r.Some? ==>
      r.value in connections && Some(r.value) != exclude &&
      forall k :: k in connections && Some(k) != exclude ==> connections[k].knowledge <= connections[r.value].knowledge
  {
    var best := BestKeyBelow(connections, exclude, IndexSpace);
    if best.Some? then Some(connections[best.value].id) else None
  }

  /** Every record in the map carries its own key as its id. */
  predicate KeysAreIds(connections: map<ConnectionIndex, Connection>) {
    forall k :: k in connections ==> connections[k].id == k
  }

  // ---------------------------------------------------------------------------
  // Sole-leader guard

  /**
   * `is_possble_to_switch_leader`: a leader may be dropped when some other
   * connection exists beside it, or when the configuration allows removing a
   * sole leader.
   */
  function IsPossibleToSwitchLeader(connections: map<ConnectionIndex, Connection>, config: RoomConfig): (r: bool)
    ensures r <==> config.allowedToRemoveSingleLeader ||
                   exists a, b :: a in connections && b in connections && a != b
  {
    TwoKeysIffMoreThanOne(connections);
    |connections| > 1 || config.allowedToRemoveSingleLeader
  }

  lemma TwoKeysIffMoreThanOne(connections: map<ConnectionIndex, Connection>)
    ensures |connections| > 1 <==> exists a, b :: a in connections && b in connections && a != b
  {
    if |connections| > 1 {
      var a :| a in connections;
      var rest := connections.Keys - {a};
      assert |rest| == |connections| - 1;
      var b :| b in rest;
      assert a in connections && b in connections && a != b;
    }
    if exists a, b :: a in connections && b in connections && a != b {
      var a, b :| a in connections && b in connections && a != b;
      SubsetCardinality({a, b}, connections.Keys);
    }
  }

  // ---------------------------------------------------------------------------
  // Abandonment

  /** `Instant - Instant`: the duration between two instants, zero if `now` is earlier. */
  function Elapsed(now: Instant, prev: Instant): nat {
    if now >= prev then now - prev else 0
  }

  /**
   * `is_abandoned`: a room that never received a ping is abandoned; otherwise
   * it is abandoned once strictly more than the timeout has passed since the
   * latest ping.
   */
  function IsAbandoned(latestPing: Option<Instant>, now: Instant): (r: bool)
    ensures r <==> latestPing.None? || now > latestPing.value + AbandonedTimeout
  {
    match latestPing
    case None => true
    case Some(prev) => Elapsed(now, prev) > AbandonedTimeout
  }

  /** Once abandoned, a room stays abandoned until the next ping. */
  lemma AbandonmentPersists(latestPing: Option<Instant>, now: Instant, later: Instant)
    requires now <= later && IsAbandoned(latestPing, now)
    ensures IsAbandoned(latestPing, later)
  {
  }
}
