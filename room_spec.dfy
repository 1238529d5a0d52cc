/**
 * The room as a value and every room operation as a function of the old
 * state: admission, removal with leader hand-off, reselection, the two
 * election checks, the update sweep and ping intake. The class in room.dfy
 * performs these operations in place and proves that it computes exactly
 * these functions; the lemmas here state what the operations promise.
 */
module RoomSpec {
  import opened Types
  import opened Connections
  import opened Election

  datatype RoomState = RoomState(
    id: ConnectionIndex,
    connections: map<ConnectionIndex, Connection>,
    leader: Option<ConnectionIndex>,
    term: Term,
    config: RoomConfig,
    latestPing: Option<Instant>)

  /**
   * The room invariant: the leader, when there is one, keys a live
   * connection; every record carries its own key as its id; and no key is
   * above the id counter, so the next admission cannot collide.
   */
  predicate Valid(s: RoomState) {
    (s.leader.Some? ==> s.leader.value in s.connections) &&
    KeysAreIds(s.connections) &&
    (forall k :: k in s.connections ==> k <= s.id)
  }

  /** `Room::new_with_config`: no connections, no leader, term zero, never pinged. */
  function NewRoom(config: RoomConfig): RoomState {
    RoomState(0, map[], None, 0, config, None)
  }

  // ---------------------------------------------------------------------------
  // Reselection

  /**
   * `switch_leader_to_best_knowledge_and_quality`: the most knowledgeable
   * connection other than the current leader becomes leader, and a new term
   * starts.
   */
  function Reselect(s: RoomState): RoomState {
    s.(leader := ConnectionWithMostKnowledge(s.connections, s.leader), term := s.term + 1)
  }

  /**
   * Reselection advances the term by exactly one; the new leader is `None`
   * exactly when no connection other than the outgoing leader exists, and is
   * otherwise a live connection, different from the outgoing leader, whose
   * knowledge is at least that of every other candidate.
   */
  lemma ReselectionPicksBest(s: RoomState)
    requires Valid(s)
    ensures var r := Reselect(s);
      Valid(r) && r.term == s.term + 1 &&
      r.connections == s.connections && r.id == s.id && r.config == s.config && r.latestPing == s.latestPing &&
      (r.leader.None? <==> forall k :: k in s.connections ==> Some(k) == s.leader) &&
      (r.leader.Some? ==>
        r.leader != s.leader &&
        forall k :: k in s.connections && Some(k) != s.leader ==>
          s.connections[k].knowledge <= s.connections[r.leader.value].knowledge)
  {
  }

  // ---------------------------------------------------------------------------
  // Admission and removal

  /**
   * `create_connection`: the id counter advances and the new connection is
   * stored under it. It becomes leader only if the room has none; the term
   * never changes.
   */
  function CreateConnection(s: RoomState, time: Instant): RoomState
    requires s.id < MaxConnectionIndex
  {
    var index := s.id + 1;
    var connection := NewConnection(index, s.term, time, s.config.pingsPerSecondThreshold);
    s.(id := index,
       connections := s.connections[index := connection],
       leader := if s.leader.None? then Some(index) else s.leader)
  }

  /**
   * Admission adds exactly one entry, under the next id, and leaves every
   * existing entry alone; the record is online at the room's term with zero
   * knowledge and an unknown link to the leader; an existing leader is kept,
   * and only a leaderless room gets the newcomer as its leader.
   */
  lemma CreateAdmitsOne(s: RoomState, time: Instant)
    requires Valid(s) && s.id < MaxConnectionIndex
    ensures var r := CreateConnection(s, time);
      Valid(r) && r.id == s.id + 1 && r.id !in s.connections &&
      r.connections.Keys == s.connections.Keys + {r.id} &&
      (forall k :: k in s.connections ==> r.connections[k] == s.connections[k]) &&
      r.connections[r.id].id == r.id && r.connections[r.id].lastReportedTerm == s.term &&
      r.connections[r.id].knowledge == 0 && r.connections[r.id].state == Online &&
      r.connections[r.id].hasConnectionHost == Unknown &&
      r.leader == (if s.leader.None? then Some(r.id) else s.leader) &&
      r.term == s.term
  {
  }

  /**
   * `destroy_connection`: when the leader is removed a reselection runs
   * first, then the entry is removed.
   */
  function DestroyConnection(s: RoomState, index: ConnectionIndex): RoomState {
    var handedOver := if s.leader == Some(index) then Reselect(s) else s;
    handedOver.(connections := handedOver.connections - {index})
  }

  /**
   * Removal deletes exactly the given entry and keeps the invariant. Removing
   * the leader runs exactly one reselection (term + 1) and hands leadership to
   * another live connection or to nobody; removing anyone else leaves the
   * leader and the term alone.
   */
  lemma DestroyRemovesOne(s: RoomState, index: ConnectionIndex)
    requires Valid(s)
    ensures var r := DestroyConnection(s, index);
      Valid(r) && index !in r.connections &&
      r.connections.Keys == s.connections.Keys - {index} &&
      (forall k :: k in r.connections ==> r.connections[k] == s.connections[k]) &&
      r.id == s.id && r.config == s.config && r.latestPing == s.latestPing &&
      (s.leader == Some(index) ==> r.term == s.term + 1 && r.leader == Reselect(s).leader) &&
      (s.leader != Some(index) ==> r.term == s.term && r.leader == s.leader)
  {
  }

  /**
   * The destruction loop of the update sweep: the ids are destroyed one after
   * another, in the given order.
   */
  function DestroyAll(s: RoomState, ids: seq<ConnectionIndex>): RoomState
    decreases |ids|
  {
    if ids == [] then s
    else DestroyConnection(DestroyAll(s, ids[..|ids| - 1]), ids[|ids| - 1])
  }

  /**
   * Destroying a list of ids, in any order, removes exactly those entries,
   * keeps the invariant and advances the term by at most one per id. The
   * leader changes only together with the term, and when the term advanced,
   * the original leader is among the removed.
   */
  lemma {:induction false} DestroyAllRemovesAll(s: RoomState, ids: seq<ConnectionIndex>)
    requires Valid(s)
    ensures var r := DestroyAll(s, ids);
      Valid(r) &&
      r.connections.Keys == s.connections.Keys - (set i | i in ids) &&
      (forall k :: k in r.connections ==> r.connections[k] == s.connections[k]) &&
      r.id == s.id && r.config == s.config && r.latestPing == s.latestPing &&
      s.term <= r.term <= s.term + |ids| &&
      (r.term == s.term ==> r.leader == s.leader) &&
      (r.term != s.term ==> s.leader.Some? && s.leader.value !in r.connections)
    decreases |ids|
  {
    if ids != [] {
      var prefix := ids[..|ids| - 1];
      var last := ids[|ids| - 1];
      DestroyAllRemovesAll(s, prefix);
      DestroyRemovesOne(DestroyAll(s, prefix), last);
      assert ids == prefix + [last];
      assert (set i | i in ids) == (set i | i in prefix) + {last};
    }
  }

  // ---------------------------------------------------------------------------
  // The two election checks

  /** `change_leader_if_down_voted` fires: there is a leader and a current-term quorum lost it. */
  predicate DownVoted(s: RoomState) {
    s.leader.Some? && HasMostLostConnectionToLeader(s.connections, s.term)
  }

  /**
   * `switch_leader_if_non_responsive` fires: the leader's own assessment
   * recommends disconnecting it, and dropping it is allowed.
   */
  predicate NonResponsive(s: RoomState) {
    s.leader.Some? && s.leader.value in s.connections &&
    s.connections[s.leader.value].Assessment() == RecommendDisconnect &&
    IsPossibleToSwitchLeader(s.connections, s.config)
  }

  /** Steps 3 and 4 of the sweep: the down-vote check, and only if it did not fire, the non-responsive check. */
  function Elect(s: RoomState): RoomState {
    if DownVoted(s) then Reselect(s)
    else if NonResponsive(s) then Reselect(s)
    else s
  }

  /**
   * The election checks change the leader at most once: either nothing
   * changes, or exactly one reselection runs. A down-vote takes precedence,
   * a leaderless room is never touched, and a sole leader is only dropped
   * when the configuration allows it.
   */
  lemma ElectionChangesLeaderAtMostOnce(s: RoomState)
    requires Valid(s)
    ensures var r := Elect(s);
      Valid(r) &&
      (r == s || r == Reselect(s)) &&
      (r == Reselect(s) <==> DownVoted(s) || NonResponsive(s)) &&
      (r.term == s.term <==> r.leader == s.leader) &&
      (s.leader.None? ==> r == s) &&
      (DownVoted(s) ==> r == Reselect(s)) &&
      (|s.connections| <= 1 && !s.config.allowedToRemoveSingleLeader && !DownVoted(s) ==> r == s)
  {
  }

  // ---------------------------------------------------------------------------
  // The update sweep

  /** Step 1: every connection re-evaluates its quality. */
  function RefreshAll(connections: map<ConnectionIndex, Connection>, time: Instant, assess: Assessor)
    : map<ConnectionIndex, Connection>
  {
    map k | k in connections :: connections[k].Refresh(time, assess)
  }

  /** A connection whose assessment recommends disconnecting is marked disconnected. */
  function MarkBad(c: Connection): Connection {
    if c.Assessment() == RecommendDisconnect then c.(state := ConnectionState.Disconnected) else c
  }

  /** Step 2, first half: every badly rated connection is marked disconnected. */
  function DisconnectBad(connections: map<ConnectionIndex, Connection>): map<ConnectionIndex, Connection> {
    map k | k in connections :: MarkBad(connections[k])
  }

  /** The connections whose assessment recommends disconnecting. */
  function BadIds(connections: map<ConnectionIndex, Connection>): set<ConnectionIndex> {
    set k | k in connections && connections[k].Assessment() == RecommendDisconnect
  }

  /** `order` lists every element of `ids` exactly once. */
  predicate Enumerates(order: seq<ConnectionIndex>, ids: set<ConnectionIndex>) {
    (forall i, j :: 0 <= i < j < |order| ==> order[i] != order[j]) &&
    (forall k :: k in order <==> k in ids)
  }

  /**
   * The order in which a sweep destroys connections follows the map's
   * iteration order, which this model leaves open: any enumeration of the
   * badly rated connections when destruction is enabled, none otherwise.
   */
  predicate IsDestructionOrder(s: RoomState, time: Instant, assess: Assessor, order: seq<ConnectionIndex>) {
    if s.config.disconnectBadConnections && s.config.destroyDisconnectedConnections
    then Enumerates(order, BadIds(RefreshAll(s.connections, time, assess)))
    else order == []
  }

  /** Steps 1 and 2 of the sweep: refresh, mark, and (if configured) destroy in `order`. */
  function Sweep(s: RoomState, time: Instant, assess: Assessor, order: seq<ConnectionIndex>): RoomState {
    var refreshed := s.(connections := RefreshAll(s.connections, time, assess));
    if !s.config.disconnectBadConnections then refreshed
    else
      var marked := refreshed.(connections := DisconnectBad(refreshed.connections));
      if s.config.destroyDisconnectedConnections then DestroyAll(marked, order) else marked
  }

  /** `Room::update`: the sweep followed by the election checks. */
  function Update(s: RoomState, time: Instant, assess: Assessor, order: seq<ConnectionIndex>): RoomState {
    Elect(Sweep(s, time, assess, order))
  }

  /** The record a connection ends up with after steps 1 and 2 when it survives them. */
  function Swept(s: RoomState, c: Connection, time: Instant, assess: Assessor): Connection {
    var refreshed := c.Refresh(time, assess);
    if s.config.disconnectBadConnections then MarkBad(refreshed) else refreshed
  }

  /**
   * Refreshing and marking keep every key and only touch quality and
   * lifecycle state, so the sweep before destruction keeps the invariant.
   */
  lemma SweepBeforeDestructionKeepsKeys(s: RoomState, time: Instant, assess: Assessor)
    requires Valid(s)
    ensures var refreshed := s.(connections := RefreshAll(s.connections, time, assess));
      Valid(refreshed) && Valid(refreshed.(connections := DisconnectBad(refreshed.connections))) &&
      BadIds(DisconnectBad(refreshed.connections)) == BadIds(refreshed.connections)
  {
  }

  /**
   * What a whole sweep does. Every connection is refreshed; a badly rated
   * one is marked disconnected when that is configured, and removed only when
   * destruction is configured as well; every survivor keeps its reports. The
   * invariant holds afterwards, the term never decreases and rises by at most
   * one per destroyed connection plus one for the election checks, and the
   * leader changes exactly when the term does.
   */
  lemma {:induction false} UpdateSweeps(s: RoomState, time: Instant, assess: Assessor, order: seq<ConnectionIndex>)
    requires Valid(s) && IsDestructionOrder(s, time, assess, order)
    ensures var r := Update(s, time, assess, order);
      Valid(r) &&
      r.connections.Keys ==
        (if s.config.disconnectBadConnections && s.config.destroyDisconnectedConnections
         then s.connections.Keys - BadIds(RefreshAll(s.connections, time, assess))
         else s.connections.Keys) &&
      (forall k :: k in r.connections ==> r.connections[k] == Swept(s, s.connections[k], time, assess)) &&
      r.id == s.id && r.config == s.config && r.latestPing == s.latestPing &&
      s.term <= r.term <= s.term + |order| + 1 &&
      (r.term == s.term <==> r.leader == s.leader)
  {
    var refreshed := s.(connections := RefreshAll(s.connections, time, assess));
    SweepBeforeDestructionKeepsKeys(s, time, assess);
    var swept := Sweep(s, time, assess, order);
    if s.config.disconnectBadConnections {
      var marked := refreshed.(connections := DisconnectBad(refreshed.connections));
      if s.config.destroyDisconnectedConnections {
        DestroyAllRemovesAll(marked, order);
        assert (set i | i in order) == BadIds(RefreshAll(s.connections, time, assess));
      }
    }
    // After the sweep: the leader moved only together with the term, and then away from the original one.
    assert swept.term == s.term ==> swept.leader == s.leader;
    assert swept.term != s.term ==> s.leader.Some? && s.leader.value !in swept.connections;
    ElectionChangesLeaderAtMostOnce(swept);
    if Elect(swept) == Reselect(swept) {
      ReselectionPicksBest(swept);
    }
  }

  // ---------------------------------------------------------------------------
  // Ping intake

  /**
   * The first half of `Room::on_ping`: the room records the ping instant and
   * the pinged connection takes the reported values.
   */
  function RecordPing(
    s: RoomState, index: ConnectionIndex, term: Term, link: ConnectionToLeader, knowledge: Knowledge, time: Instant)
    : RoomState
    requires index in s.connections
  {
    s.(latestPing := Some(time),
       connections := s.connections[index := s.connections[index].OnPing(term, link, knowledge, time)])
  }

  /** `Room::on_ping`: record the ping, then run the update sweep at the ping's instant. */
  function OnPing(
    s: RoomState, index: ConnectionIndex, term: Term, link: ConnectionToLeader, knowledge: Knowledge, time: Instant,
    assess: Assessor, order: seq<ConnectionIndex>)
    : RoomState
    requires index in s.connections
  {
    Update(RecordPing(s, index, term, link, knowledge, time), time, assess, order)
  }

  /**
   * Ping intake keeps the invariant and stamps the room with the ping's
   * instant, so the room is live for the whole timeout after it and
   * abandoned strictly after. Only the pinged connection's reports change:
   * if it survives the sweep it carries exactly the reported term, link
   * status and knowledge, and every other survivor keeps its own. As with
   * every sweep, the term only rises, by at most one per destroyed connection
   * plus one, and the leader changes exactly when the term does.
   */
  lemma {:induction false} OnPingRecords(
    s: RoomState, index: ConnectionIndex, term: Term, link: ConnectionToLeader, knowledge: Knowledge, time: Instant,
    assess: Assessor, order: seq<ConnectionIndex>)
    requires Valid(s) && index in s.connections
    requires IsDestructionOrder(RecordPing(s, index, term, link, knowledge, time), time, assess, order)
    ensures var r := OnPing(s, index, term, link, knowledge, time, assess, order);
      Valid(r) && r.latestPing == Some(time) && r.connections.Keys <= s.connections.Keys &&
      s.term <= r.term <= s.term + |order| + 1 && (r.term == s.term <==> r.leader == s.leader) &&
      (forall now :: time <= now <= time + AbandonedTimeout ==> !IsAbandoned(r.latestPing, now)) &&
      (forall now :: now > time + AbandonedTimeout ==> IsAbandoned(r.latestPing, now)) &&
      (index in r.connections ==>
        r.connections[index].lastReportedTerm == term &&
        r.connections[index].hasConnectionHost == link &&
        r.connections[index].knowledge == knowledge) &&
      (forall k :: k in r.connections && k != index ==>
        r.connections[k].lastReportedTerm == s.connections[k].lastReportedTerm &&
        r.connections[k].hasConnectionHost == s.connections[k].hasConnectionHost &&
        r.connections[k].knowledge == s.connections[k].knowledge)
  {
    var recorded := RecordPing(s, index, term, link, knowledge, time);
    assert Valid(recorded);
    UpdateSweeps(recorded, time, assess, order);
    var r := Update(recorded, time, assess, order);
    forall k | k in r.connections
      ensures SameReports(r.connections[k], recorded.connections[k])
    {
      SweptKeepsReports(recorded, recorded.connections[k], time, assess);
    }
  }

  /** Two records carry the same reported term, link status and knowledge. */
  predicate SameReports(a: Connection, b: Connection) {
    a.lastReportedTerm == b.lastReportedTerm && a.hasConnectionHost == b.hasConnectionHost &&
    a.knowledge == b.knowledge
  }

  lemma SweptKeepsReports(s: RoomState, c: Connection, time: Instant, assess: Assessor)
    ensures SameReports(Swept(s, c, time, assess), c) && Swept(s, c, time, assess).id == c.id
  {
  }
}
