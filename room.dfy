/**
 * `Room`: the connection registry, the leader, the term counter and the
 * latest ping instant, updated in place. Every method is proved to leave the
 * room in exactly the state the corresponding function of RoomSpec computes
 * from the old state; the constructors and the public operations also keep
 * the room invariant.
 */
module Rooms {
  import opened Types
  import opened Connections
  import opened Election
  import opened RoomSpec

  class Room {
    var id: ConnectionIndex
    var connections: map<ConnectionIndex, Connection>
    var leader: Option<ConnectionIndex>
    var term: Term
    const config: RoomConfig
    var latestPing: Option<Instant>

    /** The room as a value. */
    function State(): RoomState
      reads this
    {
      RoomState(id, connections, leader, term, config, latestPing)
    }

    predicate Valid()
      reads this
    {
      RoomSpec.Valid(State())
    }

    /** `Room::new_with_config`. */
    constructor WithConfig(config: RoomConfig)
      ensures Valid() && State() == NewRoom(config)
    {
      this.config := config;
      id := 0;
      connections := map[];
      leader := None;
      term := 0;
      latestPing := None;
    }

    /** `Room::new`: a room with the default configuration. */
    constructor ()
      ensures Valid() && State() == NewRoom(DefaultConfig())
    {
      config := DefaultConfig();
      id := 0;
      connections := map[];
      leader := None;
      term := 0;
      latestPing := None;
    }

    /**
     * `find_unique_connection_index`: starting at the id counter, the first
     * index that no connection uses. The caller guarantees that one exists at
     * or above the counter, so the search never runs past the u16 range.
     */
    method FindUniqueConnectionIndex() returns (candidate: ConnectionIndex)
      requires exists c: ConnectionIndex :: id <= c && c !in connections
      ensures id <= candidate && candidate !in connections
      ensures forall c: ConnectionIndex :: id <= c < candidate ==> c in connections
    {
      candidate := id;
      while candidate in connections
        invariant id <= candidate
        invariant forall c: ConnectionIndex :: id <= c < candidate ==> c in connections
        decreases MaxConnectionIndex - candidate
      {
        candidate := candidate + 1;
      }
    }

    /**
     * `create_connection`: advance the counter, admit a new connection under
     * it and make it leader if the room has none. Returns the new index.
     */
    method CreateConnection(time: Instant) returns (index: ConnectionIndex)
      requires Valid() && id < MaxConnectionIndex
      modifies this
      ensures Valid() && State() == RoomSpec.CreateConnection(old(State()), time)
      ensures index == id == old(id) + 1
    {
      id := id + 1;
      assert id !in connections;
      var connectionId := FindUniqueConnectionIndex();
      // every key is at most the previous counter, so the search stops at once
      assert connectionId == id;
      var connection := NewConnection(connectionId, term, time, config.pingsPerSecondThreshold);
      connections := connections[id := connection];
      if leader.None? {
        leader := Some(id);
      }
      index := id;
      CreateAdmitsOne(old(State()), time);
    }

    /** `switch_leader_to_best_knowledge_and_quality`. */
    method SwitchLeaderToBestKnowledgeAndQuality()
      modifies this
      ensures State() == Reselect(old(State()))
    {
      leader := ConnectionWithMostKnowledge(connections, leader);
      term := term + 1;
    }

    /**
     * `destroy_connection`: hand leadership over first when the leader goes,
     * then remove the entry.
     */
    method DestroyConnection(index: ConnectionIndex)
      requires Valid()
      modifies this
      ensures Valid() && State() == RoomSpec.DestroyConnection(old(State()), index)
    {
      DestroyRemovesOne(State(), index);
      if leader == Some(index) {
        SwitchLeaderToBestKnowledgeAndQuality();
      }
      connections := connections - {index};
    }

    /**
     * `change_leader_if_down_voted`: reselect when a current-term quorum lost
     * the leader; reports whether it did.
     */
    method ChangeLeaderIfDownVoted() returns (changed: bool)
      modifies this
      ensures changed == DownVoted(old(State()))
      ensures State() == if changed then Reselect(old(State())) else old(State())
    {
      if leader.None? {
        return false;
      }
      if HasMostLostConnectionToLeader(connections, term) {
        SwitchLeaderToBestKnowledgeAndQuality();
        return true;
      }
      return false;
    }

    /**
     * `switch_leader_if_non_responsive`: reselect when the leader's own
     * assessment recommends disconnecting it and dropping it is allowed.
     */
    method SwitchLeaderIfNonResponsive()
      requires leader.Some? ==> leader.value in connections
      modifies this
      ensures State() == if NonResponsive(old(State())) then Reselect(old(State())) else old(State())
    {
      if leader.None? {
        return;
      }
      var leaderConnection := connections[leader.value];
      if leaderConnection.Assessment() == RecommendDisconnect && IsPossibleToSwitchLeader(connections, config) {
        SwitchLeaderToBestKnowledgeAndQuality();
      }
    }

    /** Step 1 of `update`: every connection re-evaluates its quality. */
    method RefreshConnections(time: Instant, assess: Assessor)
      modifies this`connections
      ensures connections == RefreshAll(old(connections), time, assess)
    {
      ghost var original := connections;
      var pending := connections.Keys;
      while pending != {}
        invariant pending <= original.Keys == connections.Keys
        invariant forall k :: k in connections ==>
          connections[k] == if k in pending then original[k] else original[k].Refresh(time, assess)
        decreases pending
      {
        var k :| k in pending;
        connections := connections[k := connections[k].Refresh(time, assess)];
        pending := pending - {k};
      }
    }

    /**
     * Step 2 of `update`, first loop: mark every badly rated connection
     * disconnected and, when destruction is configured, collect its id.
     */
    method DisconnectBadConnections() returns (doomed: seq<ConnectionIndex>)
      requires KeysAreIds(connections)
      modifies this`connections
      ensures connections == DisconnectBad(old(connections))
      ensures if config.destroyDisconnectedConnections then Enumerates(doomed, BadIds(old(connections)))
              else doomed == []
    {
      ghost var original := connections;
      var pending := connections.Keys;
      doomed := [];
      while pending != {}
        invariant pending <= original.Keys == connections.Keys
        invariant forall k :: k in connections ==>
          connections[k] == if k in pending then original[k] else MarkBad(original[k])
        invariant !config.destroyDisconnectedConnections ==> doomed == []
        invariant forall i, j :: 0 <= i < j < |doomed| ==> doomed[i] != doomed[j]
        invariant forall k :: k in doomed ==> k in BadIds(original) && k !in pending
        invariant config.destroyDisconnectedConnections ==>
          forall k :: k in BadIds(original) && k !in pending ==> k in doomed
        decreases pending
      {
        var k :| k in pending;
        var connection := connections[k];
        if connection.Assessment() == RecommendDisconnect {
          connections := connections[k := connection.(state := ConnectionState.Disconnected)];
          if config.destroyDisconnectedConnections {
            doomed := doomed + [connection.id];
          }
        }
        pending := pending - {k};
      }
    }

    /**
     * `Room::update`: refresh, mark and possibly destroy bad connections,
     * then the down-vote check and, only when it did not fire, the
     * non-responsive check. `order` is the order in which connections were
     * destroyed, which follows the map's iteration order.
     */
    method Update(time: Instant, assess: Assessor) returns (ghost order: seq<ConnectionIndex>)
      requires Valid()
      modifies this
      ensures Valid()
      ensures IsDestructionOrder(old(State()), time, assess, order)
      ensures State() == RoomSpec.Update(old(State()), time, assess, order)
    {
      ghost var s := State();
      SweepBeforeDestructionKeepsKeys(s, time, assess);
      RefreshConnections(time, assess);
      order := [];
      if config.disconnectBadConnections {
        var doomed := DisconnectBadConnections();
        ghost var marked := State();
        if config.destroyDisconnectedConnections {
          for i := 0 to |doomed|
            invariant Valid() && State() == DestroyAll(marked, doomed[..i])
          {
            assert doomed[..i + 1][..i] == doomed[..i];
            DestroyConnection(doomed[i]);
          }
          assert doomed[..|doomed|] == doomed;
        }
        order := doomed;
      }
      assert State() == Sweep(s, time, assess, order);
      UpdateSweeps(s, time, assess, order);
      ElectionChangesLeaderAtMostOnce(State());
      var changed := ChangeLeaderIfDownVoted();
      if changed {
        return;
      }
      SwitchLeaderIfNonResponsive();
    }

    /**
     * `Room::on_ping`: record the instant, hand the report to the pinged
     * connection, then sweep at the ping's instant.
     */
    method OnPing(
      index: ConnectionIndex, reportedTerm: Term, link: ConnectionToLeader, knowledge: Knowledge,
      time: Instant, assess: Assessor)
      returns (ghost order: seq<ConnectionIndex>)
      requires Valid() && index in connections
      modifies this
      ensures Valid()
      ensures IsDestructionOrder(RecordPing(old(State()), index, reportedTerm, link, knowledge, time), time, assess, order)
      ensures State() == RoomSpec.OnPing(old(State()), index, reportedTerm, link, knowledge, time, assess, order)
    {
      latestPing := Some(time);
      var connection := connections[index];
      connections := connections[index := connection.OnPing(reportedTerm, link, knowledge, time)];
      assert State() == RecordPing(old(State()), index, reportedTerm, link, knowledge, time);
      order := Update(time, assess);
    }
  }
}
