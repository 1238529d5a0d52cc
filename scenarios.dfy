/**
 * The room's own unit tests, restated over the model, and two consequences of
 * the code that no test exercises. The quality estimator
 * is not modelled, so where a test relies on a connection being rated badly
 * after a silence, the lemma takes that rating as its precondition and holds
 * for every classifier that gives it.
 */
module Scenarios {
  import opened Types
  import opened Connections
  import opened Election
  import opened RoomSpec

  /** The first two admissions get ids 1 and 2; the first one becomes leader and stays leader. */
  lemma FirstAdmissionsAreNumberedFromOne(config: RoomConfig, now: Instant)
    ensures var s1 := CreateConnection(NewRoom(config), now);
      s1.id == 1 && s1.connections.Keys == {1} && s1.leader == Some(1) && s1.term == 0 &&
      var s2 := CreateConnection(s1, now);
      s2.id == 2 && s2.connections.Keys == {1, 2} && s2.leader == Some(1) && s2.term == 0
  {
  }

  /** Destroying the only connection, which leads, empties the room, leaves it leaderless and starts term 1. */
  lemma DestroyingSoleLeaderEmptiesRoom(now: Instant)
    ensures var r := DestroyConnection(CreateConnection(NewRoom(DefaultConfig()), now), 1);
      r.connections == map[] && r.leader == None && r.term == 1
  {
  }

  /**
   * Two connections; only the second one pings, ten seconds later, reporting
   * that it still reaches the leader. Once the silent leader is rated badly,
   * leadership passes to the second connection in a new term.
   */
  lemma SilentLeaderIsReplacedByPeer(now: Instant, assess: Assessor)
    requires assess(NewConnection(1, 0, now, 5.0).quality, now + 10 * TicksPerSecond) == RecommendDisconnect
    ensures var s := CreateConnection(CreateConnection(NewRoom(DefaultConfig()), now), now);
      var r := OnPing(s, 2, 0, Connected, 42, now + 10 * TicksPerSecond, assess, []);
      r.leader == Some(2) && r.term == 1
  {
    var later := now + 10 * TicksPerSecond;
    var s := CreateConnection(CreateConnection(NewRoom(DefaultConfig()), now), now);
    var recorded := RecordPing(s, 2, 0, Connected, 42, later);
    var swept := Sweep(recorded, later, assess, []);
    assert swept.connections.Keys == {1, 2};
    assert swept.connections[1].Assessment() == RecommendDisconnect;
    assert DownVoters(swept.connections, swept.term) == {};
    assert !DownVoted(swept);
    TwoKeysIffMoreThanOne(swept.connections);
    assert NonResponsive(swept);
    assert Update(recorded, later, assess, []) == Reselect(swept);
    var best := ConnectionWithMostKnowledge(swept.connections, Some(1));
    assert swept.connections[2].id == 2;
    assert best.Some?;
  }

  /** With the default configuration a sole leader is kept, however badly it is rated. */
  lemma SoleLeaderIsRetainedByDefault(now: Instant, later: Instant, assess: Assessor)
    ensures var s := CreateConnection(NewRoom(DefaultConfig()), now);
      var r := OnPing(s, 1, 0, Connected, 42, later, assess, []);
      r.leader == Some(1) && r.term == 0
  {
  }

  /**
   * When the configuration allows removing a sole leader, a badly rated sole
   * leader is dropped: the room becomes leaderless in a new term.
   */
  lemma SoleLeaderIsDroppedWhenAllowed(now: Instant, later: Instant, assess: Assessor)
    requires assess(Quality(5.0, now, [later], InsufficientData), later) == RecommendDisconnect
    ensures var config := DefaultConfig().(allowedToRemoveSingleLeader := true);
      var s := CreateConnection(NewRoom(config), now);
      var r := OnPing(s, 1, 0, Connected, 42, later, assess, []);
      r.leader == None && r.term == 1 && r.connections.Keys == {1}
  {
    var config := DefaultConfig().(allowedToRemoveSingleLeader := true);
    var s := CreateConnection(NewRoom(config), now);
    var recorded := RecordPing(s, 1, 0, Connected, 42, later);
    assert recorded.connections[1].quality == Quality(5.0, now, [later], InsufficientData) by {
      assert [] + [later] == [later];
    }
    var swept := Sweep(recorded, later, assess, []);
    assert swept.config.allowedToRemoveSingleLeader;
    assert swept.connections.Keys == {1};
    assert DownVoters(swept.connections, swept.term) == {};
    assert NonResponsive(swept);
  }

  // ---------------------------------------------------------------------------
  // Two consequences of the code that no test exercises

  /**
   * A sole leader is protected only from the non-responsive check. Under the
   * default configuration, a sole leader that reports on the current term
   * that it lost the leader (itself) is a strict majority of one, so the
   * down-vote drops it: the room becomes leaderless in term 1, whatever the
   * connection's rating.
   */
  lemma SoleLeaderCanBeDownVotedByDefault(now: Instant, later: Instant, knowledge: Knowledge, assess: Assessor)
    ensures var s := CreateConnection(NewRoom(DefaultConfig()), now);
      var r := OnPing(s, 1, 0, ConnectionToLeader.Disconnected, knowledge, later, assess, []);
      r.leader == None && r.term == 1 && r.connections.Keys == {1}
  {
    var s := CreateConnection(NewRoom(DefaultConfig()), now);
    var recorded := RecordPing(s, 1, 0, ConnectionToLeader.Disconnected, knowledge, later);
    var swept := Sweep(recorded, later, assess, []);
    assert swept.connections.Keys == {1};
    assert DownVoters(swept.connections, swept.term) == {1};
    assert DownVoted(swept);
  }

  /**
   * When bad connections are destroyed one after the other, the hand-off
   * ignores which of them are still queued: destroying leader `x` and then
   * `y`, where `y` is the most knowledgeable of the others, first hands
   * leadership to `y` and then on to `z`, spending two terms.
   */
  lemma DestructionCanHandOverToQueuedConnection(
    s: RoomState, x: ConnectionIndex, y: ConnectionIndex, z: ConnectionIndex, a: Connection, b: Connection, c: Connection)
    requires x != y && y != z && x != z
    requires s.leader == Some(x) && s.connections == map[x := a, y := b, z := c]
    requires a.id == x && b.id == y && c.id == z && b.knowledge > c.knowledge
    ensures DestroyAll(s, [x]).leader == Some(y)
    ensures var r := DestroyAll(s, [x, y]);
      r.leader == Some(z) && r.term == s.term + 2 && r.connections == map[z := c]
  {
    DestroyInTurn(s, x, y);
    HandOverFromThree(s, x, y, z, a, b, c);
    HandOverFromTwo(DestroyConnection(s, x), y, z, b, c);
  }

  lemma HandOverFromThree(
    s: RoomState, x: ConnectionIndex, y: ConnectionIndex, z: ConnectionIndex, a: Connection, b: Connection, c: Connection)
    requires x != y && y != z && x != z
    requires s.leader == Some(x) && s.connections == map[x := a, y := b, z := c]
    requires a.id == x && b.id == y && c.id == z && b.knowledge > c.knowledge
    ensures DestroyConnection(s, x) == s.(leader := Some(y), term := s.term + 1, connections := map[y := b, z := c])
  {
    assert s.connections - {x} == map[y := b, z := c];
    HandOver(s, x, y);
  }

  lemma HandOverFromTwo(s: RoomState, y: ConnectionIndex, z: ConnectionIndex, b: Connection, c: Connection)
    requires y != z && s.leader == Some(y) && s.connections == map[y := b, z := c] && b.id == y && c.id == z
    ensures DestroyConnection(s, y) == s.(leader := Some(z), term := s.term + 1, connections := map[z := c])
  {
    assert s.connections - {y} == map[z := c];
    HandOver(s, y, z);
  }

  /** The destruction loop over two ids is two removals in a row. */
  lemma DestroyInTurn(s: RoomState, x: ConnectionIndex, y: ConnectionIndex)
    ensures DestroyAll(s, [x]) == DestroyConnection(s, x)
    ensures DestroyAll(s, [x, y]) == DestroyConnection(DestroyConnection(s, x), y)
  {
    assert [x][..0] == [];
    assert [x, y][..1] == [x];
  }

  /** Destroying the leader hands leadership to the candidate strictly more knowledgeable than every other. */
  lemma HandOver(s: RoomState, outgoing: ConnectionIndex, successor: ConnectionIndex)
    requires s.leader == Some(outgoing) && KeysAreIds(s.connections)
    requires successor in s.connections && successor != outgoing
    requires forall k :: k in s.connections && k != outgoing && k != successor ==>
      s.connections[k].knowledge < s.connections[successor].knowledge
    ensures var r := DestroyConnection(s, outgoing);
      r.leader == Some(successor) && r.term == s.term + 1 && r.connections == s.connections - {outgoing} &&
      r.id == s.id && r.config == s.config && r.latestPing == s.latestPing
  {
    StrictlyBestIsChosen(s.connections, Some(outgoing), successor);
  }

  /** A candidate strictly more knowledgeable than every other candidate is the one reselection picks. */
  lemma StrictlyBestIsChosen(connections: map<ConnectionIndex, Connection>, exclude: Option<ConnectionIndex>, best: ConnectionIndex)
    requires KeysAreIds(connections) && best in connections && Some(best) != exclude
    requires forall k :: k in connections && Some(k) != exclude && k != best ==>
      connections[k].knowledge < connections[best].knowledge
    ensures ConnectionWithMostKnowledge(connections, exclude) == Some(best)
  {
    assert connections[best].id == best;
  }

  /** A room that never received a ping is abandoned from the start. */
  lemma NewRoomIsAbandoned(config: RoomConfig, now: Instant)
    ensures IsAbandoned(NewRoom(config).latestPing, now)
  {
  }
}
