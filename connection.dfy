/**
 * One participant of a room: its identity, its quality estimator state, the
 * knowledge score and term it last reported, its link-to-leader report and its
 * lifecycle state.
 *
 * The room owns every connection exclusively (nothing else holds a reference),
 * so a connection is a value here and an in-place update of one of its fields
 * is a function that returns the updated record.
 */
module Connections {
  import opened Types

  /** Outcome of the ping-rate quality classifier. */
  datatype QualityAssessment = InsufficientData | RecommendDisconnect | Acceptable | Good

  /**
   * What the room hands to and keeps from the quality estimator: the rate
   * threshold it was created with (an f32, carried but never interpreted), its
   * creation instant, the instants of the pings forwarded to it, and its current
   * assessment.
   */
  datatype Quality = Quality(
    threshold: real,
    createdAt: Instant,
    pingTimes: seq<Instant>,
    assessment: QualityAssessment)

  /**
   * The classifier's re-evaluation at an instant. How it computes the
   * assessment from the estimator state is outside this model, so every
   * operation that refreshes quality takes it as a parameter.
   */
  type Assessor = (Quality, Instant) -> QualityAssessment

  datatype ConnectionState = Online | Disconnected

  datatype Connection = Connection(
    id: ConnectionIndex,
    quality: Quality,
    knowledge: Knowledge,
    state: ConnectionState,
    lastReportedTerm: Term,
    hasConnectionHost: ConnectionToLeader)
  {
    /** `Connection::assessment`: the estimator's current assessment. */
    function Assessment(): (r: QualityAssessment)
      ensures r == quality.assessment
    {
      quality.assessment
    }

    /**
     * `Connection::on_ping`: the reported term, link status and knowledge
     * overwrite the previous ones and the ping instant goes to the estimator.
     * Identity, lifecycle state and the current assessment are untouched.
     */
    function OnPing(term: Term, link: ConnectionToLeader, newKnowledge: Knowledge, time: Instant): (r: Connection)
      ensures r.lastReportedTerm == term && r.hasConnectionHost == link && r.knowledge == newKnowledge
      ensures r.id == id && r.state == state && r.Assessment() == Assessment()
      ensures r.quality.pingTimes == quality.pingTimes + [time]
      ensures r.quality.threshold == quality.threshold && r.quality.createdAt == quality.createdAt
    {
      this.(
        lastReportedTerm := term,
        hasConnectionHost := link,
        quality := quality.(pingTimes := quality.pingTimes + [time]),
        knowledge := newKnowledge)
    }

    /**
     * `Connection::update`: the estimator re-evaluates itself at `time`; only
     * the assessment changes.
     */
    function Refresh(time: Instant, assess: Assessor): (r: Connection)
      ensures r.Assessment() == assess(quality, time)
      ensures r == this.(quality := r.quality)
      ensures r.quality == quality.(assessment := r.quality.assessment)
    {
      this.(quality := quality.(assessment := assess(quality, time)))
    }
  }

  /**
   * `Connection::new`: a fresh online connection at the given term, with zero
   * knowledge and an unknown link to the leader. A new estimator has not seen
   * enough pings to judge the connection.
   */
  function NewConnection(id: ConnectionIndex, term: Term, time: Instant, threshold: real): (r: Connection)
    ensures r.id == id && r.lastReportedTerm == term && r.knowledge == 0
    ensures r.state == Online && r.hasConnectionHost == Unknown
    ensures r.quality.threshold == threshold && r.quality.createdAt == time && r.quality.pingTimes == []
    ensures r.Assessment() == InsufficientData
  {
    Connection(id, Quality(threshold, time, [], InsufficientData), 0, Online, term, Unknown)
  }

  /**
   * Reports are last-write-wins: after two pings the record carries exactly
   * the second ping's term, link status and knowledge, whatever the first
   * reported, and the estimator has seen both instants in arrival order.
   */
  lemma OnPingLastWriteWins(
    c: Connection,
    term1: Term, link1: ConnectionToLeader, knowledge1: Knowledge, time1: Instant,
    term2: Term, link2: ConnectionToLeader, knowledge2: Knowledge, time2: Instant)
    ensures var r := c.OnPing(term1, link1, knowledge1, time1).OnPing(term2, link2, knowledge2, time2);
      r == c.OnPing(term2, link2, knowledge2, time2).(
        quality := c.quality.(pingTimes := c.quality.pingTimes + [time1, time2]))
  {
  }
}
