// A concrete run in which the crashed process had delivered a payload that the
// survivors' plan skips: on a ring of two, the issuer delivers its own train on
// its first return and crashes before the other node sees the closed train.

module LostDelivery {
  import opened Types
  import opened Kernel
  import opened LocalOrder
  import opened Network
  import opened Recovery
  import opened TokenRing
  import opened ViewInstall
  import opened AfterInstall

  const PAIR: Ring := Shape(2, 1)
  const MSG: Payload := Payload(1, 0, [7])
  const FIRST: Key := ClockKey(1, 0)

  /** Node 1 once it has put its payload on the first train. */
  ghost predicate Loader(s: Node) {
    && Wf(s) && s.ring == PAIR && s.id == 1 && s.seen == [1, 0] && s.done == {} && s.parked == map[] && s.cache == map[]
    && s.issueClock == 1
  }

  lemma LoadsAndParksNothing(s: Node, t: Train)
    requires s == Broadcast(Fresh(PAIR, 1, UniformTotalOrder), [7]) && t == NewTrain(Fresh(PAIR, 0, UniformTotalOrder))
    ensures var r := Step(s, TrainReceived(t));
      Loader(r.node) && Loaded(s, t) == Train(0, 1, [MSG], {0, 1})
  {
    var s1 := AfterLoad(s, t);
    assert s.pending == [MSG];
    assert t.payloads + s.pending == [MSG];
    assert s1.seen == [1, 0];
    assert Drain(s1) == Effect(s1, []);
  }

  lemma IssuerDelivers(s: Node, t: Train)
    requires s == AfterIssue(Fresh(PAIR, 0, UniformTotalOrder)) && t == Train(0, 1, [MSG], {0, 1})
    ensures FIRST in Step(s, TrainReceived(t)).node.done
  {
    var s1 := s.(seen := Bump(s.seen, 0, 1));
    assert t.Key() == FIRST;
    assert s1.seen == [1, 0];
    assert Members(PAIR, {}) == {0, 1};
    assert s1.seen[0] == 1 && s1.seen[1] == 0;
    assert Deliverable(s1, FIRST);
  }

  lemma SurvivorKnowsNothing(s: System)
    requires Shaped(s) && s.ring == PAIR && Loader(s.nodes[1])
    ensures FIRST in PlanOf(s, 0, [1]).actions && PlanOf(s, 0, [1]).actions[FIRST] == Skip
  {
    var reports := Reports(s, 0, [1]);
    var r := ReportOf(s.nodes[1]);
    assert reports == [r];
    assert reports[..0] == [];
    assert r.issued[0] == 0 && r.seen[0] == 1 && r.have == map[];
    assert r in reports;
    assert Bound(reports, 0) == 1;
    assert PlanOf(s, 0, [1]).boundary[0] == 1;
    WithinKeys(PlanOf(s, 0, [1]).boundary, FIRST);
    assert Union(reports, FIRST) == [];
  }

  const CLOSED: Train := Train(0, 1, [MSG], {0, 1})

  lemma ClosedHasContent(rs: LiveRing)
    requires rs.sys.ring == PAIR && CLOSED in rs.sys.sent
    ensures Contents(rs.sys, FirstEpoch(PAIR))(FIRST) == [MSG]
  {
    assert Members(PAIR, {}) == {0, 1};
    ContentFromReachable(PAIR, rs.mode, rs.sys, CLOSED);
  }

  ghost predicate Pair(rs: RingState) {
    RingShaped(rs) && rs.sys.ring == PAIR && rs.sys.up == {0, 1} && |rs.at| == 1 && rs.mode == UniformTotalOrder
  }

  ghost predicate Queued(rs: RingState) {
    && Pair(rs)
    && rs.sys.nodes[0] == AfterIssue(Fresh(PAIR, 0, UniformTotalOrder))
    && rs.sys.nodes[1] == Broadcast(Fresh(PAIR, 1, UniformTotalOrder), [7])
    && rs.at[0] == Token(NewTrain(Fresh(PAIR, 0, UniformTotalOrder)), 0, 1)
  }

  ghost predicate Returning(rs: RingState) {
    && Pair(rs)
    && rs.sys.nodes[0] == AfterIssue(Fresh(PAIR, 0, UniformTotalOrder))
    && Loader(rs.sys.nodes[1])
    && rs.at[0] == Token(CLOSED, 1, 0)
  }

  ghost predicate DeliveredAlone(rs: RingState) {
    Pair(rs) && Loader(rs.sys.nodes[1]) && FIRST in rs.sys.nodes[0].done && CLOSED in rs.sys.sent
  }

  lemma QueueStep() returns (rs: LiveRing)
    ensures Queued(rs) && RingRuns(RingStart(PAIR, UniformTotalOrder), [Cast(1, [7])], rs)
  {
    var r0 := RingStart(PAIR, UniformTotalOrder);
    StartInv(PAIR, UniformTotalOrder);
    assert Members(PAIR, {}) == {0, 1};
    QuietInv(r0, Cast(1, [7]));
    rs := RingNext(r0, Cast(1, [7]));
    OneEvent(r0, Cast(1, [7]));
  }

  lemma LoadStep(r: LiveRing) returns (rs: LiveRing)
    requires Queued(r)
    ensures RingRuns(r, [Move(0)], rs) && Returning(rs)
  {
    assert Receiver(r, 0) == 1;
    MoveInv(r, 0);
    MoveShape(r, 0);
    LoadsAndParksNothing(r.sys.nodes[1], r.at[0].train);
    rs := RingNext(r, Move(0));
    OneEvent(r, Move(0));
  }

  lemma DeliverStep(r: LiveRing) returns (rs: LiveRing)
    requires Returning(r)
    ensures RingRuns(r, [Move(0)], rs) && DeliveredAlone(rs)
  {
    assert Receiver(r, 0) == 0;
    MoveInv(r, 0);
    MoveShape(r, 0);
    IssuerDelivers(r.sys.nodes[0], r.at[0].train);
    rs := RingNext(r, Move(0));
    OneEvent(r, Move(0));
  }

  /** One broadcast at node 1, then two hops of the train. */
  lemma ThreeSteps() returns (rs: LiveRing)
    ensures RingRuns(RingStart(PAIR, UniformTotalOrder), [Cast(1, [7]), Move(0), Move(0)], rs)
    ensures DeliveredAlone(rs)
  {
    var r1 := QueueStep();
    var r2 := LoadStep(r1);
    rs := DeliverStep(r2);
    ThreeEvents(RingStart(PAIR, UniformTotalOrder), Cast(1, [7]), r1, Move(0), r2, Move(0), rs);
  }

  lemma ListOfThree(a: RingEvent, b: RingEvent, c: RingEvent)
    ensures [a] + ([b] + [c]) == [a, b, c]
  {
  }

  lemma ThreeEvents(r0: RingState, a: RingEvent, r1: RingState, b: RingEvent, r2: RingState, c: RingEvent,
                    rs: RingState)
    requires RingRuns(r0, [a], r1) && RingRuns(r1, [b], r2) && RingRuns(r2, [c], rs)
    ensures RingRuns(r0, [a, b, c], rs)
  {
    JoinRuns(r1, [b], r2, [c], rs);
    JoinRuns(r0, [a], r1, [b] + [c], rs);
    ListOfThree(a, b, c);
  }

  lemma OneSurvivor()
    ensures Survivors(PAIR, 0, [1])
  {
  }

  lemma PlanDropsIt(rs: LiveRing)
    requires DeliveredAlone(rs) && Survivors(PAIR, 0, [1])
    ensures !KeepsVictims(rs, 0, [1], FIRST)
  {
    ClosedHasContent(rs);
    SurvivorKnowsNothing(rs.sys);
  }

  /** Delivery need not be uniform with respect to the crashed process. */
  lemma VictimMayBeAhead() returns (rs: LiveRing)
    ensures RingRuns(RingStart(PAIR, UniformTotalOrder), [Cast(1, [7]), Move(0), Move(0)], rs)
    ensures rs.sys.ring == PAIR && Survivors(PAIR, 0, [1])
    ensures !IsPrefix(rs.sys.log[0], AgreedLog(rs.sys, 0, [1]))
  {
    rs := ThreeSteps();
    OneSurvivor();
    PlanDropsIt(rs);
    DroppedBreaks(rs, 0, [1], FIRST);
  }
}
