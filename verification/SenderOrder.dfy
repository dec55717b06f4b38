// Does a process's n-th broadcast reach everybody before its (n+1)-th?  With one
// issuer always; with two, the later payload may ride the smaller key.

module SenderOrder {
  import opened Types
  import opened Kernel
  import opened LocalOrder
  import opened Network
  import opened Conservation

  /** Payloads of one sender appear in the order they were broadcast. */
  predicate InSendOrder(log: seq<Payload>) {
    forall i, j :: 0 <= i < j < |log| && log[i].sender == log[j].sender ==> log[i].number < log[j].number
  }

  // ----- one issuer: a process loads onto ascending clocks -----

  /** Whoever loaded a payload onto a train has met that train's clock. */
  ghost predicate LoaderMet(s: System)
    requires Shaped(s)
  {
    forall t, x :: t in s.sent && x in t.payloads && x.sender != t.issuer && x.sender < s.ring.n ==>
      s.nodes[x.sender].seen[t.issuer] >= t.clock
  }

  /** Later clocks carry later payloads of the same sender. */
  ghost predicate LoadsAscend(sent: set<Train>) {
    forall t, u, x, y :: t in sent && u in sent && x in t.payloads && y in u.payloads && LoadedEarlier(t, x, u, y)
      ==> x.number < y.number
  }

  predicate LoadedEarlier(t: Train, x: Payload, u: Train, y: Payload) { x.sender == y.sender && t.clock < u.clock }

  /** Nothing of sender `p` rides at or above this clock yet. */
  ghost predicate AboveSender(sent: set<Train>, p: nat, clock: nat) {
    forall u, x :: u in sent && x in u.payloads && x.sender == p ==> u.clock < clock
  }

  lemma ShipAscends(s: System, s': System, p: nat, load: seq<Payload>, t: Train)
    requires Conserved(s) && Ships(s, s', p, load, t) && LoadsAscend(s.sent) && AboveSender(s.sent, p, t.clock)
    ensures LoadsAscend(s'.sent)
  {
    ShipCargo(s, s', p, load, t);
    forall a, b, x, y | a in s'.sent && b in s'.sent && x in a.payloads && y in b.payloads
      && LoadedEarlier(a, x, b, y)
      ensures x.number < y.number
    {
      if a in s.sent && b in s.sent {
      } else if a in s.sent {
        ShipPairAfter(s, p, load, t, a, x, y);
      } else if b in s.sent {
        ShipPairBefore(s, p, load, t, b, x, y);
      }
    }
  }

  /** A new train against an older one with a smaller clock. */
  lemma ShipPairAfter(s: System, p: nat, load: seq<Payload>, t: Train, a: Train, x: Payload, y: Payload)
    requires Shaped(s) && p < s.ring.n && LoadsAscend(s.sent) && t.payloads == load + s.nodes[p].pending
    requires load == [] || exists u :: u in s.sent && u.Key() == t.Key() && u.payloads == load
    requires a in s.sent && CargoOk(s, a) && x in a.payloads && y in t.payloads
    requires x.sender == y.sender && a.clock < t.clock
    requires forall z :: z in s.nodes[p].pending ==> z.number >= Shipped(s, p) && z.sender == p
    ensures x.number < y.number
  {
    if y in load {
      var u :| u in s.sent && u.Key() == t.Key() && u.payloads == load;
      assert LoadedEarlier(a, x, u, y);
    } else {
      assert y in s.nodes[p].pending;
    }
  }

  /** A new train against an older one with a larger clock. */
  lemma ShipPairBefore(s: System, p: nat, load: seq<Payload>, t: Train, b: Train, x: Payload, y: Payload)
    requires Shaped(s) && p < s.ring.n && LoadsAscend(s.sent) && t.payloads == load + s.nodes[p].pending
    requires load == [] || exists u :: u in s.sent && u.Key() == t.Key() && u.payloads == load
    requires b in s.sent && x in t.payloads && y in b.payloads && x.sender == y.sender && t.clock < b.clock
    requires AboveSender(s.sent, p, t.clock)
    requires forall z :: z in s.nodes[p].pending ==> z.sender == p
    ensures x.number < y.number
  {
    assert x in load;
    var u :| u in s.sent && u.Key() == t.Key() && u.payloads == load;
    assert LoadedEarlier(u, x, b, y);
  }

  lemma ShipLoaderMet(s: System, s': System, p: nat, load: seq<Payload>, t: Train)
    requires Conserved(s) && Ships(s, s', p, load, t) && LoaderMet(s)
    requires StepMonotone(s.nodes[p], s'.nodes[p]) && (t.issuer == p || s'.nodes[p].seen[t.issuer] >= t.clock)
    ensures LoaderMet(s')
  {
    ShipCargo(s, s', p, load, t);
    forall a, x | a in s'.sent && x in a.payloads && x.sender != a.issuer && x.sender < s.ring.n
      ensures s'.nodes[x.sender].seen[a.issuer] >= a.clock
    {
      if a in s.sent {
        assert s.nodes[x.sender].seen[a.issuer] >= a.clock;
      } else if x in load {
        var u :| u in s.sent && u.Key() == t.Key() && u.payloads == load;
        assert s.nodes[x.sender].seen[u.issuer] >= u.clock;
      } else {
        assert x in s.nodes[p].pending;
      }
    }
  }

  /** Everything the induction over a run carries. */
  ghost predicate Ascending(s: System) {
    && Conserved(s) && NetInv(s, FirstEpoch(s.ring)) && Positive(s)
    && LoaderMet(s) && LoadsAscend(s.sent)
  }

  lemma OneIssuer(s: System, u: Train)
    requires Ascending(s) && s.ring.k == 1 && u in s.sent
    ensures u.issuer == 0 && u.clock < s.nodes[0].issueClock
  {
    assert Live(FirstEpoch(s.ring), u);
    assert Sane(s, FirstEpoch(s.ring), u);
  }

  /** The issuer's next train is above everything. */
  lemma IssueAbove(s: System)
    requires Ascending(s) && s.ring.k == 1
    ensures AboveSender(s.sent, 0, s.nodes[0].issueClock)
  {
    forall u, x | u in s.sent && x in u.payloads && x.sender == 0 ensures u.clock < s.nodes[0].issueClock {
      OneIssuer(s, u);
    }
  }

  /** A train met for the first time is above everything the receiver has loaded. */
  lemma FirstSightAbove(s: System, p: nat, t: Train)
    requires Ascending(s) && s.ring.k == 1 && p < s.ring.n && p != 0 && t in s.sent && s.nodes[p].seen[0] < t.clock
    ensures AboveSender(s.sent, p, t.clock)
  {
    forall u, x | u in s.sent && x in u.payloads && x.sender == p ensures u.clock < t.clock {
      OneIssuer(s, u);
      assert s.nodes[x.sender].seen[u.issuer] >= u.clock;
    }
  }

  lemma ReceiveAscends(s: System, p: nat, t: Train)
    requires Ascending(s) && s.ring.k == 1 && Enabled(s, Local(p, TrainReceived(t)))
    ensures var s' := Next(s, Local(p, TrainReceived(t))); Shaped(s') && LoaderMet(s') && LoadsAscend(s'.sent)
  {
    var s', n := Next(s, Local(p, TrainReceived(t))), s.nodes[p];
    TrainTaken(s, p, t);
    StepNeverBack(n, TrainReceived(t));
    OneIssuer(s, t);
    if Fenced(n, t) || t.issuer == p {
      OwnAscends(s, s', p, t);
    } else {
      ForeignAscends(s, s', p, t);
    }
  }

  lemma SameWire(s: System, s': System, p: nat)
    requires Ascending(s) && Shaped(s') && s'.ring == s.ring && p < s.ring.n && s'.sent == s.sent
    requires StepMonotone(s.nodes[p], s'.nodes[p])
    requires forall q :: 0 <= q < s.ring.n && q != p ==> s'.nodes[q] == s.nodes[q]
    ensures LoaderMet(s') && LoadsAscend(s'.sent)
  {
    forall t, x | t in s'.sent && x in t.payloads && x.sender != t.issuer && x.sender < s.ring.n
      ensures s'.nodes[x.sender].seen[t.issuer] >= t.clock
    {
      assert s.nodes[x.sender].seen[t.issuer] >= t.clock;
    }
  }

  lemma OwnAscends(s: System, s': System, p: nat, t: Train)
    requires Ascending(s) && s.ring.k == 1 && p < s.ring.n && t in s.sent && t.issuer == 0
    requires Fenced(s.nodes[p], t) || t.issuer == p
    requires Takes(s, s', p, HandleTrain(s.nodes[p], t)) && StepMonotone(s.nodes[p], s'.nodes[p])
    ensures LoaderMet(s') && LoadsAscend(s'.sent)
  {
    var n, r := s.nodes[p], HandleTrain(s.nodes[p], t);
    OwnTrainQueue(n, t);
    if Fenced(n, t) || t.Key() !in n.done {
      KeepsIdles(s, s', p, t, r, {});
      SameWire(s, s', p);
    } else {
      EmptiesShips(s, s', p, t, [], NewTrain(n), r);
      IssueAbove(s);
      ShipAscends(s, s', p, [], NewTrain(n));
      ShipLoaderMet(s, s', p, [], NewTrain(n));
    }
  }

  lemma ForeignAscends(s: System, s': System, p: nat, t: Train)
    requires Ascending(s) && s.ring.k == 1 && p < s.ring.n && t in s.sent && t.issuer == 0
    requires !Fenced(s.nodes[p], t) && t.issuer != p
    requires Takes(s, s', p, HandleTrain(s.nodes[p], t)) && StepMonotone(s.nodes[p], s'.nodes[p])
    ensures LoaderMet(s') && LoadsAscend(s'.sent)
  {
    var n, r := s.nodes[p], HandleTrain(s.nodes[p], t);
    ForeignTrainQueue(n, t);
    if IsReplay(n, t) {
      KeepsIdles(s, s', p, t, r, Ids(t.payloads));
      SameWire(s, s', p);
    } else {
      EmptiesShips(s, s', p, t, t.payloads, Loaded(n, t), r);
      FirstSightAbove(s, p, t);
      ShipAscends(s, s', p, t.payloads, Loaded(n, t));
      TrainShape(n, t);
      ShipLoaderMet(s, s', p, t.payloads, Loaded(n, t));
    }
  }

  lemma NextAscends(s: System, ev: Event)
    requires Ascending(s) && s.ring.k == 1 && Enabled(s, ev)
    ensures Ascending(Next(s, ev)) && Next(s, ev).ring == s.ring
  {
    var s' := Next(s, ev);
    StepConserves(s, ev);
    NetStep(s, ev, FirstEpoch(s.ring));
    NextPositive(s, ev);
    match ev
    case Local(p, input) =>
      if input.TrainReceived? {
        ReceiveAscends(s, p, input.train);
      } else {
        StepNeverBack(s.nodes[p], input);
        assert s'.sent == s.sent;
        SameWire(s, s', p);
      }
    case Issue(p) => IssueAscends(s, p);
    case Crash(p) => SameWire(s, s', p);
  }

  lemma IssueAscends(s: System, p: nat)
    requires Ascending(s) && s.ring.k == 1 && Enabled(s, Issue(p)) && Shaped(Next(s, Issue(p)))
    ensures var s' := Next(s, Issue(p)); LoaderMet(s') && LoadsAscend(s'.sent)
  {
    var s', n := Next(s, Issue(p)), s.nodes[p];
    assert [] + n.pending == n.pending;
    IssueAbove(s);
    ShipAscends(s, s', p, [], NewTrain(n));
    ShipLoaderMet(s, s', p, [], NewTrain(n));
  }

  lemma {:induction false} RunAscends(s: System, evs: seq<Event>, s': System)
    requires Ascending(s) && s.ring.k == 1 && Runs(s, evs, s')
    ensures Ascending(s') && s'.ring == s.ring
    decreases |evs|
  {
    if evs != [] {
      NextAscends(s, evs[0]);
      RunAscends(Next(s, evs[0]), evs[1..], s');
    }
  }

  // ----- so logs are in send order -----

  /** Contents of smaller keys hold smaller numbers of the same sender. */
  ghost predicate KeysAscend(d: set<Key>, raw: Key -> seq<Payload>) {
    && (forall k :: k in d ==> DistinctIds(raw(k)))
    && (forall j, k, x, y :: j in d && k in d && Before(j, k) && x in raw(j) && y in raw(k) && x.sender == y.sender
          ==> x.number < y.number)
  }

  lemma SortedInSendOrder(ps: seq<Payload>)
    requires DistinctIds(ps)
    ensures InSendOrder(SortPayloads(ps))
  {
    SortDistinct(ps);
    SortIsSorted(ps);
    AscendingIds(SortPayloads(ps));
  }

  lemma AscendingIds(r: seq<Payload>)
    requires Sorted(r) && DistinctIds(r)
    ensures InSendOrder(r)
  {
    forall i, j | 0 <= i < j < |r| && r[i].sender == r[j].sender ensures r[i].number < r[j].number {
      assert r[i].Id() != r[j].Id() && !IdBefore(r[j].Id(), r[i].Id());
    }
  }

  lemma JoinInSendOrder(a: seq<Payload>, b: seq<Payload>)
    requires InSendOrder(a) && InSendOrder(b)
    requires forall x, y :: x in a && y in b && x.sender == y.sender ==> x.number < y.number
    ensures InSendOrder(a + b)
  {
    var c := a + b;
    forall i, j | 0 <= i < j < |c| && c[i].sender == c[j].sender ensures c[i].number < c[j].number {
      if i < |a| <= j {
        assert c[i] in a && c[j] in b;
      } else if j < |a| {
        assert c[i] == a[i] && c[j] == a[j];
      } else {
        assert c[i] == b[i - |a|] && c[j] == b[j - |a|];
      }
    }
  }

  lemma {:induction false} LogInSendOrder(d: set<Key>, raw: Key -> seq<Payload>)
    requires KeysAscend(d, raw)
    ensures InSendOrder(LogOf(d, raw))
    ensures forall x :: x in LogOf(d, raw) ==> exists k :: k in d && x in raw(k)
  {
    if d != {} {
      var m := Max(d);
      var a, b := LogOf(d - {m}, raw), SortPayloads(raw(m));
      LogInSendOrder(d - {m}, raw);
      SortedInSendOrder(raw(m));
      forall x | x in a + b ensures exists k :: k in d && x in raw(k) {
        SortMembers(raw(m), x);
        if x in a { var k :| k in d - {m} && x in raw(k); assert k in d; }
      }
      forall x, y | x in a && y in b && x.sender == y.sender ensures x.number < y.number {
        var k :| k in d - {m} && x in raw(k);
        SortMembers(raw(m), y);
        assert Before(k, m);
      }
      JoinInSendOrder(a, b);
    }
  }

  lemma ContentsAscend(s: System, d: set<Key>)
    requires Ascending(s) && forall k :: k in d ==> k.issuer == 0
    ensures KeysAscend(d, Contents(s, FirstEpoch(s.ring)))
  {
    var raw := Contents(s, FirstEpoch(s.ring));
    ContentsDisjoint(s, FirstEpoch(s.ring), d);
    forall j, k, x, y | j in d && k in d && Before(j, k) && x in raw(j) && y in raw(k) && x.sender == y.sender
      ensures x.number < y.number
    {
      var t :| t in s.sent && t.Key() == j && t.payloads == raw(j);
      var u :| u in s.sent && u.Key() == k && u.payloads == raw(k);
      assert LoadedEarlier(t, x, u, y);
    }
  }

  /** With one issuer, every process delivers every sender's payloads in the order they were broadcast. */
  lemma SingleIssuerKeepsOrder(ring: Ring, mode: Mode, evs: seq<Event>, s: System, p: nat)
    requires ring.k == 1 && Runs(Start(ring, mode), evs, s) && p < ring.n
    ensures p < |s.log| && InSendOrder(s.log[p])
  {
    StartAscends(ring, mode);
    RunAscends(Start(ring, mode), evs, s);
    HeldIsContent(ring, mode, evs, s, p);
    OneIssuersKeys(ring, mode, evs, s, p);
    ContentsAscend(s, s.nodes[p].done);
    LogInSendOrder(s.nodes[p].done, Contents(s, FirstEpoch(ring)));
  }

  lemma StartAscends(ring: Ring, mode: Mode)
    ensures Ascending(Start(ring, mode)) && Start(ring, mode).ring == ring
  {
    StartConserved(ring, mode);
    StartIsViewStart(ring, mode);
  }

  lemma OneIssuersKeys(ring: Ring, mode: Mode, evs: seq<Event>, s: System, p: nat)
    requires ring.k == 1 && Runs(Start(ring, mode), evs, s) && p < ring.n
    ensures p < |s.nodes| && forall k :: k in s.nodes[p].done ==> k.issuer == 0
  {
    RunFacts(ring, mode, evs, s);
    assert NodeOk(s, FirstEpoch(ring), Contents(s, FirstEpoch(ring)), [], p);
    SegmentIsInitial(s.nodes[p], FirstEpoch(ring));
  }
}

// With two issuers: a process issues its first payload on its own train, then
// loads its second onto the train of the lower issuer in the same round.

module LateFirst {
  import opened Types
  import opened Kernel
  import opened LocalOrder
  import opened Network
  import opened TokenRing
  import opened RingLag
  import opened SenderOrder

  /** Reached from the start, everybody up. */
  ghost predicate Going(ring: Ring, mode: Mode, s: System) {
    && Reachable(ring, mode, s) && s.ring == ring && Shaped(s) && s.up == Members(ring, {})
    && forall p :: 0 <= p < ring.n ==> s.nodes[p].mode == mode
  }

  lemma GoesOn(ring: Ring, mode: Mode, s: System, ev: Event)
    requires Going(ring, mode, s) && Enabled(s, ev) && !ev.Crash?
    ensures Going(ring, mode, Next(s, ev)) && s.sent <= Next(s, ev).sent
    ensures forall q :: 0 <= q < ring.n && q != ev.p ==> Next(s, ev).nodes[q] == s.nodes[q]
  {
    ReachableNext(ring, mode, s, ev);
    if ev.Local? { TrainSentShape(s, ev.p, ev.input); }
  }

  // ----- collecting acks -----

  lemma Visit(ring: Ring, mode: Mode, s: System, p: nat, t: Train) returns (s': System)
    requires Going(ring, mode, s) && t in s.sent && p < ring.n && p != t.issuer && s.nodes[p].seen[t.issuer] < t.clock
    ensures Going(ring, mode, s') && s.sent <= s'.sent && Loaded(s.nodes[p], t) in s'.sent
    ensures forall q :: 0 <= q < ring.n && q != p ==> s'.nodes[q] == s.nodes[q]
    ensures s'.nodes[p].seen == Bump(s.nodes[p].seen, t.issuer, t.clock)
  {
    NodeFromReachable(ring, mode, s, p);
    FirstSightLoads(s.nodes[p], t);
    GoesOn(ring, mode, s, Local(p, TrainReceived(t)));
    s' := Next(s, Local(p, TrainReceived(t)));
  }

  lemma FirstSightLoads(n: Node, t: Train)
    requires Wf(n) && n.floor == Zeros(n.ring.n) && t.issuer < n.ring.n
    requires t.issuer != n.id && n.seen[t.issuer] < t.clock
    ensures var r := Step(n, TrainReceived(t));
      Sends(r.out) == {Loaded(n, t)} && r.node.seen == Bump(n.seen, t.issuer, t.clock)
  {
    TrainShape(n, t);
  }

  /** What a train still lacks. */
  function Lacking(ring: Ring, t: Train): set<nat> { Members(ring, {}) - t.acks }

  ghost predicate Unmet(s: System, t: Train, who: set<nat>)
    requires Shaped(s) && t.issuer < s.ring.n
  {
    forall p :: p in who && p < s.ring.n ==> s.nodes[p].seen[t.issuer] < t.clock
  }

  /** `t'` is `t` with everybody's ack and everything they had queued. */
  ghost predicate Collected(s: System, t: Train, s': System, t': Train)
    requires Shaped(s) && Shaped(s') && s'.ring == s.ring && t.issuer < s.ring.n
  {
    && t' in s'.sent && t'.Key() == t.Key() && t'.acks == Members(s.ring, {}) && s.sent <= s'.sent
    && (forall x :: x in t.payloads ==> x in t'.payloads)
    && (forall p, x :: p in Lacking(s.ring, t) && p < s.ring.n && x in s.nodes[p].pending ==> x in t'.payloads)
    && (forall p :: 0 <= p < s.ring.n && p in t.acks ==> s'.nodes[p] == s.nodes[p])
    && (forall p, r :: 0 <= p < s.ring.n && 0 <= r < s.ring.n && r != t.issuer ==>
          s'.nodes[p].seen[r] == s.nodes[p].seen[r])
    && (forall p :: p in Lacking(s.ring, t) && p < s.ring.n ==> s'.nodes[p].seen[t.issuer] == t.clock)
  }

  lemma {:induction false} Collect(ring: Ring, mode: Mode, s: System, t: Train) returns (s': System, t': Train)
    requires Going(ring, mode, s) && t in s.sent && t.issuer in t.acks && t.acks <= Members(ring, {})
    requires Unmet(s, t, Lacking(ring, t))
    ensures Going(ring, mode, s') && Collected(s, t, s', t')
    decreases |Lacking(ring, t)|
  {
    var who := Lacking(ring, t);
    if who == {} {
      s', t' := s, t;
    } else {
      var p: nat :| p in who;
      var s1 := Visit(ring, mode, s, p, t);
      var t1 := Loaded(s.nodes[p], t);
      assert Lacking(ring, t1) == who - {p};
      s', t' := Collect(ring, mode, s1, t1);
      CollectedFirst(s, p, t, s1, t1, s', t');
    }
  }

  lemma CollectedFirst(s: System, p: nat, t: Train, s1: System, t1: Train, s': System, t': Train)
    requires Shaped(s) && Shaped(s1) && Shaped(s') && s1.ring == s.ring && s'.ring == s.ring && p < s.ring.n
    requires t.issuer < s.ring.n && p in Lacking(s.ring, t) && t1 == Loaded(s.nodes[p], t) && s.nodes[p].id == p
    requires Lacking(s.ring, t1) == Lacking(s.ring, t) - {p} && s.sent <= s1.sent
    requires forall q :: 0 <= q < s.ring.n && q != p ==> s1.nodes[q] == s.nodes[q]
    requires s1.nodes[p].seen == Bump(s.nodes[p].seen, t.issuer, t.clock) && s.nodes[p].seen[t.issuer] < t.clock
    requires Collected(s1, t1, s', t')
    ensures Collected(s, t, s', t')
  {
    forall q, x | q in Lacking(s.ring, t) && q < s.ring.n && x in s.nodes[q].pending ensures x in t'.payloads {
      if q == p {
        assert x in t1.payloads;
      } else {
        assert q in Lacking(s.ring, t1) && x in s1.nodes[q].pending;
      }
    }
    forall x | x in t.payloads ensures x in t'.payloads { assert x in t1.payloads; }
  }

  // ----- a closed train reaches a process that has met it -----

  lemma ReceiveClosed(ring: Ring, mode: Mode, s: System, p: nat, t: Train) returns (s': System)
    requires Going(ring, mode, s) && mode != CausalOrder && t in s.sent && p < ring.n && t.clock >= 1
    requires t.acks == Members(ring, {}) && (t.issuer == p || s.nodes[p].seen[t.issuer] >= t.clock)
    ensures Going(ring, mode, s') && s.sent <= s'.sent && Handled(s'.nodes[p], t.Key())
    ensures s'.nodes[p].seen == Bump(s.nodes[p].seen, t.issuer, t.clock)
    ensures forall k :: Handled(s.nodes[p], k) ==> Handled(s'.nodes[p], k)
  {
    NodeFromReachable(ring, mode, s, p);
    ClosedStepHandles(s.nodes[p], t);
    ClosedStepKeeps(s.nodes[p], t);
    GoesOn(ring, mode, s, Local(p, TrainReceived(t)));
    s' := Next(s, Local(p, TrainReceived(t)));
  }

  lemma ClosedStepKeeps(n: Node, t: Train)
    requires Wf(n) && n.floor == Zeros(n.ring.n) && t.issuer < n.ring.n && t.clock >= 1
    requires t.issuer == n.id || n.seen[t.issuer] >= t.clock
    ensures var n' := Step(n, TrainReceived(t)).node;
      n'.seen == Bump(n.seen, t.issuer, t.clock) && forall k :: Handled(n, k) ==> Handled(n', k)
  {
    TrainShape(n, t);
    forall k | Handled(n, k) ensures Handled(Step(n, TrainReceived(t)).node, k) { StepKeepsHandled(n, t, k); }
  }

  lemma ClosedStepHandles(n: Node, t: Train)
    requires Wf(n) && !n.frozen && n.crashed == {} && n.mode != CausalOrder && n.floor == Zeros(n.ring.n)
    requires t.issuer < n.ring.n && t.clock >= 1 && t.acks == Members(n.ring, {})
    requires t.issuer == n.id || n.seen[t.issuer] >= t.clock
    ensures Handled(Step(n, TrainReceived(t)).node, t.Key())
  {
    if t.issuer == n.id {
      if t.Key() !in n.done {
        var n1 := n.(seen := Bump(n.seen, n.id, t.clock));
        ClosedIsHandled(n1, t);
        DrainKeepsHandled(TryDeliver(n1, t).node, t.Key());
      }
    } else {
      var n1 := n.(known := n.known + Ids(t.payloads));
      ClosedIsHandled(n1, t);
      DrainKeepsHandled(TryDeliver(n1, t).node, t.Key());
    }
  }

  // ----- the run -----

  /** The first train of issuer `q`, empty. */
  function Opening(q: nat): Train { Train(q, 1, [], {q}) }

  const EARLY: Payload := Payload(1, 0, [])
  const LATE: Payload := Payload(1, 1, [])

  /** Issuers below `r`, but for 1, have put their first train on the wire. */
  ghost predicate Opened(s: System, mode: Mode, r: nat) {
    && Shaped(s) && r <= s.ring.k
    && (forall p :: 0 <= p < s.ring.n ==>
          s.nodes[p] == if p < r && p != 1 then AfterIssue(Fresh(s.ring, p, mode)) else Fresh(s.ring, p, mode))
    && (forall q :: 0 <= q < r && q != 1 ==> Opening(q) in s.sent)
  }

  lemma {:induction false} OpenAll(ring: Ring, mode: Mode, r: nat) returns (s: System)
    requires r <= ring.k
    ensures Going(ring, mode, s) && Opened(s, mode, r)
  {
    if r == 0 {
      s := StartOpen(ring, mode);
    } else {
      s := OpenAll(ring, mode, r - 1);
      if r - 1 != 1 { s := OpenOne(ring, mode, s, r - 1); }
    }
  }

  lemma StartOpen(ring: Ring, mode: Mode) returns (s: System)
    ensures Going(ring, mode, s) && Opened(s, mode, 0)
  {
    s := Start(ring, mode);
    assert Runs(s, [], s);
  }

  lemma OpenOne(ring: Ring, mode: Mode, s: System, r: nat) returns (s': System)
    requires Going(ring, mode, s) && Opened(s, mode, r) && r < ring.k && r != 1
    ensures Going(ring, mode, s') && Opened(s', mode, r + 1)
  {
    GoesOn(ring, mode, s, Issue(r));
    s' := Next(s, Issue(r));
    assert s'.nodes[r] == AfterIssue(s.nodes[r]) && NewTrain(s.nodes[r]) == Opening(r);
  }

  /** Process 1 has issued its first payload and queued its second; nobody has met any train. */
  ghost predicate Poised(ring: Ring, s: System) {
    && Shaped(s) && s.ring == ring && ring.k >= 2
    && (forall p, r :: 0 <= p < ring.n && 0 <= r < ring.n ==> s.nodes[p].seen[r] == 0)
    && (forall q :: 0 <= q < ring.k && q != 1 ==> Opening(q) in s.sent)
    && Train(1, 1, [EARLY], {1}) in s.sent && s.nodes[1].pending == [LATE]
  }

  /** What process 1 holds after broadcasting, issuing and broadcasting again. */
  lemma SpeakerStates(ring: Ring, mode: Mode)
    requires ring.k >= 2
    ensures var a := Broadcast(Fresh(ring, 1, mode), []); var b := AfterIssue(a); var c := Broadcast(b, []);
      && NewTrain(a) == Train(1, 1, [EARLY], {1}) && c.pending == [LATE]
      && c.seen == Zeros(ring.n)
  {
    var a := Broadcast(Fresh(ring, 1, mode), []);
    assert a.pending == [EARLY];
    assert EARLY in [EARLY] && EARLY.Id() == (1, 0);
    assert Ids([EARLY]) == {(1, 0)};
    assert AfterIssue(a).known == {(1, 0)};
  }

  lemma Prepare(ring: Ring, mode: Mode) returns (s: System)
    requires ring.k >= 2
    ensures Going(ring, mode, s) && Poised(ring, s)
  {
    var s0 := OpenAll(ring, mode, ring.k);
    s := Speak(ring, mode, s0);
    forall p, r | 0 <= p < ring.n && 0 <= r < ring.n ensures s.nodes[p].seen[r] == 0 {
      assert p != 1 ==> s.nodes[p] == s0.nodes[p];
    }
  }

  lemma Speak(ring: Ring, mode: Mode, s0: System) returns (s: System)
    requires Going(ring, mode, s0) && ring.k >= 2 && s0.nodes[1] == Fresh(ring, 1, mode)
    ensures Going(ring, mode, s) && s0.sent <= s.sent
    ensures forall p :: 0 <= p < ring.n && p != 1 ==> s.nodes[p] == s0.nodes[p]
    ensures s.nodes[1].pending == [LATE] && s.nodes[1].seen == Zeros(ring.n) && Train(1, 1, [EARLY], {1}) in s.sent
  {
    var cast := Local(1, LocalBroadcast([]));
    SpeakerStates(ring, mode);
    GoesOn(ring, mode, s0, cast);
    var s1 := Next(s0, cast);
    GoesOn(ring, mode, s1, Issue(1));
    var s2 := Next(s1, Issue(1));
    GoesOn(ring, mode, s2, cast);
    s := Next(s2, cast);
  }

  /** Process 0 meets the remaining issuers' trains. */
  lemma {:induction false} MeetRest(ring: Ring, mode: Mode, s: System, r: nat) returns (s': System)
    requires Going(ring, mode, s) && 2 <= r <= ring.k
    requires forall q :: 2 <= q < ring.k ==> Opening(q) in s.sent && s.nodes[0].seen[q] == 0
    ensures Going(ring, mode, s') && s.sent <= s'.sent
    ensures forall q :: 0 <= q < ring.n ==> s'.nodes[0].seen[q] == if 2 <= q < r then 1 else s.nodes[0].seen[q]
  {
    if r == 2 {
      s' := s;
    } else {
      var mid := MeetRest(ring, mode, s, r - 1);
      s' := Visit(ring, mode, mid, 0, Opening(r - 1));
    }
  }

  /** Both closed trains exist, and process 0 has met every issuer's first train but its own. */
  ghost predicate Closing(ring: Ring, s: System, zero: Train, one: Train) {
    && Shaped(s) && s.ring == ring && ring.k >= 2 && zero in s.sent && one in s.sent
    && zero.Key() == ClockKey(1, 0) && one.Key() == ClockKey(1, 1)
    && zero.acks == Members(ring, {}) && one.acks == Members(ring, {})
    && LATE in zero.payloads && EARLY in one.payloads
    && (forall q :: 1 <= q < ring.k ==> s.nodes[0].seen[q] == 1)
    && (forall q :: ring.k <= q < ring.n ==> s.nodes[0].seen[q] == 0)
  }

  lemma CloseBoth(ring: Ring, mode: Mode) returns (s: System, zero: Train, one: Train)
    requires ring.k >= 2
    ensures Going(ring, mode, s) && Closing(ring, s, zero, one)
  {
    var s0 := Prepare(ring, mode);
    var a: System, b: System;
    a, zero := Collect(ring, mode, s0, Opening(0));
    assert 1 in Lacking(ring, Opening(0)) && LATE in s0.nodes[1].pending;
    var first := Train(1, 1, [EARLY], {1});
    b, one := Collect(ring, mode, a, first);
    assert EARLY in first.payloads;
    assert 0 in Lacking(ring, first);
    s := MeetRest(ring, mode, b, ring.k);
  }

  /** Process 0 has recorded both keys. */
  lemma RecordBoth(ring: Ring, mode: Mode) returns (s: System, zero: Train, one: Train)
    requires ring.k >= 2 && mode != CausalOrder
    ensures Going(ring, mode, s) && zero in s.sent && one in s.sent
    ensures zero.Key() == ClockKey(1, 0) && one.Key() == ClockKey(1, 1)
    ensures zero.acks == Members(ring, {}) && one.acks == Members(ring, {})
    ensures LATE in zero.payloads && EARLY in one.payloads
    ensures ClockKey(1, 0) in s.nodes[0].done && ClockKey(1, 1) in s.nodes[0].done
  {
    var a: System;
    a, zero, one := CloseBoth(ring, mode);
    var b := ReceiveClosed(ring, mode, a, 0, zero);
    s := ReceiveClosed(ring, mode, b, 0, one);
    BothRecorded(ring, mode, s);
  }

  lemma BothRecorded(ring: Ring, mode: Mode, s: System)
    requires Going(ring, mode, s) && ring.k >= 2
    requires forall q :: 0 <= q < ring.k ==> s.nodes[0].seen[q] >= 1
    requires forall q :: ring.k <= q < ring.n ==> s.nodes[0].seen[q] == 0
    requires Handled(s.nodes[0], ClockKey(1, 0)) && Handled(s.nodes[0], ClockKey(1, 1))
    ensures ClockKey(1, 0) in s.nodes[0].done && ClockKey(1, 1) in s.nodes[0].done
  {
    NodeFromReachable(ring, mode, s, 0);
    var n := s.nodes[0];
    forall j: Key | 1 <= j.clock && !Before(ClockKey(1, 1), j) ensures Handled(n, j) {
      assert j == ClockKey(1, 0) || j == ClockKey(1, 1);
    }
    HandledMeansDone(n, ClockKey(1, 0));
    HandledMeansDone(n, ClockKey(1, 1));
  }

  lemma {:induction false} LogHas(d: set<Key>, raw: Key -> seq<Payload>, k: Key, x: Payload)
    requires k in d && x in raw(k)
    ensures x in LogOf(d, raw)
  {
    var m := Max(d);
    SortMembers(raw(m), x);
    if k != m { LogHas(d - {m}, raw, k, x); }
  }

  /** A payload of a smaller key comes before one of a larger key. */
  lemma {:induction false} LogPlaces(d: set<Key>, raw: Key -> seq<Payload>, j: Key, k: Key, x: Payload, y: Payload)
    requires j in d && k in d && Before(j, k) && x in raw(j) && y in raw(k)
    ensures Precedes(LogOf(d, raw), x, y)
  {
    var m := Max(d);
    var front, back := LogOf(d - {m}, raw), SortPayloads(raw(m));
    if k == m {
      LogHas(d - {m}, raw, j, x);
      SortMembers(raw(m), y);
      PrecedesAcross(front, back, x, y);
    } else {
      LogPlaces(d - {m}, raw, j, k, x, y);
      PrecedesStays(front, back, x, y);
    }
  }

  /** Some occurrence of `x` comes before some occurrence of `y`. */
  ghost predicate Precedes(log: seq<Payload>, x: Payload, y: Payload) {
    exists a, b :: 0 <= a < b < |log| && log[a] == x && log[b] == y
  }

  lemma PrecedesAcross(front: seq<Payload>, back: seq<Payload>, x: Payload, y: Payload)
    requires x in front && y in back
    ensures Precedes(front + back, x, y)
  {
    var a :| 0 <= a < |front| && front[a] == x;
    var b :| 0 <= b < |back| && back[b] == y;
    assert (front + back)[a] == x && (front + back)[|front| + b] == y;
  }

  lemma PrecedesStays(front: seq<Payload>, back: seq<Payload>, x: Payload, y: Payload)
    requires Precedes(front, x, y)
    ensures Precedes(front + back, x, y)
  {
    var a, b :| 0 <= a < b < |front| && front[a] == x && front[b] == y;
    assert (front + back)[a] == x && (front + back)[b] == y;
  }

  /** A run on any ring with two issuers in which process 0 delivers 1's second payload before its first. */
  lemma SecondBeforeFirst(ring: Ring, mode: Mode) returns (evs: seq<Event>, s: System)
    requires ring.k >= 2 && mode != CausalOrder
    ensures Runs(Start(ring, mode), evs, s) && 0 < |s.log| && !InSendOrder(s.log[0])
  {
    var zero: Train, one: Train;
    s, zero, one := RecordBoth(ring, mode);
    evs :| Runs(Start(ring, mode), evs, s);
    HeldIsContent(ring, mode, evs, s, 0);
    OneContentPerKey(ring, mode, evs, s, zero, zero);
    OneContentPerKey(ring, mode, evs, s, one, one);
    LogPlaces(s.nodes[0].done, Contents(s, FirstEpoch(ring)), ClockKey(1, 0), ClockKey(1, 1), LATE, EARLY);
  }

  predicate AllInSendOrder(s: System) { forall p :: 0 <= p < |s.log| ==> InSendOrder(s.log[p]) }

  /**
   * Every run on a ring delivers every sender's payloads in the order they were
   * broadcast if and only if the ring has a single issuer.
   */
  lemma SendOrderIff(ring: Ring, mode: Mode)
    requires mode != CausalOrder
    ensures (forall s :: Reachable(ring, mode, s) ==> AllInSendOrder(s)) <==> ring.k == 1
  {
    if ring.k == 1 {
      forall s | Reachable(ring, mode, s) ensures AllInSendOrder(s) {
        var evs :| Runs(Start(ring, mode), evs, s);
        HeldIsContent(ring, mode, evs, s, 0);
        forall p | 0 <= p < |s.log| ensures InSendOrder(s.log[p]) { SingleIssuerKeepsOrder(ring, mode, evs, s, p); }
      }
    } else {
      var evs, s := SecondBeforeFirst(ring, mode);
      assert Reachable(ring, mode, s) && !AllInSendOrder(s);
    }
  }
}
