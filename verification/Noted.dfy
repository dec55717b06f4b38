// Which payloads a node notes as seen.  Whatever it delivers from another's
// train or from a plan it notes; what others load onto its own train it does not.

module Noted {
  import opened Types
  import opened Kernel
  import opened LocalOrder
  import opened Recovery
  import opened Operations

  /** Parked payloads are noted, but for those in `own`. */
  predicate ParkedNoted(s: Node, own: set<Payload>) {
    forall k :: k in s.parked ==> AllNoted(s.parked[k].payloads, s.known, own)
  }

  predicate AllNoted(ps: seq<Payload>, known: set<Id>, own: set<Payload>) {
    forall x :: x in ps ==> x.Id() in known || x in own
  }

  /** What an operation must keep: nothing is forgotten, and what it parks or delivers is noted. */
  ghost predicate Notes(s: Node, r: Effect, own: set<Payload>) {
    s.known <= r.node.known && ParkedNoted(r.node, own) && AllNoted(Delivered(r.out), r.node.known, own)
  }

  lemma NotedConcat(a: seq<Output>, b: seq<Output>, known: set<Id>, own: set<Payload>)
    requires AllNoted(Delivered(a), known, own) && AllNoted(Delivered(b), known, own)
    ensures AllNoted(Delivered(a + b), known, own)
  {
    DeliveredConcat(a, b);
  }

  lemma SortedNoted(ps: seq<Payload>, known: set<Id>, own: set<Payload>)
    requires AllNoted(ps, known, own)
    ensures AllNoted(SortPayloads(ps), known, own)
  {
    forall x | x in SortPayloads(ps) ensures x.Id() in known || x in own { SortMembers(ps, x); }
  }

  lemma RecordNotes(s: Node, key: Key, ps: seq<Payload>, own: set<Payload>)
    requires ParkedNoted(s, own) && AllNoted(ps, s.known, own)
    ensures Notes(s, Record(s, key, ps), own)
  {
    SortedNoted(ps, s.known, own);
    if ps != [] {
      var o := Deliver(SortPayloads(ps));
      assert Delivered([o]) == o.payloads + Delivered([o][1..]);
    }
  }

  lemma {:induction false} DrainNotes(s: Node, own: set<Payload>)
    requires Wf(s) && ParkedNoted(s, own)
    ensures Notes(s, Drain(s), own)
    decreases |s.parked|
  {
    if !s.frozen && s.parked != map[] {
      var key := Min(s.parked.Keys);
      if Deliverable(s, key) {
        var rest := s.parked - {key};
        assert rest.Keys == s.parked.Keys - {key};
        assert |rest.Keys| == |s.parked.Keys| - 1;
        var r1 := Record(s.(parked := rest), key, s.parked[key].payloads);
        RecordNotes(s.(parked := rest), key, s.parked[key].payloads, own);
        DrainNotes(r1.node, own);
        NotedConcat(r1.out, Drain(r1.node).out, s.known, own);
      }
    }
  }

  lemma TryNotes(s: Node, t: Train, own: set<Payload>)
    requires Wf(s) && ParkedNoted(s, own) && AllNoted(t.payloads, s.known, own)
    ensures Notes(s, TryDeliver(s, t), own)
  {
    RecordNotes(s, t.Key(), t.payloads, own);
  }

  lemma TryThenDrainNotes(s: Node, t: Train, own: set<Payload>, r1: Effect, r2: Effect)
    requires Wf(s) && ParkedNoted(s, own) && AllNoted(t.payloads, s.known, own)
    requires r1 == TryDeliver(s, t) && r2 == Drain(r1.node)
    ensures Notes(s, Effect(r2.node, r1.out + [ForwardTrain(t)] + r2.out), own)
    ensures Notes(s, Effect(r2.node, r1.out + r2.out + [ForwardTrain(t)]), own)
  {
    TryNotes(s, t, own);
    DrainNotes(r1.node, own);
    ForwardDeliversNothing(t);
    NotedConcat(r1.out, [ForwardTrain(t)], s.known, own);
    NotedConcat(r1.out + [ForwardTrain(t)], r2.out, s.known, own);
    NotedConcat(r1.out, r2.out, s.known, own);
    NotedConcat(r1.out + r2.out, [ForwardTrain(t)], s.known, own);
  }

  lemma GapDelivers(q: nat, t: Train)
    ensures Delivered([DeclareCrash(q)] + [ForwardTrain(t)]) == [] && Delivered([] + [ForwardTrain(t)]) == []
  {
    ForwardDeliversNothing(t);
    assert ([DeclareCrash(q)] + [ForwardTrain(t)])[1..] == [ForwardTrain(t)];
    assert [] + [ForwardTrain(t)] == [ForwardTrain(t)];
  }

  lemma HandleNotes(s: Node, t: Train, own: set<Payload>)
    requires Wf(s) && t.issuer < s.ring.n && ParkedNoted(s, own)
    requires t.issuer == s.id ==> forall x :: x in t.payloads ==> x in own
    ensures Notes(s, HandleTrain(s, t), own)
  {
    if Fenced(s, t) {
    } else if t.issuer == s.id {
      var s1 := s.(seen := Bump(s.seen, s.id, t.clock));
      if t.Key() in s.done {
        ForwardDeliversNothing(NewTrain(s1));
      } else {
        var r1 := TryDeliver(s1, t);
        TryThenDrainNotes(s1, t, own, r1, Drain(r1.node));
      }
    } else if IsReplay(s, t) {
      var s1 := s.(known := s.known + Ids(t.payloads));
      var r1 := TryDeliver(s1, t);
      TryThenDrainNotes(s1, t, own, r1, Drain(r1.node));
    } else {
      FirstSightNotes(s, t, own);
    }
  }

  lemma FirstSightNotes(s: Node, t: Train, own: set<Payload>)
    requires Wf(s) && t.issuer < s.ring.n && t.issuer != s.id && !Fenced(s, t) && !IsReplay(s, t) && ParkedNoted(s, own)
    ensures Notes(s, HandleTrain(s, t), own)
  {
    var s1 := AfterLoad(s, t);
    var gap := if CheckClock(s.seen[t.issuer], t.clock).Gap? then [DeclareCrash(t.issuer)] else [];
    DrainNotes(s1, own);
    GapDelivers(t.issuer, Loaded(s, t));
    NotedConcat(gap + [ForwardTrain(Loaded(s, t))], Drain(s1).out, s1.known, own);
  }

  // ----- plans -----

  /** A resent key that was not recorded is noted, whoever issued it. */
  lemma KeyNotes(s: Node, k: Key, action: Action, own: set<Payload>)
    requires Wf(s) && k.issuer < s.ring.n && ParkedNoted(s, own)
    ensures Notes(s, ApplyKey(s, k, action), own)
    ensures action.Resend? && k !in s.done ==> Ids(action.payloads) <= ApplyKey(s, k, action).node.known
  {
    var s1 := s.(seen := Bump(s.seen, k.issuer, k.clock), parked := s.parked - {k});
    if k !in s.done {
      match action
      case Resend(ps) => RecordNotes(s1.(known := s1.known + Ids(ps)), k, ps, own);
      case Skip => RecordNotes(s1, k, [], own);
    }
  }

  lemma {:induction false} ActionsNote(s: Node, acts: map<Key, Action>, own: set<Payload>)
    requires Wf(s) && ParkedNoted(s, own) && forall k :: k in acts ==> k.issuer < s.ring.n
    ensures Notes(s, ApplyActions(s, acts), own)
    ensures forall k :: k in acts && acts[k].Resend? && k !in s.done ==>
      Ids(acts[k].payloads) <= ApplyActions(s, acts).node.known
    decreases |acts|
  {
    if acts != map[] {
      var k := Min(acts.Keys);
      var rest := acts - {k};
      TakeOut(s.done, acts, k);
      var r1 := ApplyKey(s, k, acts[k]);
      KeyNotes(s, k, acts[k], own);
      ActionsNote(r1.node, rest, own);
      var r2 := ApplyActions(r1.node, rest);
      NotedConcat(r1.out, r2.out, r2.node.known, own);
      forall j | j in acts && acts[j].Resend? && j !in s.done ensures Ids(acts[j].payloads) <= r2.node.known {
        if j != k { assert j in rest && j !in r1.node.done; }
      }
    }
  }

  /** After a plan is applied, every payload of a resent key that was missing is noted. */
  lemma ApplyNotes(s: Node, plan: Plan, own: set<Payload>)
    requires Wf(s) && PlanFor(s.ring.n, plan) && ParkedNoted(s, own)
    ensures Notes(s, Apply(s, plan), own)
    ensures forall k :: k in plan.actions && plan.actions[k].Resend? && k !in s.done ==>
      Ids(plan.actions[k].payloads) <= Apply(s, plan).node.known
  {
    ActionsNote(s, plan.actions, own);
    var r1 := ApplyActions(s, plan.actions);
    var s2 := InstallView(r1.node, plan);
    DrainNotes(s2, own);
    NotedConcat(r1.out, Drain(s2).out, s2.known, own);
  }

  // ----- whole runs -----

  /** Own trains that come back bring only payloads of `own`. */
  predicate BringsOwn(id: nat, op: Op, own: set<Payload>) {
    op.Do? && op.input.TrainReceived? && op.input.train.issuer == id ==>
      forall x :: x in op.input.train.payloads ==> x in own
  }

  lemma PerformNotes(s: Node, op: Op, own: set<Payload>)
    requires Allowed(s, op) && ParkedNoted(s, own) && BringsOwn(s.id, op, own)
    ensures Notes(s, Perform(s, op), own)
  {
    match op
    case Do(input) =>
      match input {
        case LocalBroadcast(_) =>
        case Tick =>
        case TrainReceived(t) => HandleNotes(s, t, own);
      }
    case Confirm(p) => DrainNotes(s.(crashed := s.crashed + {p}), own);
    case Admit(_) =>
    case Suspend =>
    case Install(plan) => ApplyNotes(s, plan, own);
    case Reissue => ForwardDeliversNothing(NewTrain(s));
  }

  ghost function DeliveredInRun(s: Node, ops: seq<Op>): seq<Payload>
    decreases |ops|
  {
    if ops == [] || !Allowed(s, ops[0]) then []
    else Delivered(Perform(s, ops[0]).out) + DeliveredInRun(Perform(s, ops[0]).node, ops[1..])
  }

  lemma {:induction false} RunNotes(s: Node, ops: seq<Op>, s': Node, own: set<Payload>)
    requires Wf(s) && OpRun(s, ops, s') && ParkedNoted(s, own) && forall op :: op in ops ==> BringsOwn(s.id, op, own)
    ensures s.known <= s'.known && ParkedNoted(s', own) && AllNoted(DeliveredInRun(s, ops), s'.known, own)
    decreases |ops|
  {
    if ops != [] {
      assert forall op :: op in ops[1..] ==> op in ops;
      PerformNotes(s, ops[0], own);
      RunNotes(Perform(s, ops[0]).node, ops[1..], s', own);
    }
  }

  /** The payload came back to this node on a train of its own. */
  ghost predicate CameBack(id: nat, ops: seq<Op>, x: Payload) {
    exists t: Train :: Do(TrainReceived(t)) in ops && t.issuer == id && x in t.payloads
  }

  ghost function Returned(id: nat, ops: seq<Op>): (own: set<Payload>)
    ensures forall x :: x in own <==> CameBack(id, ops, x)
  {
    if ops == [] then {}
    else
      var op := ops[0];
      assert ops == [op] + ops[1..];
      Returned(id, ops[1..])
      + if op.Do? && op.input.TrainReceived? && op.input.train.issuer == id then
          (set x | x in op.input.train.payloads)
        else {}
  }

  /**
   * In every run of every operation, whatever a node delivers, by step or by
   * plan, it has noted at the end, unless it came back on a train of its own.
   */
  lemma DeliveredAreNoted(s: Node, ops: seq<Op>, s': Node, x: Payload)
    requires Wf(s) && s.parked == map[] && OpRun(s, ops, s') && x in DeliveredInRun(s, ops)
    ensures x.Id() in s'.known || CameBack(s.id, ops, x)
  {
    var own := Returned(s.id, ops);
    forall op | op in ops ensures BringsOwn(s.id, op, own) {
      if op.Do? && op.input.TrainReceived? && op.input.train.issuer == s.id {
        forall x | x in op.input.train.payloads ensures x in own { assert CameBack(s.id, ops, x); }
      }
    }
    RunNotes(s, ops, s', own);
  }

  /** A train of its own a node delivers without noting anything: noted afterwards is what was noted before. */
  lemma OwnTrainNotNoted(s: Node, t: Train)
    requires Wf(s) && t.issuer == s.id && t.Key() !in s.done
    ensures Step(s, TrainReceived(t)).node.known == s.known
  {
  }
}

// On the network: a process has noted exactly those delivered payloads that are
// its own or came on another's train.

module NotedOnTheRing {
  import opened Types
  import opened Kernel
  import opened LocalOrder
  import opened Network
  import opened Conservation
  import opened Noted
  import opened Recovery
  import opened Joiner

  /** Payloads on trains of `p`'s own. */
  function OnOwn(sent: set<Train>, p: nat): set<Payload> {
    set t, x | t in sent && t.issuer == p && x in t.payloads :: x
  }

  /** Ids on trains of others. */
  function OnOthers(sent: set<Train>, p: nat): set<Id> {
    set t, x | t in sent && t.issuer != p && x in t.payloads :: x.Id()
  }

  /** Everything delivered is noted or on an own train; everything noted is own or on another's train. */
  predicate NodeNotes(n: Node, log: seq<Payload>, own: set<Payload>, others: set<Id>) {
    && ParkedNoted(n, own) && AllNoted(log, n.known, own)
    && (forall id :: id in n.known ==> id.0 == n.id || id in others)
    && (forall i: nat :: i < n.nextSeq ==> (n.id, i) in n.known)
    && (forall x :: x in n.pending ==> x.sender == n.id)
  }

  lemma BroadcastNotes(n: Node, data: Bytes, log: seq<Payload>, own: set<Payload>, others: set<Id>)
    requires NodeNotes(n, log, own, others)
    ensures NodeNotes(Broadcast(n, data), log, own, others)
  {
  }

  lemma IssueNotes(n: Node, log: seq<Payload>, own: set<Payload>, others: set<Id>)
    requires NodeNotes(n, log, own, others)
    ensures NodeNotes(AfterIssue(n), log, own, others)
  {
  }

  lemma TrainNotes(n: Node, t: Train, log: seq<Payload>, own: set<Payload>, others: set<Id>)
    requires Wf(n) && t.issuer < n.ring.n && NodeNotes(n, log, own, others)
    requires if t.issuer == n.id then (forall x :: x in t.payloads ==> x in own) else Ids(t.payloads) <= others
    ensures var r := Step(n, TrainReceived(t)); NodeNotes(r.node, log + Delivered(r.out), own, others)
  {
    HandleNotes(n, t, own);
    TrainShape(n, t);
  }

  lemma MoreNotes(n: Node, log: seq<Payload>, a: set<Train>, b: set<Train>)
    requires a <= b && NodeNotes(n, log, OnOwn(a, n.id), OnOthers(a, n.id))
    ensures NodeNotes(n, log, OnOwn(b, n.id), OnOthers(b, n.id))
  {
    assert OnOwn(a, n.id) <= OnOwn(b, n.id) && OnOthers(a, n.id) <= OnOthers(b, n.id);
  }

  ghost predicate SystemNotes(s: System) {
    && Shaped(s)
    && forall p :: 0 <= p < s.ring.n ==> NodeNotes(s.nodes[p], s.log[p], OnOwn(s.sent, p), OnOthers(s.sent, p))
  }

  lemma EventNotes(s: System, ev: Event)
    requires SystemNotes(s) && Enabled(s, ev)
    ensures var s' := Next(s, ev);
      NodeNotes(s'.nodes[ev.p], s'.log[ev.p], OnOwn(s.sent, ev.p), OnOthers(s.sent, ev.p))
  {
    var p, n := ev.p, s.nodes[ev.p];
    match ev
    case Local(_, input) =>
      NothingAfter(s.log[p]);
      match input {
        case LocalBroadcast(data) => BroadcastNotes(n, data, s.log[p], OnOwn(s.sent, p), OnOthers(s.sent, p));
        case Tick =>
        case TrainReceived(t) => TrainNotes(n, t, s.log[p], OnOwn(s.sent, p), OnOthers(s.sent, p));
      }
    case Issue(_) => IssueNotes(n, s.log[p], OnOwn(s.sent, p), OnOthers(s.sent, p));
    case Crash(_) =>
  }

  lemma NextNotes(s: System, ev: Event)
    requires SystemNotes(s) && Enabled(s, ev) && Shaped(Next(s, ev))
    ensures SystemNotes(Next(s, ev))
  {
    var s' := Next(s, ev);
    EventNotes(s, ev);
    forall p | 0 <= p < s.ring.n ensures NodeNotes(s'.nodes[p], s'.log[p], OnOwn(s'.sent, p), OnOthers(s'.sent, p)) {
      MoreNotes(s'.nodes[p], s'.log[p], s.sent, s'.sent);
    }
  }

  lemma NextShaped(s: System, ev: Event)
    requires Enabled(s, ev)
    ensures Shaped(Next(s, ev)) && Next(s, ev).ring == s.ring
  {
    if ev.Local? { TrainSentShape(s, ev.p, ev.input); }
  }

  lemma {:induction false} RunNotes(s: System, evs: seq<Event>, s': System)
    requires SystemNotes(s) && Runs(s, evs, s')
    ensures SystemNotes(s') && s'.ring == s.ring
    decreases |evs|
  {
    if evs != [] {
      NextShaped(s, evs[0]);
      NextNotes(s, evs[0]);
      RunNotes(Next(s, evs[0]), evs[1..], s');
    }
  }

  lemma RunFacts(ring: Ring, mode: Mode, evs: seq<Event>, s: System)
    requires Runs(Start(ring, mode), evs, s)
    ensures SystemNotes(s) && Conserved(s) && s.ring == ring
  {
    StartConserved(ring, mode);
    PayloadConservation(Start(ring, mode), evs, s);
    RunNotes(Start(ring, mode), evs, s);
  }

  /** Its own payloads a process has always noted. */
  lemma OwnAreNoted(ring: Ring, mode: Mode, evs: seq<Event>, s: System, p: nat, x: Payload)
    requires Runs(Start(ring, mode), evs, s) && p < ring.n && p < |s.log| && x in s.log[p] && x.sender == p
    ensures p < |s.nodes| && x.Id() in s.nodes[p].known
  {
    RunFacts(ring, mode, evs, s);
    DeliveredOnceAndBroadcast(ring, mode, evs, s, p);
    assert QueueOk(s, p);
  }

  /**
   * In every run on the asynchronous network a process that has delivered a
   * payload has noted it if and only if the payload is its own or travelled on
   * another's train.
   */
  lemma NotedIff(ring: Ring, mode: Mode, evs: seq<Event>, s: System, p: nat, x: Payload, t: Train)
    requires Runs(Start(ring, mode), evs, s) && p < ring.n && p < |s.log| && x in s.log[p]
    requires t in s.sent && x in t.payloads
    ensures p < |s.nodes| && (x.Id() in s.nodes[p].known <==> x.sender == p || t.issuer != p)
  {
    RunFacts(ring, mode, evs, s);
    var n := s.nodes[p];
    if x.sender == p {
      OwnAreNoted(ring, mode, evs, s, p, x);
    } else if x.Id() in n.known {
      assert x.Id() in OnOthers(s.sent, p);
      var u, y :| u in s.sent && u.issuer != p && y in u.payloads && y.Id() == x.Id();
      assert u.Key() == t.Key();
    } else {
      assert x in OnOwn(s.sent, p);
      var u :| u in s.sent && u.issuer == p && x in u.payloads;
      assert u.Key() == t.Key();
    }
  }

  /**
   * A process restarted from the snapshot of a donor that had delivered its first
   * payload is mute for ever if and only if that payload had not come on one of
   * the donor's own trains; otherwise it broadcasts again under the id it used.
   */
  lemma RestartDependsOnDonor(ring: Ring, mode: Mode, evs: seq<Event>, s: System, donor: nat, x: Payload, t: Train)
    requires Runs(Start(ring, mode), evs, s) && donor < ring.n && donor < |s.log| && x in s.log[donor]
    requires t in s.sent && x in t.payloads && x.number == 0 && x.sender != donor && x.sender < ring.n
    ensures donor < |s.nodes| && Wf(s.nodes[donor]) && s.nodes[donor].ring == ring
    ensures var back := Joined(Fresh(ring, x.sender, mode), s.nodes[donor]);
      && (NeverQueues(back) <==> t.issuer != donor)
      && (t.issuer == donor ==> Broadcast(back, []).pending == [Payload(x.sender, x.number, [])])
  {
    RunFacts(ring, mode, evs, s);
    NotedIff(ring, mode, evs, s, donor, x, t);
    RejoinerMuteIff(Fresh(ring, x.sender, mode), Export(s.nodes[donor]));
  }
}

// A run in which an issuer delivers what it has not noted.

module Unnoted {
  import opened Types
  import opened Kernel
  import opened LocalOrder
  import opened Network
  import opened TokenRing
  import opened RingLag
  import opened LateFirst
  import Conservation
  import NotedOnTheRing

  /** Whatever process `p` has delivered it has noted as seen. */
  predicate DeliveredNoted(s: System, p: nat) {
    p < |s.log| && p < |s.nodes| && forall x :: x in s.log[p] ==> x.Id() in s.nodes[p].known
  }

  // ----- the run -----

  /** Every issuer's first train is on the wire; those of issuers at `r` or above, and of `p`, have met nobody. */
  ghost predicate Underway(ring: Ring, s: System, p: nat, r: nat) {
    && Shaped(s) && s.ring == ring && p < ring.k && r <= ring.k
    && (forall q :: 0 <= q < ring.k ==> Opening(q) in s.sent)
    && (forall q :: 0 <= q < r && q != p ==> Round1(s, q) && s.nodes[p].seen[q] == 1)
    && (forall a, q :: 0 <= a < ring.n && 0 <= q < ring.n && (q == p || q >= r) ==> s.nodes[a].seen[q] == 0)
  }

  /** The first train of `q` has been all round once. */
  ghost predicate Round1(s: System, q: nat) {
    exists t :: t in s.sent && t.Key() == ClockKey(1, q) && t.acks == Members(s.ring, {})
  }

  /** Nobody has met any train; issuers below `r` have put their first on the wire. */
  ghost predicate Opened1(s: System, mode: Mode, r: nat) {
    && Shaped(s) && r <= s.ring.k
    && (forall p :: 0 <= p < s.ring.n ==>
          s.nodes[p] == if p < r then AfterIssue(Fresh(s.ring, p, mode)) else Fresh(s.ring, p, mode))
    && (forall q :: 0 <= q < r ==> Opening(q) in s.sent)
  }

  lemma {:induction false} OpenEach(ring: Ring, mode: Mode, r: nat) returns (s: System)
    requires r <= ring.k
    ensures Going(ring, mode, s) && Opened1(s, mode, r)
  {
    if r == 0 {
      s := StartOpen(ring, mode);
    } else {
      var s0 := OpenEach(ring, mode, r - 1);
      GoesOn(ring, mode, s0, Issue(r - 1));
      s := Next(s0, Issue(r - 1));
      assert s.nodes[r - 1] == AfterIssue(s0.nodes[r - 1]) && NewTrain(s0.nodes[r - 1]) == Opening(r - 1);
    }
  }

  lemma RoundKept(s: System, s': System, q: nat)
    requires Round1(s, q) && s.sent <= s'.sent && s'.ring == s.ring
    ensures Round1(s', q)
  {
    var t :| t in s.sent && t.Key() == ClockKey(1, q) && t.acks == Members(s.ring, {});
  }

  /** Every train but `p`'s goes round once. */
  lemma {:induction false} RoundEach(ring: Ring, mode: Mode, p: nat, r: nat) returns (s: System)
    requires p < ring.k && r <= ring.k
    ensures Going(ring, mode, s) && Underway(ring, s, p, r)
  {
    if r == 0 {
      s := OpenEach(ring, mode, ring.k);
    } else {
      var s0 := RoundEach(ring, mode, p, r - 1);
      if r - 1 == p { s := s0; } else { s := RoundOne(ring, mode, s0, p, r - 1); }
    }
  }

  lemma RoundOne(ring: Ring, mode: Mode, s0: System, p: nat, q: nat) returns (s: System)
    requires Going(ring, mode, s0) && Underway(ring, s0, p, q) && q < ring.k && q != p
    ensures Going(ring, mode, s) && Underway(ring, s, p, q + 1)
  {
    var t: Train;
    s, t := Collect(ring, mode, s0, Opening(q));
    assert Round1(s, q);
    assert p in Lacking(ring, Opening(q));
    forall x | 0 <= x < q && x != p ensures Round1(s, x) { RoundKept(s0, s, x); }
  }

  /** Process `a` broadcasts, and the payload waits in its queue. */
  lemma Cast(ring: Ring, mode: Mode, s0: System, p: nat, a: nat) returns (s: System, x: Payload)
    requires Going(ring, mode, s0) && Underway(ring, s0, p, ring.k) && a < ring.n
    ensures Going(ring, mode, s) && Underway(ring, s, p, ring.k) && x in s.nodes[a].pending && x.sender == a
  {
    var evs :| Runs(Start(ring, mode), evs, s0);
    NotedOnTheRing.RunFacts(ring, mode, evs, s0);
    assert Conservation.QueueOk(s0, a);
    var cast := Local(a, LocalBroadcast([]));
    assert a in Members(ring, {});
    GoesOn(ring, mode, s0, cast);
    s := Next(s0, cast);
    x := Payload(a, s0.nodes[a].nextSeq, []);
    assert s.nodes[a] == Broadcast(s0.nodes[a], []) && s.nodes[a].seen == s0.nodes[a].seen;
    forall q | 0 <= q < ring.k && q != p ensures Round1(s, q) { RoundKept(s0, s, q); }
  }

  /** All first trains have been round once, `p`'s with `x` aboard, and `p` has met the others. */
  ghost predicate AllRound(ring: Ring, s: System, p: nat, x: Payload, own: Train) {
    && Shaped(s) && s.ring == ring && p < ring.k
    && own in s.sent && own.Key() == ClockKey(1, p) && own.acks == Members(ring, {}) && x in own.payloads
    && (forall q :: 0 <= q < ring.k && q != p ==> Round1(s, q) && s.nodes[p].seen[q] >= 1)
    && (forall q :: ring.k <= q < ring.n ==> s.nodes[p].seen[q] == 0)
  }

  ghost predicate OnTheWay(ring: Ring, mode: Mode, s: System, p: nat, x: Payload, own: Train) {
    exists y :: y == s && Going(ring, mode, y) && AllRound(ring, y, p, x, own)
  }

  lemma Aboard(ring: Ring, mode: Mode, p: nat, a: nat) returns (s: System, x: Payload, own: Train)
    requires p < ring.k && a < ring.n && a != p
    ensures OnTheWay(ring, mode, s, p, x, own) && x.sender == a
  {
    var s0 := RoundEach(ring, mode, p, ring.k);
    var s1: System;
    s1, x := Cast(ring, mode, s0, p, a);
    s, own := Collect(ring, mode, s1, Opening(p));
    assert a in Lacking(ring, Opening(p));
    forall q | 0 <= q < ring.k && q != p ensures Round1(s, q) { RoundKept(s1, s, q); }
    assert AllRound(ring, s, p, x, own);
  }

  /** Process `p` has handled the first keys of issuers below `r`. */
  ghost predicate HandledBelow(n: Node, r: nat) {
    Wf(n) && r <= n.ring.k && forall q :: 0 <= q < r ==> Handled(n, ClockKey(1, q)) && n.seen[q] >= 1
  }

  /** Process `p` receives the closed trains of issuers below `r`. */
  lemma {:induction false} ReceiveEach(ring: Ring, mode: Mode, s0: System, p: nat, x: Payload, own: Train, r: nat)
    returns (s: System)
    requires OnTheWay(ring, mode, s0, p, x, own) && mode != CausalOrder && p < ring.k && r <= ring.k
    ensures OnTheWay(ring, mode, s, p, x, own) && p < |s.nodes| && HandledBelow(s.nodes[p], r)
  {
    if r == 0 {
      s := s0;
    } else {
      var s1 := ReceiveEach(ring, mode, s0, p, x, own, r - 1);
      var t := FirstOf(ring, mode, s1, p, x, own, r - 1);
      s := ReceiveNext(ring, mode, s1, p, x, own, t);
    }
  }

  lemma FirstOf(ring: Ring, mode: Mode, s: System, p: nat, x: Payload, own: Train, q: nat) returns (t: Train)
    requires OnTheWay(ring, mode, s, p, x, own) && q < ring.k
    ensures t in s.sent && t.Key() == ClockKey(1, q) && t.acks == Members(ring, {})
  {
    t := own;
    if q != p {
      assert Round1(s, q);
      t :| t in s.sent && t.Key() == ClockKey(1, q) && t.acks == Members(ring, {});
    }
  }

  lemma ReceiveNext(ring: Ring, mode: Mode, s0: System, p: nat, x: Payload, own: Train, t: Train) returns (s: System)
    requires OnTheWay(ring, mode, s0, p, x, own) && mode != CausalOrder && p < |s0.nodes|
    requires t in s0.sent && t.issuer < ring.k && t.clock == 1 && t.acks == Members(ring, {})
    requires HandledBelow(s0.nodes[p], t.issuer)
    ensures OnTheWay(ring, mode, s, p, x, own) && p < |s.nodes| && HandledBelow(s.nodes[p], t.issuer + 1)
  {
    s := ReceiveClosed(ring, mode, s0, p, t);
    forall q | 0 <= q < ring.k && q != p ensures Round1(s, q) { RoundKept(s0, s, q); }
    assert AllRound(ring, s, p, x, own);
  }

  lemma FirstRoundRecorded(n: Node, p: nat)
    requires Settled(n) && p < n.ring.k
    requires forall q :: 0 <= q < n.ring.k ==> Handled(n, ClockKey(1, q)) && n.seen[q] >= 1
    ensures ClockKey(1, p) in n.done
  {
    forall j: Key | j.issuer < n.ring.k && 1 <= j.clock && !Before(ClockKey(1, p), j) ensures Handled(n, j) {
      assert j == ClockKey(1, j.issuer);
    }
    HandledMeansDone(n, ClockKey(1, p));
  }

  lemma OwnRecorded(ring: Ring, mode: Mode, s: System, p: nat, x: Payload, own: Train)
    requires OnTheWay(ring, mode, s, p, x, own) && p < |s.nodes| && HandledBelow(s.nodes[p], ring.k)
    ensures ClockKey(1, p) in s.nodes[p].done
  {
    NodeFromReachable(ring, mode, s, p);
    FirstRoundRecorded(s.nodes[p], p);
  }

  /** For every issuer of every ring, a run in which it delivers a payload it has not noted. */
  lemma DeliversUnnoted(ring: Ring, mode: Mode, p: nat) returns (evs: seq<Event>, s: System)
    requires p < ring.k && mode != CausalOrder
    ensures Runs(Start(ring, mode), evs, s) && !DeliveredNoted(s, p)
  {
    var s0, x, own := Aboard(ring, mode, p, if p == 0 then 1 else 0);
    s := ReceiveEach(ring, mode, s0, p, x, own, ring.k);
    OwnRecorded(ring, mode, s, p, x, own);
    evs :| Runs(Start(ring, mode), evs, s);
    HeldIsContent(ring, mode, evs, s, p);
    OneContentPerKey(ring, mode, evs, s, own, own);
    LogHas(s.nodes[p].done, Contents(s, FirstEpoch(ring)), ClockKey(1, p), x);
    NotedOnTheRing.NotedIff(ring, mode, evs, s, p, x, own);
  }

  lemma NonIssuerNotes(ring: Ring, mode: Mode, evs: seq<Event>, s: System, p: nat)
    requires Runs(Start(ring, mode), evs, s) && ring.k <= p < ring.n
    ensures DeliveredNoted(s, p)
  {
    NotedOnTheRing.RunFacts(ring, mode, evs, s);
    RunFacts(ring, mode, evs, s);
    forall t | t in s.sent ensures t.issuer != p {
      assert Live(FirstEpoch(ring), t);
      assert Sane(s, FirstEpoch(ring), t);
    }
    assert NotedOnTheRing.OnOwn(s.sent, p) == {};
  }

  /**
   * A process has noted every payload it has delivered, in every run, if and
   * only if it issues no trains.
   */
  lemma NotedClaimIff(ring: Ring, mode: Mode, p: nat)
    requires mode != CausalOrder && p < ring.n
    ensures (forall s :: Reachable(ring, mode, s) ==> DeliveredNoted(s, p)) <==> ring.k <= p
  {
    if ring.k <= p {
      forall s | Reachable(ring, mode, s) ensures DeliveredNoted(s, p) {
        var evs :| Runs(Start(ring, mode), evs, s);
        NonIssuerNotes(ring, mode, evs, s, p);
      }
    } else {
      var evs, s := DeliversUnnoted(ring, mode, p);
      assert Reachable(ring, mode, s);
    }
  }
}
