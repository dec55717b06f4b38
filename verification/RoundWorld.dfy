// The wire during an exclusion round: while survivors freeze, report and install
// at different moments, every key still has one lineage and every payload one
// place.

module RoundWorld {
  import opened Types
  import opened Kernel
  import opened LocalOrder
  import opened Network
  import opened Recovery
  import opened Operations

  /** Acked only by processes that have met it; stamped below the issue clock. */
  ghost predicate TrainOk(s: System, t: Train)
    requires Shaped(s) && t.issuer < s.ring.n
  {
    t.clock >= 1 && Sane(s, FirstEpoch(s.ring), t)
  }

  /** How many of its own payloads a node has shipped. */
  function Shipped(n: Node): int { n.nextSeq - |n.pending| }

  /** Queued payloads are the node's own, the last ones it numbered. */
  predicate QueueOk(n: Node) {
    0 <= Shipped(n) && forall i :: 0 <= i < |n.pending| ==> n.pending[i].Id() == (n.id, Shipped(n) + i)
  }

  predicate CargoOk(s: System, t: Train)
    requires Shaped(s)
  {
    DistinctIds(t.payloads)
    && forall x :: x in t.payloads ==> x.sender < s.ring.n && x.number < Shipped(s.nodes[x.sender])
  }

  ghost predicate World(s: System) {
    && Shaped(s) && Lineage(s.sent, FirstEpoch(s.ring))
    && (forall t :: t in s.sent ==> TrainOk(s, t) && CargoOk(s, t))
    && (forall p :: 0 <= p < s.ring.n ==> s.nodes[p].issueClock >= 1 && QueueOk(s.nodes[p]))
  }

  /** Clocks only rise, shipped payloads only grow. */
  predicate Rises(n: Node, n': Node) {
    && Wf(n) && Wf(n') && n'.ring == n.ring && n'.id == n.id && n'.issueClock >= n.issueClock
    && Shipped(n') >= Shipped(n) && (QueueOk(n) ==> QueueOk(n'))
    && forall q :: 0 <= q < n.ring.n ==> n'.seen[q] >= n.seen[q]
  }

  /** Only node `p` has changed; the wire may have grown. */
  ghost predicate OneRises(s: System, s': System, p: nat) {
    && Shaped(s) && Shaped(s') && s'.ring == s.ring && p < s.ring.n
    && s.sent <= s'.sent && Rises(s.nodes[p], s'.nodes[p])
    && forall q :: 0 <= q < s.ring.n && q != p ==> s'.nodes[q] == s.nodes[q]
  }

  lemma TrainKept(s: System, s': System, p: nat, t: Train)
    requires OneRises(s, s', p) && t.issuer < s.ring.n && TrainOk(s, t) && CargoOk(s, t)
    ensures TrainOk(s', t) && CargoOk(s', t)
  {
    SaneKept(s, s', FirstEpoch(s.ring), t);
  }

  lemma NodesKept(s: System, s': System, p: nat)
    requires World(s) && OneRises(s, s', p)
    ensures forall q :: 0 <= q < s.ring.n ==> s'.nodes[q].issueClock >= 1 && QueueOk(s'.nodes[q])
  {
    assert QueueOk(s.nodes[p]);
  }

  lemma WireSame(s: System, s': System, p: nat)
    requires World(s) && OneRises(s, s', p) && s'.sent == s.sent
    ensures World(s')
  {
    NodesKept(s, s', p);
    forall t | t in s'.sent ensures TrainOk(s', t) && CargoOk(s', t) { TrainKept(s, s', p, t); }
  }

  lemma WireGrows(s: System, s': System, p: nat, t: Train)
    requires World(s) && OneRises(s, s', p) && s'.sent == s.sent + {t} && t.issuer < s.ring.n
    requires TrainOk(s', t) && CargoOk(s', t) && Lineage(s'.sent, FirstEpoch(s.ring))
    ensures World(s')
  {
    NodesKept(s, s', p);
    forall u | u in s'.sent ensures TrainOk(s', u) && CargoOk(s', u) {
      if u in s.sent { TrainKept(s, s', p, u); }
    }
  }

  // ----- emptying a queue onto a train -----

  lemma ShipCargo(s: System, s': System, p: nat, load: seq<Payload>, t: Train)
    requires World(s) && Shaped(s') && s'.ring == s.ring && p < s.ring.n
    requires forall q :: 0 <= q < s.ring.n && q != p ==> s'.nodes[q] == s.nodes[q]
    requires s'.nodes[p].pending == [] && s'.nodes[p].nextSeq == s.nodes[p].nextSeq
    requires t.payloads == load + s.nodes[p].pending && (load == [] || exists u :: u in s.sent && u.payloads == load)
    ensures CargoOk(s', t)
  {
    var n := s.nodes[p];
    assert QueueOk(n);
    forall x | x in t.payloads ensures x.sender < s.ring.n && x.number < Shipped(s'.nodes[x.sender]) {
      if x in load { var u :| u in s.sent && u.payloads == load; assert CargoOk(s, u); }
    }
    forall i, j | 0 <= i < j < |t.payloads| ensures t.payloads[i].Id() != t.payloads[j].Id() {
      ShipDistinct(s, n, load, i, j);
    }
  }

  lemma ShipDistinct(s: System, n: Node, load: seq<Payload>, i: nat, j: nat)
    requires World(s) && n.id < s.ring.n && n == s.nodes[n.id] && i < j < |load + n.pending|
    requires load == [] || exists u :: u in s.sent && u.payloads == load
    ensures (load + n.pending)[i].Id() != (load + n.pending)[j].Id()
  {
    assert QueueOk(n);
    var all := load + n.pending;
    if i < |load| {
      var u :| u in s.sent && u.payloads == load;
      assert CargoOk(s, u);
      assert all[i] == load[i] && all[i] in load;
      if j < |load| { assert all[j] == load[j]; } else { assert all[j] == n.pending[j - |load|]; }
    } else {
      assert all[i] == n.pending[i - |load|] && all[j] == n.pending[j - |load|];
    }
  }

  /** Issue or recycle: a fresh clock. */
  lemma WorldIssues(s: System, s': System, p: nat)
    requires World(s) && p < s.ring.k && OneRises(s, s', p) && s'.sent == s.sent + {NewTrain(s.nodes[p])}
    requires s'.nodes[p].pending == [] && s'.nodes[p].nextSeq == s.nodes[p].nextSeq
    requires s'.nodes[p].issueClock == s.nodes[p].issueClock + 1
    ensures World(s')
  {
    var t := NewTrain(s.nodes[p]);
    forall u | u in s.sent ensures u.Key() != t.Key() { assert TrainOk(s, u); }
    LineageIssue(s.sent, FirstEpoch(s.ring), t);
    assert [] + s.nodes[p].pending == s.nodes[p].pending;
    ShipCargo(s, s', p, [], t);
    WireGrows(s, s', p, t);
  }

  /** First sight: load and ack. */
  lemma WorldLoads(s: System, s': System, p: nat, t: Train)
    requires World(s) && OneRises(s, s', p) && t in s.sent && t.issuer != p && s.nodes[p].seen[t.issuer] < t.clock
    requires s'.sent == s.sent + {Loaded(s.nodes[p], t)} && s'.nodes[p].seen[t.issuer] >= t.clock
    requires s'.nodes[p].pending == [] && s'.nodes[p].nextSeq == s.nodes[p].nextSeq
    ensures World(s')
  {
    var t' := Loaded(s.nodes[p], t);
    assert TrainOk(s, t) && CargoOk(s, t);
    TrainKept(s, s', p, t);
    forall u | u in s.sent && u.Key() == t.Key() ensures p !in u.acks { assert TrainOk(s, u); }
    LineageLoad(s.sent, FirstEpoch(s.ring), t, p, s.nodes[p].pending);
    ShipCargo(s, s', p, t.payloads, t');
    assert p in Members(s.ring, {});
    WireGrows(s, s', p, t');
  }

  // ----- the moves of a round -----

  /** Node `p` becomes `n`, these trains go out and these payloads are delivered. */
  function Moved(s: System, p: nat, n: Node, sends: set<Train>, delivered: seq<Payload>): System
    requires Shaped(s) && p < s.ring.n
  {
    s.(nodes := s.nodes[p := n], sent := s.sent + sends, log := s.log[p := s.log[p] + delivered])
  }

  function Took(s: System, p: nat, input: Input): System
    requires Shaped(s) && p < s.ring.n && Accepts(s.nodes[p], input)
  {
    var r := Step(s.nodes[p], input);
    Moved(s, p, r.node, Sends(r.out), Delivered(r.out))
  }

  lemma BroadcastRises(n: Node, data: Bytes)
    requires Wf(n)
    ensures Rises(n, Step(n, LocalBroadcast(data)).node)
  {
    if QueueOk(n) && (n.id, n.nextSeq) !in n.known {
      var n' := Broadcast(n, data);
      forall i | 0 <= i < |n'.pending| ensures n'.pending[i].Id() == (n.id, Shipped(n') + i) { }
    }
  }

  lemma TookShaped(s: System, p: nat, input: Input)
    requires World(s) && p < s.ring.n && Accepts(s.nodes[p], input) && (input.TrainReceived? ==> input.train in s.sent)
    ensures Shaped(Took(s, p, input)) && s.sent <= Took(s, p, input).sent
  {
    if input.TrainReceived? { TrainShape(s.nodes[p], input.train); }
  }

  lemma TrainRises(n: Node, t: Train)
    requires Wf(n) && t.issuer < n.ring.n
    ensures Rises(n, HandleTrain(n, t).node)
  {
    StepNeverBack(n, TrainReceived(t));
    TrainQueue(n, t);
    QueueRises(n, HandleTrain(n, t).node);
  }

  lemma QueueRises(n: Node, n': Node)
    requires n'.id == n.id && n'.nextSeq == n.nextSeq && (n'.pending == n.pending || n'.pending == [])
    ensures Shipped(n') >= Shipped(n) && (QueueOk(n) ==> QueueOk(n'))
  {
  }

  lemma TrainQueue(n: Node, t: Train)
    requires Wf(n) && t.issuer < n.ring.n
    ensures var n' := HandleTrain(n, t).node;
      n'.id == n.id && n'.nextSeq == n.nextSeq && (n'.pending == n.pending || n'.pending == [])
  {
    TrainShape(n, t);
  }

  lemma TookWorld(s: System, p: nat, input: Input)
    requires World(s) && p < s.ring.n && Accepts(s.nodes[p], input) && (input.TrainReceived? ==> input.train in s.sent)
    ensures World(Took(s, p, input))
  {
    var s', n := Took(s, p, input), s.nodes[p];
    TookShaped(s, p, input);
    match input
    case LocalBroadcast(data) =>
      BroadcastRises(n, data);
      assert s'.sent == s.sent;
      WireSame(s, s', p);
    case Tick =>
      assert s'.sent == s.sent;
      WireSame(s, s', p);
    case TrainReceived(t) => TookTrain(s, p, t);
  }

  lemma TookTrain(s: System, p: nat, t: Train)
    requires World(s) && p < s.ring.n && t in s.sent
    ensures World(Took(s, p, TrainReceived(t)))
  {
    var n, r := s.nodes[p], Step(s.nodes[p], TrainReceived(t));
    TrainRises(n, t);
    assert TrainOk(s, t);
    if !Fenced(n, t) && t.issuer == p && t.Key() in n.done {
      TookRecycles(n, t);
      MovedIssues(s, p, r.node, Delivered(r.out));
    } else if !Fenced(n, t) && t.issuer != p && !IsReplay(n, t) {
      TookLoads(n, t);
      MovedLoads(s, p, r.node, t, Delivered(r.out));
    } else {
      ForwardedUnchanged(n, t);
      MovedSame(s, p, r.node, Sends(r.out), Delivered(r.out));
    }
  }

  lemma MovedSame(s: System, p: nat, n: Node, sends: set<Train>, delivered: seq<Payload>)
    requires World(s) && p < s.ring.n && Rises(s.nodes[p], n) && sends <= s.sent
    ensures World(Moved(s, p, n, sends, delivered))
  {
    assert s.sent + sends == s.sent;
    WireSame(s, Moved(s, p, n, sends, delivered), p);
  }

  lemma MovedIssues(s: System, p: nat, n: Node, delivered: seq<Payload>)
    requires World(s) && p < s.ring.k && Rises(s.nodes[p], n)
    requires n.pending == [] && n.nextSeq == s.nodes[p].nextSeq && n.issueClock == s.nodes[p].issueClock + 1
    ensures World(Moved(s, p, n, {NewTrain(s.nodes[p])}, delivered))
  {
    WorldIssues(s, Moved(s, p, n, {NewTrain(s.nodes[p])}, delivered), p);
  }

  lemma MovedLoads(s: System, p: nat, n: Node, t: Train, delivered: seq<Payload>)
    requires World(s) && p < s.ring.n && Rises(s.nodes[p], n) && t in s.sent && t.issuer != p
    requires n.pending == [] && n.nextSeq == s.nodes[p].nextSeq
    requires s.nodes[p].seen[t.issuer] < t.clock <= n.seen[t.issuer]
    ensures World(Moved(s, p, n, {Loaded(s.nodes[p], t)}, delivered))
  {
    WorldLoads(s, Moved(s, p, n, {Loaded(s.nodes[p], t)}, delivered), p, t);
  }

  lemma TookRecycles(n: Node, t: Train)
    requires Wf(n) && t.issuer == n.id && !Fenced(n, t) && t.Key() in n.done
    ensures var r := Step(n, TrainReceived(t));
      && Sends(r.out) == {NewTrain(n)} && r.node.pending == [] && r.node.nextSeq == n.nextSeq
      && r.node.issueClock == n.issueClock + 1
  {
    TrainShape(n, t);
  }

  lemma TookLoads(n: Node, t: Train)
    requires Wf(n) && t.issuer < n.ring.n && t.issuer != n.id && !Fenced(n, t) && !IsReplay(n, t) && t.clock >= 1
    ensures var r := Step(n, TrainReceived(t));
      && Sends(r.out) == {Loaded(n, t)} && r.node.pending == [] && r.node.nextSeq == n.nextSeq
      && n.seen[t.issuer] < t.clock <= r.node.seen[t.issuer]
  {
    TrainShape(n, t);
  }

  /** Freeze and mark, or any other change that leaves queue and wire alone. */
  lemma QuietWorld(s: System, p: nat, n: Node, delivered: seq<Payload>)
    requires World(s) && p < s.ring.n && Rises(s.nodes[p], n)
    ensures World(Moved(s, p, n, {}, delivered))
  {
    MovedSame(s, p, n, {}, delivered);
  }

  lemma ReissueWorld(s: System, p: nat)
    requires World(s) && p < s.ring.k
    ensures World(Moved(s, p, AfterIssue(s.nodes[p]), {NewTrain(s.nodes[p])}, []))
  {
    MovedIssues(s, p, AfterIssue(s.nodes[p]), []);
  }

  lemma {:induction false} ActionsRise(n: Node, acts: map<Key, Action>)
    requires Wf(n) && forall k :: k in acts ==> k.issuer < n.ring.n
    ensures Rises(n, ApplyActions(n, acts).node)
    decreases |acts|
  {
    if acts != map[] {
      var k := Min(acts.Keys);
      TakeOut(n.done, acts, k);
      KeyRises(n, k, acts[k]);
      ActionsRise(ApplyKey(n, k, acts[k]).node, acts - {k});
    }
  }

  lemma KeyRises(n: Node, k: Key, action: Action)
    requires Wf(n) && k.issuer < n.ring.n
    ensures Rises(n, ApplyKey(n, k, action).node)
  {
  }

  lemma ApplyRises(n: Node, plan: Plan)
    requires Wf(n) && PlanFor(n.ring.n, plan)
    ensures Rises(n, Apply(n, plan).node)
  {
    ActionsRise(n, plan.actions);
  }
}
