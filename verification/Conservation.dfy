// Payload conservation on the asynchronous network: every broadcast is queued
// once, then rides trains of exactly one key, so nothing is delivered that was
// not broadcast and nothing is delivered twice.

module Conservation {
  import opened Types
  import opened Kernel
  import opened LocalOrder
  import opened Network

  /** `p` is the `p.number`-th payload its sender was asked to broadcast. */
  predicate CastBy(s: System, p: Payload)
    requires Shaped(s)
  {
    p.sender < s.ring.n && p.number < |s.cast[p.sender]| && s.cast[p.sender][p.number] == p.data
  }

  /** How many of `q`'s broadcasts have left its queue. */
  function Shipped(s: System, q: nat): int
    requires Shaped(s) && q < s.ring.n
  {
    s.nodes[q].nextSeq - |s.nodes[q].pending|
  }

  predicate QueueOk(s: System, q: nat)
    requires Shaped(s) && q < s.ring.n
  {
    var n := s.nodes[q];
    && n.nextSeq == |s.cast[q]|
    && 0 <= Shipped(s, q)
    && (forall i :: 0 <= i < |n.pending| ==>
          n.pending[i] == Payload(q, Shipped(s, q) + i, s.cast[q][Shipped(s, q) + i]))
    && (forall id :: id in n.known ==> id.0 < s.ring.n && id.1 < |s.cast[id.0]|)
  }

  predicate CargoOk(s: System, t: Train)
    requires Shaped(s)
  {
    && DistinctIds(t.payloads)
    && (forall p :: p in t.payloads ==> CastBy(s, p) && p.number < Shipped(s, p.sender))
  }

  /** A payload id rides trains of one key only. */
  ghost predicate OneKey(sent: set<Train>) {
    forall t, u, p, r :: t in sent && u in sent && p in t.payloads && r in u.payloads && p.Id() == r.Id()
      ==> t.Key() == u.Key()
  }

  /** A broadcast that left the queue is on some train. */
  ghost predicate Carried(s: System, q: nat, i: nat)
    requires Shaped(s) && q < s.ring.n && i < |s.cast[q]|
  {
    exists t :: t in s.sent && Payload(q, i, s.cast[q][i]) in t.payloads
  }

  ghost predicate Conserved(s: System) {
    && Shaped(s)
    && (forall q :: 0 <= q < s.ring.n ==> QueueOk(s, q))
    && (forall t :: t in s.sent ==> CargoOk(s, t))
    && OneKey(s.sent)
    && (forall q, i :: 0 <= q < s.ring.n && 0 <= i < Shipped(s, q) && i < |s.cast[q]| ==> Carried(s, q, i))
  }

  // ----- emptying a queue onto a train -----

  /** `s'` is `s` after `p` put its whole queue behind `load` on train `t`. */
  ghost predicate Ships(s: System, s': System, p: nat, load: seq<Payload>, t: Train)
    requires Shaped(s)
  {
    && Shaped(s') && p < s.ring.n && s'.ring == s.ring && s'.cast == s.cast && s'.sent == s.sent + {t}
    && (forall q :: 0 <= q < s.ring.n && q != p ==> s'.nodes[q] == s.nodes[q])
    && s'.nodes[p].pending == [] && s'.nodes[p].nextSeq == s.nodes[p].nextSeq
    && s'.nodes[p].known == s.nodes[p].known + Ids(load + s.nodes[p].pending)
    && t.payloads == load + s.nodes[p].pending
    && (load == [] || exists u :: u in s.sent && u.Key() == t.Key() && u.payloads == load)
  }

  lemma ShipCargo(s: System, s': System, p: nat, load: seq<Payload>, t: Train)
    requires Conserved(s) && Ships(s, s', p, load, t)
    ensures forall u :: u in s'.sent ==> CargoOk(s', u)
    ensures forall x :: x in s.nodes[p].pending ==> CastBy(s, x) && x.number >= Shipped(s, p) && x.sender == p
  {
    assert QueueOk(s, p);
    forall x | x in s.nodes[p].pending ensures CastBy(s, x) && x.number >= Shipped(s, p) && x.sender == p {
      var i :| 0 <= i < |s.nodes[p].pending| && s.nodes[p].pending[i] == x;
    }
    forall u | u in s.sent ensures CargoOk(s', u) { assert CargoOk(s, u); }
    assert load == [] || CargoOk(s, t.(payloads := load));
    forall i, j | 0 <= i < j < |t.payloads| ensures t.payloads[i].Id() != t.payloads[j].Id() {
      if i < |load| && j >= |load| {
        assert t.payloads[i] in load;
        assert t.payloads[j] in s.nodes[p].pending;
      } else if i < |load| {
        assert t.payloads[i] == load[i] && t.payloads[j] == load[j];
      }
    }
    assert CargoOk(s', t);
  }

  lemma ShipOneKey(s: System, s': System, p: nat, load: seq<Payload>, t: Train)
    requires Conserved(s) && Ships(s, s', p, load, t)
    ensures OneKey(s'.sent)
  {
    ShipCargo(s, s', p, load, t);
    forall x, y, a, b | x in s'.sent && y in s'.sent && a in x.payloads && b in y.payloads && a.Id() == b.Id()
      ensures x.Key() == y.Key()
    {
      ShipOneKeyPair(s, s', p, load, t, x, y, a, b);
    }
  }

  lemma ShipOneKeyPair(s: System, s': System, p: nat, load: seq<Payload>, t: Train, x: Train, y: Train,
                       a: Payload, b: Payload)
    requires Conserved(s) && Ships(s, s', p, load, t)
    requires forall z :: z in s.nodes[p].pending ==> z.number >= Shipped(s, p) && z.sender == p
    requires x in s'.sent && y in s'.sent && a in x.payloads && b in y.payloads && a.Id() == b.Id()
    ensures x.Key() == y.Key()
  {
    if x in s.sent { assert CargoOk(s, x); }
    if y in s.sent { assert CargoOk(s, y); }
    if x !in s.sent && y in s.sent {
      assert a in load;
    } else if x in s.sent && y !in s.sent {
      assert b in load;
    }
  }

  lemma ShipConserves(s: System, s': System, p: nat, load: seq<Payload>, t: Train)
    requires Conserved(s) && Ships(s, s', p, load, t)
    ensures Conserved(s')
  {
    ShipCargo(s, s', p, load, t);
    ShipOneKey(s, s', p, load, t);
    forall q | 0 <= q < s.ring.n ensures QueueOk(s', q) {
      assert QueueOk(s, q);
      if q == p {
        forall id | id in s'.nodes[p].known ensures id.0 < s.ring.n && id.1 < |s.cast[id.0]| {
          if id !in s.nodes[p].known {
            var x :| x in load + s.nodes[p].pending && x.Id() == id;
            assert CargoOk(s', t);
          }
        }
      }
    }
    forall q, i | 0 <= q < s.ring.n && 0 <= i < Shipped(s', q) && i < |s'.cast[q]| ensures Carried(s', q, i) {
      assert QueueOk(s, q);
      if i < Shipped(s, q) {
        assert Carried(s, q, i);
      } else {
        assert s.nodes[p].pending[i - Shipped(s, p)] in t.payloads;
      }
    }
  }

  // ----- the other steps -----

  /** Queues and wire unchanged; `p` learns `ids`. */
  ghost predicate Idles(s: System, s': System, p: nat, ids: set<Id>)
    requires Shaped(s)
  {
    && Shaped(s') && p < s.ring.n && s'.ring == s.ring && s'.cast == s.cast && s'.sent == s.sent
    && (forall q :: 0 <= q < s.ring.n && q != p ==> s'.nodes[q] == s.nodes[q])
    && s'.nodes[p].pending == s.nodes[p].pending && s'.nodes[p].nextSeq == s.nodes[p].nextSeq
    && s'.nodes[p].known == s.nodes[p].known + ids
  }

  lemma IdleConserves(s: System, s': System, p: nat, ids: set<Id>)
    requires Conserved(s) && Idles(s, s', p, ids)
    requires forall id :: id in ids ==> id.0 < s.ring.n && id.1 < |s.cast[id.0]|
    ensures Conserved(s')
  {
    forall q | 0 <= q < s.ring.n ensures QueueOk(s', q) { assert QueueOk(s, q); }
    forall t | t in s'.sent ensures CargoOk(s', t) { assert CargoOk(s, t); }
    forall q, i | 0 <= q < s.ring.n && 0 <= i < Shipped(s', q) && i < |s'.cast[q]| ensures Carried(s', q, i) {
      assert Carried(s, q, i);
    }
  }

  lemma BroadcastConserves(s: System, p: nat, data: Bytes)
    requires Conserved(s) && Enabled(s, Local(p, LocalBroadcast(data)))
    ensures Conserved(Next(s, Local(p, LocalBroadcast(data))))
  {
    var s' := Next(s, Local(p, LocalBroadcast(data)));
    assert QueueOk(s, p);
    assert (p, s.nodes[p].nextSeq) !in s.nodes[p].known;
    assert s'.sent == s.sent;
    forall q | 0 <= q < s.ring.n ensures QueueOk(s', q) { BroadcastQueue(s, p, data, q); }
    forall t | t in s'.sent ensures CargoOk(s', t) { assert CargoOk(s, t); }
    forall q, i | 0 <= q < s.ring.n && 0 <= i < Shipped(s', q) && i < |s'.cast[q]| ensures Carried(s', q, i) {
      assert Carried(s, q, i);
    }
  }

  lemma BroadcastQueue(s: System, p: nat, data: Bytes, q: nat)
    requires Conserved(s) && Enabled(s, Local(p, LocalBroadcast(data))) && q < s.ring.n
    ensures Shaped(Next(s, Local(p, LocalBroadcast(data)))) && QueueOk(Next(s, Local(p, LocalBroadcast(data))), q)
  {
    assert QueueOk(s, p) && QueueOk(s, q);
    BroadcastNode(s.nodes[p], data);
  }

  lemma BroadcastNode(n: Node, data: Bytes)
    requires Wf(n) && (n.id, n.nextSeq) !in n.known
    ensures var n' := Step(n, LocalBroadcast(data)).node;
      && n'.pending == n.pending + [Payload(n.id, n.nextSeq, data)] && n'.nextSeq == n.nextSeq + 1
      && n'.known == n.known + {(n.id, n.nextSeq)}
  {
  }

  /** Node `n` keeps its queue, learns `ids` and sends at most `t`. */
  predicate KeepsQueue(n: Node, t: Train, r: Effect, ids: set<Id>) {
    && Sends(r.out) <= {t} && r.node.pending == n.pending
    && r.node.nextSeq == n.nextSeq && r.node.known == n.known + ids
  }

  /** Node `n` empties its queue behind `load` onto `t`, the one train it sends. */
  predicate EmptiesQueue(n: Node, load: seq<Payload>, t: Train, r: Effect) {
    && Sends(r.out) == {t} && t.payloads == load + n.pending
    && r.node.pending == [] && r.node.nextSeq == n.nextSeq && r.node.known == n.known + Ids(load + n.pending)
  }

  lemma OwnTrainQueue(n: Node, t: Train)
    requires Wf(n) && t.issuer < n.ring.n && (Fenced(n, t) || t.issuer == n.id)
    ensures var r := HandleTrain(n, t);
      if Fenced(n, t) || t.Key() !in n.done then KeepsQueue(n, t, r, {}) else EmptiesQueue(n, [], NewTrain(n), r)
  {
    TrainShape(n, t);
    assert [] + n.pending == n.pending;
  }

  lemma ForeignTrainQueue(n: Node, t: Train)
    requires Wf(n) && t.issuer < n.ring.n && !Fenced(n, t) && t.issuer != n.id
    ensures var r := HandleTrain(n, t);
      if IsReplay(n, t) then KeepsQueue(n, t, r, Ids(t.payloads)) else EmptiesQueue(n, t.payloads, Loaded(n, t), r)
  {
    TrainShape(n, t);
  }

  /** The system after `p` took `r`. */
  ghost predicate Takes(s: System, s': System, p: nat, r: Effect) {
    && Shaped(s) && Shaped(s') && p < s.ring.n && s'.ring == s.ring && s'.cast == s.cast
    && s'.nodes == s.nodes[p := r.node] && s'.sent == s.sent + Sends(r.out)
  }

  lemma KeepsIdles(s: System, s': System, p: nat, t: Train, r: Effect, ids: set<Id>)
    requires Takes(s, s', p, r) && KeepsQueue(s.nodes[p], t, r, ids) && t in s.sent
    ensures Idles(s, s', p, ids)
  {
    assert s.sent + Sends(r.out) == s.sent;
  }

  lemma EmptiesShips(s: System, s': System, p: nat, u: Train, load: seq<Payload>, t: Train, r: Effect)
    requires Takes(s, s', p, r) && EmptiesQueue(s.nodes[p], load, t, r)
    requires load == [] || (u in s.sent && u.Key() == t.Key() && u.payloads == load)
    ensures Ships(s, s', p, load, t)
  {
  }

  lemma TrainTaken(s: System, p: nat, t: Train)
    requires Enabled(s, Local(p, TrainReceived(t)))
    ensures Takes(s, Next(s, Local(p, TrainReceived(t))), p, HandleTrain(s.nodes[p], t))
  {
    TrainSentShape(s, p, TrainReceived(t));
  }

  lemma MoveConserves(s: System, s': System, p: nat, t: Train, next: Train)
    requires Conserved(s) && t in s.sent
    requires Idles(s, s', p, {}) || Idles(s, s', p, Ids(t.payloads))
      || Ships(s, s', p, [], next) || Ships(s, s', p, t.payloads, next)
    ensures Conserved(s')
  {
    assert CargoOk(s, t);
    if Idles(s, s', p, {}) {
      IdleConserves(s, s', p, {});
    } else if Idles(s, s', p, Ids(t.payloads)) {
      IdleConserves(s, s', p, Ids(t.payloads));
    } else if Ships(s, s', p, [], next) {
      ShipConserves(s, s', p, [], next);
    } else {
      ShipConserves(s, s', p, t.payloads, next);
    }
  }

  lemma OwnTrainConserves(s: System, s': System, p: nat, t: Train)
    requires Conserved(s) && t in s.sent && p < s.ring.n && (Fenced(s.nodes[p], t) || t.issuer == p)
    requires Takes(s, s', p, HandleTrain(s.nodes[p], t))
    ensures Conserved(s')
  {
    var n, r := s.nodes[p], HandleTrain(s.nodes[p], t);
    OwnTrainQueue(n, t);
    if Fenced(n, t) || t.Key() !in n.done {
      KeepsIdles(s, s', p, t, r, {});
    } else {
      EmptiesShips(s, s', p, t, [], NewTrain(n), r);
    }
    MoveConserves(s, s', p, t, NewTrain(n));
  }

  lemma ForeignTrainConserves(s: System, s': System, p: nat, t: Train)
    requires Conserved(s) && t in s.sent && p < s.ring.n && !Fenced(s.nodes[p], t) && t.issuer != p
    requires Takes(s, s', p, HandleTrain(s.nodes[p], t))
    ensures Conserved(s')
  {
    var n, r := s.nodes[p], HandleTrain(s.nodes[p], t);
    ForeignTrainQueue(n, t);
    if IsReplay(n, t) {
      KeepsIdles(s, s', p, t, r, Ids(t.payloads));
    } else {
      EmptiesShips(s, s', p, t, t.payloads, Loaded(n, t), r);
    }
    MoveConserves(s, s', p, t, Loaded(n, t));
  }

  lemma TrainConserves(s: System, p: nat, t: Train)
    requires Conserved(s) && Enabled(s, Local(p, TrainReceived(t)))
    ensures Conserved(Next(s, Local(p, TrainReceived(t))))
  {
    TrainTaken(s, p, t);
    if Fenced(s.nodes[p], t) || t.issuer == p {
      OwnTrainConserves(s, Next(s, Local(p, TrainReceived(t))), p, t);
    } else {
      ForeignTrainConserves(s, Next(s, Local(p, TrainReceived(t))), p, t);
    }
  }

  lemma StepConserves(s: System, ev: Event)
    requires Conserved(s) && Enabled(s, ev)
    ensures Conserved(Next(s, ev))
  {
    match ev
    case Local(p, input) =>
      match input {
        case LocalBroadcast(data) => BroadcastConserves(s, p, data);
        case TrainReceived(t) => TrainConserves(s, p, t);
        case Tick =>
          assert Next(s, ev).sent == s.sent;
          IdleConserves(s, Next(s, ev), p, {});
      }
    case Issue(p) =>
      assert [] + s.nodes[p].pending == s.nodes[p].pending;
      ShipConserves(s, Next(s, ev), p, [], NewTrain(s.nodes[p]));
    case Crash(p) => IdleConserves(s, Next(s, ev), p, {});
  }

  /**
   * Payload conservation: in every run, each process has queued exactly what it
   * was asked to broadcast, with consecutive numbers; a broadcast that left the
   * queue rides trains of exactly one key; and trains carry nothing else.
   */
  lemma {:induction false} PayloadConservation(s: System, evs: seq<Event>, s': System)
    requires Conserved(s) && Runs(s, evs, s')
    ensures Conserved(s')
    decreases |evs|
  {
    if evs != [] {
      StepConserves(s, evs[0]);
      PayloadConservation(Next(s, evs[0]), evs[1..], s');
    }
  }

  lemma StartConserved(ring: Ring, mode: Mode)
    ensures Conserved(Start(ring, mode))
  {
  }

  // ----- logs -----

  ghost predicate Disjoint(d: set<Key>, raw: Key -> seq<Payload>) {
    && (forall k :: k in d ==> DistinctIds(raw(k)))
    && (forall k, j, p, r :: k in d && j in d && p in raw(k) && r in raw(j) && p.Id() == r.Id() ==> k == j)
  }

  lemma {:induction false} LogDistinct(d: set<Key>, raw: Key -> seq<Payload>)
    requires Disjoint(d, raw)
    ensures DistinctIds(LogOf(d, raw))
    ensures forall p :: p in LogOf(d, raw) ==> exists k :: k in d && p in raw(k)
  {
    if d != {} {
      var m := Max(d);
      LogDistinct(d - {m}, raw);
      SortDistinct(raw(m));
      var a, b := LogOf(d - {m}, raw), SortPayloads(raw(m));
      assert LogOf(d, raw) == a + b;
      forall p | p in a + b ensures exists k :: k in d && p in raw(k) {
        SortMembers(raw(m), p);
        if p in a { var k :| k in d - {m} && p in raw(k); assert k in d; }
      }
      forall i, j | 0 <= i < j < |a + b| ensures (a + b)[i].Id() != (a + b)[j].Id() {
        if i < |a| <= j {
          assert (a + b)[i] in a;
          var k :| k in d - {m} && (a + b)[i] in raw(k);
          assert (a + b)[j] in b;
          SortMembers(raw(m), (a + b)[j]);
        }
      }
    }
  }

  lemma ContentsDisjoint(s: System, e: Epoch, d: set<Key>)
    requires Conserved(s)
    ensures Disjoint(d, Contents(s, e))
    ensures forall k, p :: p in Contents(s, e)(k) ==> CastBy(s, p)
  {
    var raw := Contents(s, e);
    forall k ensures DistinctIds(raw(k)) && forall p :: p in raw(k) ==> CastBy(s, p) {
      if raw(k) != [] {
        var t :| t in s.sent && t.Key() == k && t.payloads == raw(k);
        assert CargoOk(s, t);
      }
    }
    forall k, j, p, r | k in d && j in d && p in raw(k) && r in raw(j) && p.Id() == r.Id() ensures k == j {
      var t :| t in s.sent && t.Key() == k && t.payloads == raw(k);
      var u :| u in s.sent && u.Key() == j && u.payloads == raw(j);
    }
  }

  /** No process delivers a payload never broadcast, and none delivers a payload twice. */
  lemma DeliveredOnceAndBroadcast(ring: Ring, mode: Mode, evs: seq<Event>, s: System, p: nat)
    requires Runs(Start(ring, mode), evs, s) && p < ring.n
    ensures Shaped(s) && s.ring == ring && DistinctIds(s.log[p])
    ensures forall x :: x in s.log[p] ==> CastBy(s, x)
  {
    StartConserved(ring, mode);
    PayloadConservation(Start(ring, mode), evs, s);
    StartIsViewStart(ring, mode);
    var e := FirstEpoch(ring);
    var w: View := ViewAt(Start(ring, mode), e, []);
    ViewRun(w, evs, s);
    var raw := Contents(s, e);
    assert NodeOk(s, e, raw, [], p);
    assert s.log[p] == Log(s.nodes[p], e, raw);
    ContentsDisjoint(s, e, s.nodes[p].done - e.before);
    LogDistinct(s.nodes[p].done - e.before, raw);
  }
}
