// The reference implementation: plain vectors, no fence, no cache, no
// membership.  The kernel must produce the same outputs, step by step.

module Reference {
  import opened Types
  import opened Kernel

  datatype RefNode = RefNode(
    ring: Ring, id: nat,
    seen: seq<nat>, issClk: nat, nextSeq: nat,
    pending: seq<Payload>, done: set<Key>, delivered: seq<Payload>,
    parked: seq<Train>, known: set<Id>)

  predicate RefWf(r: RefNode) { |r.seen| == r.ring.n && r.id < r.ring.n }

  datatype RefEffect = RefEffect(node: RefNode, out: seq<Output>)

  function RefFresh(ring: Ring, id: nat): RefNode {
    RefNode(ring, id, Zeros(ring.n), 1, 0, [], {}, [], [], {})
  }

  function ParkedKeys(ts: seq<Train>): set<Key> { set t | t in ts :: t.Key() }

  predicate RefReady(r: RefNode, acks: set<nat>) { acks == Members(r.ring, {}) }

  predicate RefKnownDone(r: RefNode, key: Key)
    requires RefWf(r)
  {
    forall q, cl :: 0 <= q < r.ring.n && 1 <= cl <= r.seen[q] && Before(ClockKey(cl, q), key)
      ==> ClockKey(cl, q) in r.done
  }

  predicate RefDeliverable(r: RefNode, key: Key)
    requires RefWf(r)
  {
    && (forall t :: t in r.parked ==> !Before(t.Key(), key))
    && RefKnownDone(r, key)
    && (forall q :: 0 <= q < r.ring.k ==> r.seen[q] >= key.clock)
  }

  function RefRecord(r: RefNode, key: Key, payloads: seq<Payload>): (e: RefEffect)
    ensures e.node == r.(done := r.done + {key}, delivered := e.node.delivered)
  {
    var r1 := r.(done := r.done + {key});
    if payloads == [] then RefEffect(r1, [])
    else RefEffect(r1.(delivered := r1.delivered + SortPayloads(payloads)), [Deliver(SortPayloads(payloads))])
  }

  function RefTry(r: RefNode, t: Train): (e: RefEffect)
    requires RefWf(r)
    ensures e.node == r.(done := e.node.done, parked := e.node.parked, delivered := e.node.delivered)
  {
    if !RefReady(r, t.acks) || t.Key() in r.done then RefEffect(r, [])
    else if !RefDeliverable(r, t.Key()) then
      RefEffect(if t.Key() in ParkedKeys(r.parked) then r else r.(parked := r.parked + [t]), [])
    else RefRecord(r, t.Key(), t.payloads)
  }

  /** First position of a key, as `position` finds it. */
  function IndexOf(ts: seq<Train>, key: Key): (i: nat)
    requires key in ParkedKeys(ts)
    ensures i < |ts| && ts[i].Key() == key
  {
    if ts[0].Key() == key then 0 else 1 + IndexOf(ts[1..], key)
  }

  function Without(ts: seq<Train>, i: nat): seq<Train>
    requires i < |ts|
  {
    ts[..i] + ts[i + 1..]
  }

  function RefDrain(r: RefNode): (e: RefEffect)
    requires RefWf(r)
    ensures e.node == r.(done := e.node.done, parked := e.node.parked, delivered := e.node.delivered)
    decreases |r.parked|
  {
    if r.parked == [] then RefEffect(r, [])
    else
      assert r.parked[0].Key() in ParkedKeys(r.parked);
      var key := Min(ParkedKeys(r.parked));
      if !RefDeliverable(r, key) then RefEffect(r, [])
      else
        var i := IndexOf(r.parked, key);
        var e1 := RefRecord(r.(parked := Without(r.parked, i)), key, r.parked[i].payloads);
        var e2 := RefDrain(e1.node);
        RefEffect(e2.node, e1.out + e2.out)
  }

  function RefIssue(r: RefNode): (e: (Train, RefNode)) {
    var taken := SortPayloads(r.pending);
    (Train(r.id, r.issClk, taken, {r.id}), r.(issClk := r.issClk + 1, known := r.known + Ids(taken), pending := []))
  }

  function RefForeign(r: RefNode, t: Train): RefEffect
    requires RefWf(r) && t.issuer < r.ring.n
  {
    var prev := r.seen[t.issuer];
    if prev >= t.clock && prev > 0 then
      var e1 := RefTry(r.(known := r.known + Ids(t.payloads)), t);
      var e2 := RefDrain(e1.node);
      RefEffect(e2.node, e1.out + [ForwardTrain(t)] + e2.out)
    else
      var gap := if t.clock > prev + 1 then [DeclareCrash(t.issuer)] else [];
      var all := t.payloads + SortPayloads(r.pending);
      var t' := t.(payloads := all, acks := t.acks + {r.id});
      var e := RefDrain(r.(seen := r.seen[t.issuer := t.clock], pending := [], known := r.known + Ids(all)));
      RefEffect(e.node, gap + [ForwardTrain(t')] + e.out)
  }

  function RefReturning(r: RefNode, t: Train): RefEffect
    requires RefWf(r)
  {
    var r1 := if t.clock > r.seen[r.id] then r.(seen := r.seen[r.id := t.clock]) else r;
    if t.Key() in r1.done then
      var e := RefIssue(r1);
      RefEffect(e.1, [ForwardTrain(e.0)])
    else
      var e1 := RefTry(r1, t);
      var e2 := RefDrain(e1.node);
      RefEffect(e2.node, e1.out + e2.out + [ForwardTrain(t)])
  }

  function RefBroadcast(r: RefNode, data: Bytes): RefNode {
    if (r.id, r.nextSeq) in r.known then r
    else r.(known := r.known + {(r.id, r.nextSeq)}, pending := r.pending + [Payload(r.id, r.nextSeq, data)],
            nextSeq := r.nextSeq + 1)
  }

  predicate RefAccepts(r: RefNode, input: Input) { input.TrainReceived? ==> input.train.issuer < r.ring.n }

  function RefStep(r: RefNode, input: Input): (e: RefEffect)
    requires RefWf(r) && RefAccepts(r, input)
    ensures RefWf(e.node) && e.node.ring == r.ring
  {
    match input
    case LocalBroadcast(data) => RefEffect(RefBroadcast(r, data), [])
    case TrainReceived(t) => if t.issuer == r.id then RefReturning(r, t) else RefForeign(r, t)
    case Tick => RefEffect(r, [])
  }
}

module Refinement {
  import opened Types
  import opened Kernel
  import opened Reference

  /** The parked vector lists exactly the parked map, one train a key. */
  ghost predicate SameParked(parked: map<Key, Train>, ts: seq<Train>) {
    && (forall i :: 0 <= i < |ts| ==> ts[i].Key() in parked && parked[ts[i].Key()] == ts[i])
    && (forall k :: k in parked ==> parked[k] in ts && parked[k].Key() == k)
    && (forall i, j :: 0 <= i < j < |ts| ==> ts[i].Key() != ts[j].Key())
  }

  /** Queued payloads are our own, in ascending number. */
  predicate OwnQueue(id: nat, nextSeq: nat, pending: seq<Payload>) {
    && (forall i :: 0 <= i < |pending| ==> pending[i].sender == id && pending[i].number < nextSeq)
    && (forall i, j :: 0 <= i < j < |pending| ==> pending[i].number < pending[j].number)
  }

  ghost predicate Matches(s: Node, r: RefNode) {
    && Wf(s) && RefWf(r)
    && r.ring == s.ring && r.id == s.id && r.seen == s.seen && r.issClk == s.issueClock && r.nextSeq == s.nextSeq
    && r.pending == s.pending && r.done == s.done && r.known == s.known
    && SameParked(s.parked, r.parked)
    && OwnQueue(s.id, s.nextSeq, s.pending)
    && s.mode == UniformTotalOrder && s.crashed == {} && !s.frozen && s.floor == Zeros(s.ring.n)
  }

  lemma QueueSorted(id: nat, nextSeq: nat, pending: seq<Payload>)
    requires OwnQueue(id, nextSeq, pending)
    ensures SortPayloads(pending) == pending
  {
    SortOfSorted(pending);
  }

  lemma SameDeliverable(s: Node, r: RefNode, key: Key)
    requires Matches(s, r)
    ensures Deliverable(s, key) <==> RefDeliverable(r, key)
  {
    if RefDeliverable(r, key) {
      forall p | p in s.parked ensures !Before(p, key) { assert s.parked[p] in r.parked; }
    }
    if Deliverable(s, key) {
      forall t | t in r.parked ensures !Before(t.Key(), key) { assert t.Key() in s.parked; }
    }
  }

  lemma SameKeys(parked: map<Key, Train>, ts: seq<Train>)
    requires SameParked(parked, ts)
    ensures parked.Keys == ParkedKeys(ts)
  {
    forall k ensures k in parked <==> k in ParkedKeys(ts) {
      if k in parked { assert parked[k] in ts; }
    }
  }

  /** Position `j` of the shortened vector is this position of the full one. */
  function Skip(i: nat, j: nat): nat { if j < i then j else j + 1 }

  lemma WithoutAt(ts: seq<Train>, i: nat)
    requires i < |ts|
    ensures |Without(ts, i)| == |ts| - 1
    ensures forall j :: 0 <= j < |ts| - 1 ==> Without(ts, i)[j] == ts[Skip(i, j)]
  {
  }

  lemma WithoutKeeps(ts: seq<Train>, i: nat, x: nat)
    requires i < |ts| && x < |ts| && x != i
    ensures ts[x] in Without(ts, i)
  {
    WithoutAt(ts, i);
    var j := if x < i then x else x - 1;
    assert Skip(i, j) == x;
    assert Without(ts, i)[j] == ts[x];
  }

  lemma RemoveForward(parked: map<Key, Train>, ts: seq<Train>, key: Key, i: nat, j: nat)
    requires SameParked(parked, ts) && i < |ts| && ts[i].Key() == key && j < |ts| - 1
    ensures Without(ts, i)[j].Key() in parked - {key}
    ensures parked[Without(ts, i)[j].Key()] == Without(ts, i)[j]
  {
    WithoutAt(ts, i);
    var t := ts[Skip(i, j)];
    assert t.Key() != key;
  }

  lemma RemoveBackward(parked: map<Key, Train>, ts: seq<Train>, key: Key, i: nat, k: Key)
    requires SameParked(parked, ts) && i < |ts| && ts[i].Key() == key && k in parked && k != key
    ensures parked[k] in Without(ts, i)
  {
    var x: nat :| x < |ts| && ts[x] == parked[k];
    WithoutKeeps(ts, i, x);
  }

  lemma RemoveDistinct(ts: seq<Train>, i: nat)
    requires i < |ts| && forall a, b :: 0 <= a < b < |ts| ==> ts[a].Key() != ts[b].Key()
    ensures forall a, b :: 0 <= a < b < |ts| - 1 ==> Without(ts, i)[a].Key() != Without(ts, i)[b].Key()
  {
    WithoutAt(ts, i);
    forall a, b | 0 <= a < b < |ts| - 1 ensures Without(ts, i)[a].Key() != Without(ts, i)[b].Key() {
      assert Skip(i, a) < Skip(i, b);
    }
  }

  lemma RemoveSame(parked: map<Key, Train>, ts: seq<Train>, key: Key, i: nat)
    requires SameParked(parked, ts) && i < |ts| && ts[i].Key() == key
    ensures SameParked(parked - {key}, Without(ts, i))
  {
    var rest, left := Without(ts, i), parked - {key};
    forall j | 0 <= j < |rest| ensures rest[j].Key() in left && left[rest[j].Key()] == rest[j] {
      RemoveForward(parked, ts, key, i, j);
    }
    forall k | k in left ensures left[k] in rest {
      RemoveBackward(parked, ts, key, i, k);
    }
    RemoveDistinct(ts, i);
  }

  lemma TrySame(s: Node, r: RefNode, t: Train)
    requires Matches(s, r)
    ensures TryDeliver(s, t).out == RefTry(r, t).out && Matches(TryDeliver(s, t).node, RefTry(r, t).node)
  {
    SameDeliverable(s, r, t.Key());
    SameKeys(s.parked, r.parked);
    if RefReady(r, t.acks) && t.Key() !in r.done && !RefDeliverable(r, t.Key()) && t.Key() !in s.parked {
      ParkSame(s.parked, r.parked, t);
    }
  }

  lemma ParkSame(parked: map<Key, Train>, ts: seq<Train>, t: Train)
    requires SameParked(parked, ts) && t.Key() !in parked
    ensures SameParked(parked[t.Key() := t], ts + [t])
  {
    var more := ts + [t];
    assert more[|ts|] == t;
    forall k | k in parked ensures parked[k] in more {
      var x :| 0 <= x < |ts| && ts[x] == parked[k];
      assert more[x] == parked[k];
    }
  }

  lemma {:induction false} DrainSame(s: Node, r: RefNode)
    requires Matches(s, r)
    ensures Drain(s).out == RefDrain(r).out && Matches(Drain(s).node, RefDrain(r).node)
    decreases |s.parked|
  {
    SameKeys(s.parked, r.parked);
    assert s.parked == map[] <==> r.parked == [] by {
      if r.parked != [] { assert r.parked[0].Key() in s.parked; }
    }
    if s.parked != map[] {
      var key := Min(s.parked.Keys);
      SameDeliverable(s, r, key);
      if Deliverable(s, key) {
        var i := IndexOf(r.parked, key);
        TurnSame(s, r, key, i);
        DrainSame(Record(s.(parked := s.parked - {key}), key, s.parked[key].payloads).node,
                  RefRecord(r.(parked := Without(r.parked, i)), key, r.parked[i].payloads).node);
      }
    }
  }

  /** One turn of both drains. */
  lemma TurnSame(s: Node, r: RefNode, key: Key, i: nat)
    requires Matches(s, r) && key in s.parked && i < |r.parked| && r.parked[i].Key() == key
    ensures var e := Record(s.(parked := s.parked - {key}), key, s.parked[key].payloads);
      var f := RefRecord(r.(parked := Without(r.parked, i)), key, r.parked[i].payloads);
      e.out == f.out && Matches(e.node, f.node) && |e.node.parked| < |s.parked|
  {
    RemoveSame(s.parked, r.parked, key, i);
    var rest := s.parked - {key};
    assert rest.Keys == s.parked.Keys - {key};
    assert |rest.Keys| == |s.parked.Keys| - 1;
  }

  lemma ForeignSame(s: Node, r: RefNode, t: Train)
    requires Matches(s, r) && t.issuer < s.ring.n && t.issuer != s.id && t.clock >= 1
    ensures HandleForeign(s, t).out == RefForeign(r, t).out && Matches(HandleForeign(s, t).node, RefForeign(r, t).node)
  {
    if IsReplay(s, t) {
      var s1, r1 := s.(known := s.known + Ids(t.payloads)), r.(known := r.known + Ids(t.payloads));
      TrySame(s1, r1, t);
      DrainSame(TryDeliver(s1, t).node, RefTry(r1, t).node);
    } else {
      QueueSorted(s.id, s.nextSeq, s.pending);
      var all := t.payloads + s.pending;
      DrainSame(AfterLoad(s, t), r.(seen := r.seen[t.issuer := t.clock], pending := [], known := r.known + Ids(all)));
    }
  }

  lemma ReturningSame(s: Node, r: RefNode, t: Train)
    requires Matches(s, r) && t.issuer == s.id
    ensures HandleReturning(s, t).out == RefReturning(r, t).out
    ensures Matches(HandleReturning(s, t).node, RefReturning(r, t).node)
  {
    var s1 := s.(seen := Bump(s.seen, s.id, t.clock));
    var r1 := if t.clock > r.seen[r.id] then r.(seen := r.seen[r.id := t.clock]) else r;
    if t.Key() in s.done {
      IssueSame(s1, r1);
    } else {
      TrySame(s1, r1, t);
      DrainSame(TryDeliver(s1, t).node, RefTry(r1, t).node);
    }
  }

  lemma IssueSame(s: Node, r: RefNode)
    requires Matches(s, r)
    ensures NewTrain(s) == RefIssue(r).0 && Matches(AfterIssue(s), RefIssue(r).1)
  {
    QueueSorted(s.id, s.nextSeq, s.pending);
  }

  /** A clock-0 train is where the two differ: the kernel's fence absorbs it. */
  predicate Comparable(input: Input) { input.TrainReceived? ==> input.train.clock >= 1 }

  /** One step: same outputs exactly when the train's clock is at least one. */
  lemma StepRefines(s: Node, r: RefNode, input: Input)
    requires Matches(s, r) && Accepts(s, input)
    ensures Step(s, input).out == RefStep(r, input).out <==> Comparable(input)
    ensures Comparable(input) ==> Matches(Step(s, input).node, RefStep(r, input).node)
  {
    match input
    case LocalBroadcast(data) =>
    case Tick =>
    case TrainReceived(t) =>
      if t.clock == 0 {
        ClockZeroForwarded(r, t);
      } else if t.issuer == s.id {
        ReturningSame(s, r, t);
      } else {
        ForeignSame(s, r, t);
      }
  }

  lemma ClockZeroForwarded(r: RefNode, t: Train)
    requires RefWf(r) && t.issuer < r.ring.n && t.clock == 0
    ensures RefStep(r, TrainReceived(t)).out != []
  {
  }

  ghost function Outputs(s: Node, ins: seq<Input>): seq<seq<Output>>
    requires Wf(s) && forall i :: 0 <= i < |ins| ==> Accepts(s, ins[i])
    decreases |ins|
  {
    if ins == [] then []
    else
      assert Accepts(s, ins[0]);
      assert forall i :: 0 <= i < |ins[1..]| ==> Accepts(s, ins[1..][i]);
      [Step(s, ins[0]).out] + Outputs(Step(s, ins[0]).node, ins[1..])
  }

  ghost function RefOutputs(r: RefNode, ins: seq<Input>): seq<seq<Output>>
    requires RefWf(r) && forall i :: 0 <= i < |ins| ==> RefAccepts(r, ins[i])
    decreases |ins|
  {
    if ins == [] then []
    else
      assert RefAccepts(r, ins[0]);
      assert forall i :: 0 <= i < |ins[1..]| ==> RefAccepts(r, ins[1..][i]);
      [RefStep(r, ins[0]).out] + RefOutputs(RefStep(r, ins[0]).node, ins[1..])
  }

  predicate AllComparable(ins: seq<Input>) { forall i :: 0 <= i < |ins| ==> Comparable(ins[i]) }

  lemma SplitHead(a: seq<Output>, x: seq<seq<Output>>, b: seq<Output>, y: seq<seq<Output>>)
    ensures [a] + x == [b] + y <==> a == b && x == y
  {
    assert ([a] + x)[0] == a && ([b] + y)[0] == b && ([a] + x)[1..] == x && ([b] + y)[1..] == y;
  }

  lemma ComparableHead(ins: seq<Input>)
    requires ins != []
    ensures AllComparable(ins) <==> Comparable(ins[0]) && AllComparable(ins[1..])
  {
    assert forall i :: 0 < i < |ins| ==> ins[i] == ins[1..][i - 1];
  }

  /**
   * Refinement: over a whole input sequence the two implementations return equal
   * output lists at every step if and only if no train carries clock 0.
   */
  lemma {:induction false} RunRefines(s: Node, r: RefNode, ins: seq<Input>)
    requires Matches(s, r) && forall i :: 0 <= i < |ins| ==> Accepts(s, ins[i])
    ensures forall i :: 0 <= i < |ins| ==> RefAccepts(r, ins[i])
    ensures Outputs(s, ins) == RefOutputs(r, ins) <==> AllComparable(ins)
    decreases |ins|
  {
    assert forall i :: 0 <= i < |ins| ==> Accepts(s, ins[i]) && RefAccepts(r, ins[i]);
    if ins != [] {
      ComparableHead(ins);
      StepRefines(s, r, ins[0]);
      var s1, r1 := Step(s, ins[0]), RefStep(r, ins[0]);
      assert forall i :: 0 <= i < |ins[1..]| ==> Accepts(s1.node, ins[1..][i]) && RefAccepts(r1.node, ins[1..][i]);
      SplitHead(s1.out, Outputs(s1.node, ins[1..]), r1.out, RefOutputs(r1.node, ins[1..]));
      if Comparable(ins[0]) { RunRefines(s1.node, r1.node, ins[1..]); }
    }
  }

  /** Fresh nodes match, before and after issuing the initial train. */
  lemma FreshMatch(ring: Ring, id: nat)
    requires id < ring.n
    ensures Matches(Fresh(ring, id, UniformTotalOrder), RefFresh(ring, id))
    ensures var s, r := Fresh(ring, id, UniformTotalOrder), RefFresh(ring, id);
      Matches(AfterIssue(s), RefIssue(r).1) && NewTrain(s) == RefIssue(r).0
  {
  }

  // ----- the reference's own log -----

  lemma RecordLog(r: RefNode, key: Key, payloads: seq<Payload>)
    ensures RefRecord(r, key, payloads).node.delivered == r.delivered + Delivered(RefRecord(r, key, payloads).out)
  {
    var out := RefRecord(r, key, payloads).out;
    assert out == [] || Delivered(out) == SortPayloads(payloads) + Delivered([]);
  }

  lemma TryLog(r: RefNode, t: Train)
    requires RefWf(r)
    ensures RefTry(r, t).node.delivered == r.delivered + Delivered(RefTry(r, t).out)
  {
    RecordLog(r, t.Key(), t.payloads);
  }

  lemma {:induction false} DrainLog(r: RefNode)
    requires RefWf(r)
    ensures RefDrain(r).node.delivered == r.delivered + Delivered(RefDrain(r).out)
    decreases |r.parked|
  {
    if r.parked != [] {
      assert r.parked[0].Key() in ParkedKeys(r.parked);
      var key := Min(ParkedKeys(r.parked));
      if RefDeliverable(r, key) {
        var i := IndexOf(r.parked, key);
        var r1 := r.(parked := Without(r.parked, i));
        RecordLog(r1, key, r.parked[i].payloads);
        var e1 := RefRecord(r1, key, r.parked[i].payloads);
        DrainLog(e1.node);
        DeliveredConcat(e1.out, RefDrain(e1.node).out);
        Assoc(r.delivered, Delivered(e1.out), Delivered(RefDrain(e1.node).out));
      }
    }
  }

  lemma Silent(t: Train, gap: seq<Output>)
    requires gap == [] || exists q :: gap == [DeclareCrash(q)]
    ensures Delivered([ForwardTrain(t)]) == [] && Delivered(gap) == []
  {
    assert Delivered([ForwardTrain(t)]) == [] + Delivered([]);
    if gap != [] { assert Delivered(gap) == [] + Delivered([]); }
  }

  lemma Around(a: seq<Output>, t: Train, b: seq<Output>)
    ensures Delivered(a + [ForwardTrain(t)] + b) == Delivered(a) + Delivered(b)
    ensures Delivered(a + b + [ForwardTrain(t)]) == Delivered(a) + Delivered(b)
  {
    Silent(t, []);
    DeliveredConcat(a, [ForwardTrain(t)]);
    DeliveredConcat(a + [ForwardTrain(t)], b);
    DeliveredConcat(a, b);
    DeliveredConcat(a + b, [ForwardTrain(t)]);
  }

  lemma TryDrainLog(r: RefNode, t: Train)
    requires RefWf(r)
    ensures var e1 := RefTry(r, t); var e2 := RefDrain(e1.node);
      e2.node.delivered == r.delivered + (Delivered(e1.out) + Delivered(e2.out))
  {
    var e1 := RefTry(r, t);
    TryLog(r, t);
    DrainLog(e1.node);
    Assoc(r.delivered, Delivered(e1.out), Delivered(RefDrain(e1.node).out));
  }

  lemma ReplayLog(r: RefNode, t: Train)
    requires RefWf(r) && t.issuer < r.ring.n && r.seen[t.issuer] >= t.clock && r.seen[t.issuer] > 0
    ensures RefForeign(r, t).node.delivered == r.delivered + Delivered(RefForeign(r, t).out)
  {
    var r1 := r.(known := r.known + Ids(t.payloads));
    TryDrainLog(r1, t);
    Around(RefTry(r1, t).out, t, RefDrain(RefTry(r1, t).node).out);
  }

  lemma FirstSightLog(r: RefNode, t: Train)
    requires RefWf(r) && t.issuer < r.ring.n && !(r.seen[t.issuer] >= t.clock && r.seen[t.issuer] > 0)
    ensures RefForeign(r, t).node.delivered == r.delivered + Delivered(RefForeign(r, t).out)
  {
    var gap := if t.clock > r.seen[t.issuer] + 1 then [DeclareCrash(t.issuer)] else [];
    var all := t.payloads + SortPayloads(r.pending);
    var t' := t.(payloads := all, acks := t.acks + {r.id});
    var r1 := r.(seen := r.seen[t.issuer := t.clock], pending := [], known := r.known + Ids(all));
    DrainLog(r1);
    Silent(t', gap);
    Around(gap, t', RefDrain(r1).out);
    assert [] + Delivered(RefDrain(r1).out) == Delivered(RefDrain(r1).out);
  }

  lemma ForeignLog(r: RefNode, t: Train)
    requires RefWf(r) && t.issuer < r.ring.n
    ensures RefForeign(r, t).node.delivered == r.delivered + Delivered(RefForeign(r, t).out)
  {
    if r.seen[t.issuer] >= t.clock && r.seen[t.issuer] > 0 { ReplayLog(r, t); } else { FirstSightLog(r, t); }
  }

  lemma ReturningLog(r: RefNode, t: Train)
    requires RefWf(r)
    ensures RefReturning(r, t).node.delivered == r.delivered + Delivered(RefReturning(r, t).out)
  {
    var r1 := if t.clock > r.seen[r.id] then r.(seen := r.seen[r.id := t.clock]) else r;
    if t.Key() in r1.done {
      Silent(RefIssue(r1).0, []);
    } else {
      TryDrainLog(r1, t);
      Around(RefTry(r1, t).out, t, RefDrain(RefTry(r1, t).node).out);
    }
  }

  /** The reference's `delivered` vector grows by exactly what its outputs deliver. */
  lemma ReferenceLog(r: RefNode, input: Input)
    requires RefWf(r) && RefAccepts(r, input)
    ensures RefStep(r, input).node.delivered == r.delivered + Delivered(RefStep(r, input).out)
  {
    if input.TrainReceived? {
      if input.train.issuer == r.id { ReturningLog(r, input.train); } else { ForeignLog(r, input.train); }
    }
  }
}
