// The TRAINS kernel as pure functions on a node's state: what one `step` and
// each recovery operation computes.  `TrainsNode.dfy` holds the imperative
// class that is proved equal to these functions.

module Kernel {
  import opened Types

  datatype Mode = UniformTotalOrder | TotalOrder | CausalOrder

  datatype Input = LocalBroadcast(data: Bytes) | TrainReceived(train: Train) | Tick

  datatype Output = ForwardTrain(train: Train) | Deliver(payloads: seq<Payload>) | DeclareCrash(issuer: nat)

  const CACHE_CAP: nat := 1024

  datatype Node = Node(
    ring: Ring,
    id: nat,
    mode: Mode,
    seen: seq<nat>,                  // clock_state.seen
    done: set<Key>,                  // delivery.done_keys
    crashed: set<nat>,               // delivery.crashed_bits
    issueClock: nat,                 // next_issue_clock
    nextSeq: nat,
    pending: seq<Payload>,
    parked: map<Key, Train>,
    known: set<Id>,                  // broadcast_seen
    cache: map<Key, seq<Payload>>,   // delivered_cache
    floor: seq<nat>,                 // view_floor
    frozen: bool)

  predicate Wf(s: Node) {
    |s.seen| == s.ring.n && |s.floor| == s.ring.n && s.id < s.ring.n
  }

  datatype Effect = Effect(node: Node, out: seq<Output>)

  function Zeros(n: nat): (z: seq<nat>)
    ensures |z| == n && forall i :: 0 <= i < n ==> z[i] == 0
  {
    seq(n, i => 0)
  }

  function Fresh(ring: Ring, id: nat, mode: Mode): (s: Node)
    requires id < ring.n
  {
    Node(ring, id, mode, Zeros(ring.n), {}, {}, 1, 0, [], map[], {}, map[], Zeros(ring.n), false)
  }

  // ----- clocks -----

  datatype ClockCheck = Ok | Gap(expected: nat, received: nat) | Duplicate

  function CheckClock(prev: nat, clock: nat): ClockCheck {
    if clock == prev then Duplicate
    else if clock == prev + 1 then Ok
    else if clock > prev then Gap(prev + 1, clock)
    else Duplicate
  }

  function Bump(seen: seq<nat>, q: nat, clock: nat): (r: seq<nat>)
    requires q < |seen|
    ensures |r| == |seen|
    ensures forall i :: 0 <= i < |seen| && i != q ==> r[i] == seen[i]
    ensures r[q] == if clock > seen[q] then clock else seen[q]
  {
    if clock > seen[q] then seen[q := clock] else seen
  }

  // ----- delivery conditions -----

  function Members(ring: Ring, crashed: set<nat>): set<nat> {
    set p | 0 <= p < ring.n && p !in crashed
  }

  predicate Ready(s: Node, acks: set<nat>) {
    match s.mode
    case UniformTotalOrder => acks == Members(s.ring, {})
    case TotalOrder => Members(s.ring, s.crashed) <= acks
    case CausalOrder => false
  }

  predicate ClocksCaughtUp(s: Node, key: Key)
    requires Wf(s)
  {
    forall q :: 0 <= q < s.ring.k && q !in s.crashed ==> s.seen[q] >= key.clock
  }

  predicate KnownBeforeDone(s: Node, key: Key)
    requires Wf(s)
  {
    forall q, cl :: 0 <= q < s.ring.n && 1 <= cl <= s.seen[q] && Before(ClockKey(cl, q), key)
      ==> ClockKey(cl, q) in s.done
  }

  predicate Deliverable(s: Node, key: Key)
    requires Wf(s)
  {
    && (forall p :: p in s.parked ==> !Before(p, key))
    && KnownBeforeDone(s, key)
    && ClocksCaughtUp(s, key)
  }

  // ----- recording, delivering, draining -----

  function Evict(cache: map<Key, seq<Payload>>): (r: map<Key, seq<Payload>>)
    ensures r.Keys <= cache.Keys && forall k :: k in r ==> r[k] == cache[k]
    ensures |cache| <= CACHE_CAP ==> r == cache
    ensures |cache| >= CACHE_CAP ==> |r| == CACHE_CAP
    decreases |cache|
  {
    if |cache| > CACHE_CAP then
      var m := Min(cache.Keys);
      var rest := cache - {m};
      assert rest.Keys == cache.Keys - {m};
      assert |rest.Keys| == |cache.Keys| - 1;
      Evict(rest)
    else cache
  }

  /** `record_delivered`, `cache_delivered` and the `Deliver` output. */
  function Record(s: Node, key: Key, payloads: seq<Payload>): (r: Effect)
    ensures r.node == s.(done := s.done + {key}, cache := r.node.cache)
  {
    var s1 := s.(done := s.done + {key});
    if payloads == [] then Effect(s1, [])
    else Effect(s1.(cache := Evict(s1.cache[key := payloads])), [Deliver(SortPayloads(payloads))])
  }

  function TryDeliver(s: Node, t: Train): (r: Effect)
    requires Wf(s)
    ensures r.node == s.(done := r.node.done, parked := r.node.parked, cache := r.node.cache)
    ensures forall o :: o in r.out ==> o.Deliver?
    ensures s.done <= r.node.done
  {
    var key := t.Key();
    if s.frozen || !Ready(s, t.acks) || key in s.done then Effect(s, [])
    else if !Deliverable(s, key) then
      Effect(if key in s.parked then s else s.(parked := s.parked[key := t]), [])
    else Record(s, key, t.payloads)
  }

  function Drain(s: Node): (r: Effect)
    requires Wf(s)
    ensures r.node == s.(done := r.node.done, parked := r.node.parked, cache := r.node.cache)
    ensures forall o :: o in r.out ==> o.Deliver?
    ensures s.done <= r.node.done
    decreases |s.parked|
  {
    if s.frozen || s.parked == map[] then Effect(s, [])
    else
      var key := Min(s.parked.Keys);
      if !Deliverable(s, key) then Effect(s, [])
      else
        var rest := s.parked - {key};
        assert rest.Keys == s.parked.Keys - {key};
        assert |rest.Keys| == |s.parked.Keys| - 1;
        var r1 := Record(s.(parked := rest), key, s.parked[key].payloads);
        var r2 := Drain(r1.node);
        Effect(r2.node, r1.out + r2.out)
  }

  // ----- step -----

  function Broadcast(s: Node, data: Bytes): Node {
    if (s.id, s.nextSeq) in s.known then s
    else s.(known := s.known + {(s.id, s.nextSeq)},
            pending := s.pending + [Payload(s.id, s.nextSeq, data)],
            nextSeq := s.nextSeq + 1)
  }

  function NewTrain(s: Node): Train {
    Train(s.id, s.issueClock, s.pending, {s.id})
  }

  function AfterIssue(s: Node): Node {
    s.(issueClock := s.issueClock + 1, known := s.known + Ids(s.pending), pending := [])
  }

  predicate IsReplay(s: Node, t: Train)
    requires Wf(s) && t.issuer < s.ring.n
  {
    s.seen[t.issuer] >= t.clock && s.seen[t.issuer] > 0
  }

  /** First sight of a train: load pending payloads and acknowledge. */
  function Loaded(s: Node, t: Train): Train {
    t.(payloads := t.payloads + s.pending, acks := t.acks + {s.id})
  }

  function AfterLoad(s: Node, t: Train): Node
    requires Wf(s) && t.issuer < s.ring.n
  {
    s.(seen := Bump(s.seen, t.issuer, t.clock),
       pending := [],
       known := s.known + Ids(t.payloads + s.pending))
  }

  function HandleForeign(s: Node, t: Train): Effect
    requires Wf(s) && t.issuer < s.ring.n
  {
    if IsReplay(s, t) then
      var r1 := TryDeliver(s.(known := s.known + Ids(t.payloads)), t);
      var r2 := Drain(r1.node);
      Effect(r2.node, r1.out + [ForwardTrain(t)] + r2.out)
    else
      var gap := if CheckClock(s.seen[t.issuer], t.clock).Gap? then [DeclareCrash(t.issuer)] else [];
      var r := Drain(AfterLoad(s, t));
      Effect(r.node, gap + [ForwardTrain(Loaded(s, t))] + r.out)
  }

  function HandleReturning(s: Node, t: Train): Effect
    requires Wf(s)
  {
    var s1 := s.(seen := Bump(s.seen, s.id, t.clock));
    if t.Key() in s1.done then Effect(AfterIssue(s1), [ForwardTrain(NewTrain(s1))])
    else
      var r1 := TryDeliver(s1, t);
      var r2 := Drain(r1.node);
      Effect(r2.node, r1.out + r2.out + [ForwardTrain(t)])
  }

  predicate Fenced(s: Node, t: Train)
    requires Wf(s) && t.issuer < s.ring.n
  {
    t.clock <= s.floor[t.issuer]
  }

  function HandleTrain(s: Node, t: Train): Effect
    requires Wf(s) && t.issuer < s.ring.n
  {
    if Fenced(s, t) then Effect(s, [])
    else if t.issuer == s.id then HandleReturning(s, t)
    else HandleForeign(s, t)
  }

  /** A train from outside the ring would index `seen` out of bounds. */
  predicate Accepts(s: Node, input: Input) {
    input.TrainReceived? ==> input.train.issuer < s.ring.n
  }

  function Step(s: Node, input: Input): (r: Effect)
    requires Wf(s) && Accepts(s, input)
    ensures Wf(r.node) && r.node.id == s.id && r.node.ring == s.ring && r.node.mode == s.mode
    ensures r.node.floor == s.floor && r.node.crashed == s.crashed && r.node.frozen == s.frozen
    ensures s.done <= r.node.done
  {
    match input
    case LocalBroadcast(data) => Effect(Broadcast(s, data), [])
    case TrainReceived(t) => HandleTrain(s, t)
    case Tick => Effect(s, [])
  }

  // ----- membership -----

  function ConfirmCrash(s: Node, p: nat): Effect
    requires Wf(s)
  {
    Drain(s.(crashed := s.crashed + {p}))
  }

  function Readmit(s: Node, p: nat): Node { s.(crashed := s.crashed - {p}) }

  function Freeze(s: Node): Node { s.(frozen := true) }

  // ----- what a caller sees of an output list -----

  function Delivered(out: seq<Output>): seq<Payload> {
    if out == [] then []
    else (if out[0].Deliver? then out[0].payloads else []) + Delivered(out[1..])
  }

  function Sends(out: seq<Output>): set<Train> {
    set o | o in out && o.ForwardTrain? :: o.train
  }

  lemma {:induction false} DeliveredConcat(a: seq<Output>, b: seq<Output>)
    ensures Delivered(a + b) == Delivered(a) + Delivered(b)
  {
    if a == [] {
      assert a + b == b;
    } else {
      DeliveredConcat(a[1..], b);
      assert (a + b)[1..] == a[1..] + b;
    }
  }
}
