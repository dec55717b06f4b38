// A node that installs another's snapshot: what it may deliver and issue from
// then on, and when it can never broadcast again.

module Joiner {
  import opened Types
  import opened Kernel
  import opened LocalOrder
  import opened Recovery
  import opened Operations
  import opened Applying

  function Joined(s: Node, donor: Node): (r: Node)
    requires Wf(s) && Wf(donor) && donor.ring == s.ring
    ensures Wf(r) && r.ring == s.ring && r.id == s.id
  {
    Import(s, Export(donor))
  }

  /** Exporting what was imported gives the snapshot back, whatever the node held before. */
  lemma SnapshotRoundTrip(s: Node, snap: Snapshot)
    requires Wf(s) && |snap.seen| == s.ring.n && |snap.floor| == s.ring.n
    ensures Export(Import(s, snap)) == snap
    ensures Import(Import(s, snap), snap) == Import(s, snap)
  {
  }

  lemma JoinedInOrder(s: Node, donor: Node, e: Epoch)
    requires Wf(s) && donor.ring == s.ring && InOrder(donor, e)
    ensures InOrder(Joined(s, donor), e)
  {
    var j := Joined(s, donor);
    forall k | k in j.done - e.before ensures ClocksCaughtUp(j, k) { assert ClocksCaughtUp(donor, k); }
  }

  /**
   * The joiner continues where the donor stood: in every continuation by steps
   * its recorded keys stay an initial segment that extends the donor's, and the
   * next step delivers, in key order, only keys above everything the donor had
   * recorded in this view; no key of the donor's is ever delivered again.
   */
  lemma JoinerConsistent(s: Node, donor: Node, e: Epoch, ins: seq<Input>, j: Node, input: Input)
    requires Wf(s) && donor.ring == s.ring && InOrder(donor, e)
    requires StepRun(Joined(s, donor), e, ins, j) && Wf(j) && FromIssuers(j, e, input)
    ensures InOrder(j, e) && donor.done <= j.done
    ensures var r := Step(j, input);
      && Delivered(r.out) == LogOf(r.node.done - j.done, Arrivals(j, input))
      && (r.node.done - j.done) !! donor.done
      && forall k, d :: k in r.node.done - j.done && d in donor.done - e.before ==> Before(d, k)
  {
    JoinedInOrder(s, donor, e);
    TotalOrderInEveryRun(Joined(s, donor), e, ins, j);
    StepDelivers(j, input, e);
    LocalTotalOrder(j, input, e);
  }

  /**
   * Whatever the joiner does next, view changes included, every clock it stamps
   * on a train of its own is above every key of its slot the donor had recorded,
   * above the donor's fence, and above the clocks it stamped earlier.
   */
  lemma JoinerIssuesAbove(s: Node, donor: Node, ops: seq<Op>, j: Node, i: nat)
    requires Wf(s) && donor.ring == s.ring && Tidy(donor)
    requires OpRun(Joined(s, donor), ops, j) && i < |StampedInRun(Joined(s, donor), ops)|
    ensures var c := StampedInRun(Joined(s, donor), ops);
      && (forall k :: k in donor.done && k.issuer == s.id ==> k.clock < c[i])
      && donor.seen[s.id] < c[i] && donor.floor[s.id] < c[i]
      && (forall x :: 0 <= x < i ==> c[x] < c[i])
  {
    IssuedClocksAscend(Joined(s, donor), ops, j);
  }

  /** The joiner starts out sound and offers nothing to a view change, whatever it held before. */
  lemma JoinedSound(s: Node, donor: Node)
    requires Wf(s) && donor.ring == s.ring && Tidy(donor)
    ensures Sound(Joined(s, donor)) && CacheSane(Joined(s, donor)) && Have(Joined(s, donor)) == map[]
  {
  }

  /** Its first clock is the least the donor has neither fenced nor met. */
  lemma JoinerIssuesNext(s: Node, donor: Node, t: Train)
    requires Wf(s) && Wf(donor) && donor.ring == s.ring && t.issuer == s.id && t.clock >= 1
    ensures Fenced(donor, t) || IsReplay(donor, t) <==> t.clock < NewTrain(Joined(s, donor)).clock
  {
  }

  // ----- side by side with the donor -----

  /** Alike in all that decides deliveries. */
  predicate Alike(a: Node, b: Node) {
    && Wf(a) && Wf(b) && a.ring == b.ring && a.mode == b.mode && a.seen == b.seen && a.done == b.done
    && a.crashed == b.crashed && a.floor == b.floor && a.parked == b.parked && a.frozen == b.frozen
  }

  /** The same deliveries, and alike again. */
  predicate SameEffect(x: Effect, y: Effect) { Alike(x.node, y.node) && Delivered(x.out) == Delivered(y.out) }

  lemma RecordAlike(a: Node, b: Node, key: Key, ps: seq<Payload>)
    requires Alike(a, b)
    ensures SameEffect(Record(a, key, ps), Record(b, key, ps))
  {
  }

  lemma DeliverableAlike(a: Node, b: Node, key: Key)
    requires Alike(a, b)
    ensures Deliverable(a, key) <==> Deliverable(b, key)
  {
  }

  lemma {:induction false} DrainAlike(a: Node, b: Node)
    requires Alike(a, b)
    ensures SameEffect(Drain(a), Drain(b))
    decreases |a.parked|
  {
    if !a.frozen && a.parked != map[] {
      var key := Min(a.parked.Keys);
      DeliverableAlike(a, b, key);
      if Deliverable(a, key) {
        var rest := a.parked - {key};
        assert rest.Keys == a.parked.Keys - {key};
        assert |rest.Keys| == |a.parked.Keys| - 1;
        var x := Record(a.(parked := rest), key, a.parked[key].payloads);
        var y := Record(b.(parked := rest), key, a.parked[key].payloads);
        RecordAlike(a.(parked := rest), b.(parked := rest), key, a.parked[key].payloads);
        DrainAlike(x.node, y.node);
        DeliveredConcat(x.out, Drain(x.node).out);
        DeliveredConcat(y.out, Drain(y.node).out);
      }
    }
  }

  lemma TryAlike(a: Node, b: Node, t: Train)
    requires Alike(a, b)
    ensures SameEffect(TryDeliver(a, t), TryDeliver(b, t))
  {
    DeliverableAlike(a, b, t.Key());
    RecordAlike(a, b, t.Key(), t.payloads);
  }

  lemma ForeignAlike(a: Node, b: Node, t: Train)
    requires Alike(a, b) && t.issuer < a.ring.n && t.issuer != a.id && t.issuer != b.id
    ensures SameEffect(Step(a, TrainReceived(t)), Step(b, TrainReceived(t)))
  {
    if !Fenced(a, t) {
      if IsReplay(a, t) {
        ReplayAlike(a.(known := a.known + Ids(t.payloads)), b.(known := b.known + Ids(t.payloads)), t);
      } else {
        var gap := if CheckClock(a.seen[t.issuer], t.clock).Gap? then [DeclareCrash(t.issuer)] else [];
        DrainAlike(AfterLoad(a, t), AfterLoad(b, t));
        ForwardIsSilent(gap, Loaded(a, t), Drain(AfterLoad(a, t)).out);
        ForwardIsSilent(gap, Loaded(b, t), Drain(AfterLoad(b, t)).out);
      }
    }
  }

  lemma ReplayAlike(a: Node, b: Node, t: Train)
    requires Alike(a, b)
    ensures var x, y := TryDeliver(a, t), TryDeliver(b, t);
      SameEffect(Effect(Drain(x.node).node, x.out + [ForwardTrain(t)] + Drain(x.node).out),
                 Effect(Drain(y.node).node, y.out + [ForwardTrain(t)] + Drain(y.node).out))
  {
    var x, y := TryDeliver(a, t), TryDeliver(b, t);
    TryAlike(a, b, t);
    DrainAlike(x.node, y.node);
    ForwardIsSilent(x.out, t, Drain(x.node).out);
    ForwardIsSilent(y.out, t, Drain(y.node).out);
  }

  ghost function DeliveredFrom(s: Node, ts: seq<Train>): seq<Payload>
    requires Wf(s) && forall i :: 0 <= i < |ts| ==> ts[i].issuer < s.ring.n
    decreases |ts|
  {
    if ts == [] then []
    else
      var r := Step(s, TrainReceived(ts[0]));
      Delivered(r.out) + DeliveredFrom(r.node, ts[1..])
  }

  lemma {:induction false} RunAlike(a: Node, b: Node, ts: seq<Train>)
    requires Alike(a, b)
    requires forall i :: 0 <= i < |ts| ==> ts[i].issuer < a.ring.n && ts[i].issuer != a.id && ts[i].issuer != b.id
    ensures DeliveredFrom(a, ts) == DeliveredFrom(b, ts)
    decreases |ts|
  {
    if ts != [] {
      ForeignAlike(a, b, ts[0]);
      RunAlike(Step(a, TrainReceived(ts[0])).node, Step(b, TrainReceived(ts[0])).node, ts[1..]);
    }
  }

  /**
   * State transfer makes the joiner a twin of the donor: from a donor that is not
   * frozen and holds nothing parked, both deliver the same payloads in the same
   * order from any sequence of other processes' trains.
   */
  lemma JoinerMirrorsDonor(s: Node, donor: Node, ts: seq<Train>)
    requires Wf(s) && Wf(donor) && donor.ring == s.ring && donor.mode == s.mode
    requires !donor.frozen && donor.parked == map[]
    requires forall i :: 0 <= i < |ts| ==> ts[i].issuer < s.ring.n && ts[i].issuer != s.id && ts[i].issuer != donor.id
    ensures DeliveredFrom(Joined(s, donor), ts) == DeliveredFrom(donor, ts)
  {
    RunAlike(Joined(s, donor), donor, ts);
  }

  // ----- the rejoiner that cannot speak -----

  /** `next_seq` is not part of a snapshot, and the duplicate test comes before its increment. */
  predicate Mute(s: Node) { (s.id, s.nextSeq) in s.known && s.pending == [] }

  lemma MuteStays(s: Node, op: Op)
    requires Allowed(s, op) && Mute(s)
    ensures Mute(Perform(s, op).node)
  {
    match op
    case Do(input) => MuteStep(s, input);
    case Confirm(p) =>
    case Admit(p) =>
    case Suspend =>
    case Install(plan) => MuteActions(s, plan.actions);
    case Reissue =>
  }

  lemma MuteStep(s: Node, input: Input)
    requires Wf(s) && Accepts(s, input) && Mute(s)
    ensures Mute(Step(s, input).node)
  {
  }

  lemma MuteKey(s: Node, k: Key, action: Action)
    requires Wf(s) && Mute(s) && k.issuer < s.ring.n
    ensures Mute(ApplyKey(s, k, action).node)
  {
  }

  lemma {:induction false} MuteActions(s: Node, acts: map<Key, Action>)
    requires Wf(s) && Mute(s) && forall k :: k in acts ==> k.issuer < s.ring.n
    ensures Mute(ApplyActions(s, acts).node)
    decreases |acts|
  {
    if acts != map[] {
      var k := Min(acts.Keys);
      var rest := acts - {k};
      assert rest.Keys == acts.Keys - {k};
      assert |rest.Keys| == |acts.Keys| - 1;
      MuteKey(s, k, acts[k]);
      MuteActions(ApplyKey(s, k, acts[k]).node, rest);
    }
  }

  lemma {:induction false} MuteForever(s: Node, ops: seq<Op>, s': Node)
    requires Mute(s) && OpRun(s, ops, s')
    ensures Mute(s')
    decreases |ops|
  {
    if ops != [] {
      MuteStays(s, ops[0]);
      MuteForever(Perform(s, ops[0]).node, ops[1..], s');
    }
  }

  /** No continuation of any kind ever queues a payload. */
  ghost predicate NeverQueues(s: Node) {
    forall ops, s' :: OpRun(s, ops, s') ==> s'.pending == []
  }

  /**
   * A rejoiner is mute for ever if and only if the snapshot already knows the
   * payload number it would use next; for a freshly restarted node, if and only
   * if the donor has seen payload 0 of its earlier life.
   */
  lemma RejoinerMuteIff(s: Node, snap: Snapshot)
    requires Wf(s) && |snap.seen| == s.ring.n && |snap.floor| == s.ring.n
    ensures NeverQueues(Import(s, snap)) <==> (s.id, s.nextSeq) in snap.known
  {
    var j := Import(s, snap);
    if (s.id, s.nextSeq) in snap.known {
      forall ops, j' | OpRun(j, ops, j') ensures j'.pending == [] { MuteForever(j, ops, j'); }
    } else {
      var op := Do(LocalBroadcast([]));
      var j' := Perform(j, op).node;
      assert j'.pending == [Payload(s.id, s.nextSeq, [])];
      assert OpRun(j, [op], j') by { assert OpRun(j', [op][1..], j'); }
    }
  }
}
