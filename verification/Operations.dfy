// Runs of every kernel operation, view changes included: no key is ever
// recorded twice, old-view trains are fenced out for good, issued clocks are
// fresh, and a plan can be re-applied without effect.

module Operations {
  import opened Types
  import opened Kernel
  import opened LocalOrder
  import opened Recovery

  datatype Op =
    | Do(input: Input)
    | Confirm(p: nat)
    | Admit(p: nat)
    | Suspend
    | Install(plan: Plan)
    | Reissue

  predicate Allowed(s: Node, op: Op) {
    && Wf(s)
    && (op.Do? ==> Accepts(s, op.input))
    && (op.Install? ==> PlanFor(s.ring.n, op.plan))
  }

  function Perform(s: Node, op: Op): (r: Effect)
    requires Allowed(s, op)
    ensures Wf(r.node) && r.node.ring == s.ring && r.node.id == s.id
  {
    match op
    case Do(input) => Step(s, input)
    case Confirm(p) => ConfirmCrash(s, p)
    case Admit(p) => Effect(Readmit(s, p), [])
    case Suspend => Effect(Freeze(s), [])
    case Install(plan) => Apply(s, plan)
    case Reissue => Effect(AfterIssue(s), [ForwardTrain(NewTrain(s))])
  }

  ghost predicate OpRun(s: Node, ops: seq<Op>, s': Node)
    decreases |ops|
  {
    if ops == [] then s' == s
    else Allowed(s, ops[0]) && OpRun(Perform(s, ops[0]).node, ops[1..], s')
  }

  // ----- parked and done stay apart -----

  lemma TryTidy(s: Node, t: Train)
    requires Tidy(s) && t.issuer < s.ring.n && 1 <= t.clock <= s.seen[t.issuer]
    requires !s.frozen && t.Key() in s.parked ==> !Deliverable(s, t.Key())
    ensures Tidy(TryDeliver(s, t).node)
  {
    var s' := TryDeliver(s, t).node;
    if s.frozen || !Ready(s, t.acks) || t.Key() in s.done {
    } else if !Deliverable(s, t.Key()) {
      forall k | k in s'.parked ensures Held(s', k) {
        if k in s.parked { assert Held(s, k); }
      }
    } else {
      RecordTidy(s, t.Key(), t.payloads);
    }
  }

  lemma {:induction false} DrainSound(s: Node)
    requires Tidy(s)
    ensures Sound(Drain(s).node)
    decreases |s.parked|
  {
    if !s.frozen && s.parked != map[] {
      var key := Min(s.parked.Keys);
      if Deliverable(s, key) {
        assert Held(s, key);
        var rest := s.parked - {key};
        assert rest.Keys == s.parked.Keys - {key};
        assert |rest.Keys| == |s.parked.Keys| - 1;
        var s1 := s.(parked := rest);
        forall k | k in s1.parked ensures Held(s1, k) { assert Held(s, k); }
        RecordTidy(s1, key, s.parked[key].payloads);
        DrainSound(Record(s1, key, s.parked[key].payloads).node);
      } else {
        SmallestBlocks(s);
      }
    }
  }

  lemma AdvanceTidy(s: Node, s': Node)
    requires Tidy(s) && Wf(s') && s'.ring == s.ring && s'.done == s.done && s'.parked.Keys <= s.parked.Keys
    requires forall k :: k in s'.parked ==> s'.parked[k] == s.parked[k]
    requires forall q :: 0 <= q < s.ring.n ==> s.seen[q] <= s'.seen[q]
    ensures Tidy(s')
  {
    forall k | k in s'.parked ensures Held(s', k) { assert Held(s, k); }
  }

  lemma TrainSound(s: Node, t: Train)
    requires Sound(s) && t.issuer < s.ring.n && !Fenced(s, t)
    ensures Sound(HandleTrain(s, t).node)
  {
    if t.issuer == s.id {
      var s1 := s.(seen := Bump(s.seen, s.id, t.clock));
      AdvanceTidy(s, s1);
      if t.Key() in s.done {
        assert s1 == s;
        AdvanceTidy(s, AfterIssue(s));
        SameClocksQuiet(s, AfterIssue(s));
      } else {
        ReturningNotParked(s, t);
        TryTidy(s1, t);
        DrainSound(TryDeliver(s1, t).node);
      }
    } else if IsReplay(s, t) {
      var s1 := s.(known := s.known + Ids(t.payloads));
      AdvanceTidy(s, s1);
      SameClocksQuiet(s, s1);
      TryTidy(s1, t);
      DrainSound(TryDeliver(s1, t).node);
    } else {
      AdvanceTidy(s, AfterLoad(s, t));
      DrainSound(AfterLoad(s, t));
    }
  }

  lemma ReadmitSound(s: Node, p: nat)
    requires Sound(s)
    ensures Sound(Readmit(s, p))
  {
    var s' := Readmit(s, p);
    AdvanceTidy(s, s');
    forall k | k in s'.parked && !s'.frozen ensures !Deliverable(s', k) {
      assert !Deliverable(s, k);
      assert KnownBeforeDone(s', k) ==> KnownBeforeDone(s, k);
      assert ClocksCaughtUp(s', k) ==> ClocksCaughtUp(s, k);
    }
  }

  lemma ApplyKeyTidy(s: Node, k: Key, action: Action)
    requires Tidy(s) && k.issuer < s.ring.n && 1 <= k.clock
    ensures Tidy(ApplyKey(s, k, action).node)
  {
    var s1 := s.(seen := Bump(s.seen, k.issuer, k.clock), parked := s.parked - {k});
    AdvanceTidy(s, s1);
    if k !in s.done {
      match action
      case Resend(ps) => RecordTidy(s1.(known := s1.known + Ids(ps)), k, ps);
      case Skip => RecordTidy(s1, k, []);
    }
  }

  lemma {:induction false} ApplyActionsTidy(s: Node, acts: map<Key, Action>)
    requires Tidy(s) && forall k :: k in acts ==> k.issuer < s.ring.n && 1 <= k.clock
    ensures Tidy(ApplyActions(s, acts).node)
    decreases |acts|
  {
    if acts != map[] {
      var k := Min(acts.Keys);
      var rest := acts - {k};
      assert rest.Keys == acts.Keys - {k};
      assert |rest.Keys| == |acts.Keys| - 1;
      ApplyKeyTidy(s, k, acts[k]);
      ApplyActionsTidy(ApplyKey(s, k, acts[k]).node, rest);
    }
  }

  lemma ApplySound(s: Node, plan: Plan)
    requires Tidy(s) && PlanFor(s.ring.n, plan)
    ensures Sound(Apply(s, plan).node)
  {
    ApplyActionsTidy(s, plan.actions);
    var s1 := ApplyActions(s, plan.actions).node;
    AdvanceTidy(s1, InstallView(s1, plan));
    DrainSound(InstallView(s1, plan));
  }

  lemma PerformSound(s: Node, op: Op)
    requires Sound(s) && Allowed(s, op)
    ensures Sound(Perform(s, op).node)
  {
    match op
    case Do(input) =>
      match input {
        case LocalBroadcast(data) =>
          AdvanceTidy(s, Broadcast(s, data));
          SameClocksQuiet(s, Broadcast(s, data));
        case Tick =>
        case TrainReceived(t) => if !Fenced(s, t) { TrainSound(s, t); }
      }
    case Confirm(p) =>
      AdvanceTidy(s, s.(crashed := s.crashed + {p}));
      DrainSound(s.(crashed := s.crashed + {p}));
    case Admit(p) => ReadmitSound(s, p);
    case Suspend => AdvanceTidy(s, Freeze(s));
    case Install(plan) => ApplySound(s, plan);
    case Reissue =>
      AdvanceTidy(s, AfterIssue(s));
      SameClocksQuiet(s, AfterIssue(s));
  }

  /**
   * No key is delivered twice: in every run of step, confirm_crash,
   * readmit_node, freeze, apply_recovery and reissue, parked and done keys stay
   * disjoint and, outside a freeze, nothing parked is deliverable; so a key that
   * try_deliver records is never also drained.
   */
  lemma {:induction false} NoKeyTwice(s: Node, ops: seq<Op>, s': Node)
    requires Sound(s) && OpRun(s, ops, s')
    ensures Sound(s') && s'.ring == s.ring && s'.id == s.id
    ensures s'.parked.Keys !! s'.done
    ensures !s'.frozen && s'.parked != map[] ==> !Deliverable(s', Min(s'.parked.Keys))
    decreases |ops|
  {
    if ops != [] {
      PerformSound(s, ops[0]);
      NoKeyTwice(Perform(s, ops[0]).node, ops[1..], s');
    } else {
      forall k | k in s'.parked ensures k !in s'.done { assert Held(s', k); }
    }
  }

  /** Every key this drain records is new when it is recorded. */
  ghost predicate DrainsFresh(s: Node)
    requires Wf(s)
    decreases |s.parked|
  {
    if s.frozen || s.parked == map[] then true
    else
      var key := Min(s.parked.Keys);
      var rest := s.parked - {key};
      assert rest.Keys == s.parked.Keys - {key};
      assert |rest.Keys| == |s.parked.Keys| - 1;
      !Deliverable(s, key)
      || (key !in s.done && DrainsFresh(Record(s.(parked := rest), key, s.parked[key].payloads).node))
  }

  /**
   * `record_delivered` asserts in debug builds that its key is new.  The two
   * other callers test first; the drain does not, and need not: from a tidy
   * state, so in every run of `NoKeyTwice`, it never records a key again.
   */
  lemma {:induction false} RecordsAreFresh(s: Node)
    requires Tidy(s)
    ensures DrainsFresh(s)
    decreases |s.parked|
  {
    if !s.frozen && s.parked != map[] {
      var key := Min(s.parked.Keys);
      if Deliverable(s, key) {
        assert Held(s, key);
        var rest := s.parked - {key};
        assert rest.Keys == s.parked.Keys - {key};
        assert |rest.Keys| == |s.parked.Keys| - 1;
        AdvanceTidy(s, s.(parked := rest));
        RecordTidy(s.(parked := rest), key, s.parked[key].payloads);
        RecordsAreFresh(Record(s.(parked := rest), key, s.parked[key].payloads).node);
      }
    }
  }

  // ----- what never goes back -----

  predicate Forward(s: Node, s': Node) {
    && Wf(s) && Wf(s') && s'.ring == s.ring && s'.id == s.id
    && s.done <= s'.done
    && s.issueClock <= s'.issueClock
    && (forall q :: 0 <= q < s.ring.n ==> s.floor[q] <= s'.floor[q])
  }

  lemma PerformForward(s: Node, op: Op)
    requires Allowed(s, op)
    ensures Forward(s, Perform(s, op).node)
  {
  }

  lemma {:induction false} RunForward(s: Node, ops: seq<Op>, s': Node)
    requires Wf(s) && OpRun(s, ops, s')
    ensures Forward(s, s')
    decreases |ops|
  {
    if ops != [] {
      PerformForward(s, ops[0]);
      RunForward(Perform(s, ops[0]).node, ops[1..], s');
    }
  }

  /**
   * Fencing: once a plan is applied, a train at or below its boundary produces
   * no output and no state change, for the rest of any run.
   */
  lemma FencedForever(s: Node, plan: Plan, ops: seq<Op>, s': Node, t: Train)
    requires Wf(s) && PlanFor(s.ring.n, plan)
    requires OpRun(Apply(s, plan).node, ops, s')
    requires t.issuer < s.ring.n && t.clock <= plan.boundary[t.issuer]
    ensures Wf(s') && s'.ring == s.ring
    ensures Step(s', TrainReceived(t)) == Effect(s', [])
  {
    RunForward(Apply(s, plan).node, ops, s');
  }

  // ----- issued clocks -----

  /** The clock this operation stamps on a train of our own, if it stamps one. */
  function Stamped(s: Node, op: Op): seq<nat>
    requires Allowed(s, op)
  {
    if op.Reissue? then [s.issueClock]
    else if op.Do? && op.input.TrainReceived? && !Fenced(s, op.input.train)
            && op.input.train.issuer == s.id && op.input.train.Key() in s.done
    then [s.issueClock]
    else []
  }

  /** A forwarded train is the one received, the one received with our load, or a stamped one. */
  lemma StampedIsIssued(s: Node, op: Op)
    requires Allowed(s, op)
    ensures var r := Perform(s, op);
      if Stamped(s, op) == [] then r.node.issueClock == s.issueClock || op.Install?
      else r.node.issueClock == s.issueClock + 1 && r.out == [ForwardTrain(NewTrain(s))]
  {
  }

  ghost function StampedInRun(s: Node, ops: seq<Op>): seq<nat>
    decreases |ops|
  {
    if ops == [] || !Allowed(s, ops[0]) then []
    else Stamped(s, ops[0]) + StampedInRun(Perform(s, ops[0]).node, ops[1..])
  }

  /** Freshness: the clocks a node stamps strictly increase over any run with view changes. */
  lemma {:induction false} IssuedClocksAscend(s: Node, ops: seq<Op>, s': Node)
    requires Wf(s) && OpRun(s, ops, s')
    ensures AscendingWithin(StampedInRun(s, ops), s.issueClock, s'.issueClock)
    decreases |ops|
  {
    if ops != [] {
      var s1 := Perform(s, ops[0]).node;
      PerformForward(s, ops[0]);
      StampedIsIssued(s, ops[0]);
      IssuedClocksAscend(s1, ops[1..], s');
      RunForward(s1, ops[1..], s');
      AscendingAppend(Stamped(s, ops[0]), StampedInRun(s1, ops[1..]), s.issueClock, s1.issueClock, s'.issueClock);
    }
  }

  predicate AscendingWithin(c: seq<nat>, lo: nat, hi: nat) {
    && (forall i :: 0 <= i < |c| ==> lo <= c[i] < hi)
    && (forall i, j :: 0 <= i < j < |c| ==> c[i] < c[j])
  }

  lemma AscendingAppend(a: seq<nat>, b: seq<nat>, lo: nat, mid: nat, hi: nat)
    requires AscendingWithin(a, lo, mid) && AscendingWithin(b, mid, hi) && lo <= mid <= hi
    ensures AscendingWithin(a + b, lo, hi)
  {
  }

  // ----- re-applying a plan -----

  lemma KeySpent(s: Node, k: Key, action: Action)
    requires Tidy(s) && k in s.done
    ensures ApplyKey(s, k, action) == Effect(s, [])
  {
    assert k in s.parked ==> Held(s, k);
    assert s.parked - {k} == s.parked;
  }

  lemma {:induction false} ActionsSpent(s: Node, acts: map<Key, Action>)
    requires Tidy(s) && acts.Keys <= s.done
    ensures ApplyActions(s, acts) == Effect(s, [])
    decreases |acts|
  {
    if acts != map[] {
      var k := Min(acts.Keys);
      TakeOut(s.done, acts, k);
      KeySpent(s, k, acts[k]);
      ActionsSpent(s, acts - {k});
      NothingAfter(ApplyKey(s, k, acts[k]).out);
    }
  }

  /**
   * Idempotence: after any further operations, applying the plan again only
   * lifts the freeze and drains; outside a freeze it changes and delivers
   * nothing at all.
   */
  lemma ReapplyIsHarmless(s: Node, plan: Plan, ops: seq<Op>, s': Node)
    requires Sound(s) && PlanFor(s.ring.n, plan)
    requires OpRun(Apply(s, plan).node, ops, s')
    ensures Wf(s') && s'.ring == s.ring
    ensures Apply(s', plan) == Drain(s'.(frozen := false))
    ensures !s'.frozen ==> Apply(s', plan) == Effect(s', [])
  {
    ApplySound(s, plan);
    var s1 := Apply(s, plan).node;
    NoKeyTwice(s1, ops, s');
    RunForward(s1, ops, s');
    ReapplyUnfreezes(s', plan);
  }

  lemma ReapplyUnfreezes(s: Node, plan: Plan)
    requires Sound(s) && PlanFor(s.ring.n, plan) && plan.actions.Keys <= s.done
    requires forall q :: 0 <= q < s.ring.n ==> plan.boundary[q] <= s.floor[q]
    requires plan.boundary[s.id] < s.issueClock
    ensures Apply(s, plan) == Drain(s.(frozen := false))
    ensures !s.frozen ==> Apply(s, plan) == Effect(s, [])
  {
    ActionsSpent(s, plan.actions);
    assert Raised(s.floor, plan.boundary) == s.floor;
    var s1 := s.(frozen := false);
    assert InstallView(s, plan) == s1;
    assert [] + Drain(s1).out == Drain(s1).out;
    assert !s.frozen ==> s1 == s;
  }
}
