// Why the view change needs the dead issuer's trains to be gone: one train of it
// that nobody had met, delivered late, splits the survivors' order.

module Straggler {
  import opened Types
  import opened Kernel
  import opened LocalOrder
  import opened Network
  import opened Recovery
  import opened Applying
  import opened TokenRing
  import opened ViewInstall
  import opened AfterInstall
  import opened AcrossInstall

  /** At the start no issuer's train has been met by anybody. */
  lemma StartIsJustLaunched(ring: Ring, mode: Mode, q: nat)
    requires q < ring.k
    ensures q < |RingStart(ring, mode).at| && JustLaunched(RingStart(ring, mode).at[q])
  {
  }

  // ----- node steps in the new view -----

  /** A member of the view without process 0, with nothing parked. */
  predicate Calm(n: Node) {
    Wf(n) && n.crashed == {0} && !n.frozen && n.mode == TotalOrder && n.parked == map[]
  }

  lemma FirstSight(n: Node, t: Train)
    requires Calm(n) && t.issuer < n.ring.n && !Fenced(n, t) && t.issuer != n.id && !IsReplay(n, t)
    ensures var r := Step(n, TrainReceived(t));
      r.node == AfterLoad(n, t) && Sends(r.out) == {Loaded(n, t)} && Delivered(r.out) == [] && Calm(r.node)
  {
    TrainShape(n, t);
    DrainNothing(AfterLoad(n, t));
    var gap := if CheckClock(n.seen[t.issuer], t.clock).Gap? then [DeclareCrash(t.issuer)] else [];
    assert Delivered(gap) == [] by { if gap != [] { assert Delivered(gap) == [] + Delivered(gap[1..]); } }
    ForwardIsSilent(gap, Loaded(n, t), []);
  }

  lemma Delivers(n: Node, t: Train)
    requires Calm(n) && t.issuer < n.ring.n && !Fenced(n, t) && t.issuer != n.id && IsReplay(n, t)
    requires Ready(n, t.acks) && t.Key() !in n.done && t.payloads != []
    requires KnownBeforeDone(n, t.Key()) && ClocksCaughtUp(n, t.Key())
    ensures var r := Step(n, TrainReceived(t));
      && Delivered(r.out) == SortPayloads(t.payloads)
      && Calm(r.node) && r.node.seen == n.seen && r.node.pending == n.pending && r.node.floor == n.floor
  {
    TrainShape(n, t);
    var n1 := n.(known := n.known + Ids(t.payloads));
    assert Deliverable(n1, t.Key());
    var r1 := TryDeliver(n1, t);
    DrainNothing(r1.node);
    ForwardIsSilent(r1.out, t, []);
    assert Delivered(r1.out) == SortPayloads(t.payloads) + Delivered(r1.out[1..]);
  }

  /** A train of our own that is not fully acked goes round unchanged. */
  lemma OwnUnready(n: Node, t: Train)
    requires Calm(n) && t.issuer == n.id && !Fenced(n, t) && t.Key() !in n.done && !Ready(n, t.acks)
    ensures var r := Step(n, TrainReceived(t));
      r.node == n.(seen := Bump(n.seen, n.id, t.clock)) && Sends(r.out) == {t} && Delivered(r.out) == []
  {
    TrainShape(n, t);
    var n1 := n.(seen := Bump(n.seen, n.id, t.clock));
    DrainNothing(n1);
    ForwardLast([], [], t);
    NothingAfter<Output>([]);
  }

  // ----- the start of the new view -----

  lemma {:induction false} SkipsKeepQueue(s: Node, acts: map<Key, Action>)
    requires Wf(s) && forall k :: k in acts ==> k.issuer < s.ring.n && acts[k].Skip?
    ensures var r := ApplyActions(s, acts);
      r.node.pending == s.pending && r.node.nextSeq == s.nextSeq && r.node.known == s.known && r.node.mode == s.mode
    decreases |acts|
  {
    if acts != map[] {
      var k := Min(acts.Keys);
      TakeOut(s.done, acts, k);
      SkipsKeepQueue(ApplyKey(s, k, acts[k]).node, acts - {k});
    }
  }

  lemma QueueAfterApply(x: Node, plan: Plan)
    requires Wf(x) && PlanFor(x.ring.n, plan) && forall k :: k in plan.actions ==> plan.actions[k].Skip?
    ensures var n := Apply(x, plan).node;
      n.pending == x.pending && n.nextSeq == x.nextSeq && n.known == x.known && n.mode == x.mode
  {
    SkipsKeepQueue(x, plan.actions);
  }

  /** The ring at its start, about to lose process 0. */
  ghost predicate AboutToLose(ring: Ring, rs: RingState, order: seq<nat>) {
    ring.n >= 3 && ring.k >= 2 && rs == RingStart(ring, TotalOrder) && Survivors(ring, 0, order)
  }

  /** Slot 0 is unresolved, the other issuers' first clocks are settled. */
  predicate FirstBoundary(ring: Ring, b: seq<nat>) {
    && |b| == ring.n && b[0] == 0 && (forall q :: 1 <= q < ring.k ==> b[q] == 1)
    && (forall q :: ring.k <= q < ring.n ==> b[q] == 0)
  }

  lemma StartTokens(ring: Ring, rs: RingState, q: nat)
    requires rs == RingStart(ring, TotalOrder) && q < ring.k
    ensures |rs.at| == ring.k && JustLaunched(rs.at[q]) && rs.at[q].train == Train(q, 1, [], {q}) && rs.sys.ring == ring
  {
  }

  lemma StartBoundary(ring: Ring, rs: LiveRing, order: seq<nat>, q: nat)
    requires AboutToLose(ring, rs, order) && q < ring.n
    ensures var b := PlanOf(rs.sys, 0, order).boundary;
      |b| == ring.n && b[q] == if 1 <= q < ring.k then 1 else 0
  {
    StartTokens(ring, rs, 0);
    if q == 0 {
      UnmetIsBeyond(rs, 0, order);
    } else if q < ring.k {
      StartTokens(ring, rs, q);
      BoundaryFromTokens(rs, 0, order, q);
    } else {
      BoundaryOnIssuers(rs, 0, order, q);
    }
  }

  lemma BoundaryIsFirst(ring: Ring, rs: LiveRing, order: seq<nat>)
    requires AboutToLose(ring, rs, order)
    ensures FirstBoundary(ring, PlanOf(rs.sys, 0, order).boundary)
  {
    forall q | 0 <= q < ring.n
      ensures var b := PlanOf(rs.sys, 0, order).boundary; |b| == ring.n && b[q] == if 1 <= q < ring.k then 1 else 0
    {
      StartBoundary(ring, rs, order, q);
    }
  }

  /** Nobody holds a payload, so every action is a skip. */
  lemma StartSkips(ring: Ring, rs: LiveRing, order: seq<nat>, k: Key)
    requires AboutToLose(ring, rs, order) && k in PlanOf(rs.sys, 0, order).actions
    ensures PlanOf(rs.sys, 0, order).actions[k].Skip?
  {
    StartUnhandled(ring, rs, order, k);
    NothingOffered(rs, 0, order, k);
    NoneToUnite(Reports(rs.sys, 0, order), k);
  }

  lemma StartUnhandled(ring: Ring, rs: LiveRing, order: seq<nat>, k: Key)
    requires AboutToLose(ring, rs, order)
    ensures forall p :: p in order ==> !Handled(rs.sys.nodes[p], k)
  {
  }

  lemma {:induction false} NoneToUnite(reports: seq<Report>, k: Key)
    requires forall r :: r in reports ==> k !in r.have
    ensures Union(reports, k) == []
  {
    if reports != [] {
      var prev := reports[..|reports| - 1];
      assert reports[|reports| - 1] in reports;
      forall r | r in prev ensures k !in r.have { assert r in reports; }
      NoneToUnite(prev, k);
    }
  }

  /** A survivor as the new view begins: level, with an empty queue. */
  predicate Newcomer(ring: Ring, b: seq<nat>, n: Node, p: nat) {
    && Level(n, b, 0) && n.ring == ring && n.id == p
    && n.mode == TotalOrder && n.pending == [] && n.nextSeq == 0 && n.known == {}
  }

  lemma NewcomerAfterInstall(ring: Ring, rs: LiveRing, order: seq<nat>, p: nat)
    requires AboutToLose(ring, rs, order) && p in order
    ensures Newcomer(ring, PlanOf(rs.sys, 0, order).boundary, Installed(rs.sys, 0, order).nodes[p], p)
  {
    var plan := PlanOf(rs.sys, 0, order);
    VirtualSynchrony(rs, 0, order, p);
    forall k | k in plan.actions ensures plan.actions[k].Skip? { StartSkips(ring, rs, order, k); }
    PlanFits(rs.sys, 0, order);
    QueueAfterApply(Excluded(rs.sys.nodes[p], 0), plan);
  }

  // ----- continuing the view -----

  const FROM_ONE: Payload := Payload(1, 0, [])
  const FROM_TWO: Payload := Payload(2, 0, [])
  /** The straggler: process 0's first train, which nobody had met. */
  const STRAY: Train := Train(0, 1, [], {0})

  /** An issuer's first train in the new view. */
  function Renewed(q: nat): Train { Train(q, 2, [], {q}) }

  ghost predicate Continues(s: System, s': System) { exists evs :: Runs(s, evs, s') }

  function Alive(ring: Ring): set<nat> { Members(ring, {0}) }

  /** A continuation of the new view, all survivors up, nothing parked. */
  ghost predicate Scene(ring: Ring, b: seq<nat>, s0: System, s: System) {
    && Continues(s0, s) && Shaped(s) && s.ring == ring && s.up == Alive(ring)
    && forall p :: p in Alive(ring) ==> Calm(s.nodes[p]) && s.nodes[p].floor == b
  }

  lemma Act(ring: Ring, b: seq<nat>, s0: System, s: System, p: nat, input: Input) returns (s': System)
    requires Scene(ring, b, s0, s) && Enabled(s, Local(p, input)) && Calm(Step(s.nodes[p], input).node)
    ensures Scene(ring, b, s0, s')
    ensures forall q :: 0 <= q < ring.n && q != p ==> s'.nodes[q] == s.nodes[q] && s'.log[q] == s.log[q]
    ensures var r := Step(s.nodes[p], input);
      s'.nodes[p] == r.node && s'.log[p] == s.log[p] + Delivered(r.out) && s'.sent == s.sent + Sends(r.out)
  {
    var evs :| Runs(s0, evs, s);
    RunsAppend(s0, evs, s, Local(p, input));
    TrainSentShape(s, p, input);
    s' := Next(s, Local(p, input));
  }

  lemma Visit(ring: Ring, b: seq<nat>, s0: System, s: System, p: nat, t: Train) returns (s': System)
    requires Scene(ring, b, s0, s) && |b| == ring.n && p in Alive(ring) && t in s.sent && t.issuer != p
    requires t.clock > b[t.issuer] && s.nodes[p].seen[t.issuer] < t.clock
    ensures Scene(ring, b, s0, s') && s'.sent == s.sent + {Loaded(s.nodes[p], t)}
    ensures s'.nodes[p] == AfterLoad(s.nodes[p], t)
    ensures forall q :: 0 <= q < ring.n && q != p ==> s'.nodes[q] == s.nodes[q]
    ensures s'.log == s.log
  {
    FirstSight(s.nodes[p], t);
    s' := Act(ring, b, s0, s, p, TrainReceived(t));
    NothingAfter(s.log[p]);
  }

  /** Survivors whose ack a train still lacks. */
  function Lacking(ring: Ring, t: Train): set<nat> { Alive(ring) - t.acks }

  /** `t'` is `t` with every survivor's ack and what `w`, the only one of them with a queue, had queued. */
  ghost predicate Collected(s: System, t: Train, s': System, t': Train, w: nat)
    requires Shaped(s) && Shaped(s') && s'.ring == s.ring && t.issuer < s.ring.n && w < s.ring.n
  {
    && t' in s'.sent && t'.Key() == t.Key() && t'.acks == t.acks + Alive(s.ring) && s.sent <= s'.sent && s'.log == s.log
    && t'.payloads == t.payloads + (if w in Lacking(s.ring, t) then s.nodes[w].pending else [])
    && (forall p :: 0 <= p < s.ring.n && p !in Lacking(s.ring, t) ==> s'.nodes[p] == s.nodes[p])
    && (forall p :: p in Lacking(s.ring, t) && p < s.ring.n ==>
          && s'.nodes[p].seen == s.nodes[p].seen[t.issuer := t.clock] && s'.nodes[p].pending == []
          && s'.nodes[p].done == s.nodes[p].done && s'.nodes[p].id == s.nodes[p].id)
  }

  /** Nobody who lacks it has met it, and only `w` has anything queued. */
  ghost predicate Unmet(s: System, b: seq<nat>, t: Train, w: nat)
    requires Shaped(s) && |b| == s.ring.n && t.issuer < s.ring.n
  {
    && t.clock > b[t.issuer]
    && forall p :: p in Lacking(s.ring, t) && p < s.ring.n ==>
         p != t.issuer && s.nodes[p].seen[t.issuer] < t.clock && (p != w ==> s.nodes[p].pending == [])
  }

  lemma {:induction false} Collect(ring: Ring, b: seq<nat>, s0: System, s: System, t: Train, w: nat)
    returns (s': System, t': Train)
    requires Scene(ring, b, s0, s) && |b| == ring.n && t in s.sent && w < ring.n && Unmet(s, b, t, w)
    ensures Scene(ring, b, s0, s') && Collected(s, t, s', t', w)
    decreases |Lacking(ring, t)|
  {
    if Lacking(ring, t) == {} {
      s', t' := s, t;
      CollectedAll(s, t, w);
    } else {
      var p: nat :| p in Lacking(ring, t);
      var s1 := Visit(ring, b, s0, s, p, t);
      var t1 := Loaded(s.nodes[p], t);
      LackingLess(ring, s.nodes[p], t, p);
      UnmetAfter(s, b, t, w, p, s1, t1);
      s', t' := Collect(ring, b, s0, s1, t1, w);
      CollectedFirst(s, t, p, s1, t1, s', t', w);
    }
  }

  lemma CollectedAll(s: System, t: Train, w: nat)
    requires Shaped(s) && t in s.sent && w < s.ring.n && Lacking(s.ring, t) == {}
    ensures Collected(s, t, s, t, w)
  {
    NothingAfter(t.payloads);
    assert t.acks == t.acks + Alive(s.ring);
  }

  lemma LackingLess(ring: Ring, n: Node, t: Train, p: nat)
    requires p in Lacking(ring, t) && n.id == p
    ensures Lacking(ring, Loaded(n, t)) == Lacking(ring, t) - {p}
    ensures |Lacking(ring, Loaded(n, t))| < |Lacking(ring, t)|
  {
    assert Lacking(ring, Loaded(n, t)) == Lacking(ring, t) - {p};
  }

  lemma UnmetAfter(s: System, b: seq<nat>, t: Train, w: nat, p: nat, s1: System, t1: Train)
    requires Shaped(s) && Shaped(s1) && s1.ring == s.ring && |b| == s.ring.n && t.issuer < s.ring.n && Unmet(s, b, t, w)
    requires t1.Key() == t.Key() && Lacking(s.ring, t1) == Lacking(s.ring, t) - {p}
    requires forall q :: 0 <= q < s.ring.n && q != p ==> s1.nodes[q] == s.nodes[q]
    ensures Unmet(s1, b, t1, w)
  {
  }

  lemma CollectedFirst(s: System, t: Train, p: nat, s1: System, t1: Train, s': System, t': Train, w: nat)
    requires Shaped(s) && Shaped(s1) && Shaped(s') && s1.ring == s.ring && s'.ring == s.ring
    requires t.issuer < s.ring.n && w < s.ring.n && p < s.ring.n
    requires p in Lacking(s.ring, t) && s.nodes[p].seen[t.issuer] < t.clock
    requires t1 == Loaded(s.nodes[p], t) && s1.sent == s.sent + {t1} && s1.log == s.log
    requires s1.nodes[p] == AfterLoad(s.nodes[p], t) && (p != w ==> s.nodes[p].pending == [])
    requires forall q :: 0 <= q < s.ring.n && q != p ==> s1.nodes[q] == s.nodes[q]
    requires Lacking(s.ring, t1) == Lacking(s.ring, t) - {p} && Collected(s1, t1, s', t', w)
    ensures Collected(s, t, s', t', w)
  {
    NothingAfter(t.payloads);
    NothingAfter(t1.payloads);
    assert t'.acks == t.acks + Alive(s.ring);
  }

  // ----- the run -----

  lemma Speaks(n: Node, p: nat, x: Payload)
    requires Wf(n) && n.id == p && n.pending == [] && n.nextSeq == 0 && (p, 0) !in n.known && x == Payload(p, 0, [])
    ensures var r := Step(n, LocalBroadcast([]));
      r.node == n.(pending := [x], nextSeq := 1, known := n.known + {(p, 0)}) && r.out == []
  {
  }

  /** Issuers 1 to `r - 1` have issued in the new view; otherwise as it began. */
  ghost predicate Reissued(ring: Ring, b: seq<nat>, s0: System, s: System, r: nat) {
    && Scene(ring, b, s0, s) && Shaped(s0) && s0.ring == ring && 1 <= r <= ring.k
    && s0.sent <= s.sent && s.log == s0.log && (forall q :: 1 <= q < r ==> Renewed(q) in s.sent)
    && (forall p :: 0 <= p < ring.n ==>
          s.nodes[p] == if 1 <= p < r then s0.nodes[p].(issueClock := 3) else s0.nodes[p])
  }

  ghost predicate JustInstalled(ring: Ring, b: seq<nat>, s0: System) {
    && Shaped(s0) && s0.ring == ring && ring.n >= 3 && ring.k >= 2 && FirstBoundary(ring, b)
    && s0.up == Alive(ring) && STRAY in s0.sent
    && (forall p :: p in Alive(ring) ==> Newcomer(ring, b, s0.nodes[p], p) && s0.log[p] == s0.log[1])
  }

  lemma {:induction false} ReissueAll(ring: Ring, b: seq<nat>, s0: System, r: nat) returns (s: System)
    requires JustInstalled(ring, b, s0) && 1 <= r <= ring.k
    ensures Reissued(ring, b, s0, s, r)
  {
    if r == 1 {
      s := s0;
      assert Runs(s0, [], s0);
    } else {
      var mid := ReissueAll(ring, b, s0, r - 1);
      s := ReissueOne(ring, b, s0, mid, r - 1);
    }
  }

  lemma ReissueOne(ring: Ring, b: seq<nat>, s0: System, mid: System, q: nat) returns (s: System)
    requires JustInstalled(ring, b, s0) && 1 <= q < ring.k && Reissued(ring, b, s0, mid, q)
    ensures Reissued(ring, b, s0, s, q + 1)
  {
    assert q in Alive(ring) && Newcomer(ring, b, s0.nodes[q], q);
    Renews(ring, b, mid.nodes[q], q);
    s := DoIssue(ring, b, s0, mid, q);
  }

  lemma Renews(ring: Ring, b: seq<nat>, n: Node, q: nat)
    requires FirstBoundary(ring, b) && 1 <= q < ring.k && Newcomer(ring, b, n, q)
    ensures NewTrain(n) == Renewed(q) && AfterIssue(n) == n.(issueClock := 3)
  {
    assert Ids([]) == {};
  }

  lemma DoIssue(ring: Ring, b: seq<nat>, s0: System, s: System, q: nat) returns (s': System)
    requires Scene(ring, b, s0, s) && 1 <= q < ring.k && Calm(AfterIssue(s.nodes[q]))
    ensures Scene(ring, b, s0, s') && s'.log == s.log && s'.sent == s.sent + {NewTrain(s.nodes[q])}
    ensures s'.nodes == s.nodes[q := AfterIssue(s.nodes[q])]
  {
    var evs :| Runs(s0, evs, s);
    assert q in Alive(ring);
    RunsAppend(s0, evs, s, Issue(q));
    s' := Next(s, Issue(q));
  }

  /** All have issued; processes 1 and 2 have queued a payload each; nobody has met anything new. */
  ghost predicate Primed(ring: Ring, b: seq<nat>, s0: System, s: System, log0: seq<Payload>) {
    && Scene(ring, b, s0, s) && ring.n >= 3 && ring.k >= 2 && FirstBoundary(ring, b)
    && STRAY in s.sent && (forall q :: 1 <= q < ring.k ==> Renewed(q) in s.sent)
    && (forall p :: p in Alive(ring) ==>
          && s.nodes[p].seen == b && s.nodes[p].done == KeysUpTo(b) && s.log[p] == log0
          && s.nodes[p].pending == if p == 1 then [FROM_ONE] else if p == 2 then [FROM_TWO] else [])
  }

  lemma Prime(ring: Ring, b: seq<nat>, s0: System) returns (s: System)
    requires JustInstalled(ring, b, s0)
    ensures Primed(ring, b, s0, s, s0.log[1])
  {
    var a := ReissueAll(ring, b, s0, ring.k);
    assert 1 in Alive(ring) && 2 in Alive(ring);
    assert Newcomer(ring, b, s0.nodes[1], 1) && Newcomer(ring, b, s0.nodes[2], 2);
    var c := Cast(ring, b, s0, a, 1, FROM_ONE);
    s := Cast(ring, b, s0, c, 2, FROM_TWO);
    forall p | p in Alive(ring)
      ensures s.nodes[p].seen == b && s.nodes[p].done == KeysUpTo(b) && s.log[p] == s0.log[1]
      ensures p != 1 && p != 2 ==> s.nodes[p].pending == []
    {
      assert Newcomer(ring, b, s0.nodes[p], p);
    }
  }

  lemma Cast(ring: Ring, b: seq<nat>, s0: System, s: System, p: nat, x: Payload) returns (s': System)
    requires Scene(ring, b, s0, s) && p in Alive(ring) && x == Payload(p, 0, [])
    requires s.nodes[p].pending == [] && s.nodes[p].nextSeq == 0 && (p, 0) !in s.nodes[p].known
    ensures Scene(ring, b, s0, s') && s'.sent == s.sent && s'.log == s.log
    ensures forall q :: 0 <= q < ring.n && q != p ==> s'.nodes[q] == s.nodes[q]
    ensures s'.nodes[p].pending == [x] && s'.nodes[p].seen == s.nodes[p].seen && s'.nodes[p].done == s.nodes[p].done
  {
    Speaks(s.nodes[p], p, x);
    s' := Act(ring, b, s0, s, p, LocalBroadcast([]));
    NothingAfter(s.log[p]);
  }

  /** Process 2 has met every issuer's new train below `r`. */
  ghost predicate TwoHasMet(ring: Ring, b: seq<nat>, s: System, r: nat) {
    && Shaped(s) && s.ring == ring && ring.n >= 3 && 2 <= r <= ring.k && |b| == ring.n
    && s.nodes[2].pending == [] && s.nodes[2].done == KeysUpTo(b)
    && s.nodes[2].seen == seq(ring.n, q requires 0 <= q < ring.n && |b| == ring.n => if 1 <= q < r then 2 else b[q])
  }

  lemma {:induction false} TwoMeets(ring: Ring, b: seq<nat>, s0: System, s: System, r: nat) returns (s': System)
    requires Scene(ring, b, s0, s) && FirstBoundary(ring, b) && TwoHasMet(ring, b, s, 2) && 2 <= r <= ring.k
    requires forall q :: 2 <= q < ring.k ==> Renewed(q) in s.sent
    ensures Scene(ring, b, s0, s') && TwoHasMet(ring, b, s', r) && s.sent <= s'.sent && s'.log == s.log
    ensures forall p :: 0 <= p < ring.n && p != 2 ==> s'.nodes[p] == s.nodes[p]
  {
    if r == 2 {
      s' := s;
    } else {
      var mid := TwoMeets(ring, b, s0, s, r - 1);
      s' := TwoMeetsOne(ring, b, s0, mid, r - 1);
    }
  }

  lemma TwoMeetsOne(ring: Ring, b: seq<nat>, s0: System, s: System, q: nat) returns (s': System)
    requires Scene(ring, b, s0, s) && FirstBoundary(ring, b) && TwoHasMet(ring, b, s, q) && 2 <= q < ring.k
    requires Renewed(q) in s.sent
    ensures Scene(ring, b, s0, s') && TwoHasMet(ring, b, s', q + 1) && s.sent <= s'.sent && s'.log == s.log
    ensures forall p :: 0 <= p < ring.n && p != 2 ==> s'.nodes[p] == s.nodes[p]
  {
    assert 2 in Alive(ring);
    if q == 2 {
      TwoOwnTrain(ring, b, s.nodes[2]);
      s' := Act(ring, b, s0, s, 2, TrainReceived(Renewed(2)));
      NothingAfter(s.log[2]);
    } else {
      s' := Visit(ring, b, s0, s, 2, Renewed(q));
    }
    OneMoreMet(ring, b, s, s', q);
  }

  lemma OneMoreMet(ring: Ring, b: seq<nat>, s: System, s': System, q: nat)
    requires TwoHasMet(ring, b, s, q) && q < ring.k && Shaped(s') && s'.ring == ring && s.nodes[2].seen[q] <= 1
    requires s'.nodes[2].seen == s.nodes[2].seen[q := 2]
    requires s'.nodes[2].pending == [] && s'.nodes[2].done == s.nodes[2].done
    ensures TwoHasMet(ring, b, s', q + 1)
  {
  }

  lemma TwoOwnTrain(ring: Ring, b: seq<nat>, n: Node)
    requires Calm(n) && n.ring == ring && n.id == 2 && n.floor == b
    requires FirstBoundary(ring, b) && ring.n >= 3 && 2 < ring.k
    requires n.done == KeysUpTo(b) && n.seen[2] == 1
    ensures var r := Step(n, TrainReceived(Renewed(2)));
      r.node == n.(seen := n.seen[2 := 2]) && Sends(r.out) == {Renewed(2)} && Delivered(r.out) == []
  {
    assert 1 in Alive(ring) && 1 !in Renewed(2).acks;
    OwnUnready(n, Renewed(2));
  }

  /** Process 2 delivers the new view's first key before it has heard of the straggler. */
  lemma TwoDelivers(ring: Ring, b: seq<nat>, n: Node, t: Train)
    requires Calm(n) && n.ring == ring && n.id == 2 && n.floor == b
    requires FirstBoundary(ring, b) && ring.n >= 3 && ring.k >= 2
    requires n.done == KeysUpTo(b) && (forall q :: 1 <= q < ring.k ==> n.seen[q] == 2)
    requires n.seen[0] == 0 && (forall q :: ring.k <= q < ring.n ==> n.seen[q] == 0)
    requires t.Key() == ClockKey(2, 1) && Alive(ring) <= t.acks && t.payloads == [FROM_TWO]
    ensures var r := Step(n, TrainReceived(t));
      Delivered(r.out) == [FROM_TWO] && Calm(r.node) && r.node.seen == n.seen && r.node.pending == n.pending
  {
    forall q, cl | 0 <= q < ring.n && 1 <= cl <= n.seen[q] && Before(ClockKey(cl, q), ClockKey(2, 1))
      ensures ClockKey(cl, q) in n.done
    {
      assert 1 <= q < ring.k;
    }
    Delivers(n, t);
    SortOfSorted([FROM_TWO]);
  }

  /** Process 1 delivers the straggler before it has met the new key closed. */
  lemma OneDelivers(ring: Ring, b: seq<nat>, n: Node, t: Train)
    requires Calm(n) && n.ring == ring && n.id == 1 && n.floor == b && FirstBoundary(ring, b) && ring.k >= 2
    requires n.done == KeysUpTo(b) && n.seen[0] == 1 && (forall q :: 1 <= q < ring.k ==> n.seen[q] == 1)
    requires t.Key() == ClockKey(1, 0) && Alive(ring) <= t.acks && t.payloads == [FROM_ONE]
    ensures var r := Step(n, TrainReceived(t)); Delivered(r.out) == [FROM_ONE] && Calm(r.node)
  {
    Delivers(n, t);
    SortOfSorted([FROM_ONE]);
  }

  /** Process 2 has delivered its payload under key (2,1); the straggler is still unmet. */
  ghost predicate TwoAhead(ring: Ring, b: seq<nat>, s0: System, s: System, log0: seq<Payload>) {
    && Scene(ring, b, s0, s) && ring.n >= 3 && ring.k >= 2 && FirstBoundary(ring, b) && STRAY in s.sent
    && s.log[1] == log0 && s.log[2] == log0 + [FROM_TWO]
    && s.nodes[1].seen == b && s.nodes[1].done == KeysUpTo(b) && s.nodes[1].pending == [FROM_ONE]
    && (forall p :: p in Alive(ring) ==> s.nodes[p].seen[0] == 0 && (p != 1 ==> s.nodes[p].pending == []))
  }

  lemma TwoGoesFirst(ring: Ring, b: seq<nat>, s0: System, s: System, log0: seq<Payload>) returns (s': System)
    requires Primed(ring, b, s0, s, log0)
    ensures TwoAhead(ring, b, s0, s', log0)
  {
    assert 1 in Alive(ring) && 2 in Alive(ring);
    var a, closed := CloseRenewed(ring, b, s0, s, log0);
    var c := TwoMeets(ring, b, s0, a, ring.k);
    TwoDelivers(ring, b, c.nodes[2], closed);
    s' := Act(ring, b, s0, c, 2, TrainReceived(closed));
  }

  lemma CloseRenewed(ring: Ring, b: seq<nat>, s0: System, s: System, log0: seq<Payload>)
    returns (a: System, closed: Train)
    requires Primed(ring, b, s0, s, log0)
    ensures Scene(ring, b, s0, a) && s.sent <= a.sent && a.log == s.log && closed in a.sent
    ensures closed.Key() == ClockKey(2, 1) && Alive(ring) <= closed.acks && closed.payloads == [FROM_TWO]
    ensures TwoHasMet(ring, b, a, 2) && a.nodes[1] == s.nodes[1]
    ensures forall p :: p in Alive(ring) ==> a.nodes[p].seen[0] == 0 && (p != 1 ==> a.nodes[p].pending == [])
  {
    assert 1 in Alive(ring) && 2 in Alive(ring) && 2 in Lacking(ring, Renewed(1)) && 1 !in Lacking(ring, Renewed(1));
    a, closed := Collect(ring, b, s0, s, Renewed(1), 2);
    assert [] + [FROM_TWO] == [FROM_TWO];
    assert a.nodes[2].seen == b[1 := 2];
  }

  lemma OneGoesAstray(ring: Ring, b: seq<nat>, s0: System, s: System, log0: seq<Payload>) returns (s': System)
    requires TwoAhead(ring, b, s0, s, log0)
    ensures Continues(s0, s') && Shaped(s') && s'.ring == ring
    ensures s'.log[1] == log0 + [FROM_ONE] && s'.log[2] == log0 + [FROM_TWO]
  {
    assert 1 in Alive(ring) && 1 in Lacking(ring, STRAY);
    var a, closed := Collect(ring, b, s0, s, STRAY, 1);
    assert [] + [FROM_ONE] == [FROM_ONE];
    OneDelivers(ring, b, a.nodes[1], closed);
    s' := Act(ring, b, s0, a, 1, TrainReceived(closed));
  }

  lemma Split(log0: seq<Payload>, x: Payload, y: Payload)
    requires x != y
    ensures !IsPrefix(log0 + [x], log0 + [y]) && !IsPrefix(log0 + [y], log0 + [x])
  {
    assert (log0 + [x])[|log0|] == x && (log0 + [y])[|log0|] == y;
    assert (log0 + [y])[..|log0 + [x]|] == log0 + [y] && (log0 + [x])[..|log0 + [y]|] == log0 + [x];
  }

  lemma SplitRun(ring: Ring, b: seq<nat>, s0: System) returns (s: System)
    requires JustInstalled(ring, b, s0)
    ensures Continues(s0, s) && Shaped(s) && s.ring == ring
    ensures !IsPrefix(s.log[1], s.log[2]) && !IsPrefix(s.log[2], s.log[1])
  {
    var a := Prime(ring, b, s0);
    var c := TwoGoesFirst(ring, b, s0, a, s0.log[1]);
    s := OneGoesAstray(ring, b, s0, c, s0.log[1]);
    Split(s0.log[1], FROM_ONE, FROM_TWO);
  }

  lemma NewView(ring: Ring, rs: LiveRing, order: seq<nat>)
    requires AboutToLose(ring, rs, order)
    ensures JustInstalled(ring, PlanOf(rs.sys, 0, order).boundary, Installed(rs.sys, 0, order))
  {
    BoundaryIsFirst(ring, rs, order);
    WireAfterInstall(ring, rs, order);
    forall p | p in Alive(ring)
      ensures Newcomer(ring, PlanOf(rs.sys, 0, order).boundary, Installed(rs.sys, 0, order).nodes[p], p)
      ensures Installed(rs.sys, 0, order).log[p] == Installed(rs.sys, 0, order).log[1]
    {
      assert p in order && 1 in order;
      NewcomerAfterInstall(ring, rs, order, p);
      SameLogs(rs, order, p, 1);
    }
  }

  lemma WireAfterInstall(ring: Ring, rs: LiveRing, order: seq<nat>)
    requires AboutToLose(ring, rs, order)
    ensures var s0 := Installed(rs.sys, 0, order); s0.ring == ring && s0.up == Alive(ring) && STRAY in s0.sent
  {
    StartTokens(ring, rs, 0);
    assert Members(ring, {}) - {0} == Alive(ring);
  }

  lemma SameLogs(rs: LiveRing, order: seq<nat>, p: nat, q: nat)
    requires Survivors(rs.sys.ring, 0, order) && p in order && q in order
    ensures Installed(rs.sys, 0, order).log[p] == Installed(rs.sys, 0, order).log[q]
  {
    VirtualSynchrony(rs, 0, order, p);
    VirtualSynchrony(rs, 0, order, q);
  }

  /**
   * A straggler that splits the order: on any ring of at least three with at
   * least two issuers, in TotalOrder, exclude issuer 0 right after the start.
   * Its first train, met by nobody, arrives later; process 2 delivers the next
   * view's key before it and process 1 after it.
   */
  lemma StragglerSplitsOrder(ring: Ring, order: seq<nat>) returns (rs: LiveRing, s: System)
    requires ring.n >= 3 && ring.k >= 2 && Survivors(ring, 0, order)
    ensures rs == RingStart(ring, TotalOrder) && rs.sys.ring == ring && !NoStragglers(rs, 0, order)
    ensures Continues(Installed(rs.sys, 0, order), s) && |s.log| == ring.n
    ensures !IsPrefix(s.log[1], s.log[2]) && !IsPrefix(s.log[2], s.log[1])
  {
    StartInv(ring, TotalOrder);
    rs := RingStart(ring, TotalOrder);
    StartTokens(ring, rs, 0);
    StragglerIffJustLaunched(rs, 0, order);
    NewView(ring, rs, order);
    s := SplitRun(ring, PlanOf(rs.sys, 0, order).boundary, Installed(rs.sys, 0, order));
  }
}
