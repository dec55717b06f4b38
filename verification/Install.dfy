// The view change as one atomic step on a token-ring state: freeze every
// survivor, merge all their reports, apply the plan everywhere.

module ViewInstall {
  import opened Types
  import opened Kernel
  import opened LocalOrder
  import opened Network
  import opened Recovery
  import opened Operations
  import opened Applying
  import opened Conservation
  import opened TokenRing
  import opened RingLag

  /** `order` lists the survivors, in whatever order the token met them. */
  ghost predicate Survivors(ring: Ring, v: nat, order: seq<nat>) {
    v < ring.n && InRing(ring.n, order) && forall p :: p in order <==> 0 <= p < ring.n && p != v
  }

  predicate InRing(n: nat, order: seq<nat>) { forall i :: 0 <= i < |order| ==> order[i] < n }

  function Reports(s: System, v: nat, order: seq<nat>): (r: seq<Report>)
    requires Shaped(s) && InRing(s.ring.n, order)
    ensures |r| == |order| && AllFit(s.ring.n, r)
    ensures forall i :: 0 <= i < |r| ==> r[i] == ReportOf(Excluded(s.nodes[order[i]], v))
  {
    seq(|order|, i requires 0 <= i < |order| && Shaped(s) && InRing(s.ring.n, order) =>
      ReportOf(Excluded(s.nodes[order[i]], v)))
  }

  function PlanOf(s: System, v: nat, order: seq<nat>): Plan
    requires Shaped(s) && InRing(s.ring.n, order)
  {
    ComputePlan(s.ring.n, Reports(s, v, order))
  }

  lemma PlanFits(s: System, v: nat, order: seq<nat>)
    requires Shaped(s) && InRing(s.ring.n, order)
    ensures PlanFor(s.ring.n, PlanOf(s, v, order))
  {
  }

  function Outcome(s: System, v: nat, order: seq<nat>, p: nat): Effect
    requires Shaped(s) && p < s.ring.n && InRing(s.ring.n, order)
  {
    PlanFits(s, v, order);
    Apply(Excluded(s.nodes[p], v), PlanOf(s, v, order))
  }

  /** Every survivor applies the plan; the victim takes no further step. */
  ghost function Installed(s: System, v: nat, order: seq<nat>): (r: System)
    requires Shaped(s) && Survivors(s.ring, v, order)
    ensures Shaped(r)
  {
    s.(nodes := seq(s.ring.n, p requires 0 <= p < s.ring.n && Shaped(s) && Survivors(s.ring, v, order) =>
         if p == v then s.nodes[p] else Outcome(s, v, order, p).node),
       log := seq(s.ring.n, p requires 0 <= p < s.ring.n && Shaped(s) && Survivors(s.ring, v, order) =>
         if p == v then s.log[p] else s.log[p] + Delivered(Outcome(s, v, order, p).out)),
       up := s.up - {v})
  }

  // ----- one survivor's state after the install -----

  lemma ReportIn(s: System, v: nat, order: seq<nat>, p: nat)
    requires Shaped(s) && Survivors(s.ring, v, order) && p in order
    ensures ReportOf(s.nodes[p]) in Reports(s, v, order)
  {
    var i :| 0 <= i < |order| && order[i] == p;
    assert Reports(s, v, order)[i] == ReportOf(s.nodes[p]);
  }

  lemma ReportFrom(s: System, v: nat, order: seq<nat>, r: Report) returns (p: nat)
    requires Shaped(s) && Survivors(s.ring, v, order) && r in Reports(s, v, order)
    ensures p in order && r == ReportOf(s.nodes[p])
  {
    var i :| 0 <= i < |order| && Reports(s, v, order)[i] == r;
    p := order[i];
  }

  /** A survivor's clocks, its own issue clock, done and parked keys lie within the boundary. */
  lemma WithinBoundary(s: System, v: nat, order: seq<nat>, p: nat)
    requires Shaped(s) && Survivors(s.ring, v, order) && p in order && Tidy(s.nodes[p])
    ensures var b := PlanOf(s, v, order).boundary;
      && |b| == s.ring.n
      && (forall q :: 0 <= q < s.ring.n ==> s.nodes[p].seen[q] <= b[q])
      && s.nodes[p].issueClock <= b[p] + 1
      && s.nodes[p].done <= KeysUpTo(b) && s.nodes[p].parked.Keys <= KeysUpTo(b)
  {
    var n, b := s.nodes[p], PlanOf(s, v, order).boundary;
    ReportIn(s, v, order, p);
    assert forall q :: 0 <= q < s.ring.n ==> b[q] == Bound(Reports(s, v, order), q);
    forall k | k in n.done ensures k in KeysUpTo(b) { assert k == ClockKey(k.clock, k.issuer); }
    forall k | k in n.parked ensures k in KeysUpTo(b) { assert Held(n, k) && k == ClockKey(k.clock, k.issuer); }
  }

  lemma ActionKeys(s: System, v: nat, order: seq<nat>, p: nat)
    requires Shaped(s) && Survivors(s.ring, v, order) && p in order && Tidy(s.nodes[p])
    ensures var plan := PlanOf(s, v, order);
      && plan.actions.Keys - s.nodes[p].done == KeysUpTo(plan.boundary) - s.nodes[p].done
      && s.nodes[p].done + plan.actions.Keys == KeysUpTo(plan.boundary)
      && s.nodes[p].parked.Keys <= plan.actions.Keys
  {
    var n, plan := s.nodes[p], PlanOf(s, v, order);
    WithinBoundary(s, v, order, p);
    ReportIn(s, v, order, p);
    forall k | k in KeysUpTo(plan.boundary) && k !in n.done ensures k in plan.actions { }
    forall k | k in n.parked ensures k in plan.actions { assert Held(n, k); }
  }

  lemma SurvivorCompleted(s: System, v: nat, order: seq<nat>, p: nat)
    requires Shaped(s) && Survivors(s.ring, v, order) && p in order && Tidy(s.nodes[p])
    requires s.nodes[p].floor == Zeros(s.ring.n)
    ensures Completed(Excluded(s.nodes[p], v), PlanOf(s, v, order))
  {
    PlanFits(s, v, order);
    WithinBoundary(s, v, order, p);
    ActionKeys(s, v, order, p);
    AdvanceTidy(s.nodes[p], Excluded(s.nodes[p], v));
  }

  lemma SurvivorLevel(s: System, v: nat, order: seq<nat>, p: nat)
    requires Shaped(s) && Survivors(s.ring, v, order) && p in order && Tidy(s.nodes[p]) && s.nodes[p].crashed == {}
    requires s.nodes[p].floor == Zeros(s.ring.n)
    ensures Level(Outcome(s, v, order, p).node, PlanOf(s, v, order).boundary, v)
  {
    SurvivorCompletes(s, v, order, p, PlanOf(s, v, order));
    CompletedLevels(Excluded(s.nodes[p], v), PlanOf(s, v, order), v, Outcome(s, v, order, p));
  }

  /** The plan supplies exactly what this node lacks. */
  ghost predicate Completes(x: Node, plan: Plan, v: nat) {
    exists y :: y == x && Completed(y, plan) && y.crashed == {v}
  }

  lemma SurvivorCompletes(s: System, v: nat, order: seq<nat>, p: nat, plan: Plan)
    requires Shaped(s) && Survivors(s.ring, v, order) && p in order && Tidy(s.nodes[p]) && s.nodes[p].crashed == {}
    requires s.nodes[p].floor == Zeros(s.ring.n) && plan == PlanOf(s, v, order)
    ensures Completes(Excluded(s.nodes[p], v), plan, v)
  {
    SurvivorCompleted(s, v, order, p);
  }

  lemma CompletedLevels(x: Node, plan: Plan, v: nat, r: Effect)
    requires Completes(x, plan, v) && Wf(x) && PlanFor(x.ring.n, plan) && r == Apply(x, plan)
    ensures Level(r.node, plan.boundary, v)
  {
    ApplyLevels(x, plan, v);
  }

  lemma SurvivorCache(s: System, v: nat, order: seq<nat>, p: nat)
    requires Shaped(s) && InRing(s.ring.n, order) && p < s.ring.n && CacheSane(s.nodes[p])
    ensures CacheSane(Outcome(s, v, order, p).node)
  {
    PlanFits(s, v, order);
    ApplyCache(Excluded(s.nodes[p], v), PlanOf(s, v, order));
  }

  lemma SurvivorDelivers(s: System, v: nat, order: seq<nat>, p: nat)
    requires Shaped(s) && Survivors(s.ring, v, order) && p in order && Tidy(s.nodes[p]) && s.nodes[p].crashed == {}
    requires s.nodes[p].floor == Zeros(s.ring.n)
    ensures var plan := PlanOf(s, v, order);
      Delivered(Outcome(s, v, order, p).out) == LogOf(KeysUpTo(plan.boundary) - s.nodes[p].done, Planned(plan.actions))
  {
    SurvivorCompleted(s, v, order, p);
    ApplyDelivers(Excluded(s.nodes[p], v), PlanOf(s, v, order), v);
    ActionKeys(s, v, order, p);
  }

  // ----- agreement on contents -----

  /** Merging copies of one payload list with distinct ids gives that list. */
  lemma {:induction false} MergeSame(acc: seq<Payload>, ps: seq<Payload>)
    requires forall p :: p in ps ==> p in acc
    ensures Merge(acc, ps) == acc
    decreases |ps|
  {
    if ps != [] {
      assert ps[0] in acc;
      MergeSame(acc, ps[1..]);
    }
  }

  lemma {:induction false} MergeFresh(acc: seq<Payload>, ps: seq<Payload>)
    requires DistinctIds(acc + ps)
    ensures Merge(acc, ps) == acc + ps
    decreases |ps|
  {
    if ps != [] {
      forall x | x in acc ensures x.Id() != ps[0].Id() {
        var i :| 0 <= i < |acc| && acc[i] == x;
        assert (acc + ps)[i] == x && (acc + ps)[|acc|] == ps[0];
      }
      assert (acc + [ps[0]]) + ps[1..] == acc + ps;
      MergeFresh(acc + [ps[0]], ps[1..]);
    } else {
      assert acc + ps == acc;
    }
  }

  /** If every copy on offer is `c`, the union is `c`, or nothing when there is no copy. */
  lemma {:induction false} UnionSame(reports: seq<Report>, k: Key, c: seq<Payload>)
    requires DistinctIds(c)
    requires forall r :: r in reports && k in r.have ==> r.have[k] == c
    ensures Union(reports, k) == if exists r :: r in reports && k in r.have then c else []
    decreases |reports|
  {
    if reports != [] {
      var last, prev := reports[|reports| - 1], reports[..|reports| - 1];
      assert reports == prev + [last];
      UnionSame(prev, k, c);
      if k in last.have {
        assert last in reports;
        if exists r :: r in prev && k in r.have {
          MergeSame(c, c);
        } else {
          assert [] + c == c;
          MergeFresh([], c);
        }
      }
    }
  }

  lemma RingTidy(rs: LiveRing, p: nat)
    requires p < rs.sys.ring.n
    ensures Tidy(rs.sys.nodes[p]) && rs.sys.nodes[p].crashed == {} && rs.sys.nodes[p].floor == Zeros(rs.sys.ring.n)
    ensures CacheSane(rs.sys.nodes[p])
  {
    NodeFromReachable(rs.sys.ring, rs.mode, rs.sys, p);
  }

  lemma RingSegment(rs: LiveRing, p: nat)
    requires p < rs.sys.ring.n
    ensures Segment(rs.sys.nodes[p], FirstEpoch(rs.sys.ring))
  {
    NodeFromReachable(rs.sys.ring, rs.mode, rs.sys, p);
  }

  lemma RingLogged(rs: LiveRing, p: nat)
    requires p < rs.sys.ring.n
    ensures rs.sys.log[p] == LogOf(rs.sys.nodes[p].done, Contents(rs.sys, FirstEpoch(rs.sys.ring)))
  {
    NodeFromReachable(rs.sys.ring, rs.mode, rs.sys, p);
    assert rs.sys.nodes[p].done - {} == rs.sys.nodes[p].done;
  }

  /** What a survivor can retransmit for a key is the key's one content. */
  lemma HaveIsContent(rs: LiveRing, p: nat, k: Key)
    requires p < rs.sys.ring.n && k in Have(rs.sys.nodes[p])
    ensures Have(rs.sys.nodes[p])[k] == Contents(rs.sys, FirstEpoch(rs.sys.ring))(k) != []
  {
    NodeFromReachable(rs.sys.ring, rs.mode, rs.sys, p);
  }

  lemma RingConserved(rs: LiveRing)
    ensures Conserved(rs.sys)
  {
    var evs :| Runs(Start(rs.sys.ring, rs.mode), evs, rs.sys);
    StartConserved(rs.sys.ring, rs.mode);
    PayloadConservation(Start(rs.sys.ring, rs.mode), evs, rs.sys);
  }

  lemma ContentDistinct(rs: LiveRing, k: Key)
    ensures DistinctIds(Contents(rs.sys, FirstEpoch(rs.sys.ring))(k))
  {
    RingConserved(rs);
    ContentsDisjoint(rs.sys, FirstEpoch(rs.sys.ring), {k});
  }

  /** The plan resends a key's one content, or skips the key. */
  lemma PlannedContent(rs: LiveRing, v: nat, order: seq<nat>, k: Key)
    requires Survivors(rs.sys.ring, v, order)
    ensures var c := Contents(rs.sys, FirstEpoch(rs.sys.ring))(k); var reports := Reports(rs.sys, v, order);
      Union(reports, k) == if exists r :: r in reports && k in r.have then c else []
  {
    var c, reports := Contents(rs.sys, FirstEpoch(rs.sys.ring))(k), Reports(rs.sys, v, order);
    ContentDistinct(rs, k);
    forall r | r in reports && k in r.have ensures r.have[k] == c {
      var p := ReportFrom(rs.sys, v, order, r);
      HaveIsContent(rs, p, k);
    }
    UnionSame(reports, k, c);
  }

  /** A key some survivor has done and some survivor lacks is resent with its content. */
  lemma ResentContent(rs: LiveRing, v: nat, order: seq<nat>, p: nat, k: Key)
    requires Survivors(rs.sys.ring, v, order) && p in order
    requires k in rs.sys.nodes[p].done && k in PlanOf(rs.sys, v, order).actions
    ensures Planned(PlanOf(rs.sys, v, order).actions)(k) == Contents(rs.sys, FirstEpoch(rs.sys.ring))(k)
  {
    var c, reports := Contents(rs.sys, FirstEpoch(rs.sys.ring))(k), Reports(rs.sys, v, order);
    PlannedContent(rs, v, order, k);
    if c != [] {
      assert !DoneByAll(reports, k);
      HolderOffers(rs, v, order, p, k);
    }
  }

  /** Whoever recorded a key that someone still lacks offers its payloads. */
  lemma HolderOffers(rs: LiveRing, v: nat, order: seq<nat>, p: nat, k: Key)
    requires Survivors(rs.sys.ring, v, order) && p in order && k in rs.sys.nodes[p].done
    requires !DoneByAll(Reports(rs.sys, v, order), k) && Contents(rs.sys, FirstEpoch(rs.sys.ring))(k) != []
    ensures exists r :: r in Reports(rs.sys, v, order) && k in r.have
  {
    var r :| r in Reports(rs.sys, v, order) && k !in r.done;
    var p' := ReportFrom(rs.sys, v, order, r);
    CacheSuffices(rs, p, p', k);
    ReportIn(rs.sys, v, order, p);
    assert k in ReportOf(rs.sys.nodes[p]).have;
  }

  // ----- the agreed log -----

  ghost predicate DoneSomewhere(s: System, order: seq<nat>, k: Key) {
    exists p :: p in order && p < |s.nodes| && k in s.nodes[p].done
  }

  /** Contents as the survivors end up with them. */
  ghost function Agreed(s: System, v: nat, order: seq<nat>): Key -> seq<Payload>
    requires Shaped(s) && InRing(s.ring.n, order)
  {
    k => if DoneSomewhere(s, order, k) then Contents(s, FirstEpoch(s.ring))(k)
         else Planned(PlanOf(s, v, order).actions)(k)
  }

  ghost function AgreedLog(s: System, v: nat, order: seq<nat>): seq<Payload>
    requires Shaped(s) && InRing(s.ring.n, order)
  {
    LogOf(KeysUpTo(PlanOf(s, v, order).boundary), Agreed(s, v, order))
  }

  /** No slot beyond the issuers ever moves, so the boundary stays zero there. */
  lemma BoundaryOnIssuers(rs: LiveRing, v: nat, order: seq<nat>, q: nat)
    requires Survivors(rs.sys.ring, v, order) && rs.sys.ring.k <= q < rs.sys.ring.n
    ensures PlanOf(rs.sys, v, order).boundary[q] == 0
  {
    var reports := Reports(rs.sys, v, order);
    var b := Bound(reports, q);
    assert PlanOf(rs.sys, v, order).boundary[q] == b;
    if b > 0 {
      var r :| r in reports && (r.seen[q] == b || r.issued[q] == b);
      var p := ReportFrom(rs.sys, v, order, r);
    }
  }

  lemma SegmentOrders(s: Node, e: Epoch, x: Key, y: Key)
    requires Wf(s) && Segment(s, e) && x in s.done - e.before && InEpoch(s.ring, e, y) && y !in s.done
    ensures Before(x, y)
  {
    assert Before(y, x) ==> y in s.done;
  }

  lemma OnIssuers(rs: LiveRing, v: nat, order: seq<nat>, y: Key)
    requires Survivors(rs.sys.ring, v, order) && y in KeysUpTo(PlanOf(rs.sys, v, order).boundary)
    ensures InEpoch(rs.sys.ring, FirstEpoch(rs.sys.ring), y)
  {
    if y.issuer >= rs.sys.ring.k { BoundaryOnIssuers(rs, v, order, y.issuer); }
  }

  lemma DoneComesFirst(rs: LiveRing, v: nat, order: seq<nat>, p: nat, x: Key, y: Key)
    requires Survivors(rs.sys.ring, v, order) && p < rs.sys.ring.n
    requires x in rs.sys.nodes[p].done
    requires y in KeysUpTo(PlanOf(rs.sys, v, order).boundary) && y !in rs.sys.nodes[p].done
    ensures Before(x, y)
  {
    OnIssuers(rs, v, order, y);
    RingSegment(rs, p);
    SegmentOrders(rs.sys.nodes[p], FirstEpoch(rs.sys.ring), x, y);
  }

  lemma RestAgrees(rs: LiveRing, v: nat, order: seq<nat>, p: nat, k: Key)
    requires Survivors(rs.sys.ring, v, order) && p in order
    requires k in KeysUpTo(PlanOf(rs.sys, v, order).boundary) && k !in rs.sys.nodes[p].done
    ensures Planned(PlanOf(rs.sys, v, order).actions)(k) == Agreed(rs.sys, v, order)(k)
  {
    if DoneSomewhere(rs.sys, order, k) {
      MissingHasAction(rs.sys, v, order, p, k);
      SomewhereResent(rs, v, order, k);
    }
  }

  lemma SomewhereResent(rs: LiveRing, v: nat, order: seq<nat>, k: Key)
    requires Survivors(rs.sys.ring, v, order)
    requires DoneSomewhere(rs.sys, order, k) && k in PlanOf(rs.sys, v, order).actions
    ensures Planned(PlanOf(rs.sys, v, order).actions)(k) == Contents(rs.sys, FirstEpoch(rs.sys.ring))(k)
  {
    var x :| x in order && x < |rs.sys.nodes| && k in rs.sys.nodes[x].done;
    ResentContent(rs, v, order, x, k);
  }

  lemma MissingHasAction(s: System, v: nat, order: seq<nat>, p: nat, k: Key)
    requires Shaped(s) && Survivors(s.ring, v, order) && p in order
    requires k in KeysUpTo(PlanOf(s, v, order).boundary) && k !in s.nodes[p].done
    ensures k in PlanOf(s, v, order).actions
  {
    ReportIn(s, v, order, p);
  }

  lemma RestCongruent(rs: LiveRing, v: nat, order: seq<nat>, p: nat, rest: set<Key>)
    requires Survivors(rs.sys.ring, v, order) && p in order
    requires rest == KeysUpTo(PlanOf(rs.sys, v, order).boundary) - rs.sys.nodes[p].done
    ensures LogOf(rest, Planned(PlanOf(rs.sys, v, order).actions)) == LogOf(rest, Agreed(rs.sys, v, order))
  {
    forall k | k in rest
      ensures SortPayloads(Planned(PlanOf(rs.sys, v, order).actions)(k)) == SortPayloads(Agreed(rs.sys, v, order)(k))
    {
      RestAgrees(rs, v, order, p, k);
    }
    LogCongruent(rest, Planned(PlanOf(rs.sys, v, order).actions), Agreed(rs.sys, v, order));
  }

  lemma JoinLogs(rs: LiveRing, v: nat, order: seq<nat>, p: nat, done: set<Key>, rest: set<Key>)
    requires Survivors(rs.sys.ring, v, order) && p in order && done == rs.sys.nodes[p].done
    requires rest == KeysUpTo(PlanOf(rs.sys, v, order).boundary) - done
    ensures LogOf(done, Agreed(rs.sys, v, order)) + LogOf(rest, Agreed(rs.sys, v, order)) == AgreedLog(rs.sys, v, order)
  {
    forall x, y | x in done && y in rest ensures Before(x, y) { DoneComesFirst(rs, v, order, p, x, y); }
    LogSplit(done, rest, Agreed(rs.sys, v, order));
    DoneWithin(rs, v, order, p);
    assert done + rest == KeysUpTo(PlanOf(rs.sys, v, order).boundary);
  }

  lemma DoneWithin(rs: LiveRing, v: nat, order: seq<nat>, p: nat)
    requires Survivors(rs.sys.ring, v, order) && p in order
    ensures rs.sys.nodes[p].done <= KeysUpTo(PlanOf(rs.sys, v, order).boundary)
  {
    RingTidy(rs, p);
    WithinBoundary(rs.sys, v, order, p);
  }

  lemma DoneCongruent(rs: LiveRing, v: nat, order: seq<nat>, p: nat, done: set<Key>)
    requires Survivors(rs.sys.ring, v, order) && p in order && done == rs.sys.nodes[p].done
    ensures rs.sys.log[p] == LogOf(done, Agreed(rs.sys, v, order))
  {
    RingLogged(rs, p);
    LogCongruent(done, Contents(rs.sys, FirstEpoch(rs.sys.ring)), Agreed(rs.sys, v, order));
  }

  lemma SurvivorLog(rs: LiveRing, v: nat, order: seq<nat>, p: nat)
    requires Survivors(rs.sys.ring, v, order) && p in order
    ensures Installed(rs.sys, v, order).log[p] == AgreedLog(rs.sys, v, order)
  {
    var done := rs.sys.nodes[p].done;
    var rest := KeysUpTo(PlanOf(rs.sys, v, order).boundary) - done;
    DoneCongruent(rs, v, order, p, done);
    RingTidy(rs, p);
    SurvivorDelivers(rs.sys, v, order, p);
    RestCongruent(rs, v, order, p, rest);
    JoinLogs(rs, v, order, p, done, rest);
  }

  /**
   * Virtual synchrony at install: from every reachable token-ring state, merging
   * the survivors' reports in any order and applying the plan leaves every
   * survivor with exactly the keys up to the boundary done, nothing parked, level
   * clocks, and the same delivered log.
   */
  lemma VirtualSynchrony(rs: LiveRing, v: nat, order: seq<nat>, p: nat)
    requires Survivors(rs.sys.ring, v, order) && p in order
    ensures var s' := Installed(rs.sys, v, order);
      && Level(s'.nodes[p], PlanOf(rs.sys, v, order).boundary, v)
      && s'.log[p] == AgreedLog(rs.sys, v, order)
  {
    RingTidy(rs, p);
    SurvivorLevel(rs.sys, v, order, p);
    SurvivorLog(rs, v, order, p);
  }
}
