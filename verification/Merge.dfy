// Properties of the merge: a permutation of the reports changes nothing that
// matters, and no payload a survivor reports below the boundary is lost.

module MergeProofs {
  import opened Types
  import opened Kernel
  import opened Recovery

  /** Some report offers `p` for `k`. */
  ghost predicate Offered(reports: seq<Report>, k: Key, p: Payload) {
    exists r :: r in reports && k in r.have && p in r.have[k]
  }

  /** Equal ids carry equal data among everything offered for `k`. */
  ghost predicate SameDataPerId(reports: seq<Report>, k: Key) {
    forall p, q :: Offered(reports, k, p) && Offered(reports, k, q) && p.Id() == q.Id() ==> p == q
  }

  lemma {:induction false} MergeFacts(acc: seq<Payload>, ps: seq<Payload>)
    requires DistinctIds(acc)
    ensures DistinctIds(Merge(acc, ps))
    ensures forall p :: p in Merge(acc, ps) ==> p in acc || p in ps
    ensures forall p :: p in acc ==> p in Merge(acc, ps)
    ensures forall p :: p in ps ==> p.Id() in Ids(Merge(acc, ps))
    decreases |ps|
  {
    if ps != [] {
      var acc' := if ps[0].Id() in Ids(acc) then acc else acc + [ps[0]];
      assert ps[0].Id() in Ids(acc') by {
        if ps[0].Id() !in Ids(acc) { assert acc'[|acc|] == ps[0]; }
      }
      MergeFacts(acc', ps[1..]);
      forall p | p in ps ensures p.Id() in Ids(Merge(acc, ps)) {
        if p !in ps[1..] {
          var x :| x in acc' && x.Id() == p.Id();
          assert x in Merge(acc', ps[1..]);
        }
      }
    }
  }

  lemma {:induction false} UnionFacts(reports: seq<Report>, k: Key)
    ensures DistinctIds(Union(reports, k))
    ensures forall p :: p in Union(reports, k) ==> Offered(reports, k, p)
    ensures forall p :: Offered(reports, k, p) ==> p.Id() in Ids(Union(reports, k))
    decreases |reports|
  {
    if reports != [] {
      var last := reports[|reports| - 1];
      var prev := reports[..|reports| - 1];
      assert reports == prev + [last];
      UnionFacts(prev, k);
      if k in last.have { MergeFacts(Union(prev, k), last.have[k]); }
      forall p | p in Union(reports, k) ensures Offered(reports, k, p) {
        if p in Union(prev, k) {
          var r :| r in prev && k in r.have && p in r.have[k];
          assert r in reports;
        } else {
          assert last in reports;
        }
      }
      forall p | Offered(reports, k, p) ensures p.Id() in Ids(Union(reports, k)) {
        var r :| r in reports && k in r.have && p in r.have[k];
        if r in prev {
          assert Offered(prev, k, p);
          var x :| x in Union(prev, k) && x.Id() == p.Id();
          assert x in Union(reports, k);
        }
      }
    }
  }

  lemma UnionMembers(reports: seq<Report>, k: Key, p: Payload)
    requires SameDataPerId(reports, k)
    ensures p in Union(reports, k) <==> Offered(reports, k, p)
  {
    UnionFacts(reports, k);
    if Offered(reports, k, p) {
      var x :| x in Union(reports, k) && x.Id() == p.Id();
      assert Offered(reports, k, x);
    }
  }

  ghost predicate SameReports(a: seq<Report>, b: seq<Report>) { forall r :: r in a <==> r in b }

  lemma BoundPermuted(a: seq<Report>, b: seq<Report>, q: nat)
    requires SameReports(a, b)
    requires forall r :: r in a ==> q < |r.seen| && q < |r.issued|
    ensures Bound(a, q) == Bound(b, q)
  {
  }

  lemma SkipPermuted(a: seq<Report>, b: seq<Report>, k: Key)
    requires SameReports(a, b)
    ensures Union(a, k) == [] <==> Union(b, k) == []
  {
    UnionFacts(a, k);
    UnionFacts(b, k);
    if Union(a, k) != [] {
      assert Union(a, k)[0] in Union(a, k);
      assert Offered(b, k, Union(a, k)[0]);
    }
    if Union(b, k) != [] {
      assert Union(b, k)[0] in Union(b, k);
      assert Offered(a, k, Union(b, k)[0]);
    }
  }

  lemma UnionPermuted(a: seq<Report>, b: seq<Report>, k: Key)
    requires SameReports(a, b) && SameDataPerId(a, k)
    ensures SortPayloads(Union(a, k)) == SortPayloads(Union(b, k))
  {
    var x, y := Union(a, k), Union(b, k);
    forall p ensures Offered(a, k, p) <==> Offered(b, k, p) { }
    forall p ensures p in SortPayloads(x) <==> p in SortPayloads(y) {
      UnionMembers(a, k, p);
      UnionMembers(b, k, p);
      SortMembers(x, p);
      SortMembers(y, p);
    }
    UnionFacts(a, k);
    UnionFacts(b, k);
    SortDistinct(x);
    SortDistinct(y);
    SortIsSorted(x);
    SortIsSorted(y);
    SortedUnique(SortPayloads(x), SortPayloads(y));
  }

  /**
   * The merge is order-independent: boundary, key set and Skip/Deliver choice
   * do not depend on the order (or repetition) of the reports, and neither do
   * the payloads as delivered when equal ids carry equal data.
   */
  lemma MergeOrderIndependent(n: nat, a: seq<Report>, b: seq<Report>)
    requires AllFit(n, a) && SameReports(a, b)
    ensures AllFit(n, b)
    ensures ComputePlan(n, a).boundary == ComputePlan(n, b).boundary
    ensures ComputePlan(n, a).actions.Keys == ComputePlan(n, b).actions.Keys
    ensures forall k :: k in ComputePlan(n, a).actions ==>
      (ComputePlan(n, a).actions[k].Skip? <==> ComputePlan(n, b).actions[k].Skip?)
    ensures forall k ::
      k in ComputePlan(n, a).actions && SameDataPerId(a, k) && ComputePlan(n, a).actions[k].Resend? ==>
      SortPayloads(ComputePlan(n, a).actions[k].payloads) == SortPayloads(ComputePlan(n, b).actions[k].payloads)
  {
    var x, y := Boundary(n, a), Boundary(n, b);
    forall q | 0 <= q < n ensures x[q] == y[q] { BoundPermuted(a, b, q); }
    assert x == y;
    forall k ensures DoneByAll(a, k) <==> DoneByAll(b, k) { }
    forall k | k in ComputePlan(n, a).actions
      ensures ComputePlan(n, a).actions[k].Skip? <==> ComputePlan(n, b).actions[k].Skip?
    {
      SkipPermuted(a, b, k);
    }
    forall k | k in ComputePlan(n, a).actions && SameDataPerId(a, k) && ComputePlan(n, a).actions[k].Resend?
      ensures SortPayloads(ComputePlan(n, a).actions[k].payloads) == SortPayloads(ComputePlan(n, b).actions[k].payloads)
    {
      SkipPermuted(a, b, k);
      UnionPermuted(a, b, k);
    }
  }

  /**
   * The merge is lossless: up to the boundary every key is done by every
   * reporter or has an action, and nothing else has one; every clock a reporter
   * saw or issued is inside the boundary.
   */
  lemma MergeLossless(n: nat, reports: seq<Report>, r: Report, k: Key)
    requires AllFit(n, reports) && r in reports
    ensures var plan := ComputePlan(n, reports);
      && (k in plan.actions <==> k in KeysUpTo(plan.boundary) && !DoneByAll(reports, k))
      && (k.issuer < n && 1 <= k.clock <= Larger(r.seen[k.issuer], r.issued[k.issuer])
          ==> k in KeysUpTo(plan.boundary))
  {
    var plan := ComputePlan(n, reports);
    if k.issuer < n && 1 <= k.clock <= Larger(r.seen[k.issuer], r.issued[k.issuer]) {
      assert k.clock <= Bound(reports, k.issuer) == plan.boundary[k.issuer];
      assert k == ClockKey(k.clock, k.issuer);
    }
  }

  /**
   * A key some reporter holds payloads for, within its own seen clocks, is never
   * skipped: either everybody already processed it or its action carries every
   * one of those payload ids.
   */
  lemma NeverSkipped(n: nat, reports: seq<Report>, r: Report, k: Key)
    requires AllFit(n, reports) && r in reports
    requires k.issuer < n && 1 <= k.clock <= r.seen[k.issuer] && k in r.have && r.have[k] != []
    ensures var plan := ComputePlan(n, reports);
      || DoneByAll(reports, k)
      || (&& k in plan.actions && plan.actions[k].Resend?
          && forall p :: p in r.have[k] ==> p.Id() in Ids(plan.actions[k].payloads))
  {
    MergeLossless(n, reports, r, k);
    UnionFacts(reports, k);
    assert Offered(reports, k, r.have[k][0]);
    forall p | p in r.have[k] ensures p.Id() in Ids(Union(reports, k)) { assert Offered(reports, k, p); }
  }

  // ----- the loops of compute_recovery_plan -----

  /** compute_recovery_plan as written: fill the boundary array, then visit every slot and clock. */
  method ComputeRecoveryPlan(n: nat, reports: seq<Report>) returns (plan: Plan)
    requires AllFit(n, reports)
    ensures plan == ComputePlan(n, reports)
  {
    var boundary := ComputeBoundary(n, reports);
    var actions := ComputeActions(reports, boundary);
    plan := Plan(actions, boundary);
    assert actions == ComputePlan(n, reports).actions;
  }

  method ComputeBoundary(n: nat, reports: seq<Report>) returns (b: seq<nat>)
    requires AllFit(n, reports)
    ensures b == Boundary(n, reports)
  {
    var boundary := new nat[n](_ => 0);
    for i := 0 to |reports|
      invariant forall q :: 0 <= q < n ==> boundary[q] == BoundTo(n, reports, i, q)
    {
      assert reports[i] in reports && Fits(n, reports[i]);
      RaiseBoundary(boundary, reports[i]);
      forall q | 0 <= q < n ensures boundary[q] == BoundTo(n, reports, i + 1, q) { BoundStep(n, reports, i, q); }
    }
    assert reports[..|reports|] == reports;
    b := boundary[..];
    assert forall q :: 0 <= q < n ==> b[q] == BoundTo(n, reports, |reports|, q);
  }

  /** One report's contribution, slot by slot, in place. */
  method RaiseBoundary(boundary: array<nat>, r: Report)
    requires Fits(boundary.Length, r)
    modifies boundary
    ensures forall q :: 0 <= q < boundary.Length ==>
      boundary[q] == Larger(old(boundary[q]), Larger(r.seen[q], r.issued[q]))
  {
    for q := 0 to boundary.Length
      invariant forall x :: 0 <= x < q ==> boundary[x] == Larger(old(boundary[x]), Larger(r.seen[x], r.issued[x]))
      invariant forall x :: q <= x < boundary.Length ==> boundary[x] == old(boundary[x])
    {
      var cand := Larger(r.seen[q], r.issued[q]);
      if cand > boundary[q] { boundary[q] := cand; }
    }
  }

  method ComputeActions(reports: seq<Report>, boundary: seq<nat>) returns (actions: map<Key, Action>)
    ensures forall k :: k in actions <==> Unresolved(reports, boundary, k)
    ensures forall k :: k in actions ==> actions[k] == ActionFor(reports, k)
  {
    actions := map[];
    for q := 0 to |boundary|
      invariant forall k :: k in actions <==> Unresolved(reports, boundary, k) && k.issuer < q
      invariant forall k :: k in actions ==> actions[k] == ActionFor(reports, k)
    {
      for cl := 1 to boundary[q] + 1
        invariant forall k :: k in actions <==> Unresolved(reports, boundary, k) && Visited(k, q, cl)
        invariant forall k :: k in actions ==> actions[k] == ActionFor(reports, k)
      {
        var key := ClockKey(cl, q);
        if !DoneByAll(reports, key) {
          var payloads := UnionPayloads(reports, key);
          actions := actions[key := if payloads == [] then Skip else Resend(payloads)];
        }
      }
    }
  }

  /** Visited by the loops before clock `cl` of slot `q`. */
  predicate Visited(k: Key, q: nat, cl: nat) { k.issuer < q || (k.issuer == q && k.clock < cl) }

  predicate Unresolved(reports: seq<Report>, b: seq<nat>, k: Key) {
    k in KeysUpTo(b) && !DoneByAll(reports, k)
  }

  function BoundTo(n: nat, reports: seq<Report>, i: nat, q: nat): nat
    requires AllFit(n, reports) && q < n && i <= |reports|
  {
    assert forall r :: r in reports[..i] ==> r in reports && Fits(n, r);
    Bound(reports[..i], q)
  }

  lemma BoundStep(n: nat, reports: seq<Report>, i: nat, q: nat)
    requires AllFit(n, reports) && q < n && i < |reports|
    ensures reports[i] in reports && Fits(n, reports[i])
    ensures BoundTo(n, reports, i + 1, q) ==
      Larger(BoundTo(n, reports, i, q), Larger(reports[i].seen[q], reports[i].issued[q]))
  {
    assert reports[..i + 1][..i] == reports[..i];
  }

  /** The dedup loop: `seen_ids` is exactly the ids already pushed. */
  method UnionPayloads(reports: seq<Report>, key: Key) returns (payloads: seq<Payload>)
    ensures payloads == Union(reports, key)
  {
    payloads := [];
    var seenIds: set<Id> := {};
    for i := 0 to |reports|
      invariant payloads == Union(reports[..i], key)
      invariant seenIds == Ids(payloads)
    {
      assert reports[..i + 1][..i] == reports[..i];
      var r := reports[i];
      if key in r.have {
        var ps := r.have[key];
        ghost var acc := payloads;
        for j := 0 to |ps|
          invariant Merge(payloads, ps[j..]) == Merge(acc, ps)
          invariant seenIds == Ids(payloads)
        {
          assert ps[j..][0] == ps[j] && ps[j..][1..] == ps[j + 1..];
          if ps[j].Id() !in seenIds {
            seenIds := seenIds + {ps[j].Id()};
            payloads := payloads + [ps[j]];
          }
        }
      }
    }
    assert reports[..|reports|] == reports;
  }
}
