// Key order across a view change: inside a view keys ascend, but the first keys
// of the next view may lie below keys already recorded.

module AcrossInstall {
  import opened Types
  import opened Kernel
  import opened LocalOrder
  import opened Recovery
  import opened TokenRing
  import opened RingLag
  import opened Recycle
  import opened ViewInstall
  import opened AfterInstall

  /** Every key the next view may record lies above every key settled before it. */
  ghost predicate NewAboveOld(ring: Ring, b: seq<nat>, v: nat) {
    forall k, j :: InEpoch(ring, NextEpoch(b, v), k) && j in KeysUpTo(b) ==> Before(j, k)
  }

  /** The same for the last old and the first new key of each pair of slots. */
  predicate EdgesAscend(ring: Ring, b: seq<nat>, v: nat)
    requires |b| == ring.n
  {
    forall q, r :: 0 <= q < ring.k && q != v && 0 <= r < ring.n && b[r] > 0 ==>
      Before(ClockKey(b[r], r), ClockKey(b[q] + 1, q))
  }

  /** For any boundary: it is enough, and necessary, to compare the edges. */
  lemma NewAboveOldIff(ring: Ring, b: seq<nat>, v: nat)
    requires |b| == ring.n
    ensures NewAboveOld(ring, b, v) <==> EdgesAscend(ring, b, v)
  {
    if NewAboveOld(ring, b, v) {
      forall q, r | 0 <= q < ring.k && q != v && 0 <= r < ring.n && b[r] > 0
        ensures Before(ClockKey(b[r], r), ClockKey(b[q] + 1, q))
      {
        assert ClockKey(b[r], r) in KeysUpTo(b);
        assert InEpoch(ring, NextEpoch(b, v), ClockKey(b[q] + 1, q));
      }
    }
    if EdgesAscend(ring, b, v) {
      forall k, j | InEpoch(ring, NextEpoch(b, v), k) && j in KeysUpTo(b) ensures Before(j, k) {
        assert Before(ClockKey(b[j.issuer], j.issuer), ClockKey(b[k.issuer] + 1, k.issuer));
      }
    }
  }

  // ----- boundaries the ring produces -----

  /** A surviving issuer's slot of the boundary is its newest clock; the victim's, its newest met clock. */
  lemma BoundaryFromTokens(rs: LiveRing, v: nat, order: seq<nat>, q: nat)
    requires Survivors(rs.sys.ring, v, order) && q < |rs.at|
    ensures PlanOf(rs.sys, v, order).boundary[q] <= rs.at[q].train.clock
    ensures q != v || !JustLaunched(rs.at[q]) ==> PlanOf(rs.sys, v, order).boundary[q] == rs.at[q].train.clock
  {
    BoundaryBelow(rs, v, order, q);
    if q != v {
      IssuerWithin(rs, v, order, q);
    } else if !JustLaunched(rs.at[q]) {
      MetIsWithin(rs, v, order);
    }
  }

  lemma IssuerWithin(rs: LiveRing, v: nat, order: seq<nat>, q: nat)
    requires Survivors(rs.sys.ring, v, order) && q < |rs.at| && q != v
    ensures rs.at[q].train.clock <= PlanOf(rs.sys, v, order).boundary[q]
  {
    assert TokenOk(rs, q);
    RingTidy(rs, q);
    WithinBoundary(rs.sys, v, order, q);
  }

  lemma ReportBelow(rs: LiveRing, q: nat, p: nat)
    requires q < |rs.at| && p < rs.sys.ring.n
    ensures ReportOf(rs.sys.nodes[p]).seen[q] <= rs.at[q].train.clock
    ensures ReportOf(rs.sys.nodes[p]).issued[q] <= rs.at[q].train.clock
  {
    SeenWithinOne(rs, p, q);
    assert TokenOk(rs, q);
  }

  lemma BoundaryBelow(rs: LiveRing, v: nat, order: seq<nat>, q: nat)
    requires Survivors(rs.sys.ring, v, order) && q < |rs.at|
    ensures PlanOf(rs.sys, v, order).boundary[q] <= rs.at[q].train.clock
  {
    var reports := Reports(rs.sys, v, order);
    assert PlanOf(rs.sys, v, order).boundary[q] == Bound(reports, q);
    forall r | r in reports ensures r.seen[q] <= rs.at[q].train.clock && r.issued[q] <= rs.at[q].train.clock {
      var p := ReportFrom(rs.sys, v, order, r);
      ReportBelow(rs, q, p);
    }
  }

  /** No issuer after a surviving one is a round ahead of it. */
  predicate NobodyAhead(b: seq<nat>, k: nat, v: nat)
    requires k <= |b|
  {
    forall q, r :: 0 <= q < r < k && q != v ==> b[r] <= b[q]
  }

  /**
   * On the ring: after an install new keys lie above all old ones if and only if
   * no issuer's slot of the boundary is ahead of a lower surviving issuer's.
   */
  lemma RingKeysAscendIff(rs: LiveRing, v: nat, order: seq<nat>)
    requires Survivors(rs.sys.ring, v, order)
    ensures var b := PlanOf(rs.sys, v, order).boundary;
      NewAboveOld(rs.sys.ring, b, v) <==> NobodyAhead(b, rs.sys.ring.k, v)
  {
    var ring, b := rs.sys.ring, PlanOf(rs.sys, v, order).boundary;
    NewAboveOldIff(ring, b, v);
    if EdgesAscend(ring, b, v) {
      forall q, r | 0 <= q < r < ring.k && q != v ensures b[r] <= b[q] {
        assert b[r] > 0 ==> Before(ClockKey(b[r], r), ClockKey(b[q] + 1, q));
      }
    }
    if NobodyAhead(b, ring.k, v) {
      forall q, r | 0 <= q < ring.k && q != v && 0 <= r < ring.n && b[r] > 0
        ensures Before(ClockKey(b[r], r), ClockKey(b[q] + 1, q))
      {
        EdgeFits(rs, v, order, b, q, r);
      }
    }
  }

  lemma EdgeFits(rs: LiveRing, v: nat, order: seq<nat>, b: seq<nat>, q: nat, r: nat)
    requires Survivors(rs.sys.ring, v, order) && b == PlanOf(rs.sys, v, order).boundary
    requires |b| == rs.sys.ring.n && NobodyAhead(b, rs.sys.ring.k, v)
    requires q < rs.sys.ring.k && q != v && r < rs.sys.ring.n && b[r] > 0
    ensures Before(ClockKey(b[r], r), ClockKey(b[q] + 1, q))
  {
    if r >= rs.sys.ring.k {
      BoundaryOnIssuers(rs, v, order, r);
    } else {
      SlotsClose(rs, v, order, q, r);
      CloseEdges(b, rs.sys.ring.k, v, q, r);
    }
  }

  lemma CloseEdges(b: seq<nat>, k: nat, v: nat, q: nat, r: nat)
    requires k <= |b| && NobodyAhead(b, k, v) && q < k && q != v && r < k && b[r] <= b[q] + 1
    ensures Before(ClockKey(b[r], r), ClockKey(b[q] + 1, q))
  {
  }

  lemma SlotsClose(rs: LiveRing, v: nat, order: seq<nat>, q: nat, r: nat)
    requires Survivors(rs.sys.ring, v, order) && q < |rs.at| && q != v && r < |rs.at|
    ensures var b := PlanOf(rs.sys, v, order).boundary; b[r] <= b[q] + 1
  {
    ClockSkew(rs, r, q);
    BoundaryBelow(rs, v, order, r);
    IssuerWithin(rs, v, order, q);
  }

  // ----- a reachable boundary that descends -----

  /** Node 1 has recorded (1,1) and holds it for recycling; token 0 still has clock 1. */
  lemma SecondHasRecorded(rs: LiveRing)
    requires rs.sys.ring.k >= 2 && rs.at[0].lap >= 2 && rs.at[1].lap >= 2
    requires rs.at[0].train.Key() == ClockKey(1, 0) && rs.at[1].train.Key() == ClockKey(1, 1)
    requires forall j :: 2 <= j < |rs.at| ==>
      Travelled(rs.sys.ring.n, rs.at[j]) == rs.sys.ring.n && rs.at[j].train.clock == 1
    ensures ClockKey(1, 1) in rs.sys.nodes[1].done
  {
    var s, n := rs.sys.nodes[1], rs.sys.ring.n;
    assert TokenOk(rs, 0) && TokenOk(rs, 1);
    assert VisitOk(s, rs.at[0], Offset(n, 0, 1)) && VisitOk(s, rs.at[1], Offset(n, 1, 1));
    forall r | 0 <= r < s.ring.k ensures s.seen[r] >= 1 {
      if r >= 2 { SeenAfterLap(rs, r, 1); }
    }
    RecycledRecordedIff(rs, 1, 1);
  }

  lemma RecycleMove(rs: LiveRing, q: nat) returns (rs': LiveRing)
    requires q < |rs.at| && AllUp(rs) && rs.at[q].off == 0 && rs.at[q].train.Key() in rs.sys.nodes[q].done
    ensures Leads(rs, rs') && AllUp(rs') && rs'.sys.ring == rs.sys.ring && |rs'.at| == |rs.at|
    ensures forall r :: 0 <= r < |rs.at| && r != q ==> rs'.at[r] == rs.at[r]
    ensures rs'.at[q].train.clock == rs.at[q].train.clock + 1 && rs'.at[q].lap == 0 && rs'.at[q].off == 1
  {
    MoveInv(rs, q);
    MoveShape(rs, q);
    MoveReceived(rs, q);
    RecycleLeaves(rs, q);
    OneEvent(rs, Move(q));
    rs' := RingNext(rs, Move(q));
  }

  lemma RecycleLeaves(rs: LiveRing, q: nat)
    requires q < |rs.at| && rs.at[q].off == 0 && rs.at[q].train.Key() in rs.sys.nodes[q].done
    ensures Leaves(rs, q).clock == rs.at[q].train.clock + 1
  {
    assert TokenOk(rs, q);
    assert VisitOk(rs.sys.nodes[q], rs.at[q], Offset(rs.sys.ring.n, q, q));
  }

  /** Tokens 0 and 1 are both back for the second time. */
  lemma BothBack(ring: Ring, mode: Mode) returns (rs: LiveRing)
    requires mode != CausalOrder && ring.k >= 2
    ensures Leads(RingStart(ring, mode), rs) && rs.sys.ring == ring && AllUp(rs)
    ensures rs.at[0].train.clock == 1 && rs.at[1].train.clock == 1 && rs.at[1].off == 0
    ensures ClockKey(1, 1) in rs.sys.nodes[1].done
  {
    var mid := FirstBack(ring, mode);
    rs := Carry(mid, 1, ring.n);
    LeadsTogether(RingStart(ring, mode), mid, rs);
    assert TokenOk(rs, 0) && TokenOk(rs, 1);
    SecondHasRecorded(rs);
  }

  lemma FirstBack(ring: Ring, mode: Mode) returns (rs: LiveRing)
    requires mode != CausalOrder
    ensures Leads(RingStart(ring, mode), rs) && rs.sys.ring == ring && AllUp(rs) && AboutToRecycle(rs)
  {
    var lined := LineUp(ring, mode, ring.k);
    rs := Carry(lined, 0, 2 * ring.n - 1);
    LeadsTogether(RingStart(ring, mode), lined, rs);
    assert TokenOk(rs, 0);
  }

  /** Issuer 1 is a round ahead of issuer 0, and its newest train has been met. */
  lemma SecondIsAhead(ring: Ring, mode: Mode) returns (rs: LiveRing)
    requires mode != CausalOrder && ring.k >= 2
    ensures Leads(RingStart(ring, mode), rs) && rs.sys.ring == ring
    ensures rs.at[0].train.clock == 1 && rs.at[1].train.clock == 2 && !JustLaunched(rs.at[1])
  {
    var back := BothBack(ring, mode);
    assert TokenOk(back, 1);
    var mid := RecycleMove(back, 1);
    LeadsTogether(RingStart(ring, mode), back, mid);
    rs := MoveOnce(mid, 1);
    LeadsTogether(RingStart(ring, mode), mid, rs);
  }

  /**
   * A boundary that descends: the plan settles (2,1), and issuer 0, if it
   * survives, reissues at (2,0), which lies below it.
   */
  lemma ReissueBelowSettled(ring: Ring, mode: Mode) returns (rs: LiveRing)
    requires mode != CausalOrder && ring.k >= 2
    ensures Leads(RingStart(ring, mode), rs) && rs.sys.ring == ring
    ensures forall v, order :: Survivors(ring, v, order) && v != 0 ==>
      && PlanOf(rs.sys, v, order).boundary[0] == 1 && PlanOf(rs.sys, v, order).boundary[1] == 2
      && !NewAboveOld(ring, PlanOf(rs.sys, v, order).boundary, v)
  {
    rs := SecondIsAhead(ring, mode);
    forall v, order | Survivors(ring, v, order) && v != 0
      ensures PlanOf(rs.sys, v, order).boundary[0] == 1 && PlanOf(rs.sys, v, order).boundary[1] == 2
      ensures !NewAboveOld(ring, PlanOf(rs.sys, v, order).boundary, v)
    {
      BoundaryFromTokens(rs, v, order, 0);
      BoundaryFromTokens(rs, v, order, 1);
      RingKeysAscendIff(rs, v, order);
    }
  }

  /** Keys ascend across every install this state may see. */
  ghost predicate InstallsAscend(rs: RingState)
    requires RingShaped(rs)
  {
    forall v, order :: Survivors(rs.sys.ring, v, order) ==>
      NewAboveOld(rs.sys.ring, PlanOf(rs.sys, v, order).boundary, v)
  }

  lemma SingleIssuerAscends(ring: Ring, mode: Mode, rs: RingState)
    requires mode != CausalOrder && ring.k == 1 && Leads(RingStart(ring, mode), rs) && RingShaped(rs)
    ensures InstallsAscend(rs)
  {
    var evs :| RingRuns(RingStart(ring, mode), evs, rs);
    RingReachableInv(ring, mode, evs, rs);
    StartInv(ring, mode);
    RunRing(RingStart(ring, mode), evs, rs);
    forall v, order | Survivors(rs.sys.ring, v, order)
      ensures NewAboveOld(rs.sys.ring, PlanOf(rs.sys, v, order).boundary, v)
    {
      RingKeysAscendIff(rs, v, order);
    }
  }

  /** Keys ascend across every install of every run on a ring if and only if it has a single issuer. */
  lemma KeysAscendClaimIff(ring: Ring, mode: Mode)
    requires mode != CausalOrder
    ensures (forall rs :: Leads(RingStart(ring, mode), rs) && RingShaped(rs) ==> InstallsAscend(rs)) <==> ring.k == 1
  {
    if ring.k == 1 {
      forall rs | Leads(RingStart(ring, mode), rs) && RingShaped(rs) ensures InstallsAscend(rs) {
        SingleIssuerAscends(ring, mode, rs);
      }
    } else {
      var rs := ReissueBelowSettled(ring, mode);
      var order := AllBut(ring, 1);
      assert Survivors(ring, 1, order);
      assert !InstallsAscend(rs);
    }
  }

  /** Everybody but `v`, in order. */
  lemma AllBut(ring: Ring, v: nat) returns (order: seq<nat>)
    requires v < ring.n
    ensures Survivors(ring, v, order)
  {
    order := seq(v, i => i) + seq(ring.n - v - 1, i => v + 1 + i);
    forall p | 0 <= p < ring.n && p != v ensures p in order {
      assert order[if p < v then p else p - 1] == p;
    }
  }
}
