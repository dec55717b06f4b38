// What a second return proves: the issuer recycles once it has recorded its own
// key, and with more than one issuer that does not mean everyone has.

module Recycle {
  import opened Types
  import opened Kernel
  import opened TokenRing
  import opened RingLag

  ghost predicate AllUp(rs: RingState) { rs.sys.up == Members(rs.sys.ring, {}) }

  /** Some ring events lead from `rs` to `rs'`. */
  ghost predicate Leads(rs: RingState, rs': RingState) { exists evs :: RingRuns(rs, evs, rs') }

  lemma LeadsTogether(a: RingState, b: RingState, c: RingState)
    requires Leads(a, b) && Leads(b, c)
    ensures Leads(a, c)
  {
    var x :| RingRuns(a, x, b);
    var y :| RingRuns(b, y, c);
    JoinRuns(a, x, b, y, c);
  }

  lemma LeadsToItself(a: RingState)
    ensures Leads(a, a)
  {
    assert RingRuns(a, [], a);
  }

  // ----- carrying one token -----

  /** Hops made since issue, over the first two laps. */
  function Travelled(n: nat, tok: Token): nat {
    if tok.lap == 0 then tok.off else if tok.lap == 1 then n + tok.off else 2 * n + tok.off
  }

  /** Only token `q` has moved, by `m` hops, still the same train clock. */
  ghost predicate Carried(rs: RingState, rs': RingState, q: nat, m: nat) {
    && q < |rs.at| && |rs'.at| == |rs.at| && rs'.sys.ring == rs.sys.ring && AllUp(rs')
    && (forall r :: 0 <= r < |rs.at| && r != q ==> rs'.at[r] == rs.at[r])
    && rs'.at[q].train.clock == rs.at[q].train.clock
    && Travelled(rs.sys.ring.n, rs'.at[q]) == Travelled(rs.sys.ring.n, rs.at[q]) + m
  }

  /** On its first return a train is not yet recorded by its issuer, so it goes round again. */
  lemma KeepsItsClock(rs: LiveRing, q: nat)
    requires q < |rs.at| && rs.at[q].lap <= 1
    ensures Leaves(rs, q).clock == rs.at[q].train.clock
  {
    assert TokenOk(rs, q);
    if rs.at[q].lap == 1 && rs.at[q].off == 0 {
      assert VisitOk(rs.sys.nodes[q], rs.at[q], Offset(rs.sys.ring.n, q, q));
    }
  }

  lemma MoveOnce(rs: LiveRing, q: nat) returns (rs': LiveRing)
    requires q < |rs.at| && AllUp(rs) && rs.at[q].lap <= 1
    ensures Leads(rs, rs') && Carried(rs, rs', q, 1)
  {
    CanMove(rs, q);
    MoveInv(rs, q);
    MovesOnePlace(rs, q);
    OneEvent(rs, Move(q));
    rs' := RingNext(rs, Move(q));
  }

  lemma CanMove(rs: LiveRing, q: nat)
    requires q < |rs.at| && AllUp(rs)
    ensures RingEnabled(rs, Move(q))
  {
  }

  lemma MovesOnePlace(rs: LiveRing, q: nat)
    requires RingEnabled(rs, Move(q)) && AllUp(rs) && rs.at[q].lap <= 1
    ensures Carried(rs, RingNext(rs, Move(q)), q, 1)
  {
    MoveShape(rs, q);
    KeepsItsClock(rs, q);
  }

  lemma {:induction false} Carry(rs: LiveRing, q: nat, m: nat) returns (rs': LiveRing)
    requires q < |rs.at| && AllUp(rs) && Travelled(rs.sys.ring.n, rs.at[q]) + m <= 2 * rs.sys.ring.n
    ensures Leads(rs, rs') && Carried(rs, rs', q, m)
    decreases m
  {
    rs' := rs;
    LeadsToItself(rs);
    if m > 0 {
      var mid := MoveOnce(rs, q);
      rs' := Carry(mid, q, m - 1);
      LeadsTogether(rs, mid, rs');
    }
  }

  // ----- the run -----

  /** Tokens below `r`, but for the first, are back at their issuers for the first time; the rest have not moved. */
  ghost predicate Lined(rs: RingState, r: nat) {
    && |rs.at| == rs.sys.ring.k && AllUp(rs) && 1 <= r <= |rs.at|
    && (forall j :: 0 <= j < |rs.at| ==> rs.at[j].train.clock == 1)
    && (forall j :: 1 <= j < r ==> Travelled(rs.sys.ring.n, rs.at[j]) == rs.sys.ring.n)
    && (forall j :: 0 <= j < |rs.at| && !(1 <= j < r) ==> Travelled(rs.sys.ring.n, rs.at[j]) == 1)
  }

  lemma StartLined(ring: Ring, mode: Mode) returns (rs: LiveRing)
    requires mode != CausalOrder
    ensures rs == RingStart(ring, mode) && rs.sys.ring == ring && Leads(RingStart(ring, mode), rs) && Lined(rs, 1)
  {
    StartInv(ring, mode);
    rs := RingStart(ring, mode);
    LeadsToItself(rs);
  }

  lemma {:induction false} LineUp(ring: Ring, mode: Mode, r: nat) returns (rs: LiveRing)
    requires mode != CausalOrder && 1 <= r <= ring.k
    ensures rs.sys.ring == ring && Leads(RingStart(ring, mode), rs) && Lined(rs, r)
  {
    if r == 1 {
      rs := StartLined(ring, mode);
    } else {
      var mid := LineUp(ring, mode, r - 1);
      rs := Carry(mid, r - 1, ring.n - 1);
      LeadsTogether(RingStart(ring, mode), mid, rs);
    }
  }

  /** Everybody has seen the train's clock, except perhaps its issuer. */
  lemma SeenAfterLap(rs: LiveRing, q: nat, p: nat)
    requires q < |rs.at| && p < rs.sys.ring.n && Travelled(rs.sys.ring.n, rs.at[q]) == rs.sys.ring.n
    ensures rs.sys.nodes[p].seen[q] == if p == q then rs.at[q].train.clock - 1 else rs.at[q].train.clock
  {
    assert TokenOk(rs, q);
    assert VisitOk(rs.sys.nodes[p], rs.at[q], Offset(rs.sys.ring.n, q, p));
  }

  /** Token 0 is back for the second time, every other token for the first. */
  ghost predicate AboutToRecycle(rs: RingState) {
    && |rs.at| == rs.sys.ring.k >= 1 && rs.at[0].lap >= 2 && rs.at[0].train.Key() == ClockKey(1, 0)
    && (forall j :: 1 <= j < |rs.at| ==>
          Travelled(rs.sys.ring.n, rs.at[j]) == rs.sys.ring.n && rs.at[j].train.clock == 1)
  }

  lemma FirstHasRecorded(rs: LiveRing)
    requires AboutToRecycle(rs)
    ensures ClockKey(1, 0) in rs.sys.nodes[0].done
  {
    var s := rs.sys.nodes[0];
    assert TokenOk(rs, 0);
    assert VisitOk(s, rs.at[0], Offset(rs.sys.ring.n, 0, 0));
    forall r | 0 <= r < s.ring.k ensures s.seen[r] >= 1 {
      if r > 0 { SeenAfterLap(rs, r, 0); }
    }
    RecycledRecordedIff(rs, 0, 0);
  }

  lemma SecondHasParked(rs: LiveRing)
    requires AboutToRecycle(rs) && |rs.at| >= 2
    ensures ClockKey(1, 0) in rs.sys.nodes[1].parked && ClockKey(1, 0) !in rs.sys.nodes[1].done
  {
    SeenAfterLap(rs, 1, 1);
    NobodyCrashed(rs, 1);
    RecycledRecordedIff(rs, 0, 1);
  }

  /** Whoever is about to recycle may conclude that everybody has recorded the key. */
  ghost predicate RecycleMeansRecorded(rs: RingState)
    requires RingShaped(rs)
  {
    forall q, p :: (0 <= q < |rs.at| && 0 <= p < rs.sys.ring.n
                    && rs.at[q].lap >= 2 && rs.at[q].train.Key() in rs.sys.nodes[q].done
                    ==> rs.at[q].train.Key() in rs.sys.nodes[p].done)
  }

  /** With a second issuer: node 0 is about to recycle (1,0) and node 1 holds it only parked. */
  lemma RecycledWhileParked(ring: Ring, mode: Mode) returns (rs: LiveRing)
    requires mode != CausalOrder && ring.k >= 2
    ensures Leads(RingStart(ring, mode), rs) && rs.sys.ring == ring
    ensures rs.at[0].lap >= 2 && rs.at[0].off == 0 && rs.at[0].train.Key() == ClockKey(1, 0)
    ensures ClockKey(1, 0) in rs.sys.nodes[0].done
    ensures ClockKey(1, 0) in rs.sys.nodes[1].parked && ClockKey(1, 0) !in rs.sys.nodes[1].done
  {
    var mid := LineUp(ring, mode, ring.k);
    rs := Carry(mid, 0, 2 * ring.n - 1);
    LeadsTogether(RingStart(ring, mode), mid, rs);
    assert TokenOk(rs, 0);
    assert AboutToRecycle(rs);
    FirstHasRecorded(rs);
    SecondHasParked(rs);
  }

  lemma OnlyIssuerIsAbreast(rs: LiveRing, q: nat, p: nat)
    requires rs.sys.ring.k == 1 && q < |rs.at| && p < rs.sys.ring.n && rs.at[q].lap >= 2
    ensures Abreast(rs.sys.nodes[p], rs.at[q].train.Key())
  {
    assert TokenOk(rs, q);
    assert VisitOk(rs.sys.nodes[p], rs.at[q], Offset(rs.sys.ring.n, q, p));
  }

  /**
   * "Every node has delivered it" holds at every recycle of every run on a ring
   * if and only if that ring has a single issuer.
   */
  lemma RecycleClaimIff(ring: Ring, mode: Mode)
    requires mode != CausalOrder
    ensures (forall rs :: Leads(RingStart(ring, mode), rs) && RingShaped(rs) ==> RecycleMeansRecorded(rs))
      <==> ring.k == 1
  {
    if ring.k == 1 {
      forall rs | Leads(RingStart(ring, mode), rs) && RingShaped(rs) ensures RecycleMeansRecorded(rs) {
        SingleIssuerRecords(ring, mode, rs);
      }
    } else {
      var rs := RecycledWhileParked(ring, mode);
      assert !RecycleMeansRecorded(rs);
    }
  }

  lemma SingleIssuerRecords(ring: Ring, mode: Mode, rs: RingState)
    requires mode != CausalOrder && ring.k == 1 && Leads(RingStart(ring, mode), rs) && RingShaped(rs)
    ensures RecycleMeansRecorded(rs)
  {
    var evs :| RingRuns(RingStart(ring, mode), evs, rs);
    RingReachableInv(ring, mode, evs, rs);
    StartInv(ring, mode);
    RunRing(RingStart(ring, mode), evs, rs);
    forall q, p | 0 <= q < |rs.at| && 0 <= p < rs.sys.ring.n && rs.at[q].lap >= 2
      ensures rs.at[q].train.Key() in rs.sys.nodes[p].done
    {
      OnlyIssuerIsAbreast(rs, q, p);
      RecycledRecordedIff(rs, q, p);
    }
  }

  lemma {:induction false} RunRing(rs: RingState, evs: seq<RingEvent>, rs': RingState)
    requires RingInv(rs) && RingRuns(rs, evs, rs')
    ensures rs'.sys.ring == rs.sys.ring && rs'.mode == rs.mode
    decreases |evs|
  {
    if evs != [] {
      if evs[0].Move? { MoveInv(rs, evs[0].q); } else { QuietInv(rs, evs[0]); }
      RunRing(RingNext(rs, evs[0]), evs[1..], rs');
    }
  }
}
