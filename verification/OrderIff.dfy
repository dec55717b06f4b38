// Exactly when survivors keep one order after a view change.

module OrderIff {
  import opened Types
  import opened Kernel
  import opened LocalOrder
  import opened Network
  import opened Recovery
  import opened Applying
  import opened TokenRing
  import opened Recycle
  import opened ViewInstall
  import opened AfterInstall
  import opened StrayHarmless
  import opened AcrossInstall
  import opened Straggler

  // ----- a straggler that does no harm -----

  ghost function CaseOf(rs: RingState, v: nat, order: seq<nat>): Case
    requires RingShaped(rs) && Survivors(rs.sys.ring, v, order)
  {
    Case(rs.sys.ring, rs.mode == UniformTotalOrder, PlanOf(rs.sys, v, order).boundary, v,
         AgreedLog(rs.sys, v, order), [])
  }

  /** The newest train of `v`, which nobody else has met, and a mode or ring in which that is harmless. */
  ghost predicate Harmless(rs: RingState, v: nat) {
    v < |rs.at| && JustLaunched(rs.at[v]) && (rs.mode == UniformTotalOrder || rs.sys.ring.k == 1)
  }

  lemma StrayClock(rs: LiveRing, v: nat, order: seq<nat>)
    requires Survivors(rs.sys.ring, v, order) && v < |rs.at| && JustLaunched(rs.at[v])
    ensures PlanOf(rs.sys, v, order).boundary[v] + 1 == rs.at[v].train.clock
  {
    UnmetIsBeyond(rs, v, order);
    var p := Place(rs.sys.ring.n, v, 1);
    UnmetSeen(rs, v, p);
    RingTidy(rs, p);
    WithinBoundary(rs.sys, v, order, p);
  }

  lemma UnmetSeen(rs: LiveRing, v: nat, p: nat)
    requires v < |rs.at| && p < rs.sys.ring.n && p != v && JustLaunched(rs.at[v])
    ensures rs.sys.nodes[p].seen[v] == rs.at[v].train.clock - 1
  {
    assert TokenOk(rs, v);
    assert VisitOk(rs.sys.nodes[p], rs.at[v], Offset(rs.sys.ring.n, v, p));
  }

  lemma StrayHasNoOtherAck(rs: LiveRing, v: nat, t: Train)
    requires v < |rs.at| && JustLaunched(rs.at[v]) && t in rs.sys.sent && t.Key() == rs.at[v].train.Key()
    ensures t.acks == {v}
  {
    FromReachable(rs.sys.ring, rs.mode, rs.sys);
    var evs :| Runs(Start(rs.sys.ring, rs.mode), evs, rs.sys);
    RunFacts(rs.sys.ring, rs.mode, evs, rs.sys);
    assert TokenOk(rs, v);
    assert Live(FirstEpoch(rs.sys.ring), t) && Sane(rs.sys, FirstEpoch(rs.sys.ring), t);
    forall a | a in t.acks ensures a == v {
      assert a in Members(rs.sys.ring, {});
      if a != v { UnmetSeen(rs, v, a); }
    }
  }

  /** Above the boundary only the stray is left. */
  lemma OnlyStrayLeft(rs: LiveRing, v: nat, order: seq<nat>, t: Train)
    requires Survivors(rs.sys.ring, v, order) && v < |rs.at| && JustLaunched(rs.at[v]) && t in rs.sys.sent
    requires t.issuer < rs.sys.ring.n && t.clock > PlanOf(rs.sys, v, order).boundary[t.issuer]
    ensures t.Key() == rs.at[v].train.Key() && t.acks == {v}
  {
    StrayClock(rs, v, order);
    assert TokenOk(rs, v);
    if t.issuer != v {
      SentBelow(rs, v, order, t);
    } else {
      NewestIsLargest(rs, t);
      StrayHasNoOtherAck(rs, v, t);
    }
  }

  lemma StrayLineage(rs: LiveRing, g: Case)
    requires CaseOk(g) && g.ring == rs.sys.ring
    ensures Lineage(StrayTrains(g, rs.sys.sent), Base(g))
  {
    FromReachable(rs.sys.ring, rs.mode, rs.sys);
    var sent, e := rs.sys.sent, FirstEpoch(rs.sys.ring);
    forall t, u | t in StrayTrains(g, sent) && u in StrayTrains(g, sent) && t.acks <= u.acks
      ensures IsPrefix(t.payloads, u.payloads)
    {
      assert Live(e, t);
    }
  }

  /** A level survivor, whatever the stray will turn out to carry. */
  ghost predicate Begins(g: Case, n: Node, log: seq<Payload>)
    requires CaseOk(g)
  {
    Lite(g, n) && Sound(n) && forall c :: Core(g.(content := c), n, log)
  }

  lemma LevelBegins(g: Case, n: Node, log: seq<Payload>)
    requires CaseOk(g) && Level(n, g.b, g.v) && n.ring == g.ring && n.mode == g.Mode() && log == g.log0
    ensures Begins(g, n, log)
  {
    StrayIsNew(g);
    NothingAfter(g.log0);
    forall c ensures Core(g.(content := c), n, log) {
      assert g.(content := c).Stray() == g.Stray();
    }
  }

  lemma InstalledMode(rs: LiveRing, v: nat, order: seq<nat>, p: nat)
    requires Survivors(rs.sys.ring, v, order) && p in order
    ensures Installed(rs.sys, v, order).nodes[p].mode == rs.mode
  {
    PlanFits(rs.sys, v, order);
  }

  lemma InstalledBegins(rs: LiveRing, v: nat, order: seq<nat>, g: Case, p: nat)
    requires Survivors(rs.sys.ring, v, order) && Harmless(rs, v) && g == CaseOf(rs, v, order) && CaseOk(g) && p in order
    ensures Begins(g, Installed(rs.sys, v, order).nodes[p], Installed(rs.sys, v, order).log[p])
  {
    VirtualSynchrony(rs, v, order, p);
    InstalledMode(rs, v, order, p);
    LevelBegins(g, Installed(rs.sys, v, order).nodes[p], Installed(rs.sys, v, order).log[p]);
  }

  lemma CaseFits(rs: LiveRing, v: nat, order: seq<nat>)
    requires Survivors(rs.sys.ring, v, order) && Harmless(rs, v)
    ensures CaseOk(CaseOf(rs, v, order)) && CaseOf(rs, v, order).Stray() == rs.at[v].train.Key()
  {
    StrayClock(rs, v, order);
    assert TokenOk(rs, v);
  }

  /** A train acked by the dead issuer alone. */
  lemma LoneAck(g: Case, s: System, t: Train)
    requires CaseOk(g) && Shaped(s) && s.ring == g.ring && t.Key() == g.Stray() && t.acks == {g.v}
    ensures AckedByMet(g, s, t)
  {
  }

  lemma WireBegins(g: Case, s: System)
    requires CaseOk(g) && Shaped(s) && s.ring == g.ring && s.up <= Members(g.ring, {g.v})
    requires forall t :: t in s.sent && t.clock > g.b[t.issuer] ==> t.Key() == g.Stray() && t.acks == {g.v}
    requires Lineage(StrayTrains(g, s.sent), Base(g))
    ensures Wire(g, s)
  {
    forall t | t in s.sent && t.clock > g.b[t.issuer] ensures AckedByMet(g, s, t) { LoneAck(g, s, t); }
  }

  lemma HarmlessWire(rs: LiveRing, v: nat, order: seq<nat>, g: Case)
    requires Survivors(rs.sys.ring, v, order) && Harmless(rs, v) && g == CaseOf(rs, v, order)
    ensures CaseOk(g) && Wire(g, Installed(rs.sys, v, order))
  {
    CaseFits(rs, v, order);
    forall t | t in rs.sys.sent && t.clock > g.b[t.issuer] ensures t.Key() == g.Stray() && t.acks == {v} {
      OnlyStrayLeft(rs, v, order, t);
    }
    StrayLineage(rs, g);
    InstalledUp(rs, v, order);
    WireBegins(g, Installed(rs.sys, v, order));
  }

  lemma InstalledUp(rs: LiveRing, v: nat, order: seq<nat>)
    requires Survivors(rs.sys.ring, v, order)
    ensures var s0 := Installed(rs.sys, v, order);
      s0.up <= Members(rs.sys.ring, {v}) && s0.sent == rs.sys.sent && s0.ring == rs.sys.ring
  {
  }

  lemma HarmlessStart(rs: LiveRing, v: nat, order: seq<nat>, g: Case)
    requires Survivors(rs.sys.ring, v, order) && Harmless(rs, v) && g == CaseOf(rs, v, order)
    ensures CaseOk(g) && WireInv(g, Installed(rs.sys, v, order))
    ensures forall c :: Cores(g.(content := c), Installed(rs.sys, v, order))
  {
    var s0 := Installed(rs.sys, v, order);
    HarmlessWire(rs, v, order, g);
    forall p | p in Members(g.ring, {v}) ensures Begins(g, s0.nodes[p], s0.log[p]) {
      SurvivorIsMember(rs.sys.ring, v, order, p);
      InstalledBegins(rs, v, order, g, p);
    }
    CoresBegin(g, s0);
  }

  lemma CoresBegin(g: Case, s: System)
    requires CaseOk(g) && Shaped(s) && s.ring == g.ring
    requires forall p :: p in Members(g.ring, {g.v}) ==> Begins(g, s.nodes[p], s.log[p])
    ensures forall c :: Cores(g.(content := c), s)
    ensures forall p :: p in Members(g.ring, {g.v}) ==> Lite(g, s.nodes[p])
  {
    forall c ensures Cores(g.(content := c), s) {
      var h := g.(content := c);
      forall p | p in Members(h.ring, {h.v}) ensures Core(h, s.nodes[p], s.log[p]) && Sound(s.nodes[p]) {
        assert Begins(g, s.nodes[p], s.log[p]);
      }
    }
    forall p | p in Members(g.ring, {g.v}) ensures Lite(g, s.nodes[p]) { assert Begins(g, s.nodes[p], s.log[p]); }
  }

  /** With such a straggler survivors' logs still stay mutual prefixes. */
  lemma HarmlessKeepsOrder(rs: LiveRing, v: nat, order: seq<nat>, evs: seq<Event>, s: System, p: nat, q: nat)
    requires Survivors(rs.sys.ring, v, order) && Harmless(rs, v)
    requires Runs(Installed(rs.sys, v, order), evs, s) && p in order && q in order
    ensures p < |s.log| && q < |s.log| && (IsPrefix(s.log[p], s.log[q]) || IsPrefix(s.log[q], s.log[p]))
  {
    var g := CaseOf(rs, v, order);
    HarmlessStart(rs, v, order, g);
    SurvivorIsMember(rs.sys.ring, v, order, p);
    SurvivorIsMember(rs.sys.ring, v, order, q);
    AtMostTheStray(g, Installed(rs.sys, v, order), evs, s, p, q);
  }

  // ----- the exact condition -----

  /** Two logs that agree as far as both go. */
  ghost predicate OneOrder(s: System, p: nat, q: nat) {
    p < |s.log| && q < |s.log| && (IsPrefix(s.log[p], s.log[q]) || IsPrefix(s.log[q], s.log[p]))
  }

  lemma {:induction false} RunShaped(s: System, evs: seq<Event>, s': System)
    requires Shaped(s) && Runs(s, evs, s')
    ensures Shaped(s') && s'.ring == s.ring
    decreases |evs|
  {
    if evs != [] {
      if evs[0].Local? { TrainSentShape(s, evs[0].p, evs[0].input); }
      RunShaped(Next(s, evs[0]), evs[1..], s');
    }
  }

  lemma LoneSurvivor(rs: LiveRing, v: nat, order: seq<nat>, evs: seq<Event>, s: System, p: nat, q: nat)
    requires rs.sys.ring.n == 2 && Survivors(rs.sys.ring, v, order)
    requires Runs(Installed(rs.sys, v, order), evs, s) && p in order && q in order
    ensures OneOrder(s, p, q)
  {
    RunShaped(Installed(rs.sys, v, order), evs, s);
    assert p == q;
  }

  /** Any ring state, any victim, any continuation: in these cases nothing need be assumed. */
  lemma OrderSurvives(rs: LiveRing, v: nat, order: seq<nat>, evs: seq<Event>, s: System, p: nat, q: nat)
    requires Survivors(rs.sys.ring, v, order)
    requires rs.mode == UniformTotalOrder || rs.sys.ring.n == 2 || rs.sys.ring.k == 1
    requires Runs(Installed(rs.sys, v, order), evs, s) && p in order && q in order
    ensures OneOrder(s, p, q)
  {
    if rs.sys.ring.n == 2 {
      LoneSurvivor(rs, v, order, evs, s, p, q);
    } else if Harmless(rs, v) {
      HarmlessKeepsOrder(rs, v, order, evs, s, p, q);
    } else {
      if v < |rs.at| { StragglerIffJustLaunched(rs, v, order); } else { NonIssuerLeavesNothing(rs, v, order); }
      OrderSurvivesViewChange(rs, v, order, evs, s, p, q);
    }
  }

  /** Whoever is excluded, and whatever follows, survivors keep one order. */
  ghost predicate KeepsOrder(rs: RingState)
    requires RingShaped(rs)
  {
    forall v, order, s, p, q ::
      (Survivors(rs.sys.ring, v, order) && Continues(Installed(rs.sys, v, order), s) && p in order && q in order
       ==> OneOrder(s, p, q))
  }

  lemma AllKeepOrder(ring: Ring, mode: Mode, rs: RingState)
    requires mode != CausalOrder && Leads(RingStart(ring, mode), rs) && RingShaped(rs)
    requires mode == UniformTotalOrder || ring.n == 2 || ring.k == 1
    ensures KeepsOrder(rs)
  {
    var evs :| RingRuns(RingStart(ring, mode), evs, rs);
    RingReachableInv(ring, mode, evs, rs);
    StartInv(ring, mode);
    RunRing(RingStart(ring, mode), evs, rs);
    forall v, order, s, p, q |
      Survivors(rs.sys.ring, v, order) && Continues(Installed(rs.sys, v, order), s) && p in order && q in order
      ensures OneOrder(s, p, q)
    {
      var after :| Runs(Installed(rs.sys, v, order), after, s);
      OrderSurvives(rs, v, order, after, s, p, q);
    }
  }

  /** With three processes and two issuers, TotalOrder does not. */
  lemma SomeLoseOrder(ring: Ring) returns (rs: LiveRing)
    requires ring.n >= 3 && ring.k >= 2
    ensures Leads(RingStart(ring, TotalOrder), rs) && !KeepsOrder(rs)
  {
    var order := AllBut(ring, 0);
    var s: System;
    rs, s := StragglerSplitsOrder(ring, order);
    LeadsToItself(rs);
    assert 1 in order && 2 in order;
    assert !OneOrder(s, 1, 2);
  }

  /**
   * The exact condition: from every reachable ring state, whoever is excluded and
   * whatever happens next, the survivors' logs stay mutual prefixes, if and only
   * if the mode is UniformTotalOrder, or at most one process survives, or the
   * ring has a single issuer.
   */
  lemma OrderSurvivesIff(ring: Ring, mode: Mode)
    requires mode != CausalOrder
    ensures (forall rs :: Leads(RingStart(ring, mode), rs) && RingShaped(rs) ==> KeepsOrder(rs))
      <==> mode == UniformTotalOrder || ring.n == 2 || ring.k == 1
  {
    if mode == UniformTotalOrder || ring.n == 2 || ring.k == 1 {
      forall rs | Leads(RingStart(ring, mode), rs) && RingShaped(rs) ensures KeepsOrder(rs) {
        AllKeepOrder(ring, mode, rs);
      }
    } else {
      var rs := SomeLoseOrder(ring);
      assert Leads(RingStart(ring, mode), rs) && RingShaped(rs) && !KeepsOrder(rs);
    }
  }
}
