// Life after an install: survivors' logs stay mutual prefixes in every
// continuation, and exactly when the crashed process's own log is a prefix of
// theirs.

module AfterInstall {
  import opened Types
  import opened Kernel
  import opened LocalOrder
  import opened Network
  import opened Recovery
  import opened Applying
  import opened Conservation
  import opened TokenRing
  import opened RingLag
  import opened ViewInstall

  /** The view that excludes `v`, starting at the plan's boundary. */
  ghost function NextEpoch(b: seq<nat>, v: nat): Epoch { Epoch(b, {v}, KeysUpTo(b)) }

  lemma LevelOrdered(s: Node, b: seq<nat>, v: nat, raw: Key -> seq<Payload>)
    requires Level(s, b, v) && CacheSane(s)
    ensures Ordered(s, NextEpoch(b, v), raw) && Quiet(s) && Log(s, NextEpoch(b, v), raw) == []
  {
    var e := NextEpoch(b, v);
    assert s.done - e.before == {};
  }

  /** Nothing of a surviving issuer was ever stamped above the boundary. */
  lemma SentBelow(rs: LiveRing, v: nat, order: seq<nat>, t: Train)
    requires Survivors(rs.sys.ring, v, order) && t in rs.sys.sent && t.issuer != v
    ensures t.issuer < rs.sys.ring.n && t.clock <= PlanOf(rs.sys, v, order).boundary[t.issuer]
  {
    FromReachable(rs.sys.ring, rs.mode, rs.sys);
    if t.clock > 0 {
      assert Live(FirstEpoch(rs.sys.ring), t);
      assert Sane(rs.sys, FirstEpoch(rs.sys.ring), t);
      RingTidy(rs, t.issuer);
      WithinBoundary(rs.sys, v, order, t.issuer);
    }
  }

  /** What the kernel assumes of the dead issuer: no train of it above the boundary survives. */
  ghost predicate NoStragglers(rs: RingState, v: nat, order: seq<nat>)
    requires RingShaped(rs) && Survivors(rs.sys.ring, v, order)
  {
    forall t :: t in rs.sys.sent && t.issuer == v ==> t.clock <= PlanOf(rs.sys, v, order).boundary[v]
  }

  /** A process that issues no trains leaves none behind. */
  lemma NonIssuerLeavesNothing(rs: LiveRing, v: nat, order: seq<nat>)
    requires Survivors(rs.sys.ring, v, order) && v >= rs.sys.ring.k
    ensures NoStragglers(rs, v, order)
  {
    forall t | t in rs.sys.sent && t.issuer == v ensures t.clock <= PlanOf(rs.sys, v, order).boundary[v] {
      SentByIssuer(rs, t);
    }
  }

  lemma SentByIssuer(rs: LiveRing, t: Train)
    requires t in rs.sys.sent
    ensures t.clock > 0 ==> t.issuer < rs.sys.ring.k
  {
    FromReachable(rs.sys.ring, rs.mode, rs.sys);
    assert t.clock > 0 ==> Live(FirstEpoch(rs.sys.ring), t);
    assert Live(FirstEpoch(rs.sys.ring), t) ==> Sane(rs.sys, FirstEpoch(rs.sys.ring), t);
  }

  /** Nobody but the victim has met its newest train. */
  predicate JustLaunched(tok: Token) { tok.lap == 0 && tok.off == 1 }

  lemma UnmetIsBeyond(rs: LiveRing, v: nat, order: seq<nat>)
    requires Survivors(rs.sys.ring, v, order) && v < |rs.at| && JustLaunched(rs.at[v])
    ensures PlanOf(rs.sys, v, order).boundary[v] < rs.at[v].train.clock
  {
    var reports := Reports(rs.sys, v, order);
    var b := Bound(reports, v);
    assert PlanOf(rs.sys, v, order).boundary[v] == b;
    forall r | r in reports ensures r.seen[v] < rs.at[v].train.clock && r.issued[v] < rs.at[v].train.clock {
      var p := ReportFrom(rs.sys, v, order, r);
      UnmetReport(rs, v, p);
    }
    assert TokenOk(rs, v);
  }

  lemma UnmetReport(rs: LiveRing, v: nat, p: nat)
    requires v < |rs.at| && p < rs.sys.ring.n && p != v && JustLaunched(rs.at[v])
    ensures ReportOf(rs.sys.nodes[p]).seen[v] < rs.at[v].train.clock
    ensures ReportOf(rs.sys.nodes[p]).issued[v] < rs.at[v].train.clock
  {
    assert TokenOk(rs, v);
    assert VisitOk(rs.sys.nodes[p], rs.at[v], Offset(rs.sys.ring.n, v, p));
  }

  lemma MetIsWithin(rs: LiveRing, v: nat, order: seq<nat>)
    requires Survivors(rs.sys.ring, v, order) && v < |rs.at| && !JustLaunched(rs.at[v])
    ensures rs.at[v].train.clock <= PlanOf(rs.sys, v, order).boundary[v]
  {
    var p := Place(rs.sys.ring.n, v, 1);
    NextHasMet(rs, v, p);
    RingTidy(rs, p);
    WithinBoundary(rs.sys, v, order, p);
  }

  lemma NextHasMet(rs: LiveRing, v: nat, p: nat)
    requires v < |rs.at| && p == Place(rs.sys.ring.n, v, 1) && !JustLaunched(rs.at[v])
    ensures rs.sys.nodes[p].seen[v] == rs.at[v].train.clock
  {
    assert TokenOk(rs, v);
    assert VisitOk(rs.sys.nodes[p], rs.at[v], Offset(rs.sys.ring.n, v, p));
  }

  lemma NewestIsLargest(rs: LiveRing, t: Train)
    requires t in rs.sys.sent && t.issuer < |rs.at|
    ensures t.clock <= rs.at[t.issuer].train.clock
  {
    FromReachable(rs.sys.ring, rs.mode, rs.sys);
    assert TokenOk(rs, t.issuer);
    if t.clock > 0 { assert Live(FirstEpoch(rs.sys.ring), t) && Sane(rs.sys, FirstEpoch(rs.sys.ring), t); }
  }

  /**
   * When the kernel's assumption about the dead issuer fails: exactly when it
   * crashed with its newest train not yet met by anybody else.
   */
  lemma StragglerIffJustLaunched(rs: LiveRing, v: nat, order: seq<nat>)
    requires Survivors(rs.sys.ring, v, order) && v < |rs.at|
    ensures NoStragglers(rs, v, order) <==> !JustLaunched(rs.at[v])
  {
    if JustLaunched(rs.at[v]) {
      UnmetIsBeyond(rs, v, order);
      assert TokenOk(rs, v);
      assert rs.at[v].train in rs.sys.sent;
    } else {
      MetIsWithin(rs, v, order);
      forall t | t in rs.sys.sent && t.issuer == v ensures t.clock <= PlanOf(rs.sys, v, order).boundary[v] {
        NewestIsLargest(rs, t);
      }
    }
  }

  lemma InstallNetInv(rs: LiveRing, v: nat, order: seq<nat>)
    requires Survivors(rs.sys.ring, v, order) && NoStragglers(rs, v, order)
    ensures NetInv(Installed(rs.sys, v, order), NextEpoch(PlanOf(rs.sys, v, order).boundary, v))
  {
    var s', b := Installed(rs.sys, v, order), PlanOf(rs.sys, v, order).boundary;
    var e := NextEpoch(b, v);
    forall t | t in s'.sent ensures !Live(e, t) {
      if t.issuer != v { SentBelow(rs, v, order, t); }
    }
    forall p | p in Members(s'.ring, {v}) ensures Level(s'.nodes[p], b, v) {
      assert p in order;
      VirtualSynchrony(rs, v, order, p);
    }
  }

  lemma LevelNodeOk(s: System, b: seq<nat>, v: nat, raw: Key -> seq<Payload>, log0: seq<Payload>, p: nat)
    requires Shaped(s) && p < s.ring.n && Level(s.nodes[p], b, v) && CacheSane(s.nodes[p]) && s.log[p] == log0
    ensures NodeOk(s, NextEpoch(b, v), raw, log0, p)
  {
    LevelOrdered(s.nodes[p], b, v, raw);
    assert log0 + [] == log0;
  }

  lemma InstallNodeOk(rs: LiveRing, v: nat, order: seq<nat>, raw: Key -> seq<Payload>, p: nat)
    requires Survivors(rs.sys.ring, v, order) && p in order
    ensures NodeOk(Installed(rs.sys, v, order), NextEpoch(PlanOf(rs.sys, v, order).boundary, v), raw,
                   AgreedLog(rs.sys, v, order), p)
  {
    VirtualSynchrony(rs, v, order, p);
    assert CacheSane(Installed(rs.sys, v, order).nodes[p]) by {
      RingTidy(rs, p);
      SurvivorCache(rs.sys, v, order, p);
    }
    LevelNodeOk(Installed(rs.sys, v, order), PlanOf(rs.sys, v, order).boundary, v, raw, AgreedLog(rs.sys, v, order), p);
  }

  lemma SurvivorIsMember(ring: Ring, v: nat, order: seq<nat>, p: nat)
    requires Survivors(ring, v, order)
    ensures p in order <==> p in Members(ring, {v})
  {
  }

  lemma InstallIsViewStart(rs: LiveRing, v: nat, order: seq<nat>)
    requires Survivors(rs.sys.ring, v, order) && NoStragglers(rs, v, order)
    ensures ViewStart(Installed(rs.sys, v, order), NextEpoch(PlanOf(rs.sys, v, order).boundary, v),
                      AgreedLog(rs.sys, v, order))
  {
    var s', e := Installed(rs.sys, v, order), NextEpoch(PlanOf(rs.sys, v, order).boundary, v);
    InstallNetInv(rs, v, order);
    forall raw: Key -> seq<Payload> ensures AllOk(s', e, raw, AgreedLog(rs.sys, v, order)) {
      forall p | p in Members(s'.ring, e.crashed) ensures NodeOk(s', e, raw, AgreedLog(rs.sys, v, order), p) {
        SurvivorIsMember(rs.sys.ring, v, order, p);
        InstallNodeOk(rs, v, order, raw, p);
      }
    }
  }

  /** The view an install begins. */
  lemma InstalledView(rs: LiveRing, v: nat, order: seq<nat>) returns (w: View)
    requires Survivors(rs.sys.ring, v, order) && NoStragglers(rs, v, order)
    ensures w == ViewAt(Installed(rs.sys, v, order), NextEpoch(PlanOf(rs.sys, v, order).boundary, v),
                        AgreedLog(rs.sys, v, order))
  {
    InstallIsViewStart(rs, v, order);
    w := ViewAt(Installed(rs.sys, v, order), NextEpoch(PlanOf(rs.sys, v, order).boundary, v),
                AgreedLog(rs.sys, v, order));
  }

  /**
   * Order survives the view change: after an atomic install on the token ring,
   * in every continuation on the asynchronous network, with stale trains still
   * arriving, survivors' logs stay mutual prefixes.
   */
  lemma OrderSurvivesViewChange(rs: LiveRing, v: nat, order: seq<nat>, evs: seq<Event>, s: System, p: nat, q: nat)
    requires Survivors(rs.sys.ring, v, order) && NoStragglers(rs, v, order)
    requires Runs(Installed(rs.sys, v, order), evs, s) && p in order && q in order
    ensures p < |s.log| && q < |s.log|
    ensures IsPrefix(s.log[p], s.log[q]) || IsPrefix(s.log[q], s.log[p])
  {
    var w := InstalledView(rs, v, order);
    SurvivorIsMember(rs.sys.ring, v, order, p);
    SurvivorIsMember(rs.sys.ring, v, order, q);
    ViewConsistent(w, evs, s, p, q);
  }

  /**
   * The two results together, for explicit runs: from the start of any ring,
   * after any ring events, exclude any process and merge the survivors' reports
   * in any order.  Every survivor is level with the boundary and holds the same
   * log, and in every asynchronous continuation survivors' logs stay mutual
   * prefixes, provided no train of the dead issuer above the boundary is still in
   * flight.
   */
  lemma ViewChangeInEveryRun(ring: Ring, mode: Mode, before: seq<RingEvent>, rs: RingState, v: nat, order: seq<nat>,
                             after: seq<Event>, s: System, p: nat, q: nat)
    requires mode != CausalOrder && RingRuns(RingStart(ring, mode), before, rs) && RingShaped(rs)
    requires Survivors(rs.sys.ring, v, order) && NoStragglers(rs, v, order) && p in order && q in order
    requires Runs(Installed(rs.sys, v, order), after, s)
    ensures Level(Installed(rs.sys, v, order).nodes[p], PlanOf(rs.sys, v, order).boundary, v)
    ensures Installed(rs.sys, v, order).log[p] == Installed(rs.sys, v, order).log[q]
    ensures p < |s.log| && q < |s.log|
    ensures IsPrefix(s.log[p], s.log[q]) || IsPrefix(s.log[q], s.log[p])
  {
    RingReachableInv(ring, mode, before, rs);
    VirtualSynchrony(rs, v, order, p);
    VirtualSynchrony(rs, v, order, q);
    OrderSurvivesViewChange(rs, v, order, after, s, p, q);
  }

  // ----- the crashed process's log -----

  lemma {:induction false} LogMembers(d: set<Key>, raw: Key -> seq<Payload>, x: Payload)
    ensures x in LogOf(d, raw) <==> exists k :: k in d && x in raw(k)
  {
    if d != {} {
      var m := Max(d);
      LogMembers(d - {m}, raw, x);
      SortMembers(raw(m), x);
      if x in LogOf(d - {m}, raw) {
        var k :| k in d - {m} && x in raw(k);
        assert k in d;
      }
      if k :| k in d && x in raw(k) {
        assert k != m ==> k in d - {m};
      }
    }
  }

  /** A key the victim issued and recorded has been met by everybody else. */
  lemma OthersMetVictim(rs: LiveRing, v: nat, p: nat, k: Key)
    requires v < |rs.at| && p < rs.sys.ring.n && p != v && k.issuer == v && k in rs.sys.nodes[v].done
    ensures k.clock <= rs.sys.nodes[p].seen[v]
  {
    var n, tok := rs.sys.ring.n, rs.at[v];
    RingTidy(rs, v);
    assert TokenOk(rs, v);
    assert VisitOk(rs.sys.nodes[v], tok, Offset(n, v, v));
    assert VisitOk(rs.sys.nodes[p], tok, Offset(n, v, p));
  }

  /** A key the victim recorded lies below its surviving issuer's clock. */
  lemma IssuerAhead(rs: LiveRing, v: nat, k: Key)
    requires v < rs.sys.ring.n && k in rs.sys.nodes[v].done
    ensures k.issuer < |rs.at| && 1 <= k.clock < rs.sys.nodes[k.issuer].issueClock
  {
    DoneMeansCaughtUp(rs, v, k);
    RingTidy(rs, v);
    SeenWithinOne(rs, v, k.issuer);
    assert TokenOk(rs, k.issuer);
  }

  lemma WithinKeys(b: seq<nat>, k: Key)
    requires k.issuer < |b| && 1 <= k.clock <= b[k.issuer]
    ensures k in KeysUpTo(b)
  {
    assert k == ClockKey(k.clock, k.issuer);
  }

  /** Everything the victim recorded lies within the survivors' boundary. */
  lemma VictimWithin(rs: LiveRing, v: nat, order: seq<nat>, k: Key)
    requires Survivors(rs.sys.ring, v, order) && k in rs.sys.nodes[v].done
    ensures k in KeysUpTo(PlanOf(rs.sys, v, order).boundary)
  {
    IssuerAhead(rs, v, k);
    var p := if k.issuer != v then k.issuer else if v == 0 then 1 else 0;
    RingTidy(rs, p);
    WithinBoundary(rs.sys, v, order, p);
    if k.issuer == v { OthersMetVictim(rs, v, p, k); }
    WithinKeys(PlanOf(rs.sys, v, order).boundary, k);
  }

  /** The plan does not drop a payload the victim had delivered under `k`. */
  ghost predicate KeepsVictims(rs: RingState, v: nat, order: seq<nat>, k: Key)
    requires RingShaped(rs) && Survivors(rs.sys.ring, v, order)
  {
    var plan, c := PlanOf(rs.sys, v, order), Contents(rs.sys, FirstEpoch(rs.sys.ring))(k);
    k in rs.sys.nodes[v].done && c != [] && k in plan.actions ==> plan.actions[k].Resend?
  }

  lemma AgreedOnVictim(rs: LiveRing, v: nat, order: seq<nat>, k: Key)
    requires Survivors(rs.sys.ring, v, order) && k in rs.sys.nodes[v].done && KeepsVictims(rs, v, order, k)
    ensures Agreed(rs.sys, v, order)(k) == Contents(rs.sys, FirstEpoch(rs.sys.ring))(k)
  {
    if !DoneSomewhere(rs.sys, order, k) {
      VictimOnlyHasAction(rs, v, order, k);
      PlannedContent(rs, v, order, k);
    }
  }

  lemma VictimOnlyHasAction(rs: LiveRing, v: nat, order: seq<nat>, k: Key)
    requires Survivors(rs.sys.ring, v, order) && k in rs.sys.nodes[v].done && !DoneSomewhere(rs.sys, order, k)
    ensures k in PlanOf(rs.sys, v, order).actions
  {
    VictimWithin(rs, v, order, k);
    var p := if v == 0 then 1 else 0;
    assert p in order;
    assert k !in rs.sys.nodes[p].done;
    MissingHasAction(rs.sys, v, order, p, k);
  }

  lemma VictimCongruent(rs: LiveRing, v: nat, order: seq<nat>)
    requires Survivors(rs.sys.ring, v, order) && forall k :: KeepsVictims(rs, v, order, k)
    ensures rs.sys.log[v] == LogOf(rs.sys.nodes[v].done, Agreed(rs.sys, v, order))
  {
    var done, raw, agreed := rs.sys.nodes[v].done, Contents(rs.sys, FirstEpoch(rs.sys.ring)), Agreed(rs.sys, v, order);
    forall k | k in done ensures SortPayloads(raw(k)) == SortPayloads(agreed(k)) {
      assert KeepsVictims(rs, v, order, k);
      AgreedOnVictim(rs, v, order, k);
    }
    RingLogged(rs, v);
    LogCongruent(done, raw, agreed);
  }

  lemma VictimIsPrefix(rs: LiveRing, v: nat, order: seq<nat>)
    requires Survivors(rs.sys.ring, v, order) && forall k :: KeepsVictims(rs, v, order, k)
    ensures IsPrefix(rs.sys.log[v], AgreedLog(rs.sys, v, order))
  {
    var done, all := rs.sys.nodes[v].done, KeysUpTo(PlanOf(rs.sys, v, order).boundary);
    VictimCongruent(rs, v, order);
    forall k | k in done ensures k in all { VictimWithin(rs, v, order, k); }
    forall x, y | x in done && y in all && y !in done ensures Before(x, y) { DoneComesFirst(rs, v, order, v, x, y); }
    LogOfInitial(done, all, Agreed(rs.sys, v, order));
  }

  lemma LogOfInitial(done: set<Key>, all: set<Key>, raw: Key -> seq<Payload>)
    requires done <= all && forall x, y :: x in done && y in all && y !in done ==> Before(x, y)
    ensures IsPrefix(LogOf(done, raw), LogOf(all, raw))
  {
    LogSplit(done, all - done, raw);
    assert done + (all - done) == all;
  }

  /** A payload of a dropped key is in the victim's log and nowhere in the survivors'. */
  lemma DroppedBreaks(rs: LiveRing, v: nat, order: seq<nat>, k: Key)
    requires Survivors(rs.sys.ring, v, order) && !KeepsVictims(rs, v, order, k)
    ensures !IsPrefix(rs.sys.log[v], AgreedLog(rs.sys, v, order))
  {
    var e := FirstEpoch(rs.sys.ring);
    var x := Contents(rs.sys, e)(k)[0];
    assert x in Contents(rs.sys, e)(k);
    RingLogged(rs, v);
    LogMembers(rs.sys.nodes[v].done, Contents(rs.sys, e), x);
    assert x in rs.sys.log[v];
    assert x !in AgreedLog(rs.sys, v, order) by { NotAgreed(rs, v, order, k, x); }
  }

  /** Survivors agree on a key's one content or on nothing. */
  lemma AgreedFromContent(rs: LiveRing, v: nat, order: seq<nat>, k: Key)
    requires Survivors(rs.sys.ring, v, order)
    ensures var a := Agreed(rs.sys, v, order)(k); a == Contents(rs.sys, FirstEpoch(rs.sys.ring))(k) || a == []
  {
    if !DoneSomewhere(rs.sys, order, k) { PlannedContent(rs, v, order, k); }
  }

  lemma DroppedAgreesEmpty(rs: LiveRing, v: nat, order: seq<nat>, k: Key)
    requires Survivors(rs.sys.ring, v, order) && !KeepsVictims(rs, v, order, k)
    ensures Agreed(rs.sys, v, order)(k) == []
  {
    if DoneSomewhere(rs.sys, order, k) { SomewhereResent(rs, v, order, k); }
  }

  lemma OneKeyPerPayload(rs: LiveRing, j: Key, k: Key, x: Payload)
    requires x in Contents(rs.sys, FirstEpoch(rs.sys.ring))(j) && x in Contents(rs.sys, FirstEpoch(rs.sys.ring))(k)
    ensures j == k
  {
    var d, raw := {j, k}, Contents(rs.sys, FirstEpoch(rs.sys.ring));
    RingConserved(rs);
    ContentsDisjoint(rs.sys, FirstEpoch(rs.sys.ring), d);
    DisjointOne(d, raw, j, k, x);
  }

  lemma DisjointOne(d: set<Key>, raw: Key -> seq<Payload>, j: Key, k: Key, x: Payload)
    requires Disjoint(d, raw) && j in d && k in d && x in raw(j) && x in raw(k)
    ensures j == k
  {
    assert x.Id() == x.Id();
  }

  lemma NotAgreed(rs: LiveRing, v: nat, order: seq<nat>, k: Key, x: Payload)
    requires Survivors(rs.sys.ring, v, order) && !KeepsVictims(rs, v, order, k)
    requires x in Contents(rs.sys, FirstEpoch(rs.sys.ring))(k)
    ensures x !in AgreedLog(rs.sys, v, order)
  {
    var all, agreed := KeysUpTo(PlanOf(rs.sys, v, order).boundary), Agreed(rs.sys, v, order);
    forall j | j in all ensures x !in agreed(j) {
      AgreedFromContent(rs, v, order, j);
      if x in agreed(j) {
        OneKeyPerPayload(rs, j, k, x);
        DroppedAgreesEmpty(rs, v, order, k);
      }
    }
    LogMembers(all, agreed, x);
  }

  /**
   * Uniformity with respect to the victim: its delivered log is a prefix of the
   * survivors' agreed log if and only if the plan skips no key under which the
   * victim had delivered payloads.
   */
  lemma VictimAgreement(rs: LiveRing, v: nat, order: seq<nat>)
    requires Survivors(rs.sys.ring, v, order)
    ensures IsPrefix(rs.sys.log[v], AgreedLog(rs.sys, v, order)) <==> forall k :: KeepsVictims(rs, v, order, k)
  {
    if forall k :: KeepsVictims(rs, v, order, k) {
      VictimIsPrefix(rs, v, order);
    } else {
      var k :| !KeepsVictims(rs, v, order, k);
      DroppedBreaks(rs, v, order, k);
    }
  }

  // ----- which crash loses a delivery -----

  /**
   * The victim is an issuer that delivered its own train on the first return and
   * crashed before its successor met the train closed.
   */
  predicate OnlyVictim(rs: RingState, v: nat)
    requires RingShaped(rs)
  {
    && v < |rs.at| && rs.at[v].lap == 1 && rs.at[v].off == 1
    && rs.at[v].train.Key() in rs.sys.nodes[v].done && rs.at[v].train.payloads != []
  }

  lemma HandledOffers(rs: LiveRing, v: nat, order: seq<nat>, p: nat, k: Key)
    requires Survivors(rs.sys.ring, v, order) && p in order && Handled(rs.sys.nodes[p], k)
    requires !DoneByAll(Reports(rs.sys, v, order), k) && Contents(rs.sys, FirstEpoch(rs.sys.ring))(k) != []
    ensures exists r :: r in Reports(rs.sys, v, order) && k in r.have
  {
    if k in rs.sys.nodes[p].done {
      HolderOffers(rs, v, order, p, k);
    } else {
      NodeFromReachable(rs.sys.ring, rs.mode, rs.sys, p);
      ReportIn(rs.sys, v, order, p);
      assert k in ReportOf(rs.sys.nodes[p]).have;
    }
  }

  /** A dropped key was handled by nobody but the victim. */
  lemma DroppedUnhandled(rs: LiveRing, v: nat, order: seq<nat>, k: Key, p: nat)
    requires Survivors(rs.sys.ring, v, order) && !KeepsVictims(rs, v, order, k) && p in order
    ensures !Handled(rs.sys.nodes[p], k)
  {
    PlannedContent(rs, v, order, k);
    if Handled(rs.sys.nodes[p], k) { HandledOffers(rs, v, order, p, k); }
  }

  /** A closed token's key has been handled by whoever it met closed, and by nobody else. */
  lemma HandledIffMet(rs: LiveRing, q: nat, p: nat)
    requires q < |rs.at| && p < rs.sys.ring.n
    ensures Handled(rs.sys.nodes[p], rs.at[q].train.Key()) <==> MetClosed(rs.at[q], Offset(rs.sys.ring.n, q, p))
    ensures forall cl :: 1 <= cl < rs.at[q].train.clock ==> Handled(rs.sys.nodes[p], ClockKey(cl, q))
    ensures rs.at[q].train.issuer == q
  {
    assert TokenOk(rs, q);
    assert VisitOk(rs.sys.nodes[p], rs.at[q], Offset(rs.sys.ring.n, q, p));
  }

  /** A dropped key is its issuer's newest: everybody has handled the older ones. */
  lemma DroppedIsNewest(rs: LiveRing, v: nat, order: seq<nat>, k: Key)
    requires Survivors(rs.sys.ring, v, order) && !KeepsVictims(rs, v, order, k)
    ensures k.issuer < |rs.at| && k == rs.at[k.issuer].train.Key()
  {
    IssuerAhead(rs, v, k);
    var p := if v == 0 then 1 else 0;
    assert p in order;
    DroppedUnhandled(rs, v, order, k, p);
    HandledIffMet(rs, k.issuer, p);
    assert TokenOk(rs, k.issuer);
    assert k == ClockKey(k.clock, k.issuer);
  }

  lemma DroppedIsOnlyVictim(rs: LiveRing, v: nat, order: seq<nat>, k: Key)
    requires Survivors(rs.sys.ring, v, order) && !KeepsVictims(rs, v, order, k)
    ensures OnlyVictim(rs, v) && k == rs.at[v].train.Key()
  {
    DroppedIsNewest(rs, v, order, k);
    var n, q := rs.sys.ring.n, k.issuer;
    var tok := rs.at[q];
    HandledIffMet(rs, q, v);
    if q != v {
      assert q in order;
      DroppedUnhandled(rs, v, order, k, q);
      HandledIffMet(rs, q, q);
    } else {
      var next := Place(n, v, 1);
      assert next in order;
      DroppedUnhandled(rs, v, order, k, next);
      HandledIffMet(rs, v, next);
      NewestContent(rs, v);
    }
  }

  lemma NewestContent(rs: LiveRing, q: nat)
    requires q < |rs.at| && rs.at[q].lap >= 1
    ensures Contents(rs.sys, FirstEpoch(rs.sys.ring))(rs.at[q].train.Key()) == rs.at[q].train.payloads
  {
    assert TokenOk(rs, q);
    ContentFromReachable(rs.sys.ring, rs.mode, rs.sys, rs.at[q].train);
  }

  lemma OnlyVictimDropped(rs: LiveRing, v: nat, order: seq<nat>)
    requires Survivors(rs.sys.ring, v, order) && OnlyVictim(rs, v)
    ensures !KeepsVictims(rs, v, order, rs.at[v].train.Key())
  {
    var k := rs.at[v].train.Key();
    NewestContent(rs, v);
    forall p | p in order ensures !Handled(rs.sys.nodes[p], k) { HandledIffMet(rs, v, p); }
    VictimOnlyHasAction(rs, v, order, k);
    NothingOffered(rs, v, order, k);
    PlannedContent(rs, v, order, k);
  }

  lemma NothingOffered(rs: LiveRing, v: nat, order: seq<nat>, k: Key)
    requires Survivors(rs.sys.ring, v, order) && forall p :: p in order ==> !Handled(rs.sys.nodes[p], k)
    ensures forall r :: r in Reports(rs.sys, v, order) ==> k !in r.have
  {
    forall r | r in Reports(rs.sys, v, order) ensures k !in r.have {
      var p := ReportFrom(rs.sys, v, order, r);
      RingTidy(rs, p);
    }
  }

  /**
   * Which crash breaks uniformity: the victim's delivered log is a prefix of the
   * survivors' agreed log unless the victim is an issuer that delivered its own
   * non-empty train on the first return and crashed before anyone else met that
   * train closed; and then it is not.
   */
  lemma VictimAheadIff(rs: LiveRing, v: nat, order: seq<nat>)
    requires Survivors(rs.sys.ring, v, order)
    ensures IsPrefix(rs.sys.log[v], AgreedLog(rs.sys, v, order)) <==> !OnlyVictim(rs, v)
  {
    VictimAgreement(rs, v, order);
    if OnlyVictim(rs, v) {
      OnlyVictimDropped(rs, v, order);
    } else if k :| !KeepsVictims(rs, v, order, k) {
      DroppedIsOnlyVictim(rs, v, order, k);
    }
  }

  /** A process that issues no trains is never ahead of the survivors. */
  lemma NonIssuerNeverAhead(rs: LiveRing, v: nat, order: seq<nat>)
    requires Survivors(rs.sys.ring, v, order) && v >= rs.sys.ring.k
    ensures IsPrefix(rs.sys.log[v], AgreedLog(rs.sys, v, order))
  {
    VictimAheadIff(rs, v, order);
  }
}
