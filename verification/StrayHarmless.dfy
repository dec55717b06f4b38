// When a straggler does no harm: in UniformTotalOrder only its own key can still
// be delivered, because the dead process acked nothing else; and with a single
// issuer there is nothing else to deliver.

module StrayHarmless {
  import opened Types
  import opened Kernel
  import opened LocalOrder
  import opened Network
  import opened Recovery
  import opened Operations
  import opened Applying
  import opened TokenRing

  /**
   * A view that begins at boundary `b` without `v`, whose train of key `stray`
   * survives; `content` is what that train carries once closed.
   */
  datatype Case = Case(ring: Ring, uniform: bool, b: seq<nat>, v: nat, log0: seq<Payload>, content: seq<Payload>)
  {
    function Stray(): Key
      requires v < |b|
    {
      ClockKey(b[v] + 1, v)
    }
    function Mode(): Mode { if uniform then UniformTotalOrder else TotalOrder }
  }

  predicate CaseOk(g: Case) { |g.b| == g.ring.n && g.v < g.ring.k && (!g.uniform ==> g.ring.k == 1) }

  // ----- one survivor -----

  predicate Core(g: Case, n: Node, log: seq<Payload>)
    requires CaseOk(g)
  {
    && Wf(n) && n.ring == g.ring && n.floor == g.b && n.crashed == {g.v} && !n.frozen && n.mode == g.Mode()
    && (n.done == KeysUpTo(g.b) || n.done == KeysUpTo(g.b) + {g.Stray()})
    && n.parked.Keys <= {g.Stray()} && n.parked.Keys !! n.done
    && (g.Stray() in n.parked ==> n.parked[g.Stray()].payloads == g.content)
    && log == g.log0 + (if g.Stray() in n.done then SortPayloads(g.content) else [])
  }

  lemma StrayIsNew(g: Case)
    requires CaseOk(g)
    ensures g.Stray() !in KeysUpTo(g.b)
  {
  }

  lemma RecordStray(g: Case, n: Node, log: seq<Payload>)
    requires CaseOk(g) && Core(g, n, log) && g.Stray() !in n.done && g.Stray() !in n.parked
    ensures var r := Record(n, g.Stray(), g.content); Core(g, r.node, log + Delivered(r.out))
  {
    var r := Record(n, g.Stray(), g.content);
    StrayIsNew(g);
    NothingAfter(g.log0);
    assert n.done == KeysUpTo(g.b);
    assert n.parked.Keys == {};
    if g.content == [] {
      NothingAfter(log);
    } else {
      assert Delivered(r.out) == SortPayloads(g.content) + Delivered(r.out[1..]);
      NothingAfter(SortPayloads(g.content));
    }
  }

  lemma DrainStray(g: Case, n: Node, log: seq<Payload>)
    requires CaseOk(g) && Core(g, n, log)
    ensures var r := Drain(n); Core(g, r.node, log + Delivered(r.out))
  {
    NothingAfter(log);
    if n.parked != map[] {
      OnlyStrayParked(g, n);
      var n1 := n.(parked := map[]);
      assert n.parked - {g.Stray()} == map[];
      if Deliverable(n, g.Stray()) {
        NothingAfter(g.log0);
        RecordStray(g, n1, log);
        var r1 := Record(n1, g.Stray(), g.content);
        DrainNothing(r1.node);
        NothingAfter(r1.out);
      }
    }
  }

  lemma OnlyStrayParked(g: Case, n: Node)
    requires CaseOk(g) && n.parked.Keys <= {g.Stray()} && n.parked != map[]
    ensures n.parked.Keys == {g.Stray()} && Min(n.parked.Keys) == g.Stray()
  {
    var k :| k in n.parked;
  }

  /** A train of the stray key, whose acks include the dead issuer's. */
  ghost predicate Gone(g: Case, t: Train)
    requires CaseOk(g)
  {
    && t.Key() == g.Stray() && g.v in t.acks && t.acks <= Members(g.ring, {})
    && (t.acks == Members(g.ring, {}) ==> t.payloads == g.content)
  }

  /** A train of the new view: the dead process has not acked it and never will. */
  predicate Idle(g: Case, t: Train) { g.uniform && t.issuer != g.v && g.v !in t.acks }

  lemma IdleNotReady(g: Case, n: Node, t: Train)
    requires CaseOk(g) && n.ring == g.ring && n.mode == g.Mode() && Idle(g, t)
    ensures !Ready(n, t.acks)
  {
    assert g.v in Members(g.ring, {});
  }

  lemma ReadyIsFull(g: Case, n: Node, t: Train)
    requires CaseOk(g) && n.ring == g.ring && n.mode == g.Mode() && n.crashed == {g.v} && Gone(g, t) && Ready(n, t.acks)
    ensures t.payloads == g.content
  {
    forall p | p in Members(g.ring, {}) ensures p in t.acks {
      assert p != g.v ==> p in Members(g.ring, {g.v});
    }
    assert t.acks == Members(g.ring, {});
  }

  lemma TryStray(g: Case, n: Node, t: Train, log: seq<Payload>)
    requires CaseOk(g) && Core(g, n, log) && Gone(g, t)
    requires g.Stray() in n.parked ==> !Deliverable(n, g.Stray())
    ensures var r := TryDeliver(n, t); Core(g, r.node, log + Delivered(r.out))
  {
    NothingAfter(log);
    if Ready(n, t.acks) && t.Key() !in n.done {
      ReadyIsFull(g, n, t);
      if Deliverable(n, t.Key()) { RecordStray(g, n, log); }
    }
  }

  lemma TryIdle(g: Case, n: Node, t: Train, log: seq<Payload>)
    requires CaseOk(g) && Core(g, n, log) && Idle(g, t)
    ensures var r := TryDeliver(n, t); r.node == n && r.out == []
  {
    IdleNotReady(g, n, t);
  }

  lemma SameCore(g: Case, n: Node, n': Node, log: seq<Payload>)
    requires CaseOk(g) && Core(g, n, log) && Wf(n') && n'.ring == n.ring
    requires n'.floor == n.floor && n'.crashed == n.crashed
    requires n'.frozen == n.frozen && n'.mode == n.mode && n'.done == n.done && n'.parked == n.parked
    ensures Core(g, n', log)
  {
  }

  lemma TryThenDrainStray(g: Case, n: Node, t: Train, log: seq<Payload>)
    requires CaseOk(g) && Core(g, n, log) && (Gone(g, t) || Idle(g, t))
    requires g.Stray() in n.parked ==> !Deliverable(n, g.Stray()) || Idle(g, t)
    ensures var r1 := TryDeliver(n, t); var r2 := Drain(r1.node);
      Core(g, r2.node, log + (Delivered(r1.out) + Delivered(r2.out)))
  {
    var r1 := TryDeliver(n, t);
    if Idle(g, t) {
      TryIdle(g, n, t, log);
      NothingAfter(log);
    } else {
      TryStray(g, n, t, log);
    }
    DrainStray(g, r1.node, log + Delivered(r1.out));
    Assoc(log, Delivered(r1.out), Delivered(Drain(r1.node).out));
  }

  /** What a survivor's step does with a train above the fence. */
  lemma TrainStray(g: Case, n: Node, t: Train, log: seq<Payload>)
    requires CaseOk(g) && Core(g, n, log) && Quiet(n) && t.issuer < n.ring.n && !Fenced(n, t)
    requires (Gone(g, t) && n.id != g.v) || Idle(g, t)
    ensures var r := HandleTrain(n, t); Core(g, r.node, log + Delivered(r.out))
    ensures t.issuer == n.id ==> t.Key() !in n.done
  {
    assert t.issuer == n.id ==> t.Key() !in n.done by { StrayIsNew(g); }
    if t.issuer == n.id {
      var n1 := n.(seen := Bump(n.seen, n.id, t.clock));
      SameCore(g, n, n1, log);
      TryThenDrainStray(g, n1, t, log);
      var r1 := TryDeliver(n1, t);
      ForwardLast(r1.out, Drain(r1.node).out, t);
    } else if IsReplay(n, t) {
      var n1 := n.(known := n.known + Ids(t.payloads));
      SameCore(g, n, n1, log);
      SameClocksQuiet(n, n1);
      TryThenDrainStray(g, n1, t, log);
      var r1 := TryDeliver(n1, t);
      ForwardIsSilent(r1.out, t, Drain(r1.node).out);
    } else {
      FirstStray(g, n, t, log);
    }
  }

  lemma FirstStray(g: Case, n: Node, t: Train, log: seq<Payload>)
    requires CaseOk(g) && Core(g, n, log) && t.issuer < n.ring.n && !Fenced(n, t) && t.issuer != n.id && !IsReplay(n, t)
    ensures var r := HandleTrain(n, t); Core(g, r.node, log + Delivered(r.out))
  {
    var n1 := AfterLoad(n, t);
    SameCore(g, n, n1, log);
    DrainStray(g, n1, log);
    var gap := if CheckClock(n.seen[t.issuer], t.clock).Gap? then [DeclareCrash(t.issuer)] else [];
    assert Delivered(gap) == [] by { if gap != [] { assert Delivered(gap) == [] + Delivered(gap[1..]); } }
    ForwardIsSilent(gap, Loaded(n, t), Drain(n1).out);
    assert [] + Delivered(Drain(n1).out) == Delivered(Drain(n1).out);
  }

  // ----- the wire -----

  /** Handles no key but the settled ones and the stray. */
  ghost predicate Lite(g: Case, n: Node)
    requires CaseOk(g)
  {
    && Wf(n) && n.ring == g.ring && n.floor == g.b && n.crashed == {g.v} && !n.frozen && n.mode == g.Mode()
    && (forall k :: Handled(n, k) ==> k in KeysUpTo(g.b) || k == g.Stray())
  }

  /** As `Gone`, and whoever acked has met the train; contents aside. */
  ghost predicate AckedByMet(g: Case, s: System, t: Train)
    requires CaseOk(g) && Shaped(s) && s.ring == g.ring
  {
    && t.Key() == g.Stray() && g.v in t.acks && t.acks <= Members(g.ring, {})
    && (forall a :: a in t.acks && a != g.v ==> s.nodes[a].seen[g.v] > g.b[g.v])
  }

  function StrayTrains(g: Case, sent: set<Train>): set<Train>
    requires CaseOk(g)
  {
    set t | t in sent && t.Key() == g.Stray()
  }

  ghost function Base(g: Case): Epoch { Epoch(g.b, {g.v}, {}) }

  ghost predicate Wire(g: Case, s: System)
    requires CaseOk(g)
  {
    && Shaped(s) && s.ring == g.ring && s.up <= Members(g.ring, {g.v})
    && (forall t :: t in s.sent && t.clock > g.b[t.issuer] ==> AckedByMet(g, s, t) || Idle(g, t))
    && Lineage(StrayTrains(g, s.sent), Base(g))
  }

  ghost predicate WireInv(g: Case, s: System)
    requires CaseOk(g)
  {
    Wire(g, s) && forall p :: p in Members(g.ring, {g.v}) ==> Lite(g, s.nodes[p])
  }

  lemma LiteTrain(g: Case, n: Node, t: Train)
    requires CaseOk(g) && Lite(g, n) && t.issuer < n.ring.n && !Fenced(n, t) && n.id != g.v
    requires t.Key() == g.Stray() || Idle(g, t)
    ensures Lite(g, HandleTrain(n, t).node) && (t.issuer == n.id ==> t.Key() !in n.done)
  {
    var n' := HandleTrain(n, t).node;
    assert t.Key() !in KeysUpTo(g.b);
    assert t.issuer == n.id ==> !Handled(n, t.Key());
    TrainShape(n, t);
    forall k | Handled(n', k) ensures k in KeysUpTo(g.b) || k == g.Stray() {
      if t.Key() == g.Stray() {
        StepNewHandled(n, t, k);
      } else {
        IdleHandlesNothing(g, n, t, k);
      }
    }
  }

  lemma IdleHandlesNothing(g: Case, n: Node, t: Train, k: Key)
    requires CaseOk(g) && Lite(g, n) && t.issuer < n.ring.n && !Fenced(n, t) && Idle(g, t)
    requires Handled(HandleTrain(n, t).node, k) && (t.issuer == n.id ==> t.Key() !in n.done)
    ensures Handled(n, k)
  {
    IdleNotReady(g, n, t);
    if t.issuer == n.id {
      DrainNewHandled(n.(seen := Bump(n.seen, n.id, t.clock)), k);
    } else if IsReplay(n, t) {
      DrainNewHandled(n.(known := n.known + Ids(t.payloads)), k);
    } else {
      DrainNewHandled(AfterLoad(n, t), k);
    }
  }

  lemma MetKept(g: Case, s: System, s': System, t: Train)
    requires CaseOk(g) && Shaped(s) && Shaped(s') && s.ring == g.ring && s'.ring == g.ring && AckedByMet(g, s, t)
    requires forall p, q :: 0 <= p < g.ring.n && 0 <= q < g.ring.n ==> s'.nodes[p].seen[q] >= s.nodes[p].seen[q]
    ensures AckedByMet(g, s', t)
  {
    forall a | a in t.acks && a != g.v ensures s'.nodes[a].seen[g.v] > g.b[g.v] {
      assert a in Members(g.ring, {});
      assert s.nodes[a].seen[g.v] > g.b[g.v];
    }
  }

  ghost predicate Forward(s: System, s': System) {
    && Shaped(s) && Shaped(s') && s'.ring == s.ring && s'.up <= s.up
    && (forall p, q :: 0 <= p < s.ring.n && 0 <= q < s.ring.n ==> s'.nodes[p].seen[q] >= s.nodes[p].seen[q])
  }

  /** Nothing new on the wire. */
  lemma WireSame(g: Case, s: System, s': System)
    requires CaseOk(g) && Wire(g, s) && Forward(s, s') && s'.sent == s.sent
    ensures Wire(g, s')
  {
    forall t | t in s'.sent && t.clock > g.b[t.issuer] ensures AckedByMet(g, s', t) || Idle(g, t) {
      if AckedByMet(g, s, t) { MetKept(g, s, s', t); }
    }
  }

  /** One more train, not of the stray key. */
  lemma WireIdle(g: Case, s: System, s': System, t: Train)
    requires CaseOk(g) && Wire(g, s) && Forward(s, s') && s'.sent == s.sent + {t} && Idle(g, t)
    ensures Wire(g, s')
  {
    forall u | u in s'.sent && u.clock > g.b[u.issuer] ensures AckedByMet(g, s', u) || Idle(g, u) {
      if u in s.sent && AckedByMet(g, s, u) { MetKept(g, s, s', u); }
    }
    assert StrayTrains(g, s'.sent) == StrayTrains(g, s.sent);
  }

  /** A survivor loads and acks the stray. */
  lemma WireLoaded(g: Case, s: System, s': System, p: nat, t: Train)
    requires CaseOk(g) && Wire(g, s) && Forward(s, s') && t in s.sent
    requires AckedByMet(g, s, t) && p in Members(g.ring, {g.v})
    requires s.nodes[p].seen[g.v] <= g.b[g.v] < s'.nodes[p].seen[g.v]
    requires s'.sent == s.sent + {Loaded(s.nodes[p], t)}
    ensures Wire(g, s')
  {
    var t' := Loaded(s.nodes[p], t);
    MetKept(g, s, s', t);
    forall u | u in s'.sent && u.clock > g.b[u.issuer] ensures AckedByMet(g, s', u) || Idle(g, u) {
      if u in s.sent && AckedByMet(g, s, u) { MetKept(g, s, s', u); }
    }
    forall u | u in StrayTrains(g, s.sent) ensures p !in u.acks { assert AckedByMet(g, s, u) || Idle(g, u); }
    LineageLoad(StrayTrains(g, s.sent), Base(g), t, p, s.nodes[p].pending);
    assert StrayTrains(g, s'.sent) == StrayTrains(g, s.sent) + {t'};
  }

  lemma ReceiveForward(s: System, p: nat, input: Input)
    requires Enabled(s, Local(p, input))
    ensures Forward(s, Next(s, Local(p, input)))
  {
    TrainSentShape(s, p, input);
    StepNeverBack(s.nodes[p], input);
  }

  lemma WireReceive(g: Case, s: System, p: nat, t: Train)
    requires CaseOk(g) && WireInv(g, s) && Enabled(s, Local(p, TrainReceived(t))) && !Fenced(s.nodes[p], t)
    ensures Wire(g, Next(s, Local(p, TrainReceived(t))))
  {
    var s', n := Next(s, Local(p, TrainReceived(t))), s.nodes[p];
    ReceiveForward(s, p, TrainReceived(t));
    assert p in Members(g.ring, {g.v}) && Lite(g, n);
    assert AckedByMet(g, s, t) || Idle(g, t);
    LiteTrain(g, n, t);
    TrainShape(n, t);
    if t.issuer == p || IsReplay(n, t) {
      assert s'.sent == s.sent;
      WireSame(g, s, s');
    } else if AckedByMet(g, s, t) {
      WireLoaded(g, s, s', p, t);
    } else {
      WireIdle(g, s, s', Loaded(n, t));
    }
  }

  lemma WireNext(g: Case, s: System, ev: Event)
    requires CaseOk(g) && WireInv(g, s) && Enabled(s, ev)
    ensures WireInv(g, Next(s, ev))
  {
    var s', p := Next(s, ev), ev.p;
    assert p in Members(g.ring, {g.v}) && Lite(g, s.nodes[p]);
    match ev
    case Local(_, input) =>
      ReceiveForward(s, p, input);
      if input.TrainReceived? && !Fenced(s.nodes[p], input.train) {
        assert AckedByMet(g, s, input.train) || Idle(g, input.train);
        WireReceive(g, s, p, input.train);
        LiteTrain(g, s.nodes[p], input.train);
      } else {
        assert s'.sent == s.sent;
        WireSame(g, s, s');
      }
    case Issue(_) =>
      assert g.uniform;
      WireIdle(g, s, s', NewTrain(s.nodes[p]));
    case Crash(_) => WireSame(g, s, s');
  }

  lemma {:induction false} WireRun(g: Case, s: System, evs: seq<Event>, s': System)
    requires CaseOk(g) && WireInv(g, s) && Runs(s, evs, s')
    ensures WireInv(g, s') && s.sent <= s'.sent
    decreases |evs|
  {
    if evs != [] {
      WireNext(g, s, evs[0]);
      WireRun(g, Next(s, evs[0]), evs[1..], s');
    }
  }

  // ----- logs -----

  ghost predicate ContentIs(g: Case, sent: set<Train>)
    requires CaseOk(g)
  {
    forall t :: t in sent && t.Key() == g.Stray() && t.acks == Members(g.ring, {}) ==> t.payloads == g.content
  }

  ghost predicate Cores(g: Case, s: System)
    requires CaseOk(g)
  {
    && Shaped(s) && s.ring == g.ring
    && forall p :: p in Members(g.ring, {g.v}) ==> Core(g, s.nodes[p], s.log[p]) && Sound(s.nodes[p])
  }

  lemma CoreStep(g: Case, n: Node, input: Input, log: seq<Payload>)
    requires CaseOk(g) && Core(g, n, log) && Sound(n) && Accepts(n, input) && n.id != g.v
    requires input.TrainReceived? && !Fenced(n, input.train) ==> Gone(g, input.train) || Idle(g, input.train)
    ensures var r := Step(n, input); Core(g, r.node, log + Delivered(r.out)) && Sound(r.node)
  {
    PerformSound(n, Do(input));
    NothingAfter(log);
    match input
    case LocalBroadcast(data) => SameCore(g, n, Broadcast(n, data), log);
    case Tick =>
    case TrainReceived(t) => if !Fenced(n, t) { TrainStray(g, n, t, log); }
  }

  lemma CoreEvent(g: Case, s: System, ev: Event)
    requires CaseOk(g) && Wire(g, s) && ContentIs(g, s.sent) && Enabled(s, ev) && ev.p != g.v
    requires Core(g, s.nodes[ev.p], s.log[ev.p]) && Sound(s.nodes[ev.p])
    ensures Core(g, Next(s, ev).nodes[ev.p], Next(s, ev).log[ev.p]) && Sound(Next(s, ev).nodes[ev.p])
  {
    var p := ev.p;
    match ev
    case Local(_, input) =>
      if input.TrainReceived? && !Fenced(s.nodes[p], input.train) { GoneOrIdle(g, s, input.train); }
      CoreStep(g, s.nodes[p], input, s.log[p]);
    case Issue(_) =>
      PerformSound(s.nodes[p], Reissue);
      SameCore(g, s.nodes[p], AfterIssue(s.nodes[p]), s.log[p]);
    case Crash(_) =>
  }

  lemma CoresNext(g: Case, s: System, ev: Event)
    requires CaseOk(g) && WireInv(g, s) && Cores(g, s) && ContentIs(g, s.sent) && Enabled(s, ev) && Shaped(Next(s, ev))
    ensures Cores(g, Next(s, ev))
  {
    assert ev.p in Members(g.ring, {g.v});
    CoreEvent(g, s, ev);
  }

  lemma GoneOrIdle(g: Case, s: System, t: Train)
    requires CaseOk(g) && Wire(g, s) && ContentIs(g, s.sent) && t in s.sent && t.clock > g.b[t.issuer]
    ensures Gone(g, t) || Idle(g, t)
  {
    assert AckedByMet(g, s, t) || Idle(g, t);
  }

  lemma {:induction false} CoresRun(g: Case, s: System, evs: seq<Event>, s': System)
    requires CaseOk(g) && WireInv(g, s) && Cores(g, s) && Runs(s, evs, s') && ContentIs(g, s'.sent)
    ensures Cores(g, s')
    decreases |evs|
  {
    if evs != [] {
      WireRun(g, s, evs, s');
      WireNext(g, s, evs[0]);
      CoresNext(g, s, evs[0]);
      CoresRun(g, Next(s, evs[0]), evs[1..], s');
    }
  }

  /** What the stray carries, once some train of it is fully acked. */
  ghost function StrayContent(g: Case, sent: set<Train>): seq<Payload>
    requires CaseOk(g)
  {
    if exists t :: t in sent && t.Key() == g.Stray() && t.acks == Members(g.ring, {})
    then (var t :| t in sent && t.Key() == g.Stray() && t.acks == Members(g.ring, {}); t.payloads)
    else []
  }

  lemma ContentAgrees(g: Case, s: System)
    requires CaseOk(g) && Wire(g, s)
    ensures ContentIs(g.(content := StrayContent(g, s.sent)), s.sent)
  {
    forall t, u | t in s.sent && u in s.sent && t.Key() == g.Stray() && u.Key() == g.Stray()
      && t.acks == Members(g.ring, {}) && u.acks == Members(g.ring, {})
      ensures t.payloads == u.payloads
    {
      assert t in StrayTrains(g, s.sent) && u in StrayTrains(g, s.sent);
      assert IsPrefix(t.payloads, u.payloads) && IsPrefix(u.payloads, t.payloads);
    }
  }

  /** Whatever happens next, a survivor's log is the old one, or the old one and the stray's content. */
  lemma AtMostTheStray(g: Case, s0: System, evs: seq<Event>, s: System, p: nat, q: nat)
    requires CaseOk(g) && WireInv(g, s0) && Runs(s0, evs, s)
    requires forall content :: Cores(g.(content := content), s0)
    requires p in Members(g.ring, {g.v}) && q in Members(g.ring, {g.v})
    ensures p < |s.log| && q < |s.log| && (IsPrefix(s.log[p], s.log[q]) || IsPrefix(s.log[q], s.log[p]))
  {
    WireRun(g, s0, evs, s);
    var h := g.(content := StrayContent(g, s.sent));
    ContentAgrees(g, s);
    SameWire(g, h, s0);
    assert Cores(h, s0);
    CoresRun(h, s0, evs, s);
    assert Core(h, s.nodes[p], s.log[p]) && Core(h, s.nodes[q], s.log[q]);
    Extends(h.log0, SortPayloads(h.content));
  }

  lemma SameWire(g: Case, h: Case, s: System)
    requires CaseOk(g) && WireInv(g, s) && h == g.(content := h.content)
    ensures CaseOk(h) && WireInv(h, s)
  {
    assert StrayTrains(h, s.sent) == StrayTrains(g, s.sent);
    forall t | t in s.sent && t.clock > h.b[t.issuer] ensures AckedByMet(h, s, t) || Idle(h, t) {
      assert AckedByMet(g, s, t) || Idle(g, t);
    }
    forall p | p in Members(h.ring, {h.v}) ensures Lite(h, s.nodes[p]) { assert Lite(g, s.nodes[p]); }
  }

  lemma Extends(a: seq<Payload>, b: seq<Payload>)
    ensures IsPrefix(a + [], a + b) && IsPrefix(a + b, a + b) && IsPrefix(a + [], a + [])
  {
    NothingAfter(a);
  }
}
