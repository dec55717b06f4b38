// The distributed system on an asynchronous network: any train ever sent may be
// received any number of times, in any order, or never, and any process may
// crash-stop at any moment.

module Network {
  import opened Types
  import opened Kernel
  import opened LocalOrder

  datatype System = System(
    ring: Ring,
    nodes: seq<Node>,
    up: set<nat>,               // processes that still take steps
    sent: set<Train>,           // every train ever put on the wire
    log: seq<seq<Payload>>,     // what each process has delivered
    cast: seq<seq<Bytes>>)      // what each process was asked to broadcast

  datatype Event = Local(p: nat, input: Input) | Issue(p: nat) | Crash(p: nat)

  predicate Shaped(s: System) {
    && |s.nodes| == |s.log| == |s.cast| == s.ring.n
    && (forall p :: 0 <= p < s.ring.n ==> Wf(s.nodes[p]) && s.nodes[p].id == p && s.nodes[p].ring == s.ring)
    && (forall p :: p in s.up ==> p < s.ring.n)
    && (forall t :: t in s.sent ==> t.issuer < s.ring.n)
  }

  predicate Enabled(s: System, ev: Event) {
    && Shaped(s)
    && ev.p in s.up
    && (ev.Local? && ev.input.TrainReceived? ==> ev.input.train in s.sent)
    && (ev.Issue? ==> ev.p < s.ring.k)
  }

  function Next(s: System, ev: Event): System
    requires Enabled(s, ev)
  {
    var p := ev.p;
    match ev
    case Local(_, input) =>
      var r := Step(s.nodes[p], input);
      s.(nodes := s.nodes[p := r.node],
         sent := s.sent + Sends(r.out),
         log := s.log[p := s.log[p] + Delivered(r.out)],
         cast := if input.LocalBroadcast? then s.cast[p := s.cast[p] + [input.data]] else s.cast)
    case Issue(_) =>
      s.(nodes := s.nodes[p := AfterIssue(s.nodes[p])], sent := s.sent + {NewTrain(s.nodes[p])})
    case Crash(_) => s.(up := s.up - {p})
  }

  ghost predicate Runs(s: System, evs: seq<Event>, s': System)
    decreases |evs|
  {
    if evs == [] then s' == s
    else Enabled(s, evs[0]) && Runs(Next(s, evs[0]), evs[1..], s')
  }

  /** Everyone fresh, everyone up, nothing on the wire. */
  function Start(ring: Ring, mode: Mode): System {
    System(ring, seq(ring.n, i requires 0 <= i < ring.n => Fresh(ring, i, mode)),
      Members(ring, {}), {}, seq(ring.n, i => []), seq(ring.n, i => []))
  }

  // ----- what a step puts on the wire -----

  lemma SendsAround(a: seq<Output>, t: Train, b: seq<Output>)
    requires forall o :: o in a ==> !o.ForwardTrain?
    requires forall o :: o in b ==> !o.ForwardTrain?
    ensures Sends(a + [ForwardTrain(t)] + b) == {t}
  {
    var all := a + [ForwardTrain(t)] + b;
    assert all[|a|] == ForwardTrain(t);
    forall x ensures x in Sends(all) <==> x == t {
      assert ForwardTrain(t) in all;
    }
  }

  /** The four ways a train passes through a node. */
  lemma TrainShape(s: Node, t: Train)
    requires Wf(s) && t.issuer < s.ring.n
    ensures var r := HandleTrain(s, t);
      var moved := s.(done := r.node.done, parked := r.node.parked, cache := r.node.cache);
      if Fenced(s, t) then r == Effect(s, [])
      else if t.issuer == s.id then
        var s1 := s.(seen := Bump(s.seen, s.id, t.clock));
        if t.Key() in s.done then Sends(r.out) == {NewTrain(s)} && r.node == AfterIssue(s1) && Delivered(r.out) == []
        else Sends(r.out) == {t} && r.node == moved.(seen := s1.seen)
      else if IsReplay(s, t) then
        Sends(r.out) == {t} && r.node == moved.(known := s.known + Ids(t.payloads))
      else
        (&& Sends(r.out) == {Loaded(s, t)}
         && r.node == moved.(seen := Bump(s.seen, t.issuer, t.clock), pending := [],
                             known := s.known + Ids(t.payloads + s.pending)))
  {
    if !Fenced(s, t) {
      if t.issuer == s.id {
        var s1 := s.(seen := Bump(s.seen, s.id, t.clock));
        if t.Key() in s.done {
          SendsAround([], NewTrain(s1), []);
          ForwardIsSilent([], NewTrain(s1), []);
        } else {
          var r1 := TryDeliver(s1, t);
          SendsAround(r1.out + Drain(r1.node).out, t, []);
          assert HandleTrain(s, t).out == r1.out + Drain(r1.node).out + [ForwardTrain(t)] + [];
        }
      } else if IsReplay(s, t) {
        var r1 := TryDeliver(s.(known := s.known + Ids(t.payloads)), t);
        SendsAround(r1.out, t, Drain(r1.node).out);
      } else {
        var gap := if CheckClock(s.seen[t.issuer], t.clock).Gap? then [DeclareCrash(t.issuer)] else [];
        SendsAround(gap, Loaded(s, t), Drain(AfterLoad(s, t)).out);
      }
    }
  }

  // ----- single lineage -----

  /** More acks on the same key means the same payloads and possibly more. */
  ghost predicate Lineage(sent: set<Train>, e: Epoch) {
    forall t, u :: t in sent && u in sent && t.Key() == u.Key() && Live(e, t) && t.acks <= u.acks
      ==> IsPrefix(t.payloads, u.payloads)
  }

  /** Above the fence of the current view. */
  predicate Live(e: Epoch, t: Train) {
    t.issuer < |e.base| && t.clock > e.base[t.issuer]
  }

  /** Acked only by members who have seen its clock; stamped below the issue clock. */
  ghost predicate Sane(s: System, e: Epoch, t: Train)
    requires Shaped(s) && t.issuer < s.ring.n
  {
    && InEpoch(s.ring, e, t.Key())
    && t.acks <= Members(s.ring, e.crashed)
    && t.clock < s.nodes[t.issuer].issueClock
    && forall a :: a in t.acks && a != t.issuer ==> s.nodes[a].seen[t.issuer] >= t.clock
  }

  ghost predicate NetInv(s: System, e: Epoch) {
    && Shaped(s)
    && |e.base| == s.ring.n
    && s.up <= Members(s.ring, e.crashed)
    && (forall p :: p in Members(s.ring, e.crashed) ==>
          s.nodes[p].floor == e.base && s.nodes[p].crashed == e.crashed && !s.nodes[p].frozen
          && s.nodes[p].issueClock > e.base[p])
    && (forall t :: t in s.sent && Live(e, t) ==> Sane(s, e, t))
    && Lineage(s.sent, e)
  }

  lemma LineageLoad(sent: set<Train>, e: Epoch, t: Train, p: nat, more: seq<Payload>)
    requires Lineage(sent, e) && t in sent && Live(e, t)
    requires forall u :: u in sent && u.Key() == t.Key() ==> p !in u.acks
    ensures Lineage(sent + {t.(payloads := t.payloads + more, acks := t.acks + {p})}, e)
  {
    var t' := t.(payloads := t.payloads + more, acks := t.acks + {p});
    forall x, y | x in sent + {t'} && y in sent + {t'} && x.Key() == y.Key() && Live(e, x) && x.acks <= y.acks
      ensures IsPrefix(x.payloads, y.payloads)
    {
      if x == t' {
        assert p in y.acks;
        assert y == t';
      } else if y == t' {
        assert x.acks <= t.acks;
        assert IsPrefix(x.payloads, t.payloads);
      }
    }
  }

  lemma LineageIssue(sent: set<Train>, e: Epoch, t: Train)
    requires Lineage(sent, e)
    requires forall u :: u in sent ==> u.Key() != t.Key()
    ensures Lineage(sent + {t}, e)
  {
  }

  /** Clocks and issue clocks never move back, so earlier trains stay sane. */
  lemma SaneKept(s: System, s': System, e: Epoch, t: Train)
    requires Shaped(s) && Shaped(s') && s'.ring == s.ring && t.issuer < s.ring.n && Sane(s, e, t)
    requires forall p :: 0 <= p < s.ring.n ==> s'.nodes[p].issueClock >= s.nodes[p].issueClock
    requires forall p, q :: 0 <= p < s.ring.n && 0 <= q < s.ring.n ==> s'.nodes[p].seen[q] >= s.nodes[p].seen[q]
    ensures Sane(s', e, t)
  {
  }

  lemma IssueNet(s: System, p: nat, e: Epoch)
    requires NetInv(s, e) && Enabled(s, Issue(p))
    ensures NetInv(Next(s, Issue(p)), e)
  {
    var s' := Next(s, Issue(p));
    var t := NewTrain(s.nodes[p]);
    forall u | u in s.sent ensures u.Key() != t.Key() {
      if u.issuer == p && Live(e, u) { assert Sane(s, e, u); }
    }
    LineageIssue(s.sent, e, t);
    forall u | u in s'.sent && Live(e, u) ensures Sane(s', e, u) {
      if u in s.sent { SaneKept(s, s', e, u); }
    }
  }

  ghost predicate WireOk(s: System, s': System, e: Epoch) {
    && Shaped(s') && Lineage(s'.sent, e)
    && forall u :: u in s'.sent && u !in s.sent ==> Sane(s', e, u)
  }

  lemma RecycleNet(s: System, p: nat, t: Train, e: Epoch)
    requires NetInv(s, e) && Enabled(s, Local(p, TrainReceived(t)))
    requires !Fenced(s.nodes[p], t) && t.issuer == p && t.Key() in s.nodes[p].done
    ensures WireOk(s, Next(s, Local(p, TrainReceived(t))), e)
  {
    var n := s.nodes[p];
    TrainShape(n, t);
    TrainSentShape(s, p, TrainReceived(t));
    assert Sane(s, e, t);
    forall v | v in s.sent ensures v.Key() != NewTrain(n).Key() {
      if v.issuer == p && Live(e, v) { assert Sane(s, e, v); }
    }
    LineageIssue(s.sent, e, NewTrain(n));
  }

  lemma LoadedSane(s: System, p: nat, t: Train, e: Epoch)
    requires NetInv(s, e) && Enabled(s, Local(p, TrainReceived(t))) && Sane(s, e, t)
    requires !Fenced(s.nodes[p], t) && t.issuer != p && !IsReplay(s.nodes[p], t)
    ensures var s' := Next(s, Local(p, TrainReceived(t)));
      && Shaped(s') && s'.sent == s.sent + {Loaded(s.nodes[p], t)}
      && Sane(s', e, Loaded(s.nodes[p], t))
  {
    var s' := Next(s, Local(p, TrainReceived(t)));
    TrainShape(s.nodes[p], t);
    TrainSentShape(s, p, TrainReceived(t));
    SaneKept(s, s', e, t) by { StepNeverBack(s.nodes[p], TrainReceived(t)); }
  }

  lemma LoadNet(s: System, p: nat, t: Train, e: Epoch)
    requires NetInv(s, e) && Enabled(s, Local(p, TrainReceived(t)))
    requires !Fenced(s.nodes[p], t) && t.issuer != p && !IsReplay(s.nodes[p], t)
    ensures WireOk(s, Next(s, Local(p, TrainReceived(t))), e)
  {
    assert Sane(s, e, t);
    LoadedSane(s, p, t, e);
    forall u | u in s.sent && u.Key() == t.Key() ensures p !in u.acks { assert Sane(s, e, u); }
    LineageLoad(s.sent, e, t, p, s.nodes[p].pending);
  }

  lemma SentNet(s: System, p: nat, t: Train, e: Epoch)
    requires NetInv(s, e) && Enabled(s, Local(p, TrainReceived(t)))
    ensures WireOk(s, Next(s, Local(p, TrainReceived(t))), e)
  {
    var n := s.nodes[p];
    if !Fenced(n, t) && t.issuer == p && t.Key() in n.done {
      RecycleNet(s, p, t, e);
    } else if !Fenced(n, t) && t.issuer != p && !IsReplay(n, t) {
      LoadNet(s, p, t, e);
    } else {
      NothingNewNet(s, p, t, e);
    }
  }

  lemma NothingNewNet(s: System, p: nat, t: Train, e: Epoch)
    requires NetInv(s, e) && Enabled(s, Local(p, TrainReceived(t)))
    requires Fenced(s.nodes[p], t)
      || (if t.issuer == p then t.Key() !in s.nodes[p].done else IsReplay(s.nodes[p], t))
    ensures WireOk(s, Next(s, Local(p, TrainReceived(t))), e)
  {
    TrainSentShape(s, p, TrainReceived(t));
    ForwardedUnchanged(s.nodes[p], t);
    assert Next(s, Local(p, TrainReceived(t))).sent == s.sent;
  }

  lemma ForwardedUnchanged(n: Node, t: Train)
    requires Wf(n) && t.issuer < n.ring.n
    requires Fenced(n, t) || (if t.issuer == n.id then t.Key() !in n.done else IsReplay(n, t))
    ensures Sends(Step(n, TrainReceived(t)).out) <= {t}
  {
    TrainShape(n, t);
  }

  lemma LocalNet(s: System, p: nat, input: Input, e: Epoch)
    requires NetInv(s, e) && Enabled(s, Local(p, input))
    ensures NetInv(Next(s, Local(p, input)), e)
  {
    var s' := Next(s, Local(p, input));
    assert Shaped(s') && StepMonotone(s.nodes[p], s'.nodes[p]) by {
      StepNeverBack(s.nodes[p], input);
      TrainSentShape(s, p, input);
    }
    forall u | u in s.sent && Live(e, u) ensures Sane(s', e, u) { SaneKept(s, s', e, u); }
    if input.TrainReceived? {
      SentNet(s, p, input.train, e);
    } else {
      assert s'.sent == s.sent;
    }
  }

  predicate StepMonotone(s: Node, s': Node) {
    && Wf(s) && Wf(s') && s'.ring == s.ring && s'.id == s.id
    && s'.issueClock >= s.issueClock
    && forall q :: 0 <= q < s.ring.n ==> s'.seen[q] >= s.seen[q]
  }

  lemma StepNeverBack(s: Node, input: Input)
    requires Wf(s) && Accepts(s, input)
    ensures StepMonotone(s, Step(s, input).node)
  {
    if input.TrainReceived? { TrainShape(s, input.train); }
  }

  lemma TrainSentShape(s: System, p: nat, input: Input)
    requires Enabled(s, Local(p, input))
    ensures Shaped(Next(s, Local(p, input)))
  {
    if input.TrainReceived? { TrainShape(s.nodes[p], input.train); }
  }

  lemma NetStep(s: System, ev: Event, e: Epoch)
    requires NetInv(s, e) && Enabled(s, ev)
    ensures NetInv(Next(s, ev), e)
  {
    match ev
    case Local(p, input) => LocalNet(s, p, input, e);
    case Issue(p) => IssueNet(s, p, e);
    case Crash(p) =>
      forall t | t in s.sent && Live(e, t) ensures Sane(Next(s, ev), e, t) { SaneKept(s, Next(s, ev), e, t); }
  }

  lemma {:induction false} NetRun(s: System, evs: seq<Event>, s': System, e: Epoch)
    requires NetInv(s, e) && Runs(s, evs, s')
    ensures NetInv(s', e) && s'.ring == s.ring && s.sent <= s'.sent
    decreases |evs|
  {
    if evs != [] {
      NetStep(s, evs[0], e);
      NetRun(Next(s, evs[0]), evs[1..], s', e);
    }
  }

  // ----- contents of a key -----

  /** A train that satisfies the delivery condition of the view. */
  predicate Closed(ring: Ring, e: Epoch, t: Train) {
    Live(e, t) && t.acks == Members(ring, e.crashed)
  }

  /** The payloads of a key, once some train of it collected every ack. */
  ghost function Content(sent: set<Train>, ring: Ring, e: Epoch, k: Key): seq<Payload> {
    if exists t :: t in sent && t.Key() == k && Closed(ring, e, t)
    then (var t :| t in sent && t.Key() == k && Closed(ring, e, t); t.payloads)
    else []
  }

  ghost function Contents(s: System, e: Epoch): Key -> seq<Payload> {
    k => Content(s.sent, s.ring, e, k)
  }

  ghost predicate Agree(s: System, e: Epoch, raw: Key -> seq<Payload>) {
    forall t :: t in s.sent && Closed(s.ring, e, t) ==> t.payloads == raw(t.Key())
  }

  /** Single lineage: every fully acked train of a key carries the same payloads. */
  lemma SingleLineage(s: System, e: Epoch, t: Train, u: Train)
    requires NetInv(s, e) && t in s.sent && u in s.sent && t.Key() == u.Key()
    requires Closed(s.ring, e, t) && Closed(s.ring, e, u)
    ensures t.payloads == u.payloads
  {
    assert IsPrefix(t.payloads, u.payloads) && IsPrefix(u.payloads, t.payloads);
  }

  lemma ContentsAgree(s: System, e: Epoch)
    requires NetInv(s, e)
    ensures Agree(s, e, Contents(s, e))
  {
    forall t | t in s.sent && Closed(s.ring, e, t) ensures t.payloads == Contents(s, e)(t.Key()) {
      var u :| u in s.sent && u.Key() == t.Key() && Closed(s.ring, e, u)
        && u.payloads == Content(s.sent, s.ring, e, t.Key());
      SingleLineage(s, e, t, u);
    }
  }

  lemma ContentOfClosed(s: System, e: Epoch, t: Train)
    requires NetInv(s, e) && t in s.sent && Closed(s.ring, e, t)
    ensures Contents(s, e)(t.Key()) == t.payloads
  {
    ContentsAgree(s, e);
  }

  // ----- logs -----

  ghost predicate NodeOk(s: System, e: Epoch, raw: Key -> seq<Payload>, log0: seq<Payload>, p: nat)
    requires Shaped(s) && p < s.ring.n
  {
    Ordered(s.nodes[p], e, raw) && Quiet(s.nodes[p]) && s.log[p] == log0 + Log(s.nodes[p], e, raw)
  }

  ghost predicate AllOk(s: System, e: Epoch, raw: Key -> seq<Payload>, log0: seq<Payload>)
    requires Shaped(s)
  {
    forall p :: p in Members(s.ring, e.crashed) ==> NodeOk(s, e, raw, log0, p)
  }

  lemma LogStep(s: System, ev: Event, e: Epoch, raw: Key -> seq<Payload>, log0: seq<Payload>)
    requires NetInv(s, e) && Enabled(s, ev) && NetInv(Next(s, ev), e)
    requires Agree(s, e, raw) && AllOk(s, e, raw, log0)
    ensures AllOk(Next(s, ev), e, raw, log0)
  {
    var s' := Next(s, ev);
    forall p | p in Members(s.ring, e.crashed) ensures NodeOk(s', e, raw, log0, p) {
      assert NodeOk(s, e, raw, log0, p);
      if p == ev.p {
        match ev
        case Local(_, input) =>
          var n := s.nodes[p];
          if input.TrainReceived? && !Fenced(n, input.train) {
            var t := input.train;
            assert Sane(s, e, t);
            if Ready(n, t.acks) { assert Closed(s.ring, e, t); }
          }
          StepOrdered(n, input, e, raw);
          Assoc(log0, Log(n, e, raw), Delivered(Step(n, input).out));
        case Issue(_) =>
          AdvanceOrdered(s.nodes[p], AfterIssue(s.nodes[p]), e, raw);
          SameClocksQuiet(s.nodes[p], AfterIssue(s.nodes[p]));
        case Crash(_) =>
      }
    }
  }

  lemma {:induction false} LogRun(s: System, evs: seq<Event>, s': System, e: Epoch, raw: Key -> seq<Payload>,
                                  log0: seq<Payload>)
    requires NetInv(s, e) && Runs(s, evs, s') && NetInv(s', e)
    requires Agree(s', e, raw) && AllOk(s, e, raw, log0)
    ensures AllOk(s', e, raw, log0)
    decreases |evs|
  {
    if evs != [] {
      var s1 := Next(s, evs[0]);
      NetStep(s, evs[0], e);
      NetRun(s1, evs[1..], s', e);
      assert Agree(s, e, raw);
      LogStep(s, evs[0], e, raw, log0);
      LogRun(s1, evs[1..], s', e, raw, log0);
    }
  }

  /** Where a view begins: members share a log, have nothing parked, and are level. */
  ghost predicate ViewStart(s: System, e: Epoch, log0: seq<Payload>) {
    NetInv(s, e) && (forall raw: Key -> seq<Payload> :: AllOk(s, e, raw, log0))
  }

  lemma StartIsViewStart(ring: Ring, mode: Mode)
    ensures ViewStart(Start(ring, mode), FirstEpoch(ring), [])
  {
    var s := Start(ring, mode);
    forall raw: Key -> seq<Payload> ensures AllOk(s, FirstEpoch(ring), raw, []) {
      forall p | p in Members(ring, {}) ensures NodeOk(s, FirstEpoch(ring), raw, [], p) {
        FreshOrdered(ring, p, mode, raw);
      }
    }
  }

  datatype ViewAt = ViewAt(s: System, e: Epoch, log0: seq<Payload>)

  /** A state in which a view has just begun. */
  type View = w: ViewAt | ViewStart(w.s, w.e, w.log0)
    ghost witness (StartIsViewStart(Shape(3, 2), UniformTotalOrder);
                   ViewAt(Start(Shape(3, 2), UniformTotalOrder), FirstEpoch(Shape(3, 2)), []))

  /** In every run inside one view, every member's log is determined by its done keys. */
  lemma ViewRun(w: View, evs: seq<Event>, s: System)
    requires Runs(w.s, evs, s)
    ensures NetInv(s, w.e) && s.ring == w.s.ring && AllOk(s, w.e, Contents(s, w.e), w.log0)
  {
    NetRun(w.s, evs, s, w.e);
    ContentsAgree(s, w.e);
    LogRun(w.s, evs, s, w.e, Contents(s, w.e), w.log0);
  }

  /** Logs of any two members are mutual prefixes in every run inside one view. */
  lemma ViewConsistent(w: View, evs: seq<Event>, s: System, p: nat, q: nat)
    requires Runs(w.s, evs, s)
    requires p in Members(w.s.ring, w.e.crashed) && q in Members(w.s.ring, w.e.crashed)
    ensures Shaped(s) && p < |s.log| && q < |s.log|
    ensures IsPrefix(s.log[p], s.log[q]) || IsPrefix(s.log[q], s.log[p])
  {
    ViewRun(w, evs, s);
    var raw := Contents(s, w.e);
    assert NodeOk(s, w.e, raw, w.log0, p) && NodeOk(s, w.e, raw, w.log0, q);
    SegmentPrefix(s.nodes[p], s.nodes[q], w.e, raw);
    PrefixConcat(w.log0, Log(s.nodes[p], w.e, raw), Log(s.nodes[q], w.e, raw));
    PrefixConcat(w.log0, Log(s.nodes[q], w.e, raw), Log(s.nodes[p], w.e, raw));
  }

  lemma PrefixConcat(x: seq<Payload>, a: seq<Payload>, b: seq<Payload>)
    ensures IsPrefix(a, b) ==> IsPrefix(x + a, x + b)
  {
    if IsPrefix(a, b) {
      assert b == a + b[|a|..];
      assert x + b == (x + a) + b[|a|..];
    }
  }

  /**
   * ConsistentDelivery: for every ring, every delivery mode and every run with
   * loss, duplication, reordering and crash-stop, any two delivered logs, those
   * of crashed processes included, are mutual prefixes.
   */
  lemma ConsistentDelivery(ring: Ring, mode: Mode, evs: seq<Event>, s: System, p: nat, q: nat)
    requires Runs(Start(ring, mode), evs, s) && p < ring.n && q < ring.n
    ensures p < |s.log| && q < |s.log|
    ensures IsPrefix(s.log[p], s.log[q]) || IsPrefix(s.log[q], s.log[p])
  {
    StartIsViewStart(ring, mode);
    var w: View := ViewAt(Start(ring, mode), FirstEpoch(ring), []);
    ViewConsistent(w, evs, s, p, q);
  }

  // ----- single lineage, for explicit runs -----

  /** Every train carries a positive clock and its issuer's ack. */
  predicate Positive(s: System) {
    && (forall t :: t in s.sent ==> t.clock >= 1 && t.issuer in t.acks)
    && (forall p :: 0 <= p < |s.nodes| ==> s.nodes[p].issueClock >= 1)
  }

  lemma TrainPositive(n: Node, t: Train)
    requires Wf(n) && t.issuer < n.ring.n && t.clock >= 1 && t.issuer in t.acks && n.issueClock >= 1
    ensures HandleTrain(n, t).node.issueClock >= 1
    ensures forall x :: x in Sends(HandleTrain(n, t).out) ==> x.clock >= 1 && x.issuer in x.acks
  {
    TrainShape(n, t);
  }

  lemma NextPositive(s: System, ev: Event)
    requires Enabled(s, ev) && Positive(s)
    ensures Positive(Next(s, ev)) && Shaped(Next(s, ev))
  {
    if ev.Local? {
      TrainSentShape(s, ev.p, ev.input);
      if ev.input.TrainReceived? { TrainPositive(s.nodes[ev.p], ev.input.train); }
    }
  }

  lemma {:induction false} RunPositive(s: System, evs: seq<Event>, s': System)
    requires Shaped(s) && Runs(s, evs, s') && Positive(s)
    ensures Positive(s')
    decreases |evs|
  {
    if evs != [] {
      NextPositive(s, evs[0]);
      RunPositive(Next(s, evs[0]), evs[1..], s');
    }
  }

  lemma RunFacts(ring: Ring, mode: Mode, evs: seq<Event>, s: System)
    requires Runs(Start(ring, mode), evs, s)
    ensures NetInv(s, FirstEpoch(ring)) && s.ring == ring && Positive(s)
    ensures AllOk(s, FirstEpoch(ring), Contents(s, FirstEpoch(ring)), [])
  {
    StartIsViewStart(ring, mode);
    var w: View := ViewAt(Start(ring, mode), FirstEpoch(ring), []);
    ViewRun(w, evs, s);
    RunPositive(Start(ring, mode), evs, s);
  }

  /** Single lineage in every run: two fully acked trains with the same key carry the same payloads. */
  lemma OneContentPerKey(ring: Ring, mode: Mode, evs: seq<Event>, s: System, t: Train, u: Train)
    requires Runs(Start(ring, mode), evs, s)
    requires t in s.sent && u in s.sent && t.Key() == u.Key() && t.acks == Members(ring, {}) && u.acks == t.acks
    ensures t.payloads == u.payloads == Contents(s, FirstEpoch(ring))(t.Key())
  {
    RunFacts(ring, mode, evs, s);
    assert Live(FirstEpoch(ring), t);
    SingleLineage(s, FirstEpoch(ring), t, u);
    ContentOfClosed(s, FirstEpoch(ring), t);
  }

  /** So whatever any process has parked or delivered under a key is that key's one content. */
  lemma HeldIsContent(ring: Ring, mode: Mode, evs: seq<Event>, s: System, p: nat)
    requires Runs(Start(ring, mode), evs, s) && p < ring.n
    ensures Shaped(s) && s.ring == ring
    ensures forall k :: k in s.nodes[p].parked ==> s.nodes[p].parked[k].payloads == Contents(s, FirstEpoch(ring))(k)
    ensures s.log[p] == LogOf(s.nodes[p].done, Contents(s, FirstEpoch(ring)))
  {
    RunFacts(ring, mode, evs, s);
    NodeHolds(s, FirstEpoch(ring), Contents(s, FirstEpoch(ring)), p);
  }

  lemma NodeHolds(s: System, e: Epoch, raw: Key -> seq<Payload>, p: nat)
    requires Shaped(s) && p < s.ring.n && AllOk(s, e, raw, []) && e.crashed == {} && e.before == {}
    ensures forall k :: k in s.nodes[p].parked ==> s.nodes[p].parked[k].payloads == raw(k)
    ensures s.log[p] == LogOf(s.nodes[p].done, raw)
  {
    assert NodeOk(s, e, raw, [], p);
    assert s.nodes[p].done - {} == s.nodes[p].done;
  }
}
