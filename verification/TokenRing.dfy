// The ring proper: one train per issuer, held by one place at a time.  Each hop
// is a step of the asynchronous system, so everything proved there holds here;
// what the ring adds is that no node falls more than one round behind.

module TokenRing {
  import opened Types
  import opened Kernel
  import opened LocalOrder
  import opened Network

  /** `off`: ring distance from the issuer to the next receiver; `lap`: completed laps. */
  datatype Token = Token(train: Train, lap: nat, off: nat)

  datatype RingState = RingState(sys: System, at: seq<Token>, mode: Mode)

  datatype RingEvent = Cast(p: nat, data: Bytes) | Move(q: nat) | Halt(p: nat)

  function Place(n: nat, q: nat, off: nat): (p: nat)
    requires q < n && off < n
    ensures p < n && Offset(n, q, p) == off
  {
    if q + off < n then q + off else q + off - n
  }

  lemma PlaceOffset(n: nat, q: nat, p: nat)
    requires q < n && p < n
    ensures Place(n, q, Offset(n, q, p)) == p
  {
  }

  predicate RingShaped(rs: RingState) {
    && Shaped(rs.sys)
    && |rs.at| == rs.sys.ring.k
    && (forall q :: 0 <= q < |rs.at| ==> rs.at[q].off < rs.sys.ring.n && rs.at[q].train in rs.sys.sent)
  }

  function Receiver(rs: RingState, q: nat): nat
    requires RingShaped(rs) && q < |rs.at|
  {
    Place(rs.sys.ring.n, q, rs.at[q].off)
  }

  function Happens(rs: RingState, ev: RingEvent): Event
    requires RingShaped(rs) && (ev.Move? ==> ev.q < |rs.at|)
  {
    match ev
    case Cast(p, data) => Local(p, LocalBroadcast(data))
    case Move(q) => Local(Receiver(rs, q), TrainReceived(rs.at[q].train))
    case Halt(p) => Crash(p)
  }

  predicate RingEnabled(rs: RingState, ev: RingEvent) {
    RingShaped(rs) && (ev.Move? ==> ev.q < |rs.at|) && Enabled(rs.sys, Happens(rs, ev))
  }

  /** The next place after the receiver; a fresh clock starts a fresh tour. */
  function Hop(n: nat, tok: Token, t: Train): Token
    requires tok.off < n
  {
    if t.clock != tok.train.clock then Token(t, 0, 1)
    else if tok.off + 1 == n then Token(t, tok.lap + 1, 0)
    else Token(t, tok.lap, tok.off + 1)
  }

  ghost function RingNext(rs: RingState, ev: RingEvent): RingState
    requires RingEnabled(rs, ev)
  {
    var sys' := Next(rs.sys, Happens(rs, ev));
    if !ev.Move? then rs.(sys := sys')
    else
      var sends := Sends(Step(rs.sys.nodes[Receiver(rs, ev.q)], TrainReceived(rs.at[ev.q].train)).out);
      var t := if exists x :: x in sends then (var x :| x in sends; x) else rs.at[ev.q].train;
      rs.(sys := sys', at := rs.at[ev.q := Hop(rs.sys.ring.n, rs.at[ev.q], t)])
  }

  ghost predicate RingRuns(rs: RingState, evs: seq<RingEvent>, rs': RingState)
    decreases |evs|
  {
    if evs == [] then rs' == rs
    else RingEnabled(rs, evs[0]) && RingRuns(RingNext(rs, evs[0]), evs[1..], rs')
  }

  // ----- the start: every issuer puts its first train on the ring -----

  function Issued(ring: Ring, mode: Mode, j: nat): (s: System)
    requires j <= ring.k
    ensures Shaped(s) && s.ring == ring && s.up == Members(ring, {})
    ensures forall p :: 0 <= p < ring.n ==>
      s.nodes[p] == if p < j then AfterIssue(Fresh(ring, p, mode)) else Fresh(ring, p, mode)
    ensures forall q :: 0 <= q < j ==> NewTrain(Fresh(ring, q, mode)) in s.sent
  {
    if j == 0 then Start(ring, mode) else Next(Issued(ring, mode, j - 1), Issue(j - 1))
  }

  function RingStart(ring: Ring, mode: Mode): RingState {
    RingState(Issued(ring, mode, ring.k),
      seq(ring.k, q requires 0 <= q < ring.k => Token(NewTrain(Fresh(ring, q, mode)), 0, 1)), mode)
  }

  /** Some run of the asynchronous system leads here. */
  ghost predicate Reachable(ring: Ring, mode: Mode, s: System) {
    exists evs :: Runs(Start(ring, mode), evs, s)
  }

  lemma {:induction false} RunsAppend(s: System, evs: seq<Event>, s1: System, ev: Event)
    requires Runs(s, evs, s1) && Enabled(s1, ev)
    ensures Runs(s, evs + [ev], Next(s1, ev))
    decreases |evs|
  {
    if evs == [] {
      assert (evs + [ev])[1..] == [];
    } else {
      RunsAppend(Next(s, evs[0]), evs[1..], s1, ev);
      assert (evs + [ev])[1..] == evs[1..] + [ev];
    }
  }

  lemma ReachableNext(ring: Ring, mode: Mode, s: System, ev: Event)
    requires Reachable(ring, mode, s) && Enabled(s, ev)
    ensures Reachable(ring, mode, Next(s, ev))
  {
    var evs :| Runs(Start(ring, mode), evs, s);
    RunsAppend(Start(ring, mode), evs, s, ev);
  }

  lemma {:induction false} IssuedReachable(ring: Ring, mode: Mode, j: nat)
    requires j <= ring.k
    ensures Reachable(ring, mode, Issued(ring, mode, j))
  {
    if j == 0 {
      assert Runs(Start(ring, mode), [], Start(ring, mode));
    } else {
      IssuedReachable(ring, mode, j - 1);
      ReachableNext(ring, mode, Issued(ring, mode, j - 1), Issue(j - 1));
    }
  }

  /** What reachability gives: the invariants of the asynchronous system. */
  lemma FromReachable(ring: Ring, mode: Mode, s: System)
    requires Reachable(ring, mode, s)
    ensures var e := FirstEpoch(ring);
      NetInv(s, e) && s.ring == ring && AllOk(s, e, Contents(s, e), [])
  {
    var evs :| Runs(Start(ring, mode), evs, s);
    StartIsViewStart(ring, mode);
    var w: View := ViewAt(Start(ring, mode), FirstEpoch(ring), []);
    ViewRun(w, evs, s);
  }

  lemma NodeFromReachable(ring: Ring, mode: Mode, s: System, p: nat)
    requires Reachable(ring, mode, s) && p < ring.n
    ensures NetInv(s, FirstEpoch(ring)) && s.ring == ring
    ensures NodeOk(s, FirstEpoch(ring), Contents(s, FirstEpoch(ring)), [], p)
    ensures !s.nodes[p].frozen && s.nodes[p].floor == Zeros(ring.n) && s.nodes[p].crashed == {}
  {
    FromReachable(ring, mode, s);
    assert p in Members(ring, {});
  }

  lemma ContentFromReachable(ring: Ring, mode: Mode, s: System, t: Train)
    requires Reachable(ring, mode, s) && t in s.sent && Closed(ring, FirstEpoch(ring), t)
    ensures Contents(s, FirstEpoch(ring))(t.Key()) == t.payloads
  {
    FromReachable(ring, mode, s);
    ContentOfClosed(s, FirstEpoch(ring), t);
  }

  // ----- where every train has been -----

  predicate Handled(s: Node, k: Key) { k in s.done || k in s.parked }

  /** The node at distance `off` has met this train's clock. */
  predicate Met(tok: Token, off: nat) {
    if off == 0 then tok.lap >= 2 || (tok.lap == 1 && tok.off >= 1)
    else tok.lap >= 1 || tok.off > off
  }

  /** The node at distance `off` has met the train fully acked. */
  predicate MetClosed(tok: Token, off: nat) {
    tok.lap >= 2 || (tok.lap == 1 && tok.off > off)
  }

  predicate VisitOk(s: Node, tok: Token, off: nat)
    requires Wf(s) && tok.train.issuer < s.ring.n && tok.train.clock >= 1
  {
    var q, c := tok.train.issuer, tok.train.clock;
    && s.seen[q] == (if Met(tok, off) then c else c - 1)
    && (forall cl :: 1 <= cl < c ==> Handled(s, ClockKey(cl, q)))
    && (MetClosed(tok, off) <==> Handled(s, ClockKey(c, q)))
  }

  /** Who has acked: everyone the train has passed on its first lap, then everyone. */
  function AcksAt(ring: Ring, q: nat, tok: Token): set<nat>
    requires q < ring.n
  {
    if tok.lap == 0 then set p | 0 <= p < ring.n && Offset(ring.n, q, p) < tok.off else Members(ring, {})
  }

  ghost predicate TokenOk(rs: RingState, q: nat)
    requires RingShaped(rs) && q < |rs.at|
  {
    var tok, n := rs.at[q], rs.sys.ring.n;
    && TokenClocks(rs, q)
    && tok.train.acks == AcksAt(rs.sys.ring, q, tok)
    && (forall p :: 0 <= p < n ==> VisitOk(rs.sys.nodes[p], tok, Offset(n, q, p)))
  }

  ghost predicate RingInv(rs: RingState) {
    && RingShaped(rs) && rs.mode != CausalOrder
    && Reachable(rs.sys.ring, rs.mode, rs.sys)
    && (forall q :: 0 <= q < |rs.at| ==> TokenOk(rs, q))
    && Bystanders(rs.sys, rs.mode)
  }

  /** Processes beyond the issuers have issued nothing, and nobody has seen anything of theirs. */
  ghost predicate Bystanders(s: System, mode: Mode)
    requires Shaped(s)
  {
    && (forall p, q :: 0 <= p < s.ring.n && s.ring.k <= q < s.ring.n ==> s.nodes[p].seen[q] == 0)
    && (forall p :: 0 <= p < s.ring.n ==> s.nodes[p].mode == mode)
    && (forall p :: s.ring.k <= p < s.ring.n ==> s.nodes[p].issueClock == 1)
  }

  lemma StartInv(ring: Ring, mode: Mode)
    requires mode != CausalOrder
    ensures RingInv(RingStart(ring, mode))
  {
    var rs := RingStart(ring, mode);
    IssuedReachable(ring, mode, ring.k);
    forall q | 0 <= q < ring.k ensures TokenOk(rs, q) { StartToken(ring, mode, q); }
  }

  lemma StartToken(ring: Ring, mode: Mode, q: nat)
    requires q < ring.k
    ensures RingShaped(RingStart(ring, mode)) && TokenOk(RingStart(ring, mode), q)
  {
    var rs := RingStart(ring, mode);
    var tok := rs.at[q];
    assert tok.train.acks == {q};
    forall p ensures p in tok.train.acks <==> 0 <= p < ring.n && Offset(ring.n, q, p) < tok.off { }
    forall p | 0 <= p < ring.n ensures VisitOk(rs.sys.nodes[p], tok, Offset(ring.n, q, p)) { }
  }

  // ----- one hop -----

  /** Only the clock of this issuer moves; nothing handled is forgotten. */
  ghost predicate Calm(s: Node, s': Node, q: nat) {
    && Wf(s) && Wf(s') && s'.ring == s.ring && s'.mode == s.mode
    && (forall k :: Handled(s, k) ==> Handled(s', k)) && s.done <= s'.done
    && (forall r :: 0 <= r < s.ring.n && r != q ==> s'.seen[r] == s.seen[r])
  }

  lemma CalmVisit(s: Node, s': Node, q: nat, tok: Token, off: nat)
    requires Calm(s, s', q) && tok.train.issuer < s.ring.n && tok.train.clock >= 1
    requires VisitOk(s, tok, off) && s'.seen[tok.train.issuer] == s.seen[tok.train.issuer]
    requires Handled(s', tok.train.Key()) ==> Handled(s, tok.train.Key())
    ensures VisitOk(s', tok, off)
  {
  }

  lemma TryKeepsHandled(s: Node, t: Train, k: Key)
    requires Wf(s) && Handled(s, k)
    ensures Handled(TryDeliver(s, t).node, k)
  {
  }

  lemma {:induction false} DrainKeepsHandled(s: Node, k: Key)
    requires Wf(s) && Handled(s, k)
    ensures Handled(Drain(s).node, k)
    decreases |s.parked|
  {
    if !s.frozen && s.parked != map[] {
      var key := Min(s.parked.Keys);
      if Deliverable(s, key) {
        var rest := s.parked - {key};
        assert rest.Keys == s.parked.Keys - {key};
        assert |rest.Keys| == |s.parked.Keys| - 1;
        DrainKeepsHandled(Record(s.(parked := rest), key, s.parked[key].payloads).node, k);
      }
    }
  }

  lemma StepKeepsHandled(s: Node, t: Train, k: Key)
    requires Wf(s) && t.issuer < s.ring.n && Handled(s, k)
    ensures Handled(Step(s, TrainReceived(t)).node, k)
  {
    if Fenced(s, t) {
    } else if t.issuer == s.id {
      var s1 := s.(seen := Bump(s.seen, s.id, t.clock));
      if t.Key() !in s.done {
        TryKeepsHandled(s1, t, k);
        DrainKeepsHandled(TryDeliver(s1, t).node, k);
      }
    } else if IsReplay(s, t) {
      var s1 := s.(known := s.known + Ids(t.payloads));
      TryKeepsHandled(s1, t, k);
      DrainKeepsHandled(TryDeliver(s1, t).node, k);
    } else {
      DrainKeepsHandled(AfterLoad(s, t), k);
    }
  }

  lemma {:induction false} DrainNewHandled(s: Node, k: Key)
    requires Wf(s) && Handled(Drain(s).node, k)
    ensures Handled(s, k)
    decreases |s.parked|
  {
    if !s.frozen && s.parked != map[] {
      var key := Min(s.parked.Keys);
      if Deliverable(s, key) {
        var rest := s.parked - {key};
        assert rest.Keys == s.parked.Keys - {key};
        assert |rest.Keys| == |s.parked.Keys| - 1;
        DrainNewHandled(Record(s.(parked := rest), key, s.parked[key].payloads).node, k);
      }
    }
  }

  lemma TryNewHandled(s: Node, t: Train, k: Key)
    requires Wf(s) && Handled(Drain(TryDeliver(s, t).node).node, k)
    ensures Handled(s, k) || k == t.Key()
  {
    DrainNewHandled(TryDeliver(s, t).node, k);
  }

  /** A first sight handles nothing new; any other visit handles at most the train's own key. */
  lemma StepNewHandled(s: Node, t: Train, k: Key)
    requires Wf(s) && t.issuer < s.ring.n && Handled(Step(s, TrainReceived(t)).node, k)
    ensures Handled(s, k) || (k == t.Key() && (t.issuer == s.id || IsReplay(s, t)))
  {
    if Fenced(s, t) {
    } else if t.issuer == s.id {
      if t.Key() !in s.done { TryNewHandled(s.(seen := Bump(s.seen, s.id, t.clock)), t, k); }
    } else if IsReplay(s, t) {
      TryNewHandled(s.(known := s.known + Ids(t.payloads)), t, k);
    } else {
      DrainNewHandled(AfterLoad(s, t), k);
    }
  }

  /** A train that is not ready makes nothing newly handled. */
  lemma UnreadyHandlesNothing(s: Node, t: Train, k: Key)
    requires Wf(s) && t.issuer < s.ring.n && !Ready(s, t.acks) && Handled(Step(s, TrainReceived(t)).node, k)
    ensures Handled(s, k)
  {
    if Fenced(s, t) || (t.issuer == s.id && t.Key() in s.done) {
    } else if t.issuer == s.id {
      DrainNewHandled(s.(seen := Bump(s.seen, s.id, t.clock)), k);
    } else if IsReplay(s, t) {
      DrainNewHandled(s.(known := s.known + Ids(t.payloads)), k);
    } else {
      DrainNewHandled(AfterLoad(s, t), k);
    }
  }

  /** A closed train leaves the node with its key delivered or parked. */
  lemma ClosedIsHandled(s: Node, t: Train)
    requires Wf(s) && !s.frozen && Ready(s, t.acks)
    ensures Handled(TryDeliver(s, t).node, t.Key())
  {
  }

  /** Nothing new is handled but, after the first lap, the train's own key. */
  ghost predicate HandlesOnly(s: Node, s': Node, tok: Token) {
    forall k :: Handled(s', k) ==> Handled(s, k) || (tok.lap >= 1 && k == tok.train.Key())
  }

  lemma HopHandlesOnly(s: Node, tok: Token, p: nat)
    requires Wf(s) && s.id == p && tok.train.issuer < s.ring.n && tok.off < s.ring.n
    requires p == Place(s.ring.n, tok.train.issuer, tok.off)
    requires tok.train.clock >= 1 && (tok.lap == 0 ==> tok.off >= 1) && VisitOk(s, tok, tok.off)
    ensures HandlesOnly(s, Step(s, TrainReceived(tok.train)).node, tok)
  {
    var s' := Step(s, TrainReceived(tok.train)).node;
    forall k | Handled(s', k) ensures Handled(s, k) || (tok.lap >= 1 && k == tok.train.Key()) {
      StepNewHandled(s, tok.train, k);
    }
  }

  lemma HopVisit(s: Node, tok: Token, p: nat)
    requires Sound(s) && !s.frozen && s.id == p && s.crashed == {}
    requires s.mode != CausalOrder && s.floor == Zeros(s.ring.n)
    requires tok.train.issuer < s.ring.n && tok.off < s.ring.n && p == Place(s.ring.n, tok.train.issuer, tok.off)
    requires tok.train.clock >= 1 && (tok.lap == 0 ==> tok.off >= 1)
    requires tok.lap >= 1 ==> tok.train.acks == Members(s.ring, {})
    requires VisitOk(s, tok, tok.off)
    ensures var r := Step(s, TrainReceived(tok.train)); var q := tok.train.issuer;
      && Calm(s, r.node, q)
      && r.node.seen[q] == tok.train.clock
      && (tok.lap >= 1 ==> Handled(r.node, tok.train.Key()))
      && HandlesOnly(s, r.node, tok)
      && (tok.lap == 0 ==> Sends(r.out) == {Loaded(s, tok.train)} && r.node.issueClock == s.issueClock)
      && (tok.lap >= 1 && !(tok.off == 0 && tok.train.Key() in s.done) ==>
            Sends(r.out) == {tok.train} && r.node.issueClock == s.issueClock)
      && (tok.off == 0 && tok.train.Key() in s.done ==>
            tok.lap >= 2 && Sends(r.out) == {NewTrain(s)} && r.node.issueClock == s.issueClock + 1
            && tok.train.Key() in r.node.done)
  {
    var t := tok.train;
    TrainShape(s, t);
    forall k | Handled(s, k) ensures Handled(Step(s, TrainReceived(t)).node, k) { StepKeepsHandled(s, t, k); }
    HopHandlesOnly(s, tok, p);
    assert (tok.off == 0) == (t.issuer == p);
    if tok.off == 0 {
      if t.Key() !in s.done {
        var s1 := s.(seen := Bump(s.seen, s.id, t.clock));
        ClosedIsHandled(s1, t);
        DrainKeepsHandled(TryDeliver(s1, t).node, t.Key());
      }
    } else if tok.lap >= 1 {
      assert IsReplay(s, t);
      var s1 := s.(known := s.known + Ids(t.payloads));
      ClosedIsHandled(s1, t);
      DrainKeepsHandled(TryDeliver(s1, t).node, t.Key());
    } else {
      assert !IsReplay(s, t);
    }
  }

  /** The receiver's view of the train after the hop. */
  lemma VisitAfterHop(s: Node, s': Node, tok: Token, t: Train)
    requires Calm(s, s', tok.train.issuer) && tok.train.issuer < s.ring.n && tok.off < s.ring.n
    requires tok.train.clock >= 1 && (tok.lap == 0 ==> tok.off >= 1) && VisitOk(s, tok, tok.off)
    requires s'.seen[tok.train.issuer] == tok.train.clock
    requires (tok.lap >= 1 ==> Handled(s', tok.train.Key())) && HandlesOnly(s, s', tok)
    requires t.Key() == tok.train.Key()
    ensures VisitOk(s', Hop(s.ring.n, tok, t), tok.off)
  {
  }

  /** Everybody else's view of the train is unchanged by the hop. */
  lemma VisitElsewhere(s: Node, tok: Token, t: Train, off: nat)
    requires Wf(s) && tok.train.issuer < s.ring.n && tok.off < s.ring.n && off < s.ring.n && off != tok.off
    requires tok.train.clock >= 1 && (tok.lap == 0 ==> tok.off >= 1) && t.Key() == tok.train.Key()
    requires VisitOk(s, tok, off)
    ensures VisitOk(s, Hop(s.ring.n, tok, t), off)
  {
  }

  /** After a recycle everybody is one clock behind and has handled the old key. */
  lemma VisitRecycled(s: Node, tok: Token, t: Train, off: nat)
    requires Wf(s) && tok.train.issuer < s.ring.n && tok.off < s.ring.n && off < s.ring.n
    requires tok.train.clock >= 1 && tok.lap >= 2 && VisitOk(s, tok, off)
    requires t.issuer == tok.train.issuer && t.clock == tok.train.clock + 1 && !Handled(s, t.Key())
    ensures VisitOk(s, Hop(s.ring.n, tok, t), off)
  {
  }

  /** The train that leaves the receiver. */
  ghost function Leaves(rs: RingState, q: nat): Train
    requires RingShaped(rs) && q < |rs.at|
  {
    var tok, s := rs.at[q], rs.sys.nodes[Receiver(rs, q)];
    if tok.lap == 0 then Loaded(s, tok.train)
    else if tok.off == 0 && tok.train.Key() in s.done then NewTrain(s)
    else tok.train
  }

  /** What a hop does to its receiver. */
  ghost predicate Received(rs: RingState, q: nat, r: Effect)
    requires RingShaped(rs) && q < |rs.at|
  {
    var p, tok, t := Receiver(rs, q), rs.at[q], Leaves(rs, q);
    var s := rs.sys.nodes[p];
    && Sends(r.out) == {t} && t.issuer == q && t.clock >= 1
    && Calm(s, r.node, q) && r.node.seen[q] == tok.train.clock
    && (tok.lap >= 1 ==> Handled(r.node, tok.train.Key())) && HandlesOnly(s, r.node, tok)
    && (if t.clock == tok.train.clock then r.node.issueClock == s.issueClock
        else p == q && tok.lap >= 2 && t.clock == tok.train.clock + 1
             && r.node.issueClock == s.issueClock + 1 && tok.train.Key() in r.node.done)
  }

  lemma MoveReceived(rs: RingState, q: nat)
    requires RingInv(rs) && q < |rs.at|
    ensures Received(rs, q, Step(rs.sys.nodes[Receiver(rs, q)], TrainReceived(rs.at[q].train)))
  {
    var p, tok := Receiver(rs, q), rs.at[q];
    var s := rs.sys.nodes[p];
    assert TokenOk(rs, q);
    NodeFromReachable(rs.sys.ring, rs.mode, rs.sys, p);
    assert VisitOk(s, tok, tok.off);
    HopVisit(s, tok, p);
  }

  lemma MoveShape(rs: RingState, q: nat)
    requires RingInv(rs) && RingEnabled(rs, Move(q))
    ensures var p, s' := Receiver(rs, q), Next(rs.sys, Happens(rs, Move(q)));
      && Shaped(s') && s'.ring == rs.sys.ring && Leaves(rs, q) in s'.sent && rs.sys.sent <= s'.sent
      && RingNext(rs, Move(q)) == rs.(sys := s', at := rs.at[q := Hop(rs.sys.ring.n, rs.at[q], Leaves(rs, q))])
      && s'.nodes == rs.sys.nodes[p := Step(rs.sys.nodes[p], TrainReceived(rs.at[q].train)).node]
  {
    var p := Receiver(rs, q);
    MoveReceived(rs, q);
    TrainSentShape(rs.sys, p, TrainReceived(rs.at[q].train));
    assert Leaves(rs, q) in Sends(Step(rs.sys.nodes[p], TrainReceived(rs.at[q].train)).out);
  }

  /** A clock nobody has seen yet is handled by nobody. */
  lemma UnseenUnhandled(rs: RingState, x: nat, k: Key)
    requires RingInv(rs) && x < rs.sys.ring.n && k.issuer < |rs.at| && k.clock > rs.at[k.issuer].train.clock
    ensures !Handled(rs.sys.nodes[x], k)
  {
    var s, n := rs.sys.nodes[x], rs.sys.ring.n;
    NodeFromReachable(rs.sys.ring, rs.mode, rs.sys, x);
    assert TokenOk(rs, k.issuer);
    assert VisitOk(s, rs.at[k.issuer], Offset(n, k.issuer, x));
    assert k in s.parked ==> Held(s, k);
  }

  lemma MoveVisits(rs: RingState, q: nat, x: nat)
    requires RingInv(rs) && RingEnabled(rs, Move(q)) && x < rs.sys.ring.n
    ensures var n, s' := rs.sys.ring.n, Next(rs.sys, Happens(rs, Move(q)));
      && Shaped(s') && s'.ring == rs.sys.ring && Leaves(rs, q).issuer == q && Leaves(rs, q).clock >= 1
      && VisitOk(s'.nodes[x], Hop(n, rs.at[q], Leaves(rs, q)), Offset(n, q, x))
  {
    var n, p, tok, t := rs.sys.ring.n, Receiver(rs, q), rs.at[q], Leaves(rs, q);
    var s' := Next(rs.sys, Happens(rs, Move(q)));
    MoveReceived(rs, q);
    MoveShape(rs, q);
    assert TokenOk(rs, q);
    assert VisitOk(rs.sys.nodes[x], tok, Offset(n, q, x));
    PlaceOffset(n, q, x);
    if t.clock != tok.train.clock {
      if x == p { CalmVisit(rs.sys.nodes[p], s'.nodes[p], q, tok, tok.off); }
      UnseenUnhandled(rs, x, t.Key());
      VisitRecycled(s'.nodes[x], tok, t, Offset(n, q, x));
    } else if x == p {
      VisitAfterHop(rs.sys.nodes[p], s'.nodes[p], tok, t);
    } else {
      VisitElsewhere(rs.sys.nodes[x], tok, t, Offset(n, q, x));
    }
  }

  lemma MoveShaped(rs: RingState, q: nat)
    requires RingInv(rs) && RingEnabled(rs, Move(q))
    ensures RingShaped(RingNext(rs, Move(q)))
  {
    MoveShape(rs, q);
  }

  lemma MoveToken(rs: RingState, q: nat)
    requires RingInv(rs) && RingEnabled(rs, Move(q))
    ensures RingShaped(RingNext(rs, Move(q))) && TokenOk(RingNext(rs, Move(q)), q)
  {
    var rs', tok, t := RingNext(rs, Move(q)), rs.at[q], Leaves(rs, q);
    MoveShaped(rs, q);
    assert rs'.at[q] == Hop(rs.sys.ring.n, tok, t) && rs'.sys.ring == rs.sys.ring by { MoveShape(rs, q); }
    assert TokenOk(rs, q);
    MovedAcks(rs, q, t);
    assert TokenClocks(rs', q) by {
      MoveReceived(rs, q);
      MoveShape(rs, q);
      MoveClocks(rs, rs', q, Step(rs.sys.nodes[Receiver(rs, q)], TrainReceived(tok.train)));
    }
    forall x | 0 <= x < rs.sys.ring.n ensures VisitOk(rs'.sys.nodes[x], rs'.at[q], Offset(rs.sys.ring.n, q, x)) {
      MoveVisits(rs, q, x);
      MoveShape(rs, q);
    }
  }

  predicate TokenClocks(rs: RingState, q: nat)
    requires RingShaped(rs) && q < |rs.at|
  {
    var tok := rs.at[q];
    && tok.train.issuer == q && tok.train.clock >= 1
    && (tok.lap == 0 ==> tok.off >= 1)
    && rs.sys.nodes[q].issueClock == tok.train.clock + 1
    && (tok.train.clock >= 2 ==> ClockKey(tok.train.clock - 1, q) in rs.sys.nodes[q].done)
  }

  lemma MoveClocks(rs: RingState, rs': RingState, q: nat, r: Effect)
    requires RingShaped(rs) && RingShaped(rs') && rs'.sys.ring == rs.sys.ring && q < |rs.at| && TokenClocks(rs, q)
    requires Received(rs, q, r) && rs'.sys.nodes == rs.sys.nodes[Receiver(rs, q) := r.node]
    requires rs'.at[q] == Hop(rs.sys.ring.n, rs.at[q], Leaves(rs, q))
    ensures TokenClocks(rs', q)
  {
    var n, tok, t := rs.sys.ring.n, rs.at[q], Leaves(rs, q);
    if Receiver(rs, q) == q {
      assert Calm(rs.sys.nodes[q], r.node, q);
      ClocksAfterHop(rs.sys.nodes[q], r.node, n, tok, t, q);
    } else {
      ClocksAfterHop(rs.sys.nodes[q], rs.sys.nodes[q], n, tok, t, q);
    }
  }

  lemma ClocksAfterHop(s: Node, s': Node, n: nat, tok: Token, t: Train, q: nat)
    requires tok.off < n && s.done <= s'.done && tok.train.issuer == q && t.issuer == q && tok.train.clock >= 1
    requires tok.lap == 0 ==> tok.off >= 1
    requires s.issueClock == tok.train.clock + 1
    requires tok.train.clock >= 2 ==> ClockKey(tok.train.clock - 1, q) in s.done
    requires if t.clock == tok.train.clock then s'.issueClock == s.issueClock
      else t.clock == tok.train.clock + 1 && s'.issueClock == s.issueClock + 1 && tok.train.Key() in s'.done
    ensures var tok' := Hop(n, tok, t);
      && tok'.train.issuer == q && tok'.train.clock >= 1 && (tok'.lap == 0 ==> tok'.off >= 1)
      && s'.issueClock == tok'.train.clock + 1
      && (tok'.train.clock >= 2 ==> ClockKey(tok'.train.clock - 1, q) in s'.done)
  {
  }

  /** Acks follow the hops: one more on lap one, complete from then on. */
  lemma MovedAcks(rs: RingState, q: nat, t: Train)
    requires RingShaped(rs) && q < |rs.at| && TokenOk(rs, q)
    requires t == Leaves(rs, q)
    ensures t.acks == AcksAt(rs.sys.ring, q, Hop(rs.sys.ring.n, rs.at[q], t))
  {
    var n, tok := rs.sys.ring.n, rs.at[q];
    var p := Receiver(rs, q);
    var tok' := Hop(n, tok, t);
    forall x ensures x in t.acks <==>
      0 <= x < n && (tok'.lap == 0 ==> Offset(n, q, x) < tok'.off)
    {
      if 0 <= x < n { PlaceOffset(n, q, x); }
    }
  }

  /** A step that only touches issuer `q`'s clock leaves the other tokens alone. */
  lemma OtherToken(rs: RingState, rs': RingState, p: nat, q: nat, r: nat)
    requires RingShaped(rs) && RingShaped(rs') && rs'.sys.ring == rs.sys.ring && r < |rs.at| && TokenOk(rs, r)
    requires p < rs.sys.ring.n && rs'.at[r] == rs.at[r]
    requires forall x :: 0 <= x < rs.sys.ring.n && x != p ==> rs'.sys.nodes[x] == rs.sys.nodes[x]
    requires Calm(rs.sys.nodes[p], rs'.sys.nodes[p], q)
    requires rs'.sys.nodes[p].seen[r] == rs.sys.nodes[p].seen[r]
    requires forall k: Key :: k.issuer == r && Handled(rs'.sys.nodes[p], k) ==> Handled(rs.sys.nodes[p], k)
    requires r == p ==> rs'.sys.nodes[p].issueClock == rs.sys.nodes[p].issueClock
    ensures TokenOk(rs', r)
  {
    var n := rs.sys.ring.n;
    forall x | 0 <= x < n ensures VisitOk(rs'.sys.nodes[x], rs'.at[r], Offset(n, r, x)) {
      assert VisitOk(rs.sys.nodes[x], rs.at[r], Offset(n, r, x));
      if x == p { CalmVisit(rs.sys.nodes[p], rs'.sys.nodes[p], q, rs.at[r], Offset(n, r, p)); }
    }
  }

  lemma MoveInv(rs: RingState, q: nat)
    requires RingInv(rs) && RingEnabled(rs, Move(q))
    ensures RingInv(RingNext(rs, Move(q)))
  {
    MoveTokens(rs, q);
    ReachableNext(rs.sys.ring, rs.mode, rs.sys, Happens(rs, Move(q)));
    MoveShape(rs, q);
    MoveBystanders(rs, q);
  }

  lemma MoveBystanders(rs: RingState, q: nat)
    requires RingInv(rs) && RingEnabled(rs, Move(q))
    ensures var s' := Next(rs.sys, Happens(rs, Move(q)));
      Shaped(s') && s'.ring == rs.sys.ring && Bystanders(s', rs.mode)
  {
    MoveShape(rs, q);
    MoveReceived(rs, q);
  }

  lemma MoveTokens(rs: RingState, q: nat)
    requires RingInv(rs) && RingEnabled(rs, Move(q))
    ensures RingShaped(RingNext(rs, Move(q)))
    ensures forall r :: 0 <= r < |rs.at| ==> TokenOk(RingNext(rs, Move(q)), r)
  {
    var rs' := RingNext(rs, Move(q));
    MoveToken(rs, q);
    MoveShape(rs, q);
    MoveReceived(rs, q);
    forall r | 0 <= r < |rs'.at| ensures TokenOk(rs', r) {
      if r != q { MoveOther(rs, rs', q, r); }
    }
  }

  lemma MoveOther(rs: RingState, rs': RingState, q: nat, r: nat)
    requires RingShaped(rs) && RingShaped(rs') && q < |rs.at| && r < |rs.at| && r != q && TokenOk(rs, r)
    requires rs'.sys.ring == rs.sys.ring && rs'.at[r] == rs.at[r]
    requires exists e :: Received(rs, q, e) && rs'.sys.nodes == rs.sys.nodes[Receiver(rs, q) := e.node]
    ensures TokenOk(rs', r)
  {
    OtherToken(rs, rs', Receiver(rs, q), q, r);
  }

  lemma QuietInv(rs: RingState, ev: RingEvent)
    requires RingInv(rs) && RingEnabled(rs, ev) && !ev.Move?
    ensures RingInv(RingNext(rs, ev))
  {
    QuietTokens(rs, ev);
    ReachableNext(rs.sys.ring, rs.mode, rs.sys, Happens(rs, ev));
  }

  lemma QuietTokens(rs: RingState, ev: RingEvent)
    requires RingInv(rs) && RingEnabled(rs, ev) && !ev.Move?
    ensures RingShaped(RingNext(rs, ev))
    ensures forall r :: 0 <= r < |rs.at| ==> TokenOk(RingNext(rs, ev), r)
  {
    var rs' := RingNext(rs, ev);
    forall r | 0 <= r < |rs'.at| ensures TokenOk(rs', r) {
      OtherToken(rs, rs', ev.p, 0, r);
    }
  }

  lemma {:induction false} RingRunInv(rs: RingState, evs: seq<RingEvent>, rs': RingState)
    requires RingInv(rs) && RingRuns(rs, evs, rs')
    ensures RingInv(rs')
    decreases |evs|
  {
    if evs != [] {
      if evs[0].Move? { MoveInv(rs, evs[0].q); } else { QuietInv(rs, evs[0]); }
      RingRunInv(RingNext(rs, evs[0]), evs[1..], rs');
    }
  }

  lemma OneEvent(r: RingState, ev: RingEvent)
    requires RingEnabled(r, ev)
    ensures RingRuns(r, [ev], RingNext(r, ev))
  {
    assert [ev][1..] == [];
  }

  lemma {:induction false} JoinRuns(r: RingState, a: seq<RingEvent>, mid: RingState, b: seq<RingEvent>, rs: RingState)
    requires RingRuns(r, a, mid) && RingRuns(mid, b, rs)
    ensures RingRuns(r, a + b, rs)
    decreases |a|
  {
    if a == [] {
      assert a + b == b;
    } else {
      JoinRuns(RingNext(r, a[0]), a[1..], mid, b, rs);
      assert (a + b)[1..] == a[1..] + b;
    }
  }

  /** Every state of every run of the token ring. */
  lemma RingReachableInv(ring: Ring, mode: Mode, evs: seq<RingEvent>, rs: RingState)
    requires mode != CausalOrder && RingRuns(RingStart(ring, mode), evs, rs)
    ensures RingInv(rs)
  {
    StartInv(ring, mode);
    RingRunInv(RingStart(ring, mode), evs, rs);
  }

  /** Ring states that satisfy the invariant, so in particular every reachable one. */
  type LiveRing = rs: RingState | RingInv(rs)
    ghost witness (StartInv(Shape(3, 2), UniformTotalOrder); RingStart(Shape(3, 2), UniformTotalOrder))
}
