// What a survivor's state, from the ring until it applies the plan, says about
// keys and contents: in order, with one content per key, nothing beyond what the
// victim had acked, and a cache that still holds whatever someone lacks.

module RoundFrames {
  import opened Types
  import opened Kernel
  import opened LocalOrder
  import opened Network
  import opened Recovery
  import opened TokenRing
  import opened RingLag
  import opened ViewInstall
  import opened RoundWorld

  /** The state without the mark against the victim. */
  function Unmarked(n: Node): Node { n.(crashed := {}) }

  /** Nothing handled beyond the trains that were on the ring. */
  ghost predicate Below(rs: RingState, n: Node) {
    forall k :: Handled(n, k) ==> k.issuer < |rs.at| && k.clock <= rs.at[k.issuer].train.clock
  }

  ghost predicate FrameOk(rs: RingState, n: Node, p: nat, raw: Key -> seq<Payload>)
    requires RingShaped(rs) && p < rs.sys.ring.n
  {
    && Wf(n) && n.ring == rs.sys.ring && n.id == p && n.floor == Zeros(n.ring.n) && n.mode == rs.mode
    && Ordered(Unmarked(n), FirstEpoch(n.ring), raw) && Below(rs, n) && rs.sys.nodes[p].done <= n.done
  }

  /** Not yet told of the crash: delivering as before. */
  ghost predicate Running(n: Node) { Wf(n) && !n.frozen && n.crashed == {} && Quiet(n) }

  lemma ExcludedFrame(rs: LiveRing, n: Node, p: nat, raw: Key -> seq<Payload>, v: nat)
    requires p < rs.sys.ring.n && FrameOk(rs, n, p, raw)
    ensures FrameOk(rs, Excluded(n, v), p, raw)
  {
    AdvanceOrdered(Unmarked(n), Unmarked(Excluded(n, v)), FirstEpoch(n.ring), raw);
  }

  // ----- steps under the freeze -----

  lemma FrozenStep(n: Node, input: Input)
    requires Wf(n) && Accepts(n, input) && n.frozen
    ensures var r := Step(n, input);
      && r.node.done == n.done && r.node.parked == n.parked && r.node.cache == n.cache && r.node.floor == n.floor
      && r.node.crashed == n.crashed && r.node.frozen && Delivered(r.out) == []
  {
    if input.TrainReceived? && !Fenced(n, input.train) { FrozenTrain(n, input.train); }
  }

  lemma FrozenTrain(n: Node, t: Train)
    requires Wf(n) && t.issuer < n.ring.n && n.frozen && !Fenced(n, t)
    ensures Delivered(HandleTrain(n, t).out) == []
  {
    if t.issuer == n.id {
      var n1 := n.(seen := Bump(n.seen, n.id, t.clock));
      if t.Key() in n.done {
        ForwardDeliversNothing(NewTrain(n1));
      } else {
        ForwardLast([], [], t);
        NothingAfter<Output>([]);
      }
    } else if IsReplay(n, t) {
      ForwardIsSilent([], t, []);
    } else {
      var gap := if CheckClock(n.seen[t.issuer], t.clock).Gap? then [DeclareCrash(t.issuer)] else [];
      assert Delivered(gap) == [] by { if gap != [] { assert Delivered(gap) == [] + Delivered(gap[1..]); } }
      ForwardIsSilent(gap, Loaded(n, t), []);
    }
  }

  lemma FrozenFrame(rs: LiveRing, n: Node, p: nat, raw: Key -> seq<Payload>, input: Input)
    requires p < rs.sys.ring.n && FrameOk(rs, n, p, raw) && n.frozen && Accepts(n, input)
    ensures FrameOk(rs, Step(n, input).node, p, raw)
  {
    FrozenStep(n, input);
    StepNeverBack(n, input);
    AdvanceOrdered(Unmarked(n), Unmarked(Step(n, input).node), FirstEpoch(n.ring), raw);
  }

  // ----- steps before it -----

  /** The victim's own state, which no longer changes. */
  ghost predicate VictimStill(rs: RingState, s: System, v: nat)
    requires RingShaped(rs) && Shaped(s)
  {
    s.ring == rs.sys.ring && v < s.ring.n && s.nodes[v] == rs.sys.nodes[v]
  }

  /** A train the victim has acked was on the ring when it crashed. */
  lemma AckedWasOnRing(rs: LiveRing, s: System, v: nat, t: Train)
    requires Shaped(s) && VictimStill(rs, s, v) && t.issuer < s.ring.n && TrainOk(s, t) && v in t.acks
    ensures t.issuer < |rs.at| && t.clock <= rs.at[t.issuer].train.clock
  {
    assert TokenOk(rs, t.issuer);
    if v != t.issuer { SeenWithinOne(rs, v, t.issuer); }
  }

  lemma ReadyIsClosed(s: System, n: Node, t: Train)
    requires Shaped(s) && n.ring == s.ring && t.issuer < s.ring.n
    requires TrainOk(s, t) && n.crashed == {} && Ready(n, t.acks)
    ensures Closed(s.ring, FirstEpoch(s.ring), t)
  {
  }

  lemma RunningBelow(rs: LiveRing, s: System, v: nat, n: Node, t: Train)
    requires Shaped(s) && VictimStill(rs, s, v) && Wf(n) && n.ring == s.ring && n.crashed == {} && Below(rs, n)
    requires t.issuer < s.ring.n && TrainOk(s, t)
    ensures Below(rs, Step(n, TrainReceived(t)).node)
  {
    forall k | Handled(Step(n, TrainReceived(t)).node, k)
      ensures k.issuer < |rs.at| && k.clock <= rs.at[k.issuer].train.clock
    {
      StepNewHandled(n, t, k);
      if !Handled(n, k) {
        if !Ready(n, t.acks) { UnreadyHandlesNothing(n, t, k); }
        ReadyIsClosed(s, n, t);
        assert v in Members(s.ring, {});
        AckedWasOnRing(rs, s, v, t);
      }
    }
  }

  /** One step of a survivor that has not heard of the crash. */
  lemma RunningFrame(rs: LiveRing, s: System, v: nat, n: Node, p: nat, raw: Key -> seq<Payload>, input: Input)
    requires p < rs.sys.ring.n && FrameOk(rs, n, p, raw) && Running(n) && Accepts(n, input)
    requires Shaped(s) && VictimStill(rs, s, v) && Agree(s, FirstEpoch(s.ring), raw)
    requires input.TrainReceived? ==> input.train in s.sent && TrainOk(s, input.train)
    ensures var r := Step(n, input);
      && FrameOk(rs, r.node, p, raw) && Running(r.node)
      && LogOf(r.node.done, raw) == LogOf(n.done, raw) + Delivered(r.out)
  {
    assert Unmarked(n) == n;
    if input.TrainReceived? && Ready(n, input.train.acks) { ReadyIsClosed(s, n, input.train); }
    RunningOrders(n, raw, input);
    if input.TrainReceived? { RunningBelow(rs, s, v, n, input.train); }
    RunningFramed(rs, n, Step(n, input).node, p, raw);
  }

  lemma RunningOrders(n: Node, raw: Key -> seq<Payload>, input: Input)
    requires Running(n) && n.floor == Zeros(n.ring.n) && Accepts(n, input) && Ordered(n, FirstEpoch(n.ring), raw)
    requires GenuineInput(n, input, FirstEpoch(n.ring), raw)
    ensures var r := Step(n, input);
      && Running(r.node) && Ordered(r.node, FirstEpoch(n.ring), raw)
      && LogOf(r.node.done, raw) == LogOf(n.done, raw) + Delivered(r.out)
  {
    StepOrdered(n, input, FirstEpoch(n.ring), raw);
    assert n.done - {} == n.done && Step(n, input).node.done - {} == Step(n, input).node.done;
  }

  lemma RunningFramed(rs: LiveRing, n: Node, n': Node, p: nat, raw: Key -> seq<Payload>)
    requires p < rs.sys.ring.n && FrameOk(rs, n, p, raw) && Running(n')
    requires n'.ring == n.ring && n'.id == n.id && n'.floor == n.floor && n'.mode == n.mode && n.done <= n'.done
    requires Ordered(n', FirstEpoch(n.ring), raw) && Below(rs, n')
    ensures FrameOk(rs, n', p, raw)
  {
    assert Unmarked(n') == n';
  }

  // ----- the start -----

  lemma StartFrame(rs: LiveRing, p: nat, raw: Key -> seq<Payload>)
    requires p < rs.sys.ring.n && Agree(rs.sys, FirstEpoch(rs.sys.ring), raw)
    ensures FrameOk(rs, rs.sys.nodes[p], p, raw) && Running(rs.sys.nodes[p])
    ensures rs.sys.log[p] == LogOf(rs.sys.nodes[p].done, raw)
  {
    var n, e := rs.sys.nodes[p], FirstEpoch(rs.sys.ring);
    NodeFromReachable(rs.sys.ring, rs.mode, rs.sys, p);
    RingBelow(rs, p);
    RingRaw(rs, p, raw);
    assert Unmarked(n) == n && n.done - {} == n.done;
  }

  /** What the ring's nodes hold agrees with any contents that agree with the closed trains. */
  lemma RingRaw(rs: LiveRing, p: nat, raw: Key -> seq<Payload>)
    requires p < rs.sys.ring.n && Agree(rs.sys, FirstEpoch(rs.sys.ring), raw)
    ensures NodeOk(rs.sys, FirstEpoch(rs.sys.ring), raw, [], p)
  {
    var s0, e := Start(rs.sys.ring, rs.mode), FirstEpoch(rs.sys.ring);
    var evs :| Runs(s0, evs, rs.sys);
    StartIsViewStart(rs.sys.ring, rs.mode);
    FromReachable(rs.sys.ring, rs.mode, rs.sys);
    assert AllOk(s0, e, raw, []);
    LogRun(s0, evs, rs.sys, e, raw, []);
    assert p in Members(rs.sys.ring, {});
  }

  lemma RingBelow(rs: LiveRing, p: nat)
    requires p < rs.sys.ring.n
    ensures Below(rs, rs.sys.nodes[p])
  {
    var n := rs.sys.nodes[p];
    NodeFromReachable(rs.sys.ring, rs.mode, rs.sys, p);
    forall k | Handled(n, k) ensures k.issuer < |rs.at| && k.clock <= rs.at[k.issuer].train.clock {
      assert k in n.parked ==> Held(n, k);
      assert k.issuer < rs.sys.ring.k by { if k in n.done { assert k in n.done - {}; } }
      SeenWithinOne(rs, p, k.issuer);
    }
  }

  // ----- what the frames offer -----

  /** A frame's cached and parked payloads are the key's content. */
  lemma FrameHas(rs: LiveRing, n: Node, p: nat, raw: Key -> seq<Payload>, k: Key)
    requires p < rs.sys.ring.n && FrameOk(rs, n, p, raw) && k in Have(n)
    ensures Have(n)[k] == raw(k) != [] && InEpoch(n.ring, FirstEpoch(n.ring), k)
  {
    var x, e := Unmarked(n), FirstEpoch(n.ring);
    assert Ordered(x, e, raw);
    if k in n.cache && n.cache[k] != [] {
      assert k in x.done - e.before;
    }
  }

  /** Two rounds below the newest train, everybody had recorded the key before the crash. */
  lemma FrameLag(rs: LiveRing, n: Node, p: nat, raw: Key -> seq<Payload>, q: nat, k: Key)
    requires p < rs.sys.ring.n && FrameOk(rs, n, p, raw) && q < |rs.at|
    requires k.issuer < rs.sys.ring.k && 1 <= k.clock && k !in n.done
    ensures k.clock + 2 > rs.at[q].train.clock
  {
    if k.clock + 2 <= rs.at[q].train.clock { NobodyLags(rs, p, q, k); }
  }

  /** A payload one survivor has delivered and another lacks is still in the first one's cache. */
  lemma FrameCacheSuffices(rs: LiveRing, n: Node, p: nat, m: Node, q: nat, raw: Key -> seq<Payload>, k: Key)
    requires p < rs.sys.ring.n && q < rs.sys.ring.n && FrameOk(rs, n, p, raw) && FrameOk(rs, m, q, raw)
    requires k in n.done && k !in m.done && raw(k) != []
    ensures k in n.cache && n.cache[k] == raw(k)
  {
    var x, e := Unmarked(n), FirstEpoch(n.ring);
    assert Cached(x, e, raw);
    assert k in x.done - e.before;
    if k !in n.cache {
      forall j | j in n.cache.Keys ensures (j.clock == k.clock || j.clock == k.clock + 1) && j.issuer < rs.sys.ring.k {
        CacheNear(rs, n, p, m, q, raw, k, j);
      }
      TwoRoundsOfKeys(n.cache.Keys, k.clock, rs.sys.ring.k);
    }
  }

  lemma CacheNear(rs: LiveRing, n: Node, p: nat, m: Node, q: nat, raw: Key -> seq<Payload>, k: Key, j: Key)
    requires p < rs.sys.ring.n && q < rs.sys.ring.n && FrameOk(rs, n, p, raw) && FrameOk(rs, m, q, raw)
    requires k in n.done && k !in m.done && j in n.done && Before(k, j)
    ensures (j.clock == k.clock || j.clock == k.clock + 1) && j.issuer < rs.sys.ring.k
  {
    var x, e := Unmarked(n), FirstEpoch(n.ring);
    assert k in x.done - e.before && j in x.done - e.before;
    assert Handled(n, j);
    FrameLag(rs, m, q, raw, j.issuer, k);
  }

  /** Recorded keys come before everything of the view that is still missing. */
  lemma FrameFirst(rs: LiveRing, n: Node, p: nat, raw: Key -> seq<Payload>, x: Key, y: Key)
    requires p < rs.sys.ring.n && FrameOk(rs, n, p, raw) && x in n.done && y !in n.done
    requires InEpoch(n.ring, FirstEpoch(n.ring), y)
    ensures Before(x, y)
  {
    SegmentOrders(Unmarked(n), FirstEpoch(n.ring), x, y);
  }
}
