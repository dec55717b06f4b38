// The interleaved round, started from a state of the ring: whenever a survivor
// installs, its delivered log is the one every other survivor installs with.

module RoundLogs {
  import opened Types
  import opened Kernel
  import opened LocalOrder
  import opened Network
  import opened Recovery
  import opened Applying
  import opened Conservation
  import opened ViewChangeSpec
  import opened TokenRing
  import opened ViewInstall
  import opened RoundWorld
  import opened RoundFrames
  import Round

  /** A round with its wire and its logs; `after` records each survivor's log as it installs. */
  datatype Joint = Joint(round: Round.State, sent: set<Train>, log: seq<seq<Payload>>, after: map<nat, seq<Payload>>)

  datatype Emission = Emission(sends: set<Train>, delivered: seq<Payload>)

  function ApplyEmits(x: Node, plan: Plan): Emission
    requires Wf(x) && PlanFor(x.ring.n, plan)
  {
    var r := Apply(x, plan);
    Emission(if r.node.id < r.node.ring.k then {NewTrain(r.node)} else {}, Delivered(r.out))
  }

  /** What an event makes a member send and deliver: a step's outputs, or those of applying the plan. */
  function Emits(m: Round.Member, m': Round.Member, ev: Round.RoundEvent): Emission
    requires Round.MemberWf(m) && (ev.Steps? ==> Accepts(m.core, ev.input))
  {
    if ev.Steps? then
      var r := Step(m.core, ev.input);
      Emission(Sends(r.out), Delivered(r.out))
    else if |m'.applied| <= |m.applied| then Emission({}, [])
    else
      var a := m'.applied[|m.applied|];
      if Wf(a.before) && PlanFor(a.before.ring.n, a.plan) then ApplyEmits(a.before, a.plan) else Emission({}, [])
  }

  /** A survivor may take any train on the wire, any token ever sent, a broadcast, or detect the crash. */
  ghost predicate JointPossible(g: Round.Ground, j: Joint, ev: Round.RoundEvent) {
    && Round.Possible(g, j.round, ev) && |j.log| == |j.round.ms|
    && (ev.Steps? && ev.input.TrainReceived? ==> ev.input.train in j.sent)
  }

  ghost function JointNext(g: Round.Ground, j: Joint, ev: Round.RoundEvent): Joint
    requires JointPossible(g, j, ev)
  {
    var p, m := ev.p, j.round.ms[ev.p];
    var round := Round.RoundNext(g, j.round, ev);
    var e := Emits(m, round.ms[p], ev);
    var log := j.log[p] + e.delivered;
    Joint(round, j.sent + e.sends, j.log[p := log],
          if |round.ms[p].applied| > |m.applied| then j.after[p := log] else j.after)
  }

  ghost predicate JointRuns(g: Round.Ground, j: Joint, evs: seq<Round.RoundEvent>, j': Joint)
    decreases |evs|
  {
    if evs == [] then j' == j
    else JointPossible(g, j, evs[0]) && JointRuns(g, JointNext(g, j, evs[0]), evs[1..], j')
  }

  /** The first view's ring, its processes at view `g.view` of the protocol; the victim stops here. */
  ghost predicate JointStart(g: Round.Ground, rs: RingState, j: Joint) {
    && RingShaped(rs) && g.ring == rs.sys.ring && g.dead == {} && g.victim < g.ring.n
    && Round.RoundStart(g, j.round) && j.sent == rs.sys.sent && j.log == rs.sys.log && j.after == map[]
    && (forall p :: p in Round.Survivors(g) ==> j.round.ms[p].core == rs.sys.nodes[p])
  }

  // ----- the round as a world -----

  /** The survivors' cores, the victim as it crashed, the wire and the logs. */
  ghost function WorldOf(rs: RingState, g: Round.Setting, j: Joint): System
    requires RingShaped(rs) && |j.round.ms| == rs.sys.ring.n
  {
    var n := rs.sys.ring.n;
    rs.sys.(nodes := seq(n, p requires 0 <= p < n && RingShaped(rs) && |j.round.ms| == n == rs.sys.ring.n =>
              if p == g.victim then rs.sys.nodes[p] else j.round.ms[p].core),
            up := {}, sent := j.sent, log := j.log)
  }

  /** What holds of one survivor, with contents `raw`. */
  ghost predicate MemberOk(rs: RingState, g: Round.Setting, j: Joint, p: nat, raw: Key -> seq<Payload>)
    requires RingShaped(rs) && p < rs.sys.ring.n && p < |j.round.ms| && p < |j.log|
  {
    var m := j.round.ms[p];
    && FrameOk(rs, Round.Frame(m), p, raw)
    && (m.applied == [] ==>
          && p !in j.after && j.log[p] == LogOf(m.core.done, raw)
          && (g.victim !in m.dead ==> Running(m.core)))
    && (m.applied != [] ==>
          && p in j.after && PlanFor(rs.sys.ring.n, m.applied[0].plan)
          && j.after[p] == LogOf(m.applied[0].before.done, raw)
                           + Delivered(Apply(m.applied[0].before, m.applied[0].plan).out))
  }

  /** Contents aside: the round's own invariant, and a world in order. */
  ghost predicate InStep(rs: RingState, g: Round.Setting, j: Joint) {
    && RingShaped(rs) && Round.SettingOk(g) && g.ring == rs.sys.ring && g.dead == {} && g.victim < g.ring.n
    && Round.Inv(g, j.round) && |j.log| == g.ring.n && World(WorldOf(rs, g, j))
  }

  ghost predicate JointInv(rs: RingState, g: Round.Setting, j: Joint, raw: Key -> seq<Payload>) {
    InStep(rs, g, j) && forall p :: p in Round.Survivors(g) ==> MemberOk(rs, g, j, p, raw)
  }

  // ----- worlds through the events -----

  lemma ExcludedRises(n: Node, v: nat)
    requires Wf(n)
    ensures Rises(n, Excluded(n, v)) && Rises(n, n)
  {
  }

  lemma MovedTwice(s: System, p: nat, a: Node, b: Node, t: set<Train>, u: set<Train>, x: seq<Payload>, y: seq<Payload>)
    requires Shaped(s) && p < s.ring.n && Shaped(Moved(s, p, a, t, x))
    ensures Moved(Moved(s, p, a, t, x), p, b, u, y) == Moved(s, p, b, t + u, x + y)
  {
    Assoc(s.log[p], x, y);
    assert s.nodes[p := a][p := b] == s.nodes[p := b];
    assert s.sent + t + u == s.sent + (t + u);
    assert s.log[p := s.log[p] + x][p := s.log[p] + x + y] == s.log[p := s.log[p] + (x + y)];
  }

  lemma AdoptWorld(s: System, p: nat, x: Node, plan: Plan)
    requires World(s) && p < s.ring.n && Rises(s.nodes[p], x) && PlanFor(s.ring.n, plan)
    ensures var e := ApplyEmits(x, plan); World(Moved(s, p, Round.Reissued(Apply(x, plan).node), e.sends, e.delivered))
  {
    var n, d := Apply(x, plan).node, Delivered(Apply(x, plan).out);
    ApplyRises(x, plan);
    RisesOn(s.nodes[p], x, n);
    QuietWorld(s, p, n, d);
    if p < s.ring.k {
      var s1 := Moved(s, p, n, {}, d);
      ReissueWorld(s1, p);
      MovedTwice(s, p, n, AfterIssue(n), {}, {NewTrain(n)}, d, []);
      NothingAfter(d);
      assert {} + {NewTrain(n)} == {NewTrain(n)};
    }
  }

  lemma RisesOn(a: Node, b: Node, c: Node)
    requires Rises(a, b) && Rises(b, c)
    ensures Rises(a, c)
  {
  }

  /** Replacing one core replaces one node of the world. */
  lemma WorldMoves(rs: RingState, g: Round.Setting, j: Joint, j': Joint, p: nat, m': Round.Member, e: Emission)
    requires RingShaped(rs) && |j.round.ms| == rs.sys.ring.n
    requires |j.log| == rs.sys.ring.n && p < rs.sys.ring.n && p != g.victim
    requires Shaped(WorldOf(rs, g, j))
    requires j'.round.ms == j.round.ms[p := m'] && j'.sent == j.sent + e.sends
    requires j'.log == j.log[p := j.log[p] + e.delivered]
    ensures WorldOf(rs, g, j') == Moved(WorldOf(rs, g, j), p, m'.core, e.sends, e.delivered)
  {
    var s := WorldOf(rs, g, j);
    assert WorldOf(rs, g, j').nodes == s.nodes[p := m'.core];
  }

  // ----- what an event does to its member -----

  ghost predicate Adopts(g: Round.Setting, m: Round.Member, m': Round.Member, plan: Plan) {
    && Round.MemberWf(m) && m.core.ring == g.ring && m.applied == [] && PlanFor(g.ring.n, plan)
    && m' == Round.Adopting(g, m, plan)
  }

  /** Other than by a core step a member changes by learning of the crash, or by adopting a plan. */
  lemma Reacts(g: Round.Ground, s: Round.State, ev: Round.RoundEvent)
    requires Round.Inv(g, s) && Round.Possible(g, s, ev) && !ev.Steps? && Round.MemberInv(g, s.ms, ev.p)
    ensures var m, m' := s.ms[ev.p], Round.RoundNext(g, s, ev).ms[ev.p];
      m' == Round.Engage(m, g.victim) || exists plan :: Adopts(g, m, m', plan)
  {
    var m, p := s.ms[ev.p], ev.p;
    Round.EngageKeeps(g, m, p);
    if ev.Detects? {
      Round.DetectResult(g, m, p);
    } else {
      assert Round.MsgOk(g, s.ms, ev.msg);
      ReactsToToken(g, s, p, ev.msg);
    }
  }

  lemma ReactsToToken(g: Round.Ground, s: Round.State, p: nat, msg: Msg)
    requires Round.Inv(g, s) && p in Round.Survivors(g) && Round.MemberInv(g, s.ms, p) && Round.MsgOk(g, s.ms, msg)
    requires Round.Engage(s.ms[p], g.victim) == s.ms[p] || s.ms[p].applied == []
    ensures var m, m' := s.ms[p], Round.Receive(s.ms[p], msg).member;
      m' == Round.Engage(m, g.victim) || exists plan :: Adopts(g, m, m', plan)
  {
    var m := s.ms[p];
    if m.applied != [] {
      Round.StaleResult(g, m, p, msg);
    } else if msg.Installing? {
      Round.InstallResult(g, m, p, msg);
      assert Adopts(g, m, Round.Receive(m, msg).member, msg.plan);
    } else if p == g.home && Round.Survivors(g) <= Reporters(Round.Passed(Round.Engage(m, g.victim), msg)) {
      Round.PassedOk(g, s.ms, p, msg);
      Round.GatherInstalls(g, m, msg);
      var reports := Round.Passed(Round.Engage(m, g.victim), msg);
      assert Adopts(g, m, Round.Receive(m, msg).member, PlanFrom(g.ring.n, reports));
    } else {
      Round.GatherPasses(g, m, p, msg);
    }
  }

  /** The member's own part of the invariant, and the emission that goes with the change. */
  ghost predicate Follows(rs: RingState, g: Round.Setting, j: Joint, j': Joint, p: nat, e: Emission) {
    && RingShaped(rs) && |j.round.ms| == rs.sys.ring.n && |j.log| == rs.sys.ring.n && p < rs.sys.ring.n && p != g.victim
    && |j'.round.ms| == rs.sys.ring.n && j'.round.ms == j.round.ms[p := j'.round.ms[p]]
    && j'.sent == j.sent + e.sends && j'.log == j.log[p := j.log[p] + e.delivered]
    && (forall q :: q != p ==> (q in j'.after <==> q in j.after) && (q in j.after ==> j'.after[q] == j.after[q]))
  }

  lemma JointFollows(rs: RingState, g: Round.Ground, j: Joint, ev: Round.RoundEvent)
    requires InStep(rs, g, j) && JointPossible(g, j, ev)
    ensures var j' := JointNext(g, j, ev); Follows(rs, g, j, j', ev.p, Emits(j.round.ms[ev.p], j'.round.ms[ev.p], ev))
  {
  }

  lemma OthersOk(rs: RingState, g: Round.Ground, j: Joint, j': Joint, p: nat, e: Emission, raw: Key -> seq<Payload>)
    requires JointInv(rs, g, j, raw) && Follows(rs, g, j, j', p, e) && MemberOk(rs, g, j', p, raw)
    ensures forall q :: q in Round.Survivors(g) ==> MemberOk(rs, g, j', q, raw)
  {
    forall q | q in Round.Survivors(g) ensures MemberOk(rs, g, j', q, raw) {
      assert MemberOk(rs, g, j, q, raw);
      if q != p { OtherOk(rs, g, j, j', q, raw); }
    }
  }

  lemma OtherOk(rs: RingState, g: Round.Ground, j: Joint, j': Joint, q: nat, raw: Key -> seq<Payload>)
    requires RingShaped(rs) && q < rs.sys.ring.n && q < |j.round.ms| && q < |j.log| && MemberOk(rs, g, j, q, raw)
    requires q < |j'.round.ms| && q < |j'.log| && j'.round.ms[q] == j.round.ms[q] && j'.log[q] == j.log[q]
    requires (q in j'.after <==> q in j.after) && (q in j.after ==> j'.after[q] == j.after[q])
    ensures MemberOk(rs, g, j', q, raw)
  {
  }

  // ----- a core step -----

  lemma StepMember(rs: LiveRing, g: Round.Ground, j: Joint, p: nat, input: Input, raw: Key -> seq<Payload>)
    requires JointInv(rs, g, j, raw) && p in Round.Survivors(g) && Round.MemberInv(g, j.round.ms, p)
    requires Accepts(j.round.ms[p].core, input) && (input.TrainReceived? ==> input.train in j.sent)
    requires j.round.ms[p].applied == [] && Agree(WorldOf(rs, g, j), FirstEpoch(g.ring), raw)
    ensures var n, r := j.round.ms[p].core, Step(j.round.ms[p].core, input);
      && FrameOk(rs, r.node, p, raw) && LogOf(r.node.done, raw) == LogOf(n.done, raw) + Delivered(r.out)
      && (g.victim !in j.round.ms[p].dead ==> Running(r.node))
  {
    var m, s := j.round.ms[p], WorldOf(rs, g, j);
    assert MemberOk(rs, g, j, p, raw);
    if g.victim in m.dead {
      FrozenFrame(rs, m.core, p, raw, input);
      FrozenStep(m.core, input);
      NothingAfter(LogOf(m.core.done, raw));
    } else {
      if input.TrainReceived? { assert TrainOk(s, input.train); }
      RunningFrame(rs, s, g.victim, m.core, p, raw, input);
    }
  }

  lemma StepsJoint(rs: LiveRing, g: Round.Ground, j: Joint, p: nat, input: Input, raw: Key -> seq<Payload>)
    requires JointInv(rs, g, j, raw) && JointPossible(g, j, Round.Steps(p, input)) && Round.MemberInv(g, j.round.ms, p)
    requires Agree(WorldOf(rs, g, j), FirstEpoch(g.ring), raw)
    ensures var j' := JointNext(g, j, Round.Steps(p, input));
      MemberOk(rs, g, j', p, raw)
  {
    var ev := Round.Steps(p, input);
    var j', m := JointNext(g, j, ev), j.round.ms[p];
    JointFollows(rs, g, j, ev);
    assert MemberOk(rs, g, j, p, raw);
    if m.applied == [] { StepMember(rs, g, j, p, input, raw); }
  }

  // ----- learning of the crash -----

  lemma EngagedFrame(rs: LiveRing, g: Round.Ground, j: Joint, p: nat, raw: Key -> seq<Payload>)
    requires JointInv(rs, g, j, raw) && p in Round.Survivors(g) && Round.MemberInv(g, j.round.ms, p)
    requires j.round.ms[p].applied == []
    ensures var m, m1 := j.round.ms[p], Round.Engage(j.round.ms[p], g.victim);
      && FrameOk(rs, m1.core, p, raw) && m1.core.done == m.core.done && Rises(m.core, m1.core) && g.victim in m1.dead
  {
    var m := j.round.ms[p];
    assert MemberOk(rs, g, j, p, raw);
    ExcludedFrame(rs, m.core, p, raw, g.victim);
    ExcludedRises(m.core, g.victim);
    Round.EngageKeeps(g, m, p);
  }

  lemma EngageJoint(rs: LiveRing, g: Round.Ground, j: Joint, ev: Round.RoundEvent, raw: Key -> seq<Payload>)
    requires JointInv(rs, g, j, raw) && JointPossible(g, j, ev) && !ev.Steps? && Round.MemberInv(g, j.round.ms, ev.p)
    requires JointNext(g, j, ev).round.ms[ev.p] == Round.Engage(j.round.ms[ev.p], g.victim)
    ensures MemberOk(rs, g, JointNext(g, j, ev), ev.p, raw)
  {
    var p, j', m := ev.p, JointNext(g, j, ev), j.round.ms[ev.p];
    var m' := j'.round.ms[p];
    JointFollows(rs, g, j, ev);
    assert MemberOk(rs, g, j, p, raw);
    Round.EngageKeeps(g, m, p);
    NothingAfter(j.log[p]);
    if m.applied == [] { EngagedFrame(rs, g, j, p, raw); }
  }

  // ----- adopting the plan -----

  lemma AdoptJoint(rs: LiveRing, g: Round.Ground, j: Joint, ev: Round.RoundEvent, plan: Plan, raw: Key -> seq<Payload>)
    requires JointInv(rs, g, j, raw) && JointPossible(g, j, ev) && !ev.Steps? && Round.MemberInv(g, j.round.ms, ev.p)
    requires Adopts(g, j.round.ms[ev.p], JointNext(g, j, ev).round.ms[ev.p], plan)
    ensures MemberOk(rs, g, JointNext(g, j, ev), ev.p, raw)
  {
    var p, j', m := ev.p, JointNext(g, j, ev), j.round.ms[ev.p];
    var m', x := j'.round.ms[p], Round.Engage(m, g.victim).core;
    JointFollows(rs, g, j, ev);
    assert MemberOk(rs, g, j, p, raw);
    EngagedFrame(rs, g, j, p, raw);
    Round.AdoptingKeeps(g, m, p, plan);
    assert Emits(m, m', ev) == ApplyEmits(x, plan);
  }

  /** Any ring state and any victim give a round. */
  lemma RoundCanStart(rs: LiveRing, v: nat, view: nat) returns (g: Round.Ground, j: Joint)
    requires v < rs.sys.ring.n
    ensures g.victim == v && g.view == view && JointStart(g, rs, j)
  {
    var n := rs.sys.ring.n;
    var raised := Round.Setting(rs.sys.ring, view, v, {}, if v == 0 then 1 else 0);
    assert IsLowest(raised.home, Round.Survivors(raised));
    g := raised;
    var ms := seq(n, p requires 0 <= p < n && RingShaped(rs) && n == rs.sys.ring.n =>
      Round.Member(rs.sys.nodes[p], Vc(p, n, view, {}), {}, p, []));
    j := Joint(Round.State(ms, {}), rs.sys.sent, rs.sys.log, map[]);
    forall p | p in Round.Survivors(g) ensures LocalOrder.Sound(rs.sys.nodes[p]) {
      NodeFromReachable(rs.sys.ring, rs.mode, rs.sys, p);
    }
  }

  // ----- the world, event by event -----

  lemma EngageRises(g: Round.Ground, m: Round.Member, p: nat)
    requires Round.MemberOk(g, m, p)
    ensures Rises(m.core, Round.Engage(m, g.victim).core) && Round.Engage(m, g.victim).applied == m.applied
  {
    ExcludedRises(m.core, g.victim);
  }

  lemma NextWorld(rs: RingState, g: Round.Ground, j: Joint, ev: Round.RoundEvent)
    requires InStep(rs, g, j) && JointPossible(g, j, ev) && Round.MemberInv(g, j.round.ms, ev.p)
    ensures World(WorldOf(rs, g, JointNext(g, j, ev)))
  {
    var p, j', m := ev.p, JointNext(g, j, ev), j.round.ms[ev.p];
    var m', s := j'.round.ms[p], WorldOf(rs, g, j);
    JointFollows(rs, g, j, ev);
    WorldMoves(rs, g, j, j', p, m', Emits(m, m', ev));
    if ev.Steps? {
      TookWorld(s, p, ev.input);
    } else {
      Reacts(g, j.round, ev);
      EngageRises(g, m, p);
      if m' == Round.Engage(m, g.victim) {
        QuietWorld(s, p, m'.core, []);
      } else {
        var plan :| Adopts(g, m, m', plan);
        Round.AdoptingKeeps(g, m, p, plan);
        AdoptWorld(s, p, Round.Engage(m, g.victim).core, plan);
      }
    }
  }

  lemma NextSane(rs: RingState, g: Round.Ground, j: Joint, ev: Round.RoundEvent)
    requires InStep(rs, g, j) && JointPossible(g, j, ev)
    ensures InStep(rs, g, JointNext(g, j, ev)) && j.sent <= JointNext(g, j, ev).sent
  {
    assert Round.MemberInv(g, j.round.ms, ev.p);
    Round.NextInv(g, j.round, ev);
    NextWorld(rs, g, j, ev);
  }

  lemma {:induction false} RunSane(rs: RingState, g: Round.Ground, j: Joint, evs: seq<Round.RoundEvent>, j': Joint)
    requires InStep(rs, g, j) && JointRuns(g, j, evs, j')
    ensures InStep(rs, g, j') && j.sent <= j'.sent
    decreases |evs|
  {
    if evs != [] {
      NextSane(rs, g, j, evs[0]);
      RunSane(rs, g, JointNext(g, j, evs[0]), evs[1..], j');
    }
  }

  // ----- every event, every run -----

  lemma NextMember(rs: LiveRing, g: Round.Ground, j: Joint, ev: Round.RoundEvent, raw: Key -> seq<Payload>)
    requires JointInv(rs, g, j, raw) && JointPossible(g, j, ev) && Agree(WorldOf(rs, g, j), FirstEpoch(g.ring), raw)
    requires Round.MemberInv(g, j.round.ms, ev.p)
    ensures MemberOk(rs, g, JointNext(g, j, ev), ev.p, raw)
  {
    if ev.Steps? {
      StepsJoint(rs, g, j, ev.p, ev.input, raw);
    } else {
      Reacts(g, j.round, ev);
      var m, m' := j.round.ms[ev.p], JointNext(g, j, ev).round.ms[ev.p];
      if m' == Round.Engage(m, g.victim) {
        EngageJoint(rs, g, j, ev, raw);
      } else {
        var plan :| Adopts(g, m, m', plan);
        AdoptJoint(rs, g, j, ev, plan, raw);
      }
    }
  }

  lemma NextJoint(rs: LiveRing, g: Round.Ground, j: Joint, ev: Round.RoundEvent, raw: Key -> seq<Payload>)
    requires JointInv(rs, g, j, raw) && JointPossible(g, j, ev) && Agree(WorldOf(rs, g, j), FirstEpoch(g.ring), raw)
    ensures JointInv(rs, g, JointNext(g, j, ev), raw)
  {
    var p, j' := ev.p, JointNext(g, j, ev);
    assert Round.MemberInv(g, j.round.ms, p);
    NextSane(rs, g, j, ev);
    JointFollows(rs, g, j, ev);
    NextMember(rs, g, j, ev, raw);
    OthersOk(rs, g, j, j', p, Emits(j.round.ms[p], j'.round.ms[p], ev), raw);
  }

  lemma {:induction false} RunJoint(rs: LiveRing, g: Round.Ground, j: Joint, evs: seq<Round.RoundEvent>, j': Joint,
                                    raw: Key -> seq<Payload>)
    requires JointInv(rs, g, j, raw) && JointRuns(g, j, evs, j') && InStep(rs, g, j')
    requires Agree(WorldOf(rs, g, j'), FirstEpoch(g.ring), raw)
    ensures JointInv(rs, g, j', raw)
    decreases |evs|
  {
    if evs != [] {
      RunSane(rs, g, j, evs, j');
      NextJoint(rs, g, j, evs[0], raw);
      RunJoint(rs, g, JointNext(g, j, evs[0]), evs[1..], j', raw);
    }
  }

  // ----- the start -----

  lemma RingWorld(rs: LiveRing)
    ensures World(rs.sys)
  {
    FromReachable(rs.sys.ring, rs.mode, rs.sys);
    forall t | t in rs.sys.sent ensures TrainOk(rs.sys, t) && RoundWorld.CargoOk(rs.sys, t) { RingTrain(rs, t); }
    forall p | 0 <= p < rs.sys.ring.n ensures rs.sys.nodes[p].issueClock >= 1 && RoundWorld.QueueOk(rs.sys.nodes[p]) {
      RingQueue(rs, p);
    }
  }

  lemma RingTrain(rs: LiveRing, t: Train)
    requires t in rs.sys.sent
    ensures TrainOk(rs.sys, t) && RoundWorld.CargoOk(rs.sys, t)
  {
    var evs :| Runs(Start(rs.sys.ring, rs.mode), evs, rs.sys);
    RunFacts(rs.sys.ring, rs.mode, evs, rs.sys);
    RingConserved(rs);
    assert Live(FirstEpoch(rs.sys.ring), t) && Conservation.CargoOk(rs.sys, t);
  }

  lemma RingQueue(rs: LiveRing, p: nat)
    requires p < rs.sys.ring.n
    ensures rs.sys.nodes[p].issueClock >= 1 && RoundWorld.QueueOk(rs.sys.nodes[p])
  {
    NodeFromReachable(rs.sys.ring, rs.mode, rs.sys, p);
    assert p in Members(rs.sys.ring, {});
    RingConserved(rs);
    OwnQueue(rs.sys, p);
  }

  lemma OwnQueue(s: System, p: nat)
    requires Shaped(s) && p < s.ring.n && Conservation.QueueOk(s, p)
    ensures RoundWorld.QueueOk(s.nodes[p])
  {
  }

  lemma SameWorld(s: System, s': System)
    requires World(s) && s' == s.(up := {})
    ensures World(s')
  {
    forall t | t in s'.sent ensures TrainOk(s', t) && RoundWorld.CargoOk(s', t) {
      assert TrainOk(s, t) && RoundWorld.CargoOk(s, t);
    }
  }

  lemma StartWorld(rs: LiveRing, g: Round.Ground, j: Joint)
    requires JointStart(g, rs, j)
    ensures WorldOf(rs, g, j) == rs.sys.(up := {})
  {
    var s := WorldOf(rs, g, j);
    forall p | 0 <= p < g.ring.n ensures s.nodes[p] == rs.sys.nodes[p] {
      if p != g.victim { assert p in Round.Survivors(g); }
    }
    assert s.nodes == rs.sys.nodes;
  }

  lemma StartSane(rs: LiveRing, g: Round.Ground, j: Joint)
    requires JointStart(g, rs, j)
    ensures InStep(rs, g, j)
  {
    Round.StartInv(g, j.round);
    RingWorld(rs);
    StartWorld(rs, g, j);
    SameWorld(rs.sys, WorldOf(rs, g, j));
  }

  lemma StartJoint(rs: LiveRing, g: Round.Ground, j: Joint, raw: Key -> seq<Payload>)
    requires JointStart(g, rs, j) && Agree(rs.sys, FirstEpoch(rs.sys.ring), raw)
    ensures JointInv(rs, g, j, raw)
  {
    StartSane(rs, g, j);
    forall p | p in Round.Survivors(g) ensures MemberOk(rs, g, j, p, raw) { StartFrame(rs, p, raw); }
  }

  // ----- one content a key -----

  lemma WorldAgrees(s: System)
    requires World(s)
    ensures Agree(s, FirstEpoch(s.ring), Contents(s, FirstEpoch(s.ring)))
  {
    var e := FirstEpoch(s.ring);
    forall t | t in s.sent && Closed(s.ring, e, t) ensures t.payloads == Contents(s, e)(t.Key()) {
      forall u | u in s.sent && u.Key() == t.Key() && Closed(s.ring, e, u) ensures u.payloads == t.payloads {
        SameClosed(s.sent, e, u, t);
      }
    }
  }

  lemma SameClosed(sent: set<Train>, e: Epoch, t: Train, u: Train)
    requires Lineage(sent, e) && t in sent && u in sent && t.Key() == u.Key() && Live(e, t) && t.acks == u.acks
    ensures t.payloads == u.payloads
  {
    assert t.acks <= u.acks && u.acks <= t.acks;
    assert Live(e, u);
    assert IsPrefix(t.payloads, u.payloads) && IsPrefix(u.payloads, t.payloads);
  }

  lemma WorldDistinct(s: System, k: Key)
    requires World(s)
    ensures DistinctIds(Contents(s, FirstEpoch(s.ring))(k))
  {
    var c := Contents(s, FirstEpoch(s.ring))(k);
    if c != [] {
      var u :| u in s.sent && u.Key() == k && u.payloads == c;
      assert RoundWorld.CargoOk(s, u);
    }
  }

  // ----- the log every survivor installs with -----

  /** Keys that carry something. */
  ghost function Solid(d: set<Key>, raw: Key -> seq<Payload>): set<Key> { set k | k in d && raw(k) != [] }

  lemma {:induction false} LogOfSolid(d: set<Key>, raw: Key -> seq<Payload>)
    ensures LogOf(d, raw) == LogOf(Solid(d, raw), raw)
  {
    if d == {} {
      assert Solid(d, raw) == {};
    } else {
      var m := Max(d);
      LogOfSolid(d - {m}, raw);
      if raw(m) == [] {
        assert Solid(d, raw) == Solid(d - {m}, raw);
        NothingAfter(LogOf(d - {m}, raw));
      } else {
        assert Solid(d, raw) - {m} == Solid(d - {m}, raw);
        assert m in Solid(d, raw) && Max(Solid(d, raw)) == m;
      }
    }
  }

  /** Some report has the key recorded. */
  ghost predicate ReportedDone(reports: seq<Entry>, k: Key) {
    exists i :: 0 <= i < |reports| && k in reports[i].report.done
  }

  /** What the survivors end up with under each key. */
  ghost function Settled(reports: seq<Entry>, plan: Plan, raw: Key -> seq<Payload>): Key -> seq<Payload> {
    k => if ReportedDone(reports, k) then raw(k) else Planned(plan.actions)(k)
  }

  ghost function FinalLog(reports: seq<Entry>, plan: Plan, raw: Key -> seq<Payload>): seq<Payload> {
    var settled := Settled(reports, plan, raw);
    LogOf(Solid(KeysUpTo(plan.boundary), settled), settled)
  }

  /** A report, still exact about the frame it was taken from. */
  ghost predicate GoodAt(rs: RingState, x: Node, e: Entry, raw: Key -> seq<Payload>)
    requires RingShaped(rs)
  {
    e.who < rs.sys.ring.n && FrameOk(rs, x, e.who, raw) && Round.Exact(x, e.report) && Fits(rs.sys.ring.n, e.report)
  }

  /** Exact reports of the frames `xs`, one content a key. */
  ghost predicate Good(rs: RingState, xs: seq<Node>, reports: seq<Entry>, raw: Key -> seq<Payload>)
    requires RingShaped(rs)
  {
    && |xs| == |reports| && (forall i :: 0 <= i < |reports| ==> GoodAt(rs, xs[i], reports[i], raw))
    && (forall k :: DistinctIds(raw(k)))
  }

  lemma SomeHas(reports: seq<Entry>, k: Key, i: nat)
    requires i < |reports| && k in reports[i].report.have
    ensures exists r :: r in Snapshots(reports) && k in r.have
  {
    assert Snapshots(reports)[i] in Snapshots(reports) && k in Snapshots(reports)[i].have;
  }

  lemma WhoHas(reports: seq<Entry>, k: Key, r: Report) returns (i: nat)
    requires r in Snapshots(reports) && k in r.have
    ensures i < |reports| && reports[i].report == r
  {
    i :| i < |reports| && Snapshots(reports)[i] == r;
  }

  lemma UnionIsContent(rs: LiveRing, xs: seq<Node>, reports: seq<Entry>, raw: Key -> seq<Payload>, k: Key)
    requires Good(rs, xs, reports, raw)
    ensures Union(Snapshots(reports), k) == if exists r :: r in Snapshots(reports) && k in r.have then raw(k) else []
  {
    forall r | r in Snapshots(reports) && k in r.have ensures r.have[k] == raw(k) {
      var i := WhoHas(reports, k, r);
      assert GoodAt(rs, xs[i], reports[i], raw);
      FrameHas(rs, xs[i], reports[i].who, raw, k);
    }
    UnionSame(Snapshots(reports), k, raw(k));
  }

  lemma HolderReports(rs: LiveRing, x: Node, e: Entry, y: Node, f: Entry, raw: Key -> seq<Payload>, k: Key)
    requires GoodAt(rs, x, e, raw) && GoodAt(rs, y, f, raw) && raw(k) != []
    requires k in e.report.done && k !in f.report.done
    ensures k in e.report.have
  {
    FrameCacheSuffices(rs, x, e.who, y, f.who, raw, k);
  }

  /** A key one survivor recorded and another lacks is planned with its content. */
  lemma MissingIsPlanned(rs: LiveRing, xs: seq<Node>, reports: seq<Entry>, raw: Key -> seq<Payload>, plan: Plan,
                         i: nat, h: nat, k: Key)
    requires Good(rs, xs, reports, raw) && EntriesFit(rs.sys.ring.n, reports)
    requires plan == PlanFrom(rs.sys.ring.n, reports)
    requires i < |reports| && h < |reports| && k in plan.actions
    requires k in reports[i].report.done && k !in reports[h].report.done
    ensures Planned(plan.actions)(k) == raw(k)
  {
    MissingUnion(rs, xs, reports, raw, i, h, k);
    PlannedIsUnion(rs.sys.ring.n, reports, k);
  }

  lemma PlannedIsUnion(n: nat, reports: seq<Entry>, k: Key)
    requires EntriesFit(n, reports) && k in PlanFrom(n, reports).actions
    ensures Planned(PlanFrom(n, reports).actions)(k) == Union(Snapshots(reports), k)
  {
  }

  lemma MissingUnion(rs: LiveRing, xs: seq<Node>, reports: seq<Entry>, raw: Key -> seq<Payload>, i: nat, h: nat, k: Key)
    requires Good(rs, xs, reports, raw) && i < |reports| && h < |reports|
    requires k in reports[i].report.done && k !in reports[h].report.done
    ensures Union(Snapshots(reports), k) == raw(k)
  {
    UnionIsContent(rs, xs, reports, raw, k);
    if raw(k) != [] {
      assert GoodAt(rs, xs[i], reports[i], raw) && GoodAt(rs, xs[h], reports[h], raw);
      HolderReports(rs, xs[i], reports[i], xs[h], reports[h], raw, k);
      SomeHas(reports, k, i);
    }
  }

  /** What is still missing at report `h` is planned as settled. */
  lemma RestIsSettled(rs: LiveRing, xs: seq<Node>, reports: seq<Entry>, raw: Key -> seq<Payload>, plan: Plan,
                      h: nat, k: Key)
    requires Good(rs, xs, reports, raw) && EntriesFit(rs.sys.ring.n, reports)
    requires plan == PlanFrom(rs.sys.ring.n, reports)
    requires h < |reports| && k in plan.actions && k !in reports[h].report.done
    ensures Planned(plan.actions)(k) == Settled(reports, plan, raw)(k)
  {
    if ReportedDone(reports, k) {
      var i: nat :| i < |reports| && k in reports[i].report.done;
      MissingIsPlanned(rs, xs, reports, raw, plan, i, h, k);
    }
  }

  lemma RecordedInView(rs: LiveRing, x: Node, p: nat, raw: Key -> seq<Payload>, k: Key)
    requires p < rs.sys.ring.n && FrameOk(rs, x, p, raw) && k in x.done
    ensures InEpoch(rs.sys.ring, FirstEpoch(rs.sys.ring), k)
  {
    var y, e := Unmarked(x), FirstEpoch(rs.sys.ring);
    assert Segment(y, e) && k in y.done - e.before;
  }

  lemma PlannedIsOffered(n: nat, reports: seq<Entry>, k: Key)
    requires EntriesFit(n, reports) && Planned(PlanFrom(n, reports).actions)(k) != []
    ensures Union(Snapshots(reports), k) != []
  {
  }

  /** Whatever carries something belongs to the view. */
  lemma SolidInView(rs: LiveRing, xs: seq<Node>, reports: seq<Entry>, raw: Key -> seq<Payload>, plan: Plan, k: Key)
    requires Good(rs, xs, reports, raw) && EntriesFit(rs.sys.ring.n, reports)
    requires plan == PlanFrom(rs.sys.ring.n, reports)
    requires Settled(reports, plan, raw)(k) != []
    ensures InEpoch(rs.sys.ring, FirstEpoch(rs.sys.ring), k)
  {
    if ReportedDone(reports, k) {
      var i: nat :| i < |reports| && k in reports[i].report.done;
      assert GoodAt(rs, xs[i], reports[i], raw);
      RecordedInView(rs, xs[i], reports[i].who, raw, k);
    } else {
      PlannedIsOffered(rs.sys.ring.n, reports, k);
      UnionIsContent(rs, xs, reports, raw, k);
      var r :| r in Snapshots(reports) && k in r.have;
      var i := WhoHas(reports, k, r);
      assert GoodAt(rs, xs[i], reports[i], raw);
      FrameHas(rs, xs[i], reports[i].who, raw, k);
    }
  }

  lemma JoinSolid(done: set<Key>, all: set<Key>, raw: Key -> seq<Payload>)
    requires done <= all
    requires forall x, y :: x in done && y in all && y !in done && raw(y) != [] ==> Before(x, y)
    ensures LogOf(done, raw) + LogOf(all - done, raw) == LogOf(Solid(all, raw), raw)
  {
    var rest := all - done;
    LogOfSolid(done, raw);
    LogOfSolid(rest, raw);
    LogSplit(Solid(done, raw), Solid(rest, raw), raw);
    assert Solid(done, raw) + Solid(rest, raw) == Solid(all, raw);
  }

  lemma RecordedFirst(rs: LiveRing, xs: seq<Node>, reports: seq<Entry>, raw: Key -> seq<Payload>, plan: Plan,
                      h: nat, x: Key, y: Key)
    requires Good(rs, xs, reports, raw) && EntriesFit(rs.sys.ring.n, reports)
    requires plan == PlanFrom(rs.sys.ring.n, reports)
    requires h < |reports| && x in xs[h].done && y !in xs[h].done && Settled(reports, plan, raw)(y) != []
    ensures Before(x, y)
  {
    assert GoodAt(rs, xs[h], reports[h], raw);
    SolidInView(rs, xs, reports, raw, plan, y);
    FrameFirst(rs, xs[h], reports[h].who, raw, x, y);
  }

  /** Applying the plan to the frame of report `h` completes its log to the final one. */
  lemma InstallsWithFinal(rs: LiveRing, xs: seq<Node>, reports: seq<Entry>, raw: Key -> seq<Payload>, plan: Plan,
                          h: nat)
    requires Good(rs, xs, reports, raw) && EntriesFit(rs.sys.ring.n, reports)
    requires plan == PlanFrom(rs.sys.ring.n, reports)
    requires h < |reports| && Tidy(xs[h]) && xs[h].ring == rs.sys.ring && PlanFor(rs.sys.ring.n, plan)
    ensures LogOf(xs[h].done, raw) + Delivered(Apply(xs[h], plan).out) == FinalLog(reports, plan, raw)
  {
    var x, settled, all := xs[h], Settled(reports, plan, raw), KeysUpTo(plan.boundary);
    assert GoodAt(rs, x, reports[h], raw);
    Round.ExactSupplies(rs.sys.ring.n, reports, h, x);
    Round.AppliesExactly(x, plan);
    forall k | k in x.done ensures SortPayloads(raw(k)) == SortPayloads(settled(k)) { assert ReportedDone(reports, k); }
    LogCongruent(x.done, raw, settled);
    forall k | k in all - x.done ensures SortPayloads(Planned(plan.actions)(k)) == SortPayloads(settled(k)) {
      RestIsSettled(rs, xs, reports, raw, plan, h, k);
    }
    LogCongruent(all - x.done, Planned(plan.actions), settled);
    forall a, b | a in x.done && b in all && b !in x.done && settled(b) != [] ensures Before(a, b) {
      RecordedFirst(rs, xs, reports, raw, plan, h, a, b);
    }
    JoinSolid(x.done, all, settled);
  }

  // ----- the result -----

  /** Some run of the round from this ring state leads here. */
  ghost predicate JointReached(g: Round.Ground, rs: RingState, j: Joint) {
    exists j0, evs :: JointStart(g, rs, j0) && JointRuns(g, j0, evs, j)
  }

  lemma ReachedInv(rs: LiveRing, g: Round.Ground, j: Joint) returns (raw: Key -> seq<Payload>)
    requires JointReached(g, rs, j)
    ensures JointInv(rs, g, j, raw) && forall k :: DistinctIds(raw(k))
  {
    var j0, evs :| JointStart(g, rs, j0) && JointRuns(g, j0, evs, j);
    StartSane(rs, g, j0);
    RunSane(rs, g, j0, evs, j);
    var s := WorldOf(rs, g, j);
    raw := Contents(s, FirstEpoch(s.ring));
    WorldAgrees(s);
    forall k ensures DistinctIds(raw(k)) { WorldDistinct(s, k); }
    assert Agree(rs.sys, FirstEpoch(rs.sys.ring), raw);
    StartJoint(rs, g, j0, raw);
    RunJoint(rs, g, j0, evs, j, raw);
  }

  /** The frames the reports were taken from. */
  ghost function FramesOf(ms: seq<Round.Member>, reports: seq<Entry>): (xs: seq<Node>)
    requires forall i :: 0 <= i < |reports| ==> reports[i].who < |ms|
    ensures |xs| == |reports| && forall i :: 0 <= i < |xs| ==> xs[i] == Round.Frame(ms[reports[i].who])
  {
    seq(|reports|, i requires 0 <= i < |reports| && reports[i].who < |ms| => Round.Frame(ms[reports[i].who]))
  }

  lemma ReportsAreGood(rs: LiveRing, g: Round.Ground, j: Joint, raw: Key -> seq<Payload>, reports: seq<Entry>)
    requires JointInv(rs, g, j, raw) && (forall k :: DistinctIds(raw(k))) && Round.EntriesOk(g, j.round.ms, reports)
    ensures forall i :: 0 <= i < |reports| ==> reports[i].who < |j.round.ms|
    ensures Good(rs, FramesOf(j.round.ms, reports), reports, raw)
  {
    forall i | 0 <= i < |reports| ensures GoodAt(rs, Round.Frame(j.round.ms[reports[i].who]), reports[i], raw) {
      assert MemberOk(rs, g, j, reports[i].who, raw);
      assert Round.EntryOk(g, j.round.ms[reports[i].who], reports[i].report);
    }
  }

  lemma InstalledLog(rs: LiveRing, g: Round.Ground, j: Joint, raw: Key -> seq<Payload>, reports: seq<Entry>,
                     plan: Plan, p: nat)
    requires JointInv(rs, g, j, raw) && (forall k :: DistinctIds(raw(k))) && Round.EntriesOk(g, j.round.ms, reports)
    requires EntriesFit(g.ring.n, reports) && plan == PlanFrom(g.ring.n, reports)
    requires Reporters(reports) == Round.Survivors(g)
    requires p in Round.Survivors(g) && j.round.ms[p].applied != [] && j.round.ms[p].applied[0].plan == plan
    ensures p in j.after && j.after[p] == FinalLog(reports, plan, raw)
  {
    assert MemberOk(rs, g, j, p, raw) && Round.MemberInv(g, j.round.ms, p);
    assert p in Reporters(reports);
    var e: Entry :| e in reports && e.who == p;
    var h: nat :| h < |reports| && reports[h] == e;
    ReportsAreGood(rs, g, j, raw, reports);
    InstallsWithFinal(rs, FramesOf(j.round.ms, reports), reports, raw, plan, h);
  }

  /**
   * Virtual synchrony of the interleaved round: start from any state of the ring,
   * let any process crash, let survivors detect it in any number and at any time,
   * let tokens and trains arrive in any order, any number of times or never.
   * Whenever two survivors have installed, the logs they installed with are equal.
   */
  lemma EqualLogsAtInstall(rs: LiveRing, g: Round.Ground, j: Joint, p: nat, q: nat)
    requires JointReached(g, rs, j) && |j.round.ms| == g.ring.n
    requires p in Round.Survivors(g) && q in Round.Survivors(g)
    requires j.round.ms[p].applied != [] && j.round.ms[q].applied != []
    ensures p in j.after && q in j.after && j.after[p] == j.after[q]
  {
    var raw := ReachedInv(rs, g, j);
    assert Round.MemberInv(g, j.round.ms, p) && Round.MemberInv(g, j.round.ms, q);
    var plan := j.round.ms[p].applied[0].plan;
    var reports :| Round.EntriesOk(g, j.round.ms, reports) && Reporters(reports) == Round.Survivors(g)
      && EntriesFit(g.ring.n, reports) && plan == PlanFrom(g.ring.n, reports);
    InstalledLog(rs, g, j, raw, reports, plan, p);
    InstalledLog(rs, g, j, raw, reports, plan, q);
  }
}
