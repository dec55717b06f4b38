// A whole exclusion round at the node binary's level: any number of rival
// detectors, tokens received in any order, any number of times, by anyone, and
// core steps in between.

module Round {
  import opened Types
  import opened Kernel
  import opened LocalOrder
  import opened Recovery
  import opened Operations
  import opened Applying
  import opened ViewChangeSpec
  import opened Successor

  /** History: the plan applied, and the core just before. */
  datatype Applied = Applied(plan: Plan, before: Node)

  datatype Member = Member(core: Node, vc: Vc, dead: set<nat>, succ: nat, applied: seq<Applied>)

  predicate MemberWf(m: Member) {
    Wf(m.core) && m.vc.me == m.core.id && m.vc.n == m.core.ring.n
  }

  // ----- the driver -----

  /** Freeze, confirm the crash, retarget; once per victim. */
  function Exclude(m: Member, v: nat): (r: Member)
    requires MemberWf(m)
    ensures MemberWf(r) && r.vc == m.vc && r.core.ring == m.core.ring && r.applied == m.applied && v in r.dead
  {
    if v in m.dead then m
    else
      var dead := m.dead + {v};
      m.(dead := dead, core := Excluded(m.core, v), succ := NextAlive(m.vc.me, m.vc.n, dead))
  }

  function Reissued(s: Node): Node { if s.id < s.ring.k then AfterIssue(s) else s }

  /** Apply the plan and, on an issuer, reissue the train. */
  function Adopt(m: Member, plan: Plan): (r: Member)
    requires MemberWf(m) && PlanFor(m.core.ring.n, plan)
    ensures MemberWf(r) && r.core.ring == m.core.ring
  {
    m.(core := Reissued(Apply(m.core, plan).node), applied := m.applied + [Applied(plan, m.core)])
  }

  predicate ActsFit(n: nat, acts: seq<VcAction>) {
    forall i :: 0 <= i < |acts| && acts[i].ApplyPlan? ==> PlanFor(n, acts[i].plan)
  }

  function Execute(m: Member, acts: seq<VcAction>): (r: Member)
    requires MemberWf(m) && ActsFit(m.core.ring.n, acts)
    ensures MemberWf(r) && r.core.ring == m.core.ring
    decreases |acts|
  {
    if acts == [] then m
    else
      var m1 := if acts[0].ApplyPlan? then Adopt(m, acts[0].plan) else m;
      Execute(m1, acts[1..])
  }

  function Sent(acts: seq<VcAction>): set<Msg> { set a | a in acts && a.Send? :: a.msg }

  lemma {:induction false} SentIsTokens(acts: seq<VcAction>)
    ensures Sent(acts) == set m | m in Tokens(acts)
  {
    if acts != [] {
      SentIsTokens(acts[1..]);
      forall m ensures m in Sent(acts) <==> (acts[0].Send? && m == acts[0].msg) || m in Sent(acts[1..]) {
        SentStep(acts, m);
      }
    }
  }

  lemma SentStep(acts: seq<VcAction>, m: Msg)
    requires acts != []
    ensures m in Sent(acts) <==> (acts[0].Send? && m == acts[0].msg) || m in Sent(acts[1..])
  {
    assert acts == [acts[0]] + acts[1..];
    assert Send(m) in acts <==> Send(m) == acts[0] || Send(m) in acts[1..];
  }

  /** On an issuer, one train above the boundary and all clocks it has stamped, with its whole queue. */
  function FreshTrain(s: Node, plan: Plan): seq<Train>
    requires Wf(s) && |plan.boundary| == s.ring.n
  {
    if s.id < s.ring.k then [Train(s.id, Larger(s.issueClock, plan.boundary[s.id] + 1), s.pending, {s.id})] else []
  }

  lemma FreshTrainIssued(s: Node, plan: Plan)
    requires Wf(s) && PlanFor(s.ring.n, plan)
    ensures FreshTrain(s, plan) == if s.id < s.ring.k then [NewTrain(Apply(s, plan).node)] else []
  {
    ApplyKeepsQueue(s, plan);
  }

  /** The trains an issuer puts on the ring while carrying out the actions. */
  function Reissues(m: Member, acts: seq<VcAction>): seq<Train>
    requires MemberWf(m) && ActsFit(m.core.ring.n, acts)
    decreases |acts|
  {
    if acts == [] then []
    else if !acts[0].ApplyPlan? then Reissues(m, acts[1..])
    else FreshTrain(m.core, acts[0].plan) + Reissues(Adopt(m, acts[0].plan), acts[1..])
  }

  /** The payloads delivered while carrying out the actions. */
  function Shown(m: Member, acts: seq<VcAction>): seq<Payload>
    requires MemberWf(m) && ActsFit(m.core.ring.n, acts)
    decreases |acts|
  {
    if acts == [] then []
    else if !acts[0].ApplyPlan? then Shown(m, acts[1..])
    else Delivered(Apply(m.core, acts[0].plan).out) + Shown(Adopt(m, acts[0].plan), acts[1..])
  }

  /** This token makes this member apply a plan: an Install, or a Gather that is complete here, for a new view. */
  predicate Adopts(m: Member, msg: Msg)
    requires msg.Gather? || msg.Installing?
  {
    && msg.view > m.vc.installed
    && (msg.Gather? ==>
          && m.vc.me == msg.coordinator
          && forall p :: 0 <= p < m.vc.n && p !in m.vc.dead && p != msg.victim && p != m.vc.me
               ==> p in Reporters(msg.reports))
  }

  lemma OneApply(m: Member, acts: seq<VcAction>)
    requires MemberWf(m) && ActsFit(m.core.ring.n, acts) && |acts| == 2 && acts[0].ApplyPlan? && acts[1].Send?
    ensures |Tokens(acts)| == 1 && Reissues(m, acts) == FreshTrain(m.core, acts[0].plan)
    ensures Shown(m, acts) == Delivered(Apply(m.core, acts[0].plan).out)
    ensures Execute(m, acts).applied == m.applied + [Applied(acts[0].plan, m.core)]
  {
    TokensOf(acts);
    var m1, rest := Adopt(m, acts[0].plan), acts[1..];
    OneSend(m1, rest);
    NothingAfter(FreshTrain(m.core, acts[0].plan));
    NothingAfter(Delivered(Apply(m.core, acts[0].plan).out));
  }

  lemma OneSend(m: Member, acts: seq<VcAction>)
    requires MemberWf(m) && (acts == [] || (|acts| == 1 && acts[0].Send?))
    ensures ActsFit(m.core.ring.n, acts) && |Tokens(acts)| <= 1
    ensures Reissues(m, acts) == [] && Shown(m, acts) == [] && Execute(m, acts) == m
  {
    TokensOf(acts);
    if acts != [] { assert acts[1..] == []; }
  }

  /** A token's handling adopts one plan, delivers what it resolves and reissues; or none of these. */
  predicate AdoptsOnce(m: Member, msg: Msg, m': Member, trains: seq<Train>, shown: seq<Payload>)
    requires MemberWf(m) && (msg.Gather? || msg.Installing?)
  {
    if Adopts(m, msg) then
      && |m'.applied| == |m.applied| + 1 && m'.applied[..|m.applied|] == m.applied
      && var a := m'.applied[|m.applied|];
        && a.before == Exclude(m, msg.victim).core && PlanFor(m.core.ring.n, a.plan)
        && trains == FreshTrain(m.core, a.plan) && shown == Delivered(Apply(a.before, a.plan).out)
    else m'.applied == m.applied && trains == [] && shown == []
  }

  lemma ReactionActs(m: Member, msg: Msg)
    requires MemberWf(m) && TokenWf(m.core.ring.n, msg)
    ensures var m1 := Exclude(m, msg.victim); var acts := React(m1.vc, msg, ReportOf(m1.core)).acts;
      if Adopts(m, msg) then |acts| == 2 && acts[0].ApplyPlan? && acts[1].Send?
      else acts == [] || (|acts| == 1 && acts[0].Send?)
  {
    if msg.Gather? {
      var vc1 := m.vc.(dead := m.vc.dead + {msg.victim});
      assert forall p :: p in Alive(vc1) <==> 0 <= p < m.vc.n && p !in m.vc.dead && p != msg.victim;
    }
  }

  lemma ReactionAdoptsOnce(m: Member, msg: Msg)
    requires MemberWf(m) && TokenWf(m.core.ring.n, msg)
    ensures var m1 := Exclude(m, msg.victim); var e := React(m1.vc, msg, ReportOf(m1.core));
      var m2 := m1.(vc := e.vc);
      |Tokens(e.acts)| <= 1 && AdoptsOnce(m, msg, Execute(m2, e.acts), Reissues(m2, e.acts), Shown(m2, e.acts))
  {
    var m1 := Exclude(m, msg.victim);
    var e := React(m1.vc, msg, ReportOf(m1.core));
    ReactionActs(m, msg);
    if Adopts(m, msg) { AppliesOnce(m, msg, m1.(vc := e.vc), e.acts); } else { OneSend(m1.(vc := e.vc), e.acts); }
  }

  lemma AppliesOnce(m: Member, msg: Msg, m2: Member, acts: seq<VcAction>)
    requires MemberWf(m) && (msg.Gather? || msg.Installing?) && Adopts(m, msg)
    requires MemberWf(m2) && m2.core == Exclude(m, msg.victim).core && m2.applied == m.applied
    requires ActsFit(m2.core.ring.n, acts) && |acts| == 2 && acts[0].ApplyPlan? && acts[1].Send?
    ensures |Tokens(acts)| <= 1 && AdoptsOnce(m, msg, Execute(m2, acts), Reissues(m2, acts), Shown(m2, acts))
  {
    OneApply(m2, acts);
    AdoptedOnce(m, msg, Execute(m2, acts), Reissues(m2, acts), Shown(m2, acts), m2.core, acts[0].plan);
  }

  lemma AdoptedOnce(m: Member, msg: Msg, m': Member, trains: seq<Train>, shown: seq<Payload>, before: Node, plan: Plan)
    requires MemberWf(m) && (msg.Gather? || msg.Installing?) && Adopts(m, msg)
    requires before == Exclude(m, msg.victim).core && PlanFor(before.ring.n, plan)
    requires m'.applied == m.applied + [Applied(plan, before)]
    requires trains == FreshTrain(before, plan) && shown == Delivered(Apply(before, plan).out)
    ensures AdoptsOnce(m, msg, m', trains, shown)
  {
  }

  datatype Reaction = Reaction(member: Member, sent: set<Msg>)

  function Detect(m: Member, v: nat): Reaction
    requires MemberWf(m)
  {
    var m1 := Exclude(m, v);
    var e := OnConfirm(m1.vc, v, ReportOf(m1.core));
    Reaction(Execute(m1.(vc := e.vc), e.acts), Sent(e.acts))
  }

  /** A token this driver handles: an exclusion's, of the ring's own size. */
  predicate TokenWf(n: nat, msg: Msg) {
    (msg.Gather? || msg.Installing?) && MsgFits(n, msg) && (msg.Installing? ==> PlanFor(n, msg.plan))
  }

  function React(vc: Vc, msg: Msg, report: Report): (e: VcEffect)
    requires TokenWf(vc.n, msg) && Fits(vc.n, report)
    ensures ActsFit(vc.n, e.acts) && e.vc.me == vc.me && e.vc.n == vc.n
  {
    if msg.Gather? then OnGather(vc, msg, report) else OnInstall(vc, msg)
  }

  function Receive(m: Member, msg: Msg): Reaction
    requires MemberWf(m) && TokenWf(m.core.ring.n, msg)
  {
    var m1 := Exclude(m, msg.victim);
    var e := React(m1.vc, msg, ReportOf(m1.core));
    Reaction(Execute(m1.(vc := e.vc), e.acts), Sent(e.acts))
  }

  // ----- the round -----

  /** Members are at `view` with `dead` out; `victim` has just crashed; `home` is the lowest survivor. */
  datatype Setting = Setting(ring: Ring, view: nat, victim: nat, dead: set<nat>, home: nat)

  function Survivors(g: Setting): set<nat> { set p | 0 <= p < g.ring.n && p !in g.dead && p != g.victim }

  ghost predicate SettingOk(g: Setting) { g.victim !in g.dead && IsLowest(g.home, Survivors(g)) }

  type Ground = g: Setting | SettingOk(g) ghost witness Setting(Shape(3, 2), 0, 2, {}, 0)

  datatype State = State(ms: seq<Member>, tokens: set<Msg>)

  datatype RoundEvent = Detects(p: nat) | Receives(p: nat, msg: Msg) | Steps(p: nat, input: Input)

  ghost predicate Possible(g: Ground, s: State, ev: RoundEvent) {
    && ev.p in Survivors(g) && ev.p < |s.ms| && MemberWf(s.ms[ev.p])
    && (ev.Receives? ==> ev.msg in s.tokens && TokenWf(s.ms[ev.p].core.ring.n, ev.msg))
    && (ev.Steps? ==> Accepts(s.ms[ev.p].core, ev.input))
  }

  function Responds(g: Setting, m: Member, ev: RoundEvent): Reaction
    requires MemberWf(m) && (ev.Receives? ==> TokenWf(m.core.ring.n, ev.msg))
    requires (ev.Steps? ==> Accepts(m.core, ev.input))
  {
    match ev
    case Detects(_) => Detect(m, g.victim)
    case Receives(_, msg) => Receive(m, msg)
    case Steps(_, input) => Reaction(m.(core := Step(m.core, input).node), {})
  }

  /** Tokens are never taken away: anyone may receive one again, later, or never. */
  ghost function RoundNext(g: Ground, s: State, ev: RoundEvent): State
    requires Possible(g, s, ev)
  {
    var r := Responds(g, s.ms[ev.p], ev);
    State(s.ms[ev.p := r.member], s.tokens + r.sent)
  }

  ghost predicate RoundRuns(g: Ground, s: State, evs: seq<RoundEvent>, s': State)
    decreases |evs|
  {
    if evs == [] then s' == s
    else Possible(g, s, evs[0]) && RoundRuns(g, RoundNext(g, s, evs[0]), evs[1..], s')
  }

  ghost predicate RoundStart(g: Ground, s: State) {
    && |s.ms| == g.ring.n && s.tokens == {}
    && (forall p :: p in Survivors(g) ==>
          && Sound(s.ms[p].core) && s.ms[p].core.ring == g.ring && s.ms[p].core.id == p
          && s.ms[p].vc == Vc(p, g.ring.n, g.view, g.dead) && s.ms[p].dead == g.dead && s.ms[p].applied == [])
  }

  // ----- what a member keeps -----

  /** The core whose report counts: the current one until the plan is applied. */
  function Frame(m: Member): Node { if m.applied == [] then m.core else m.applied[0].before }

  predicate MemberOk(g: Setting, m: Member, p: nat) {
    && MemberWf(m) && Sound(m.core) && m.core.ring == g.ring && m.core.id == p
    && |m.applied| <= 1 && m.vc.installed == g.view + |m.applied|
    && m.vc.dead == m.dead && m.dead + {g.victim} == g.dead + {g.victim}
    && (m.applied != [] ==> g.victim in m.dead && Tidy(m.applied[0].before) && m.applied[0].before.ring == g.ring)
    && (g.victim in m.dead && m.applied == [] ==> m.core.frozen)
  }

  /** What reports say about `m` stays true when it becomes `m'`. */
  predicate Kept(v: nat, m: Member, m': Member) {
    && (v in m.dead ==>
          && v in m'.dead && Frame(m').done == Frame(m).done
          && Frame(m').parked == Frame(m).parked && Frame(m').cache == Frame(m).cache)
    && (m.applied != [] ==> m'.applied == m.applied)
  }

  lemma FrozenStill(s: Node, input: Input)
    requires Wf(s) && Accepts(s, input) && s.frozen
    ensures var s' := Step(s, input).node; s'.done == s.done && s'.parked == s.parked && s'.cache == s.cache
  {
  }

  lemma StepsKeeps(g: Ground, m: Member, p: nat, input: Input)
    requires MemberOk(g, m, p) && Accepts(m.core, input)
    ensures var m' := m.(core := Step(m.core, input).node); MemberOk(g, m', p) && Kept(g.victim, m, m')
  {
    PerformSound(m.core, Do(input));
    if m.core.frozen { FrozenStill(m.core, input); }
  }

  /** Know of the crash: excluded in the core and in the view-change state alike. */
  function Engage(m: Member, v: nat): (r: Member)
    requires MemberWf(m)
    ensures MemberWf(r)
  {
    Exclude(m, v).(vc := m.vc.(dead := m.vc.dead + {v}))
  }

  lemma EngageKeeps(g: Ground, m: Member, p: nat)
    requires MemberOk(g, m, p)
    ensures var m' := Engage(m, g.victim);
      && MemberOk(g, m', p) && Kept(g.victim, m, m') && m'.dead == g.dead + {g.victim}
      && m'.applied == m.applied && (g.victim in m.dead ==> m' == m)
  {
    var m' := Engage(m, g.victim);
    if g.victim in m.dead {
      assert m.vc.dead + {g.victim} == m.vc.dead;
    } else {
      AdvanceTidy(m.core, m'.core);
    }
  }

  lemma ReissuedSound(s: Node)
    requires Sound(s)
    ensures Sound(Reissued(s))
  {
    PerformSound(s, Reissue);
  }

  lemma AdoptedSound(s: Node, plan: Plan)
    requires Sound(s) && PlanFor(s.ring.n, plan)
    ensures Sound(Reissued(Apply(s, plan).node))
  {
    ApplySound(s, plan);
    ReissuedSound(Apply(s, plan).node);
  }

  lemma AdoptKeeps(g: Ground, m: Member, p: nat, plan: Plan)
    requires MemberOk(g, m, p) && m.applied == [] && g.victim in m.dead && PlanFor(g.ring.n, plan)
    ensures var m' := Adopt(m.(vc := m.vc.(installed := g.view + 1)), plan);
      MemberOk(g, m', p) && Kept(g.victim, m, m') && m'.applied == [Applied(plan, m.core)]
  {
    AdoptedSound(m.core, plan);
  }

  // ----- what messages say -----

  /** The report is exact about the frame's recorded keys and its payloads. */
  predicate Exact(x: Node, r: Report) {
    r.done == x.done && r.have == Have(x) && x.done <= KeysUpTo(r.seen) && x.parked.Keys <= KeysUpTo(r.seen)
  }

  predicate EntryOk(g: Setting, m: Member, r: Report) {
    g.victim in m.dead && Fits(g.ring.n, r) && Exact(Frame(m), r)
  }

  predicate EntriesOk(g: Setting, ms: seq<Member>, reports: seq<Entry>) {
    && |ms| == g.ring.n
    && (forall i :: 0 <= i < |reports| ==>
          reports[i].who in Survivors(g) && EntryOk(g, ms[reports[i].who], reports[i].report))
    && (forall i, j :: 0 <= i < j < |reports| ==> reports[i].who != reports[j].who)
  }

  /** The plan merges one exact report from every survivor. */
  ghost predicate Merged(g: Setting, ms: seq<Member>, plan: Plan) {
    exists reports :: EntriesOk(g, ms, reports) && Reporters(reports) == Survivors(g)
      && EntriesFit(g.ring.n, reports) && plan == PlanFrom(g.ring.n, reports)
  }

  /** `plan` is the one the coordinator applied. */
  predicate HomePlan(g: Setting, ms: seq<Member>, plan: Plan) {
    g.home < |ms| && |ms[g.home].applied| == 1 && ms[g.home].applied[0].plan == plan
  }

  predicate MsgOk(g: Setting, ms: seq<Member>, msg: Msg) {
    && TokenWf(g.ring.n, msg) && msg.view == g.view + 1 && msg.coordinator == g.home && msg.victim == g.victim
    && (if msg.Gather? then EntriesOk(g, ms, msg.reports) else HomePlan(g, ms, msg.plan))
  }

  ghost predicate MemberInv(g: Setting, ms: seq<Member>, p: nat) {
    && p < |ms| && MemberOk(g, ms[p], p)
    && (ms[p].applied != [] ==> HomePlan(g, ms, ms[p].applied[0].plan) && Merged(g, ms, ms[p].applied[0].plan))
  }

  ghost predicate Inv(g: Setting, s: State) {
    && |s.ms| == g.ring.n
    && (forall p :: p in Survivors(g) ==> MemberInv(g, s.ms, p))
    && (forall msg :: msg in s.tokens ==> MsgOk(g, s.ms, msg))
  }

  // ----- carrying the invariant past one member's change -----

  lemma EntriesKept(g: Ground, ms: seq<Member>, p: nat, m': Member, reports: seq<Entry>)
    requires EntriesOk(g, ms, reports) && p < |ms| && Kept(g.victim, ms[p], m')
    ensures EntriesOk(g, ms[p := m'], reports)
  {
    forall i | 0 <= i < |reports| ensures EntryOk(g, ms[p := m'][reports[i].who], reports[i].report) {
      assert EntryOk(g, ms[reports[i].who], reports[i].report);
    }
  }

  lemma MergedKept(g: Ground, ms: seq<Member>, p: nat, m': Member, plan: Plan)
    requires Merged(g, ms, plan) && p < |ms| && Kept(g.victim, ms[p], m')
    ensures Merged(g, ms[p := m'], plan)
  {
    var reports :| EntriesOk(g, ms, reports) && Reporters(reports) == Survivors(g)
      && EntriesFit(g.ring.n, reports) && plan == PlanFrom(g.ring.n, reports);
    EntriesKept(g, ms, p, m', reports);
  }

  lemma MsgKept(g: Ground, ms: seq<Member>, p: nat, m': Member, msg: Msg)
    requires MsgOk(g, ms, msg) && p < |ms| && Kept(g.victim, ms[p], m')
    ensures MsgOk(g, ms[p := m'], msg)
  {
    if msg.Gather? { EntriesKept(g, ms, p, m', msg.reports); }
  }

  lemma OtherKept(g: Ground, ms: seq<Member>, p: nat, m': Member, q: nat)
    requires MemberInv(g, ms, q) && p < |ms| && q != p && Kept(g.victim, ms[p], m')
    ensures MemberInv(g, ms[p := m'], q)
  {
    if ms[q].applied != [] { MergedKept(g, ms, p, m', ms[q].applied[0].plan); }
  }

  lemma SelfKept(g: Ground, ms: seq<Member>, p: nat, m': Member)
    requires MemberInv(g, ms, p) && Kept(g.victim, ms[p], m') && MemberOk(g, m', p) && m'.applied == ms[p].applied
    ensures MemberInv(g, ms[p := m'], p)
  {
    if m'.applied != [] { MergedKept(g, ms, p, m', m'.applied[0].plan); }
  }

  lemma Combine(g: Ground, s: State, p: nat, m': Member, sent: set<Msg>)
    requires Inv(g, s) && p in Survivors(g) && Kept(g.victim, s.ms[p], m') && MemberInv(g, s.ms[p := m'], p)
    requires forall msg :: msg in sent ==> MsgOk(g, s.ms[p := m'], msg)
    ensures Inv(g, State(s.ms[p := m'], s.tokens + sent))
  {
    var ms' := s.ms[p := m'];
    forall q | q in Survivors(g) ensures MemberInv(g, ms', q) {
      if q != p { OtherKept(g, s.ms, p, m', q); }
    }
    forall msg | msg in s.tokens + sent ensures MsgOk(g, ms', msg) {
      if msg !in sent { MsgKept(g, s.ms, p, m', msg); }
    }
  }

  // ----- each event -----

  lemma HomeFound(g: Ground, vc: Vc)
    requires vc.n == g.ring.n && vc.dead == g.dead + {g.victim}
    ensures Coordinator(vc) == g.home && Alive(vc) == Survivors(g)
  {
    assert Alive(vc) == Survivors(g);
    CoordinatorIsLowest(vc, g.home);
  }

  lemma OwnEntry(g: Ground, m: Member, p: nat)
    requires MemberOk(g, m, p) && g.victim in m.dead && m.applied == []
    ensures EntryOk(g, m, ReportOf(m.core))
  {
    var x := m.core;
    forall k | k in x.done ensures k in KeysUpTo(x.seen) { assert k == ClockKey(k.clock, k.issuer); }
    forall k | k in x.parked ensures k in KeysUpTo(x.seen) { assert Held(x, k) && k == ClockKey(k.clock, k.issuer); }
  }

  lemma AppendEntry(g: Ground, ms: seq<Member>, p: nat, reports: seq<Entry>, report: Report)
    requires EntriesOk(g, ms, reports) && p in Survivors(g) && EntryOk(g, ms[p], report)
    ensures EntriesOk(g, ms, WithReport(reports, p, report))
  {
  }

  lemma FitEntries(g: Ground, ms: seq<Member>, reports: seq<Entry>)
    requires EntriesOk(g, ms, reports)
    ensures EntriesFit(g.ring.n, reports) && Reporters(reports) <= Survivors(g)
  {
    forall i | 0 <= i < |reports| ensures Fits(g.ring.n, reports[i].report) {
      assert EntryOk(g, ms[reports[i].who], reports[i].report);
    }
  }

  lemma DetectResult(g: Ground, m: Member, p: nat)
    requires MemberOk(g, m, p)
    ensures var m' := Engage(m, g.victim);
      Detect(m, g.victim) ==
        if g.victim in m.dead then Reaction(m, {})
        else Reaction(m', {Gather(g.view + 1, g.home, g.victim, [Entry(p, ReportOf(m'.core))])})
  {
    EngageKeeps(g, m, p);
    var m' := Engage(m, g.victim);
    HomeFound(g, m'.vc);
    var msg := Gather(g.view + 1, g.home, g.victim, [Entry(p, ReportOf(m'.core))]);
    SentOnly(msg, Plan(map[], []));
    ExecuteSend(m', msg);
  }

  lemma DetectInv(g: Ground, s: State, p: nat)
    requires Inv(g, s) && p in Survivors(g) && MemberInv(g, s.ms, p)
    ensures Inv(g, RoundNext(g, s, Detects(p)))
  {
    var m := s.ms[p];
    DetectResult(g, m, p);
    if g.victim in m.dead {
      assert s.ms[p := m] == s.ms;
      assert s.tokens + {} == s.tokens;
    } else {
      var m' := Engage(m, g.victim);
      EngageKeeps(g, m, p);
      OwnEntry(g, m', p);
      SelfKept(g, s.ms, p, m');
      Combine(g, s, p, m', Detect(m, g.victim).sent);
    }
  }

  lemma StepsInv(g: Ground, s: State, p: nat, input: Input)
    requires Inv(g, s) && Possible(g, s, Steps(p, input)) && MemberInv(g, s.ms, p)
    ensures Inv(g, RoundNext(g, s, Steps(p, input)))
  {
    var m' := s.ms[p].(core := Step(s.ms[p].core, input).node);
    StepsKeeps(g, s.ms[p], p, input);
    SelfKept(g, s.ms, p, m');
    Combine(g, s, p, m', {});
  }

  /** A token for a view already installed changes nothing. */
  lemma StaleResult(g: Ground, m: Member, p: nat, msg: Msg)
    requires MemberOk(g, m, p) && m.applied != [] && TokenWf(g.ring.n, msg)
    requires msg.view == g.view + 1 && msg.victim == g.victim
    ensures Receive(m, msg) == Reaction(m, {})
  {
  }

  lemma ExecuteSend(m: Member, msg: Msg)
    requires MemberWf(m)
    ensures ActsFit(m.core.ring.n, [Send(msg)]) && Execute(m, [Send(msg)]) == m
  {
    assert [Send(msg)][1..] == [];
  }

  lemma SentOnly(msg: Msg, plan: Plan)
    ensures Sent([Send(msg)]) == {msg} && Sent([ApplyPlan(plan), Send(msg)]) == {msg}
  {
    assert [Send(msg)][0] == Send(msg) && [ApplyPlan(plan), Send(msg)][1] == Send(msg);
    assert Send(msg) in [Send(msg)] && Send(msg) in [ApplyPlan(plan), Send(msg)];
  }

  lemma ExecuteApplySend(m: Member, plan: Plan, msg: Msg)
    requires MemberWf(m) && PlanFor(m.core.ring.n, plan)
    ensures ActsFit(m.core.ring.n, [ApplyPlan(plan), Send(msg)])
    ensures Execute(m, [ApplyPlan(plan), Send(msg)]) == Adopt(m, plan)
  {
    var acts := [ApplyPlan(plan), Send(msg)];
    assert acts[1..] == [Send(msg)];
    ExecuteSend(Adopt(m, plan), msg);
  }

  /** The gather as this member passes it on. */
  function Passed(m: Member, msg: Msg): seq<Entry>
    requires MemberWf(m) && msg.Gather?
  {
    WithReport(msg.reports, m.vc.me, ReportOf(m.core))
  }

  predicate ForRound(g: Setting, msg: Msg) {
    TokenWf(g.ring.n, msg) && msg.view == g.view + 1 && msg.victim == g.victim && msg.coordinator == g.home
  }

  lemma GatherPasses(g: Ground, m: Member, p: nat, msg: Msg)
    requires MemberOk(g, m, p) && m.applied == [] && ForRound(g, msg) && msg.Gather?
    requires var m' := Engage(m, g.victim); !(p == g.home && Survivors(g) <= Reporters(Passed(m', msg)))
    ensures var m' := Engage(m, g.victim);
      Receive(m, msg) == Reaction(m', {Gather(g.view + 1, g.home, g.victim, Passed(m', msg))})
  {
    var m' := Engage(m, g.victim);
    EngageKeeps(g, m, p);
    HomeFound(g, m'.vc);
    var out := Gather(g.view + 1, g.home, g.victim, Passed(m', msg));
    SentOnly(out, Plan(map[], []));
    ExecuteSend(m', out);
  }

  /** A member's adoption of `plan` after engaging. */
  function Adopting(g: Setting, m: Member, plan: Plan): Member
    requires MemberWf(m) && m.core.ring == g.ring && PlanFor(g.ring.n, plan)
  {
    var m1 := Engage(m, g.victim);
    Adopt(m1.(vc := m1.vc.(installed := g.view + 1)), plan)
  }

  lemma GatherInstalls(g: Ground, m: Member, msg: Msg)
    requires MemberOk(g, m, g.home) && m.applied == [] && ForRound(g, msg) && msg.Gather?
    requires Survivors(g) <= Reporters(Passed(Engage(m, g.victim), msg))
    requires EntriesFit(g.ring.n, Passed(Engage(m, g.victim), msg))
    ensures var m' := Engage(m, g.victim); var plan := PlanFrom(g.ring.n, Passed(m', msg));
      PlanFor(g.ring.n, plan)
      && Receive(m, msg) == Reaction(Adopting(g, m, plan), {Installing(g.view + 1, g.home, g.victim, plan)})
  {
    var m' := Engage(m, g.victim);
    EngageKeeps(g, m, g.home);
    HomeFound(g, m'.vc);
    var plan := PlanFrom(g.ring.n, Passed(m', msg));
    PlanFromFits(g.ring.n, Passed(m', msg));
    var out := Installing(g.view + 1, g.home, g.victim, plan);
    SentOnly(out, plan);
    ExecuteApplySend(m'.(vc := m'.vc.(installed := g.view + 1)), plan, out);
  }

  lemma InstallResult(g: Ground, m: Member, p: nat, msg: Msg)
    requires MemberOk(g, m, p) && m.applied == [] && ForRound(g, msg) && msg.Installing?
    ensures Receive(m, msg) == Reaction(Adopting(g, m, msg.plan), {msg})
  {
    var m' := Engage(m, g.victim);
    EngageKeeps(g, m, p);
    SentOnly(msg, msg.plan);
    ExecuteApplySend(m'.(vc := m'.vc.(installed := g.view + 1)), msg.plan, msg);
  }

  lemma PassedOk(g: Ground, ms: seq<Member>, p: nat, msg: Msg)
    requires p in Survivors(g) && msg.Gather? && EntriesOk(g, ms, msg.reports)
    requires MemberOk(g, ms[p], p) && ms[p].applied == []
    ensures var m' := Engage(ms[p], g.victim);
      && EntriesOk(g, ms[p := m'], Passed(m', msg)) && EntriesFit(g.ring.n, Passed(m', msg))
      && Reporters(Passed(m', msg)) <= Survivors(g)
  {
    var m' := Engage(ms[p], g.victim);
    EngageKeeps(g, ms[p], p);
    OwnEntry(g, m', p);
    EntriesKept(g, ms, p, m', msg.reports);
    AppendEntry(g, ms[p := m'], p, msg.reports, ReportOf(m'.core));
    FitEntries(g, ms[p := m'], Passed(m', msg));
  }

  lemma GatherPassesInv(g: Ground, s: State, p: nat, msg: Msg)
    requires Inv(g, s) && p in Survivors(g) && MemberInv(g, s.ms, p)
    requires MsgOk(g, s.ms, msg) && msg.Gather? && s.ms[p].applied == []
    requires var m' := Engage(s.ms[p], g.victim); !(p == g.home && Survivors(g) <= Reporters(Passed(m', msg)))
    ensures Inv(g, State(s.ms[p := Receive(s.ms[p], msg).member], s.tokens + Receive(s.ms[p], msg).sent))
  {
    var m' := Engage(s.ms[p], g.victim);
    GatherPasses(g, s.ms[p], p, msg);
    PassedOk(g, s.ms, p, msg);
    EngageKeeps(g, s.ms[p], p);
    SelfKept(g, s.ms, p, m');
    Combine(g, s, p, m', {Gather(g.view + 1, g.home, g.victim, Passed(m', msg))});
  }

  lemma KeptTwice(v: nat, a: Member, b: Member, c: Member)
    requires Kept(v, a, b) && Kept(v, b, c)
    ensures Kept(v, a, c)
  {
  }

  lemma AdoptingKeeps(g: Ground, m: Member, p: nat, plan: Plan)
    requires MemberOk(g, m, p) && m.applied == [] && PlanFor(g.ring.n, plan)
    ensures MemberOk(g, Adopting(g, m, plan), p) && Kept(g.victim, m, Adopting(g, m, plan))
    ensures Kept(g.victim, Engage(m, g.victim), Adopting(g, m, plan))
    ensures Adopting(g, m, plan).applied == [Applied(plan, Engage(m, g.victim).core)]
  {
    var m1 := Engage(m, g.victim);
    EngageKeeps(g, m, p);
    AdoptKeeps(g, m1, p, plan);
    KeptTwice(g.victim, m, m1, Adopting(g, m, plan));
  }

  lemma PlanFromFits(n: nat, reports: seq<Entry>)
    requires EntriesFit(n, reports)
    ensures PlanFor(n, PlanFrom(n, reports))
  {
  }

  lemma AdoptInv(g: Ground, s: State, p: nat, plan: Plan, msg: Msg)
    requires Inv(g, s) && p in Survivors(g) && MemberInv(g, s.ms, p) && s.ms[p].applied == [] && PlanFor(g.ring.n, plan)
    requires msg == Installing(g.view + 1, g.home, g.victim, plan)
    requires var ms' := s.ms[p := Adopting(g, s.ms[p], plan)]; HomePlan(g, ms', plan) && Merged(g, ms', plan)
    ensures Inv(g, State(s.ms[p := Adopting(g, s.ms[p], plan)], s.tokens + {msg}))
  {
    var m' := Adopting(g, s.ms[p], plan);
    AdoptingKeeps(g, s.ms[p], p, plan);
    AdoptedMember(g, s.ms, p, m', plan, msg);
    Combine(g, s, p, m', {msg});
  }

  lemma AdoptedMember(g: Ground, ms: seq<Member>, p: nat, m': Member, plan: Plan, msg: Msg)
    requires p < |ms| && MemberOk(g, m', p) && |m'.applied| == 1
    requires m'.applied[0].plan == plan && PlanFor(g.ring.n, plan)
    requires msg == Installing(g.view + 1, g.home, g.victim, plan)
    requires HomePlan(g, ms[p := m'], plan) && Merged(g, ms[p := m'], plan)
    ensures MemberInv(g, ms[p := m'], p) && MsgOk(g, ms[p := m'], msg)
  {
  }

  lemma GatherInstallsInv(g: Ground, s: State, msg: Msg)
    requires Inv(g, s) && MemberInv(g, s.ms, g.home) && MsgOk(g, s.ms, msg) && msg.Gather? && s.ms[g.home].applied == []
    requires Survivors(g) <= Reporters(Passed(Engage(s.ms[g.home], g.victim), msg))
    ensures Inv(g, State(s.ms[g.home := Receive(s.ms[g.home], msg).member], s.tokens + Receive(s.ms[g.home], msg).sent))
  {
    var m := s.ms[g.home];
    var reports := Passed(Engage(m, g.victim), msg);
    PassedOk(g, s.ms, g.home, msg);
    GatherInstalls(g, m, msg);
    HomeAdoptsInv(g, s, reports, PlanFrom(g.ring.n, reports));
  }

  lemma HomeAdoptsInv(g: Ground, s: State, reports: seq<Entry>, plan: Plan)
    requires Inv(g, s) && MemberInv(g, s.ms, g.home) && s.ms[g.home].applied == []
    requires EntriesFit(g.ring.n, reports) && PlanFor(g.ring.n, plan) && plan == PlanFrom(g.ring.n, reports)
    requires EntriesOk(g, s.ms[g.home := Engage(s.ms[g.home], g.victim)], reports) && Reporters(reports) == Survivors(g)
    ensures Inv(g, State(s.ms[g.home := Adopting(g, s.ms[g.home], plan)],
                         s.tokens + {Installing(g.view + 1, g.home, g.victim, plan)}))
  {
    MergedAtHome(g, s.ms, reports, plan);
    AdoptInv(g, s, g.home, plan, Installing(g.view + 1, g.home, g.victim, plan));
  }

  /** What the coordinator merges it also applies. */
  lemma MergedAtHome(g: Ground, ms: seq<Member>, reports: seq<Entry>, plan: Plan)
    requires |ms| == g.ring.n && MemberOk(g, ms[g.home], g.home) && ms[g.home].applied == []
    requires EntriesFit(g.ring.n, reports) && PlanFor(g.ring.n, plan) && plan == PlanFrom(g.ring.n, reports)
    requires EntriesOk(g, ms[g.home := Engage(ms[g.home], g.victim)], reports) && Reporters(reports) == Survivors(g)
    ensures var ms' := ms[g.home := Adopting(g, ms[g.home], plan)]; HomePlan(g, ms', plan) && Merged(g, ms', plan)
  {
    AdoptingKeeps(g, ms[g.home], g.home, plan);
    HomeEntries(g, ms, Engage(ms[g.home], g.victim), Adopting(g, ms[g.home], plan), reports);
  }

  lemma HomeEntries(g: Ground, ms: seq<Member>, m1: Member, m': Member, reports: seq<Entry>)
    requires |ms| == g.ring.n && Kept(g.victim, m1, m') && EntriesOk(g, ms[g.home := m1], reports)
    ensures EntriesOk(g, ms[g.home := m'], reports)
  {
    EntriesKept(g, ms[g.home := m1], g.home, m', reports);
    assert ms[g.home := m1][g.home := m'] == ms[g.home := m'];
  }

  lemma InstallKeepsPlan(g: Ground, ms: seq<Member>, p: nat, plan: Plan)
    requires |ms| == g.ring.n && p in Survivors(g) && MemberOk(g, ms[p], p)
    requires ms[p].applied == [] && PlanFor(g.ring.n, plan)
    requires HomePlan(g, ms, plan) && Merged(g, ms, plan)
    ensures HomePlan(g, ms[p := Adopting(g, ms[p], plan)], plan) && Merged(g, ms[p := Adopting(g, ms[p], plan)], plan)
  {
    AdoptingKeeps(g, ms[p], p, plan);
    MergedKept(g, ms, p, Adopting(g, ms[p], plan), plan);
  }

  lemma InstallInv(g: Ground, s: State, p: nat, msg: Msg)
    requires Inv(g, s) && p in Survivors(g) && MemberInv(g, s.ms, p)
    requires MsgOk(g, s.ms, msg) && msg.Installing? && s.ms[p].applied == []
    ensures Inv(g, State(s.ms[p := Receive(s.ms[p], msg).member], s.tokens + Receive(s.ms[p], msg).sent))
  {
    InstallResult(g, s.ms[p], p, msg);
    assert MemberInv(g, s.ms, g.home);
    InstallKeepsPlan(g, s.ms, p, msg.plan);
    AdoptInv(g, s, p, msg.plan, msg);
  }

  lemma ReceivesInv(g: Ground, s: State, p: nat, msg: Msg)
    requires Inv(g, s) && Possible(g, s, Receives(p, msg)) && MemberInv(g, s.ms, p) && MsgOk(g, s.ms, msg)
    ensures Inv(g, RoundNext(g, s, Receives(p, msg)))
  {
    var m := s.ms[p];
    if m.applied != [] {
      StaleResult(g, m, p, msg);
      assert s.ms[p := m] == s.ms;
      assert s.tokens + {} == s.tokens;
    } else if msg.Installing? {
      InstallInv(g, s, p, msg);
    } else if p == g.home && Survivors(g) <= Reporters(Passed(Engage(m, g.victim), msg)) {
      GatherInstallsInv(g, s, msg);
    } else {
      GatherPassesInv(g, s, p, msg);
    }
  }

  lemma NextInv(g: Ground, s: State, ev: RoundEvent)
    requires Inv(g, s) && Possible(g, s, ev)
    ensures Inv(g, RoundNext(g, s, ev))
  {
    assert MemberInv(g, s.ms, ev.p);
    match ev
    case Detects(p) => DetectInv(g, s, p);
    case Receives(p, msg) => ReceivesInv(g, s, p, msg);
    case Steps(p, input) => StepsInv(g, s, p, input);
  }

  lemma StartInv(g: Ground, s: State)
    requires RoundStart(g, s)
    ensures Inv(g, s)
  {
  }

  lemma {:induction false} RunInv(g: Ground, s: State, evs: seq<RoundEvent>, s': State)
    requires Inv(g, s) && RoundRuns(g, s, evs, s')
    ensures Inv(g, s')
    decreases |evs|
  {
    if evs != [] {
      NextInv(g, s, evs[0]);
      RunInv(g, RoundNext(g, s, evs[0]), evs[1..], s');
    }
  }

  // ----- the results -----

  /** Some run of the round leads here. */
  ghost predicate Reached(g: Ground, s: State) {
    exists s0, evs :: RoundStart(g, s0) && RoundRuns(g, s0, evs, s)
  }

  lemma ReachedInv(g: Ground, s: State)
    requires Reached(g, s)
    ensures Inv(g, s)
  {
    var s0, evs :| RoundStart(g, s0) && RoundRuns(g, s0, evs, s);
    StartInv(g, s0);
    RunInv(g, s0, evs, s);
  }

  /**
   * One plan per view: however many survivors detect the crash and however the
   * tokens interleave, at most one Install exists, and each survivor applies that
   * plan at most once, exactly when it moves to the new view.
   */
  lemma OnePlanPerView(g: Ground, s: State)
    requires Reached(g, s)
    ensures forall a, b :: a in s.tokens && b in s.tokens && a.Installing? && b.Installing? ==> a == b
    ensures |s.ms| == g.ring.n
    ensures forall p :: p in Survivors(g) ==>
      |s.ms[p].applied| <= 1 && s.ms[p].vc.installed == g.view + |s.ms[p].applied|
    ensures forall p, msg :: (p in Survivors(g) && s.ms[p].applied != [] && msg in s.tokens && msg.Installing?
                              ==> s.ms[p].applied[0].plan == msg.plan)
  {
    ReachedInv(g, s);
    forall p | p in Survivors(g)
      ensures |s.ms[p].applied| <= 1 && s.ms[p].vc.installed == g.view + |s.ms[p].applied|
      ensures forall msg :: msg in s.tokens && msg.Installing? && s.ms[p].applied != [] ==>
        s.ms[p].applied[0].plan == msg.plan
    {
      assert MemberInv(g, s.ms, p);
    }
  }

  lemma BoundaryCovers(n: nat, reports: seq<Entry>, i: nat)
    requires EntriesFit(n, reports) && i < |reports|
    ensures var b := PlanFrom(n, reports).boundary;
      && |b| == n && (forall q :: 0 <= q < n ==> reports[i].report.seen[q] <= b[q])
      && KeysUpTo(reports[i].report.seen) <= KeysUpTo(b)
  {
    var b := PlanFrom(n, reports).boundary;
    assert Snapshots(reports)[i] in Snapshots(reports);
    forall q | 0 <= q < n ensures reports[i].report.seen[q] <= b[q] { assert b[q] == Bound(Snapshots(reports), q); }
  }

  /** An exact report supplies every key the reporter lacks. */
  lemma ExactSupplies(n: nat, reports: seq<Entry>, i: nat, x: Node)
    requires EntriesFit(n, reports) && i < |reports| && Tidy(x) && x.ring.n == n && Exact(x, reports[i].report)
    ensures var plan := PlanFrom(n, reports);
      x.done + plan.actions.Keys == KeysUpTo(plan.boundary) && x.parked.Keys <= plan.actions.Keys
  {
    var plan := PlanFrom(n, reports);
    BoundaryCovers(n, reports, i);
    assert Snapshots(reports)[i] in Snapshots(reports);
    forall k | k in KeysUpTo(plan.boundary) && k !in x.done ensures k in plan.actions { }
    forall k | k in x.parked ensures k in plan.actions { assert Held(x, k); }
  }

  lemma AppliesExactly(x: Node, plan: Plan)
    requires Wf(x) && PlanFor(x.ring.n, plan)
    requires x.done + plan.actions.Keys == KeysUpTo(plan.boundary) && x.parked.Keys <= plan.actions.Keys
    ensures var r := Apply(x, plan);
      && r.node.done == KeysUpTo(plan.boundary) && r.node.parked == map[]
      && Delivered(r.out) == LogOf(KeysUpTo(plan.boundary) - x.done, Planned(plan.actions))
  {
    var r1 := ApplyActions(x, plan.actions);
    ActionsParked(x, plan.actions);
    assert r1.node.parked.Keys == {};
    ApplyWithoutDrain(x, plan, r1, InstallView(r1.node, plan));
    ActionsLog(x, plan.actions);
    assert plan.actions.Keys - x.done == KeysUpTo(plan.boundary) - x.done;
  }

  /** What a survivor's application of the round's plan amounts to. */
  ghost predicate AppliedExactly(g: Setting, reports: seq<Entry>, p: nat, a: Applied) {
    && EntriesFit(g.ring.n, reports) && Reporters(reports) == Survivors(g) && a.plan == PlanFrom(g.ring.n, reports)
    && (forall i, j :: 0 <= i < j < |reports| ==> reports[i].who != reports[j].who)
    && (exists i :: 0 <= i < |reports| && reports[i].who == p
          && reports[i].report.done == a.before.done && reports[i].report.have == Have(a.before))
    && Wf(a.before) && PlanFor(a.before.ring.n, a.plan)
    && Apply(a.before, a.plan).node.done == KeysUpTo(a.plan.boundary) && Apply(a.before, a.plan).node.parked == map[]
    && Delivered(Apply(a.before, a.plan).out)
       == LogOf(KeysUpTo(a.plan.boundary) - a.before.done, Planned(a.plan.actions))
  }

  /**
   * The reports do not go stale: whenever a survivor applies the plan, the plan
   * merges one report per survivor, this survivor's own report still gives its
   * recorded keys and its payloads exactly, and so it ends with precisely the
   * keys up to the boundary recorded, nothing parked, and the missing keys'
   * payloads delivered in key order.
   */
  lemma ReportsStayExact(g: Ground, s: State, p: nat)
    requires Reached(g, s) && p in Survivors(g) && p < |s.ms| && s.ms[p].applied != []
    ensures exists reports :: AppliedExactly(g, reports, p, s.ms[p].applied[0])
  {
    ReachedInv(g, s);
    assert MemberInv(g, s.ms, p);
    var a := s.ms[p].applied[0];
    var reports :| EntriesOk(g, s.ms, reports) && Reporters(reports) == Survivors(g)
      && EntriesFit(g.ring.n, reports) && a.plan == PlanFrom(g.ring.n, reports);
    assert p in Reporters(reports);
    var e: Entry :| e in reports && e.who == p;
    var i: nat :| i < |reports| && reports[i] == e;
    assert EntryOk(g, s.ms[p], e.report);
    PlanFromFits(g.ring.n, reports);
    ExactSupplies(g.ring.n, reports, i, a.before);
    AppliesExactly(a.before, a.plan);
    assert AppliedExactly(g, reports, p, a);
  }
}
