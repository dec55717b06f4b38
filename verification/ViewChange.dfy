// One node's part in a view change: the Gather and Install tokens of an
// exclusion, and their re-admission counterparts.

module ViewChangeSpec {
  import opened Recovery

  datatype Entry = Entry(who: nat, report: Report)

  datatype Msg =
    | Gather(view: nat, coordinator: nat, victim: nat, reports: seq<Entry>)
    | Installing(view: nat, coordinator: nat, victim: nat, plan: Plan)
    | ReadmitGather(view: nat, coordinator: nat, rejoiner: nat, reports: seq<Entry>)
    | ReadmitInstalling(view: nat, coordinator: nat, rejoiner: nat, plan: Plan, source: nat)

  datatype VcAction = Send(msg: Msg) | ApplyPlan(plan: Plan)

  datatype Vc = Vc(me: nat, n: nat, installed: nat, dead: set<nat>)

  datatype VcEffect = VcEffect(vc: Vc, acts: seq<VcAction>)

  function Alive(vc: Vc): set<nat> { set p | 0 <= p < vc.n && p !in vc.dead }

  /** `c` is the lowest of a set of processes. */
  ghost predicate IsLowest(c: nat, s: set<nat>) { c in s && forall p :: p in s ==> c <= p }

  /** The first live process at or above `p`, or `me` when there is none. */
  function LowestFrom(vc: Vc, p: nat): (c: nat)
    requires p <= vc.n
    ensures (forall x :: p <= x < vc.n ==> x in vc.dead) ==> c == vc.me
    ensures (exists x :: p <= x < vc.n && x !in vc.dead) ==>
      p <= c < vc.n && c !in vc.dead && forall x :: p <= x < c ==> x in vc.dead
    decreases vc.n - p
  {
    if p == vc.n then vc.me else if p !in vc.dead then p else LowestFrom(vc, p + 1)
  }

  function Coordinator(vc: Vc): nat { LowestFrom(vc, 0) }

  lemma CoordinatorIsLowest(vc: Vc, c: nat)
    requires IsLowest(c, Alive(vc))
    ensures Coordinator(vc) == c
  {
    var x := Coordinator(vc);
    assert 0 <= c < vc.n && c !in vc.dead;
    assert x in Alive(vc);
    assert x > c ==> c in vc.dead;
  }

  function Reporters(reports: seq<Entry>): set<nat> { set e | e in reports :: e.who }

  function Snapshots(reports: seq<Entry>): (r: seq<Report>)
    ensures |r| == |reports| && forall i :: 0 <= i < |r| ==> r[i] == reports[i].report
  {
    seq(|reports|, i requires 0 <= i < |reports| => reports[i].report)
  }

  predicate EntriesFit(n: nat, reports: seq<Entry>) { forall i :: 0 <= i < |reports| ==> Fits(n, reports[i].report) }

  predicate MsgFits(n: nat, msg: Msg) {
    msg.Gather? || msg.ReadmitGather? ==> EntriesFit(n, msg.reports)
  }

  function WithReport(reports: seq<Entry>, me: nat, report: Report): (r: seq<Entry>)
    ensures Reporters(r) == Reporters(reports) + {me}
  {
    if me in Reporters(reports) then reports
    else
      assert forall e :: e in reports + [Entry(me, report)] <==> e in reports || e == Entry(me, report);
      reports + [Entry(me, report)]
  }

  function PlanFrom(n: nat, reports: seq<Entry>): Plan
    requires EntriesFit(n, reports)
  {
    ComputePlan(n, Snapshots(reports))
  }

  /** The tokens a list of actions sends, in order. */
  function Tokens(acts: seq<VcAction>): seq<Msg> {
    if acts == [] then [] else (if acts[0].Send? then [acts[0].msg] else []) + Tokens(acts[1..])
  }

  /** The plans a list of actions has this node apply, in order. */
  function Plans(acts: seq<VcAction>): seq<Plan> {
    if acts == [] then [] else (if acts[0].ApplyPlan? then [acts[0].plan] else []) + Plans(acts[1..])
  }

  lemma TokensOf(acts: seq<VcAction>)
    ensures acts == [] ==> Tokens(acts) == [] && Plans(acts) == []
    ensures |acts| == 1 && acts[0].Send? ==> Tokens(acts) == [acts[0].msg] && Plans(acts) == []
    ensures |acts| == 2 && acts[0].ApplyPlan? && acts[1].Send? ==>
      Tokens(acts) == [acts[1].msg] && Plans(acts) == [acts[0].plan]
  {
    if |acts| == 2 {
      assert acts[1..][1..] == [];
      assert Tokens(acts[1..]) == (if acts[1].Send? then [acts[1].msg] else []) + Tokens(acts[1..][1..]);
    }
  }

  // ----- exclusion -----

  function OnConfirm(vc: Vc, victim: nat, report: Report): VcEffect {
    if victim in vc.dead then VcEffect(vc, [])
    else
      var vc1 := vc.(dead := vc.dead + {victim});
      VcEffect(vc1, [Send(Gather(vc.installed + 1, Coordinator(vc1), victim, [Entry(vc.me, report)]))])
  }

  function OnGather(vc: Vc, msg: Msg, report: Report): VcEffect
    requires MsgFits(vc.n, msg) && Fits(vc.n, report)
  {
    if !msg.Gather? || msg.view <= vc.installed then VcEffect(vc, [])
    else
      var vc1 := vc.(dead := vc.dead + {msg.victim});
      var reports := WithReport(msg.reports, vc.me, report);
      if vc.me == msg.coordinator && Alive(vc1) <= Reporters(reports) then
        var plan := PlanFrom(vc.n, reports);
        VcEffect(vc1.(installed := msg.view),
                 [ApplyPlan(plan), Send(Installing(msg.view, msg.coordinator, msg.victim, plan))])
      else VcEffect(vc1, [Send(Gather(msg.view, msg.coordinator, msg.victim, reports))])
  }

  function OnInstall(vc: Vc, msg: Msg): VcEffect {
    if !msg.Installing? || msg.view <= vc.installed then VcEffect(vc, [])
    else VcEffect(vc.(dead := vc.dead + {msg.victim}, installed := msg.view), [ApplyPlan(msg.plan), Send(msg)])
  }

  // ----- re-admission -----

  function OnRequestReadmit(vc: Vc, report: Report): VcEffect {
    VcEffect(vc, [Send(ReadmitGather(vc.installed + 1, Coordinator(vc), vc.me, [Entry(vc.me, report)]))])
  }

  function OnReadmitGather(vc: Vc, msg: Msg, report: Report): VcEffect
    requires MsgFits(vc.n, msg) && Fits(vc.n, report)
  {
    if !msg.ReadmitGather? || msg.view <= vc.installed then VcEffect(vc, [])
    else
      var reports := WithReport(msg.reports, vc.me, report);
      if vc.me == msg.coordinator && Alive(vc) + {msg.rejoiner} <= Reporters(reports) then
        var plan := PlanFrom(vc.n, reports);
        VcEffect(vc.(installed := msg.view, dead := vc.dead - {msg.rejoiner}),
                 [ApplyPlan(plan),
                  Send(ReadmitInstalling(msg.view, msg.coordinator, msg.rejoiner, plan, msg.coordinator))])
      else VcEffect(vc, [Send(ReadmitGather(msg.view, msg.coordinator, msg.rejoiner, reports))])
  }

  function OnReadmitInstall(vc: Vc, msg: Msg): VcEffect {
    if !msg.ReadmitInstalling? || msg.view <= vc.installed then VcEffect(vc, [])
    else VcEffect(vc.(dead := vc.dead - {msg.rejoiner}, installed := msg.view), [ApplyPlan(msg.plan), Send(msg)])
  }
}

module ViewChangeClass {
  import opened Recovery
  import opened MergeProofs
  import opened ViewChangeSpec

  class ViewChange {
    const me: nat
    const n: nat
    var installed: nat
    var dead: set<nat>

    ghost function Model(): Vc
      reads this
    {
      Vc(me, n, installed, dead)
    }

    constructor (me: nat, n: nat)
      ensures Model() == Vc(me, n, 0, {})
    {
      this.me, this.n, installed, dead := me, n, 0, {};
    }

    /** The lowest live process; `me` if nobody is. */
    method FindCoordinator() returns (c: nat)
      ensures c == Coordinator(Model())
    {
      for p := 0 to n
        invariant LowestFrom(Model(), p) == Coordinator(Model())
      {
        if p !in dead { return p; }
      }
      c := me;
    }

    /** Every live process, and `extra`, has reported. */
    method AllReported(extra: set<nat>, reports: seq<Entry>) returns (b: bool)
      ensures b == (Alive(Model()) + extra <= Reporters(reports))
    {
      var reported: set<nat> := {};
      for i := 0 to |reports|
        invariant reported == Reporters(reports[..i])
      {
        assert reports[..i + 1] == reports[..i] + [reports[i]];
        reported := reported + {reports[i].who};
      }
      assert reports[..|reports|] == reports;
      b := extra <= reported;
      for p := 0 to n
        invariant b == (extra <= reported && forall x :: 0 <= x < p && x !in dead ==> x in reported)
      {
        if p !in dead && p !in reported { b := false; }
      }
      assert b ==> forall x :: x in Alive(Model()) ==> x in reported;
      assert !b && extra <= reported ==> exists x :: x in Alive(Model()) && x !in reported;
    }

    method AppendReport(reports: seq<Entry>, report: Report) returns (r: seq<Entry>)
      ensures r == WithReport(reports, me, report)
    {
      for i := 0 to |reports|
        invariant forall j :: 0 <= j < i ==> reports[j].who != me
      {
        if reports[i].who == me {
          assert reports[i] in reports;
          return reports;
        }
      }
      r := reports + [Entry(me, report)];
    }

    method MergeReports(reports: seq<Entry>) returns (plan: Plan)
      requires EntriesFit(n, reports)
      ensures plan == PlanFrom(n, reports)
    {
      plan := ComputeRecoveryPlan(n, Snapshots(reports));
    }

    method Confirm(victim: nat, report: Report) returns (acts: seq<VcAction>)
      modifies this
      ensures VcEffect(Model(), acts) == OnConfirm(old(Model()), victim, report)
    {
      if victim in dead { return []; }
      dead := dead + {victim};
      var c := FindCoordinator();
      acts := [Send(Gather(installed + 1, c, victim, [Entry(me, report)]))];
    }

    method ReceiveGather(msg: Msg, report: Report) returns (acts: seq<VcAction>)
      requires MsgFits(n, msg) && Fits(n, report)
      modifies this
      ensures VcEffect(Model(), acts) == OnGather(old(Model()), msg, report)
    {
      if !msg.Gather? || msg.view <= installed { return []; }
      dead := dead + {msg.victim};
      var reports := AppendReport(msg.reports, report);
      var complete := AllReported({}, reports);
      if me == msg.coordinator && complete {
        var plan := MergeReports(reports);
        installed := msg.view;
        acts := [ApplyPlan(plan), Send(Installing(msg.view, msg.coordinator, msg.victim, plan))];
      } else {
        acts := [Send(Gather(msg.view, msg.coordinator, msg.victim, reports))];
      }
    }

    method ReceiveInstall(msg: Msg) returns (acts: seq<VcAction>)
      modifies this
      ensures VcEffect(Model(), acts) == OnInstall(old(Model()), msg)
    {
      if !msg.Installing? || msg.view <= installed { return []; }
      dead := dead + {msg.victim};
      installed := msg.view;
      acts := [ApplyPlan(msg.plan), Send(msg)];
    }

    method AdoptView(view: nat, gone: set<nat>)
      modifies this
      ensures Model() == Vc(me, n, view, gone)
    {
      installed, dead := view, gone;
    }

    method RequestReadmit(report: Report) returns (acts: seq<VcAction>)
      ensures VcEffect(Model(), acts) == OnRequestReadmit(Model(), report)
    {
      var c := FindCoordinator();
      acts := [Send(ReadmitGather(installed + 1, c, me, [Entry(me, report)]))];
    }

    method ReceiveReadmitGather(msg: Msg, report: Report) returns (acts: seq<VcAction>)
      requires MsgFits(n, msg) && Fits(n, report)
      modifies this
      ensures VcEffect(Model(), acts) == OnReadmitGather(old(Model()), msg, report)
    {
      if !msg.ReadmitGather? || msg.view <= installed { return []; }
      var reports := AppendReport(msg.reports, report);
      var complete := AllReported({msg.rejoiner}, reports);
      if me == msg.coordinator && complete {
        var plan := MergeReports(reports);
        installed := msg.view;
        dead := dead - {msg.rejoiner};
        acts := [ApplyPlan(plan),
                 Send(ReadmitInstalling(msg.view, msg.coordinator, msg.rejoiner, plan, msg.coordinator))];
      } else {
        acts := [Send(ReadmitGather(msg.view, msg.coordinator, msg.rejoiner, reports))];
      }
    }

    method ReceiveReadmitInstall(msg: Msg) returns (acts: seq<VcAction>)
      modifies this
      ensures VcEffect(Model(), acts) == OnReadmitInstall(old(Model()), msg)
    {
      if !msg.ReadmitInstalling? || msg.view <= installed { return []; }
      dead := dead - {msg.rejoiner};
      installed := msg.view;
      acts := [ApplyPlan(msg.plan), Send(msg)];
    }
  }
}
