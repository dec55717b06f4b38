// What excluding a victim does to a survivor for good: the mark in its delivery
// condition and the hop around the dead process.

module Exclusion {
  import opened Kernel
  import opened Recovery
  import opened ViewChangeSpec
  import opened Successor
  import opened Round

  /** The survivor has been told of the crash exactly when the victim is out everywhere. */
  ghost predicate MarkedOut(v: nat, m0: Member, m: Member) {
    && MemberWf(m) && m.vc.me == m0.vc.me && m.vc.n == m0.vc.n
    && m.core.crashed == (if v in m.dead then m0.core.crashed + {v} else m0.core.crashed)
    && m.succ == (if v in m.dead then NextAlive(m.vc.me, m.vc.n, m.dead) else m0.succ)
  }

  lemma ExcludeMarks(v: nat, m0: Member, m: Member)
    requires MarkedOut(v, m0, m)
    ensures MarkedOut(v, m0, Exclude(m, v))
  {
  }

  lemma AdoptMarks(v: nat, m0: Member, m: Member, plan: Plan)
    requires MarkedOut(v, m0, m) && PlanFor(m.core.ring.n, plan)
    ensures MarkedOut(v, m0, Adopt(m, plan))
  {
  }

  lemma {:induction false} ExecuteMarks(v: nat, m0: Member, m: Member, acts: seq<VcAction>)
    requires MarkedOut(v, m0, m) && ActsFit(m.core.ring.n, acts)
    ensures MarkedOut(v, m0, Execute(m, acts))
    decreases |acts|
  {
    if acts != [] {
      if acts[0].ApplyPlan? { AdoptMarks(v, m0, m, acts[0].plan); }
      ExecuteMarks(v, m0, if acts[0].ApplyPlan? then Adopt(m, acts[0].plan) else m, acts[1..]);
    }
  }

  lemma RespondsMarks(g: Ground, m0: Member, m: Member, ev: RoundEvent)
    requires MarkedOut(g.victim, m0, m)
    requires ev.Receives? ==> TokenWf(m.core.ring.n, ev.msg) && ev.msg.victim == g.victim
    requires ev.Steps? ==> Accepts(m.core, ev.input)
    ensures MarkedOut(g.victim, m0, Responds(g, m, ev).member)
  {
    var m1 := Exclude(m, g.victim);
    ExcludeMarks(g.victim, m0, m);
    match ev
    case Detects(_) =>
      var e := OnConfirm(m1.vc, g.victim, ReportOf(m1.core));
      ExecuteMarks(g.victim, m0, m1.(vc := e.vc), e.acts);
    case Receives(_, msg) =>
      var e := React(m1.vc, msg, ReportOf(m1.core));
      ExecuteMarks(g.victim, m0, m1.(vc := e.vc), e.acts);
    case Steps(_, _) =>
  }

  ghost predicate AllMarked(g: Ground, s0: State, s: State) {
    |s0.ms| == |s.ms| == g.ring.n && forall p :: p in Survivors(g) ==> MarkedOut(g.victim, s0.ms[p], s.ms[p])
  }

  lemma {:induction false} RunMarks(g: Ground, s0: State, s: State, evs: seq<RoundEvent>, s': State)
    requires Inv(g, s) && AllMarked(g, s0, s) && RoundRuns(g, s, evs, s')
    ensures AllMarked(g, s0, s') && Inv(g, s')
    decreases |evs|
  {
    if evs != [] {
      NextInv(g, s, evs[0]);
      NextMarks(g, s0, s, evs[0]);
      RunMarks(g, s0, RoundNext(g, s, evs[0]), evs[1..], s');
    }
  }

  lemma NextMarks(g: Ground, s0: State, s: State, ev: RoundEvent)
    requires Inv(g, s) && AllMarked(g, s0, s) && Possible(g, s, ev)
    ensures AllMarked(g, s0, RoundNext(g, s, ev))
  {
    assert ev.Receives? ==> MsgOk(g, s.ms, ev.msg);
    RespondsMarks(g, s0.ms[ev.p], s.ms[ev.p], ev);
  }

  /** The process next after `p` on the cycle of survivors. */
  ghost predicate NextSurvivor(g: Ground, p: nat, q: nat) {
    exists i :: var order := LiveOrder(g.ring.n, g.dead + {g.victim});
      0 <= i < |order| && order[i] == p && order[After(i, |order|)] == q
  }

  lemma SuccessorSurvives(g: Ground, p: nat)
    requires p in Survivors(g)
    ensures var q := NextAlive(p, g.ring.n, g.dead + {g.victim});
      && NextSurvivor(g, p, q) && q in Survivors(g)
      && (Survivors(g) != {p} ==> q != p)
  {
    var gone := g.dead + {g.victim};
    var t := TourShape(g.ring.n, gone, LiveOrder(g.ring.n, gone));
    LiveOrderIsTour(g.ring.n, gone, p);
    var i :| 0 <= i < |t.order| && t.order[i] == p;
    SingleCycle(t, i);
    var j := After(i, |t.order|);
    assert t.order[j] in t.order;
    if Survivors(g) != {p} {
      var q :| q in Survivors(g) && q != p;
      assert q in t.order;
    }
  }

  /** What a survivor makes of the crash. */
  ghost predicate KnowsWhoIsOut(g: Ground, m0: Member, m: Member, p: nat) {
    && (m.applied != [] ==> g.victim in m.dead)
    && (g.victim !in m.dead ==> m.core.crashed == m0.core.crashed && m.succ == m0.succ)
    && (g.victim in m.dead ==>
          && m.dead == g.dead + {g.victim} && m.core.crashed == m0.core.crashed + {g.victim}
          && NextSurvivor(g, p, m.succ) && m.succ in Survivors(g) && (Survivors(g) != {p} ==> m.succ != p))
  }

  lemma MarkedKnows(g: Ground, m0: Member, m: Member, p: nat)
    requires MemberOk(g, m, p) && MarkedOut(g.victim, m0, m) && p in Survivors(g)
    ensures KnowsWhoIsOut(g, m0, m, p)
  {
    SuccessorSurvives(g, p);
  }

  /**
   * In every state a round reaches, a survivor that knows of the crash has the
   * victim among the crashed, beside those it had before and nobody else, before
   * and after it applies the plan; and it sends to the next survivor on the one
   * cycle they all form, never to a dead process.
   */
  lemma VictimOutForGood(g: Ground, s0: State, evs: seq<RoundEvent>, s: State, p: nat)
    requires RoundStart(g, s0) && RoundRuns(g, s0, evs, s) && p in Survivors(g)
    ensures |s0.ms| == |s.ms| == g.ring.n && p < g.ring.n && KnowsWhoIsOut(g, s0.ms[p], s.ms[p], p)
  {
    StartInv(g, s0);
    RunMarks(g, s0, s0, evs, s);
    assert MemberInv(g, s.ms, p);
    MarkedKnows(g, s0.ms[p], s.ms[p], p);
  }
}
