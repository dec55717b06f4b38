// The node binary's event loop around the core and the view-change state:
// exclude a victim, hand tokens to the state machine, carry out its actions.

module Driver {
  import opened Types
  import opened Kernel
  import opened LocalOrder
  import opened Recovery
  import opened Operations
  import opened ViewChangeSpec
  import opened Successor
  import opened TrainsNodeClass
  import opened ViewChangeClass
  import Round

  class NodeDriver {
    const core: TrainsNode
    const vc: ViewChange
    var dead: set<nat>
    var succ: nat
    /** History of what was applied to which core. */
    ghost var applied: seq<Round.Applied>

    ghost predicate Valid()
      reads this, core, core.seen, core.floor, vc
    {
      core.Valid() && Sound(core.Model()) && vc.me == core.id && vc.n == core.ring.n
    }

    ghost function Model(): (m: Round.Member)
      requires Valid()
      reads this, core, core.seen, core.floor, vc
      ensures Round.MemberWf(m)
    {
      Round.Member(core.Model(), vc.Model(), dead, succ, applied)
    }

    constructor (ring: Ring, id: nat, mode: Mode)
      requires id < ring.n
      ensures Valid() && fresh(core) && fresh(core.seen) && fresh(core.floor) && fresh(vc)
      ensures Model() == Round.Member(Fresh(ring, id, mode), Vc(id, ring.n, 0, {}), {}, NextAlive(id, ring.n, {}), [])
    {
      core := new TrainsNode(ring, id, mode);
      vc := new ViewChange(id, ring.n);
      dead, applied := {}, [];
      succ := (id + 1) % ring.n;
      new;
      StepRound(id, ring.n);
    }

    method ExcludeVictim(victim: nat)
      requires Valid()
      modifies this, core
      ensures Valid() && Model() == Round.Exclude(old(Model()), victim)
    {
      if victim in dead { return; }
      dead := dead + {victim};
      ghost var s := core.Model();
      core.SetFrozen(true);
      AdvanceTidy(s, core.Model());
      var _ := core.ConfirmCrashed(victim);
      PerformSound(Freeze(s), Confirm(victim));
      var next := FindNextAlive(core.id, core.ring.n, dead);
      if next != succ { succ := next; }
    }

    /** Apply the plan and, on an issuer, put a fresh train on the ring. */
    method AdoptPlan(plan: Plan) returns (trains: seq<Train>, shown: seq<Payload>)
      requires Valid() && PlanFor(core.ring.n, plan)
      modifies this, core, core.seen, core.floor
      ensures Valid() && Model() == Round.Adopt(old(Model()), plan)
      ensures trains == Round.FreshTrain(old(core.Model()), plan)
      ensures shown == Delivered(Apply(old(core.Model()), plan).out)
    {
      ghost var s := core.Model();
      applied := applied + [Round.Applied(plan, s)];
      var out := core.ApplyRecovery(plan);
      shown := Delivered(out);
      Round.FreshTrainIssued(s, plan);
      trains := [];
      if core.id < core.ring.k {
        Round.ReissuedSound(core.Model());
        var t := core.IssueNewTrain();
        trains := [t];
      }
    }

    /** Carry out the actions in order: tokens on one channel, trains on the other. */
    method Perform(acts: seq<VcAction>) returns (sent: seq<Msg>, trains: seq<Train>, shown: seq<Payload>)
      requires Valid() && Round.ActsFit(core.ring.n, acts)
      modifies this, core, core.seen, core.floor
      ensures Valid() && Model() == Round.Execute(old(Model()), acts)
      ensures sent == Tokens(acts) && trains == Round.Reissues(old(Model()), acts)
      ensures shown == Round.Shown(old(Model()), acts)
    {
      sent, trains, shown := [], [], [];
      ghost var start := Model();
      for i := 0 to |acts|
        invariant Valid() && Carrying(start, acts, Model(), acts[i..], sent, trains, shown)
      {
        CarryTurn(start, acts, Model(), acts[i..], sent, trains, shown);
        assert acts[i..][1..] == acts[i + 1..] && acts[i..][0] == acts[i];
        match acts[i] {
          case Send(msg) => sent := sent + [msg];
          case ApplyPlan(plan) =>
            var more, delivered := AdoptPlan(plan);
            trains, shown := trains + more, shown + delivered;
        }
      }
      NothingAfter(sent);
      NothingAfter(trains);
      NothingAfter(shown);
    }

    /** The local detector has confirmed a crash. */
    method CrashConfirmed(victim: nat) returns (sent: seq<Msg>, trains: seq<Train>, shown: seq<Payload>)
      requires Valid()
      modifies this, core, core.seen, core.floor, vc
      ensures Valid() && Round.Reaction(Model(), set m | m in sent) == Round.Detect(old(Model()), victim)
      ensures |sent| <= 1 && trains == [] && shown == []
    {
      ExcludeVictim(victim);
      var report := core.RecoveryReport();
      ghost var m1 := Model();
      var acts := vc.Confirm(victim, report);
      assert Model() == m1.(vc := vc.Model());
      Round.SentIsTokens(acts);
      Round.OneSend(Model(), acts);
      sent, trains, shown := Perform(acts);
    }

    /** A view-change token has arrived; this driver ignores those of a re-admission. */
    method HandleToken(msg: Msg) returns (sent: seq<Msg>, trains: seq<Train>, shown: seq<Payload>)
      requires Valid() && (msg.Gather? || msg.Installing? ==> Round.TokenWf(core.ring.n, msg))
      modifies this, core, core.seen, core.floor, vc
      ensures Valid()
      ensures msg.Gather? || msg.Installing? ==>
        Round.Reaction(Model(), set m | m in sent) == Round.Receive(old(Model()), msg)
      ensures |sent| <= 1
      ensures msg.Gather? || msg.Installing? ==>
        Round.AdoptsOnce(old(Model()), msg, Model(), trains, shown)
      ensures !msg.Gather? && !msg.Installing? ==> Model() == old(Model()) && sent == [] && trains == [] && shown == []
    {
      if !msg.Gather? && !msg.Installing? { return [], [], []; }
      ExcludeVictim(msg.victim);
      var report := core.RecoveryReport();
      ghost var m1 := Model();
      ghost var e := Round.React(m1.vc, msg, report);
      Round.ReactionAdoptsOnce(old(Model()), msg);
      var acts;
      if msg.Gather? {
        acts := vc.ReceiveGather(msg, report);
      } else {
        acts := vc.ReceiveInstall(msg);
      }
      assert Model() == m1.(vc := e.vc);
      Round.SentIsTokens(acts);
      sent, trains, shown := Perform(acts);
    }
  }

  /** Carrying out `rest` from `m` completes carrying out `acts` from `start`. */
  ghost predicate Carrying(start: Round.Member, acts: seq<VcAction>, m: Round.Member, rest: seq<VcAction>,
                           sent: seq<Msg>, trains: seq<Train>, shown: seq<Payload>) {
    && Round.MemberWf(start) && Round.MemberWf(m)
    && Round.ActsFit(start.core.ring.n, acts) && Round.ActsFit(m.core.ring.n, rest)
    && Round.Execute(start, acts) == Round.Execute(m, rest)
    && Tokens(acts) == sent + Tokens(rest)
    && Round.Reissues(start, acts) == trains + Round.Reissues(m, rest)
    && Round.Shown(start, acts) == shown + Round.Shown(m, rest)
  }

  lemma CarryTurn(start: Round.Member, acts: seq<VcAction>, m: Round.Member, rest: seq<VcAction>,
                  sent: seq<Msg>, trains: seq<Train>, shown: seq<Payload>)
    requires Carrying(start, acts, m, rest, sent, trains, shown) && rest != []
    ensures rest[0].Send? ==> Carrying(start, acts, m, rest[1..], sent + [rest[0].msg], trains, shown)
    ensures rest[0].ApplyPlan? ==>
      Carrying(start, acts, Round.Adopt(m, rest[0].plan), rest[1..], sent,
               trains + Round.FreshTrain(m.core, rest[0].plan),
               shown + Delivered(Apply(m.core, rest[0].plan).out))
  {
    if rest[0].Send? {
      Assoc(sent, [rest[0].msg], Tokens(rest[1..]));
    } else {
      var m1 := Round.Adopt(m, rest[0].plan);
      Assoc(trains, Round.FreshTrain(m.core, rest[0].plan), Round.Reissues(m1, rest[1..]));
      Assoc(shown, Delivered(Apply(m.core, rest[0].plan).out), Round.Shown(m1, rest[1..]));
      assert [] + Tokens(rest[1..]) == Tokens(rest[1..]);
    }
  }
}
