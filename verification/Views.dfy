// One node's view-change state over any sequence of confirmations and tokens, of
// any rounds, late or repeated: views only advance, each installed with one plan,
// and only the tokens about a process move it in or out of the dead set.

module Views {
  import opened Recovery
  import opened Operations
  import opened ViewChangeSpec
  import opened Circulation

  datatype VcInput = Confirms(victim: nat, report: Report) | Token(msg: Msg, report: Report)

  predicate Takes(vc: Vc, inp: VcInput) { inp.Token? ==> MsgFits(vc.n, inp.msg) && Fits(vc.n, inp.report) }

  function Take(vc: Vc, inp: VcInput): (e: VcEffect)
    requires Takes(vc, inp)
  {
    match inp
    case Confirms(victim, report) => OnConfirm(vc, victim, report)
    case Token(msg, report) => Handle(vc, msg, report)
  }

  ghost predicate VcRun(vc: Vc, ins: seq<VcInput>, vc': Vc)
    decreases |ins|
  {
    if ins == [] then vc' == vc
    else Takes(vc, ins[0]) && VcRun(Take(vc, ins[0]).vc, ins[1..], vc')
  }

  /** A token installs at most one plan, exactly when it advances the view, and then to its own view. */
  lemma TakeInstalls(vc: Vc, inp: VcInput)
    requires Takes(vc, inp)
    ensures var e := Take(vc, inp);
      && e.vc.me == vc.me && e.vc.n == vc.n && |Plans(e.acts)| <= 1 && |Tokens(e.acts)| <= 1
      && vc.installed <= e.vc.installed && (Plans(e.acts) != [] <==> vc.installed < e.vc.installed)
      && (Plans(e.acts) != [] ==> inp.Token? && e.vc.installed == inp.msg.view)
  {
    TokensOf(Take(vc, inp).acts);
  }

  /** The views this node installs, in order. */
  ghost function Installed(vc: Vc, ins: seq<VcInput>): seq<nat>
    decreases |ins|
  {
    if ins == [] || !Takes(vc, ins[0]) then []
    else
      var e := Take(vc, ins[0]);
      (if Plans(e.acts) != [] && ins[0].Token? then [ins[0].msg.view] else []) + Installed(e.vc, ins[1..])
  }

  /** In every run the views installed strictly ascend, from above the first to the last. */
  lemma {:induction false} ViewsAscend(vc: Vc, ins: seq<VcInput>, vc': Vc)
    requires VcRun(vc, ins, vc')
    ensures vc.installed <= vc'.installed && vc'.me == vc.me && vc'.n == vc.n
    ensures AscendingWithin(Installed(vc, ins), vc.installed + 1, vc'.installed + 1)
    decreases |ins|
  {
    if ins != [] {
      var e := Take(vc, ins[0]);
      TakeInstalls(vc, ins[0]);
      ViewsAscend(e.vc, ins[1..], vc');
      AscendingAppend(if Plans(e.acts) != [] then [ins[0].msg.view] else [], Installed(e.vc, ins[1..]),
                      vc.installed + 1, e.vc.installed + 1, vc'.installed + 1);
    }
  }

  /** A token of a view already installed is dropped, unanswered, for the rest of any run. */
  lemma StaleForever(vc: Vc, ins: seq<VcInput>, vc': Vc, msg: Msg, report: Report)
    requires VcRun(vc, ins, vc') && msg.view <= vc.installed && MsgFits(vc.n, msg) && Fits(vc.n, report)
    ensures vc'.n == vc.n && Handle(vc', msg, report) == VcEffect(vc', [])
  {
    ViewsAscend(vc, ins, vc');
  }

  // ----- the dead set -----

  /** Says that `p` has crashed. */
  predicate Accuses(inp: VcInput, p: nat) {
    || (inp.Confirms? && inp.victim == p)
    || (inp.Token? && (inp.msg.Gather? || inp.msg.Installing?) && inp.msg.victim == p)
  }

  /** Asks for `p` back. */
  predicate Recalls(inp: VcInput, p: nat) {
    inp.Token? && (inp.msg.ReadmitGather? || inp.msg.ReadmitInstalling?) && inp.msg.rejoiner == p
  }

  /** A confirmation or a new view's token puts its victim in; only an installed re-admission takes a process out. */
  lemma TakeDead(vc: Vc, inp: VcInput, p: nat)
    requires Takes(vc, inp)
    ensures var e := Take(vc, inp);
      && (p !in vc.dead ==>
            (p in e.vc.dead <==> Accuses(inp, p) && (inp.Confirms? || inp.msg.view > vc.installed)))
      && (p in vc.dead ==>
            (p !in e.vc.dead <==> Recalls(inp, p) && e.vc.installed > vc.installed))
  {
  }

  /** In every run a process nobody recalls stays dead, and one nobody accuses stays live. */
  lemma {:induction false} DeadInRun(vc: Vc, ins: seq<VcInput>, vc': Vc, p: nat)
    requires VcRun(vc, ins, vc')
    ensures p in vc.dead && (forall inp :: inp in ins ==> !Recalls(inp, p)) ==> p in vc'.dead
    ensures p !in vc.dead && (forall inp :: inp in ins ==> !Accuses(inp, p)) ==> p !in vc'.dead
    decreases |ins|
  {
    if ins != [] {
      assert forall inp :: inp in ins[1..] ==> inp in ins;
      assert ins[0] in ins;
      TakeDead(vc, ins[0], p);
      DeadInRun(Take(vc, ins[0]).vc, ins[1..], vc', p);
    }
  }
}
