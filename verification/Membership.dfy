// Who must acknowledge a train: confirming a crash takes a process out of the
// delivery condition, re-admission puts it back in.

module Membership {
  import opened Types
  import opened Kernel
  import opened LocalOrder
  import opened Operations
  import opened TokenRing

  // ----- one confirmation, one re-admission -----

  /** Re-admitting a process makes it, and nobody else, a member again. */
  lemma ReadmitStanding(s: Node, p: nat)
    requires p < s.ring.n
    ensures Members(s.ring, Readmit(s, p).crashed) == Members(s.ring, s.crashed) + {p}
    ensures Readmit(s, p) == s.(crashed := Readmit(s, p).crashed)
    ensures forall acks :: s.mode == TotalOrder ==>
      (Ready(Readmit(s, p), acks) <==> p in acks && Ready(s, acks + {p}))
  {
    var s' := Readmit(s, p);
    assert Members(s.ring, s'.crashed) == Members(s.ring, s.crashed) + {p};
    forall acks | s.mode == TotalOrder ensures Ready(s', acks) <==> p in acks && Ready(s, acks + {p}) {
      assert p in Members(s.ring, s'.crashed);
      assert forall q :: q in Members(s.ring, s.crashed) ==> q in Members(s.ring, s'.crashed);
      assert forall q :: q in Members(s.ring, s'.crashed) ==> q == p || q in Members(s.ring, s.crashed);
    }
  }

  /** Confirming a crash makes that process's ack, and nobody else's, immaterial. */
  lemma ConfirmStanding(s: Node, p: nat)
    requires Wf(s)
    ensures var s' := ConfirmCrash(s, p).node;
      && Members(s.ring, s'.crashed) == Members(s.ring, s.crashed) - {p}
      && forall acks :: s.mode == TotalOrder ==> (Ready(s', acks) <==> Ready(s, acks + {p}))
  {
  }

  /**
   * Re-admission undoes a confirmation's mark, and only the mark: what the
   * confirmation let out stays recorded.  It leaves no trace exactly when the
   * confirmation let nothing out.
   */
  lemma ReadmitUndoesConfirm(s: Node, p: nat)
    requires Tidy(s) && p !in s.crashed
    ensures var gone := s.(crashed := s.crashed + {p}); var back := Readmit(ConfirmCrash(s, p).node, p);
      && back == ConfirmCrash(s, p).node.(crashed := s.crashed)
      && (back == s <==> s.frozen || s.parked == map[] || !Deliverable(gone, Min(s.parked.Keys)))
  {
    var gone := s.(crashed := s.crashed + {p});
    var back := Readmit(ConfirmCrash(s, p).node, p);
    assert back.crashed == s.crashed;
    if !s.frozen && s.parked != map[] && Deliverable(gone, Min(s.parked.Keys)) {
      assert Held(s, Min(s.parked.Keys));
      assert Min(s.parked.Keys) in back.done;
    }
  }

  /** A process that issues no trains can be confirmed and re-admitted without a trace. */
  lemma NonIssuerLeavesNoTrace(s: Node, p: nat)
    requires Sound(s) && s.ring.k <= p && p !in s.crashed
    ensures Readmit(ConfirmCrash(s, p).node, p) == s && ConfirmCrash(s, p).out == []
  {
    ReadmitUndoesConfirm(s, p);
    var gone := s.(crashed := s.crashed + {p});
    if !s.frozen && s.parked != map[] {
      var k := Min(s.parked.Keys);
      assert !Deliverable(s, k);
      assert KnownBeforeDone(gone, k) == KnownBeforeDone(s, k) && ClocksCaughtUp(gone, k) == ClocksCaughtUp(s, k);
    }
  }

  // ----- over whole runs -----

  /** The last word of a run on `p` is that it is out; or there is none, and it was out before. */
  ghost predicate LeftOut(before: bool, ops: seq<Op>, p: nat) {
    || (before && Admit(p) !in ops)
    || exists i :: 0 <= i < |ops| && ops[i] == Confirm(p) && Admit(p) !in ops[i + 1..]
  }

  lemma LeftOutStep(before: bool, ops: seq<Op>, p: nat)
    requires ops != []
    ensures LeftOut(before, ops, p) <==> LeftOut(ops[0] == Confirm(p) || (before && ops[0] != Admit(p)), ops[1..], p)
  {
    var rest := ops[1..];
    assert ops == [ops[0]] + rest;
    forall i | 0 <= i < |rest| ensures rest[i] == ops[i + 1] && rest[i + 1..] == ops[i + 2..] { }
    if i :| 0 <= i < |ops| && ops[i] == Confirm(p) && Admit(p) !in ops[i + 1..] {
      if i > 0 { assert rest[i - 1] == Confirm(p) && Admit(p) !in rest[i..]; }
    }
    if i :| 0 <= i < |rest| && rest[i] == Confirm(p) && Admit(p) !in rest[i + 1..] {
      assert ops[i + 1] == Confirm(p) && Admit(p) !in ops[i + 2..];
    }
  }

  lemma PerformStanding(s: Node, op: Op, p: nat)
    requires Allowed(s, op)
    ensures p in Perform(s, op).node.crashed <==> op == Confirm(p) || (p in s.crashed && op != Admit(p))
  {
  }

  /** In every run, steps and view changes included, a process is out exactly when the last word on it says so. */
  lemma {:induction false} StandingInRun(s: Node, ops: seq<Op>, s': Node, p: nat)
    requires Wf(s) && OpRun(s, ops, s')
    ensures p in s'.crashed <==> LeftOut(p in s.crashed, ops, p)
    decreases |ops|
  {
    if ops != [] {
      PerformStanding(s, ops[0], p);
      LeftOutStep(p in s.crashed, ops, p);
      StandingInRun(Perform(s, ops[0]).node, ops[1..], s', p);
    }
  }

  /** Some train of this run brought `k` with `p`'s acknowledgement on it. */
  ghost predicate Brought(ops: seq<Op>, k: Key, p: nat) {
    exists t: Train :: Do(TrainReceived(t)) in ops && t.Key() == k && p in t.acks
  }

  lemma PerformBrings(s: Node, op: Op, k: Key, p: nat)
    requires Allowed(s, op) && !op.Install? && s.mode == TotalOrder && p < s.ring.n && p !in s.crashed
    requires Handled(Perform(s, op).node, k) && !Handled(s, k)
    ensures op.Do? && op.input.TrainReceived? && op.input.train.Key() == k && p in op.input.train.acks
  {
    if op.Confirm? {
      DrainNewHandled(s.(crashed := s.crashed + {op.p}), k);
    } else if op.Do? && op.input.TrainReceived? {
      StepNewHandled(s, op.input.train, k);
      if !Ready(s, op.input.train.acks) { UnreadyHandlesNothing(s, op.input.train, k); }
      assert p in Members(s.ring, s.crashed);
    }
  }

  /**
   * A member must acknowledge: in every run that never confirms `p`, each key
   * newly recorded or parked other than by a plan came on a train `p` had acked.
   */
  lemma {:induction false} MembersMustAck(s: Node, ops: seq<Op>, s': Node, k: Key, p: nat)
    requires Wf(s) && OpRun(s, ops, s') && s.mode == TotalOrder && p < s.ring.n && p !in s.crashed
    requires Confirm(p) !in ops && forall op :: op in ops ==> !op.Install?
    requires Handled(s', k) && !Handled(s, k)
    ensures Brought(ops, k, p)
    decreases |ops|
  {
    if ops != [] {
      var s1, rest := Perform(s, ops[0]).node, ops[1..];
      PerformStanding(s, ops[0], p);
      assert forall op :: op in rest ==> op in ops;
      if Handled(s1, k) {
        PerformBrings(s, ops[0], k, p);
        assert Do(TrainReceived(ops[0].input.train)) in ops;
      } else {
        MembersMustAck(s1, rest, s', k, p);
      }
    }
  }

  /** So must a re-admitted process: nothing goes through without its acknowledgement again. */
  lemma ReadmittedMustAck(s: Node, ops: seq<Op>, s': Node, k: Key, p: nat)
    requires Wf(s) && OpRun(Readmit(s, p), ops, s') && s.mode == TotalOrder && p < s.ring.n
    requires Confirm(p) !in ops && forall op :: op in ops ==> !op.Install?
    requires Handled(s', k) && !Handled(s, k)
    ensures Brought(ops, k, p)
  {
    MembersMustAck(Readmit(s, p), ops, s', k, p);
  }

  /** A process confirmed crashed need not: a train everybody else has acked is as good as ready. */
  lemma ConfirmedNeedNotAck(s: Node, t: Train, p: nat)
    requires Wf(s) && s.mode == TotalOrder && !s.frozen && t.issuer < s.ring.n
    requires Members(s.ring, s.crashed) - {p} <= t.acks
    requires var s' := ConfirmCrash(s, p).node; !Fenced(s', t) && (t.issuer == s.id || IsReplay(s', t))
    ensures Handled(Step(ConfirmCrash(s, p).node, TrainReceived(t)).node, t.Key())
  {
    var s' := ConfirmCrash(s, p).node;
    ConfirmStanding(s, p);
    if t.Key() !in s'.done {
      var s1 := if t.issuer == s.id then s'.(seen := Bump(s'.seen, s'.id, t.clock))
                else s'.(known := s'.known + Ids(t.payloads));
      ClosedIsHandled(s1, t);
      DrainKeepsHandled(TryDeliver(s1, t).node, t.Key());
    } else {
      StepKeepsHandled(s', t, t.Key());
    }
  }
}
