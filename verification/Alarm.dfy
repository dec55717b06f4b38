// The clock check as a crash hint: raised exactly when a clock has been skipped,
// and never on a ring that works.

module Alarm {
  import opened Types
  import opened Kernel
  import opened TokenRing

  predicate Between(prev: nat, c: nat, clock: nat) { prev < c < clock }

  /** Some clock of that issuer lies between the last one seen and this one. */
  ghost predicate Skips(prev: nat, clock: nat) { exists c :: Between(prev, c, clock) }

  /** A gap names exactly the clocks skipped; without one, the clock is the next or an old one. */
  lemma CheckClockMeans(prev: nat, clock: nat)
    ensures var check := CheckClock(prev, clock);
      && (check.Gap? <==> Skips(prev, clock))
      && (check.Gap? ==> forall c: nat :: Between(prev, c, clock) <==> check.expected <= c < check.received)
      && (check.Duplicate? <==> clock <= prev)
  {
    assert prev + 1 < clock ==> Between(prev, prev + 1, clock);
  }

  lemma OutputSplit(a: seq<Output>, t: Train, b: seq<Output>, o: Output)
    requires o.DeclareCrash? && forall x :: x in b ==> x.Deliver?
    ensures o in a + [ForwardTrain(t)] + b <==> o in a
  {
  }

  /** A node raises the alarm about an issuer exactly when that issuer's train shows that a clock was skipped. */
  lemma AlarmIff(s: Node, t: Train, q: nat)
    requires Wf(s) && t.issuer < s.ring.n
    ensures DeclareCrash(q) in Step(s, TrainReceived(t)).out <==>
      q == t.issuer != s.id && !Fenced(s, t) && Skips(s.seen[t.issuer], t.clock)
  {
    var o, prev := DeclareCrash(q), s.seen[t.issuer];
    CheckClockMeans(prev, t.clock);
    if Fenced(s, t) {
    } else if t.issuer == s.id {
      var s1 := s.(seen := Bump(s.seen, s.id, t.clock));
      if t.Key() !in s.done {
        var r1 := TryDeliver(s1, t);
        assert o !in r1.out + Drain(r1.node).out;
      }
    } else if IsReplay(s, t) {
      var r1 := TryDeliver(s.(known := s.known + Ids(t.payloads)), t);
      OutputSplit(r1.out, t, Drain(r1.node).out, o);
    } else {
      var gap := if CheckClock(prev, t.clock).Gap? then [DeclareCrash(t.issuer)] else [];
      OutputSplit(gap, Loaded(s, t), Drain(AfterLoad(s, t)).out, o);
    }
  }

  /** On the ring nobody ever raises it. */
  lemma NoFalseAlarm(rs: LiveRing, q: nat, accused: nat)
    requires q < |rs.at|
    ensures Receiver(rs, q) < |rs.sys.nodes| && rs.at[q].train.issuer < rs.sys.ring.n
    ensures DeclareCrash(accused) !in Step(rs.sys.nodes[Receiver(rs, q)], TrainReceived(rs.at[q].train)).out
  {
    assert TokenOk(rs, q);
    var p := Receiver(rs, q);
    assert VisitOk(rs.sys.nodes[p], rs.at[q], Offset(rs.sys.ring.n, q, p));
    AlarmIff(rs.sys.nodes[p], rs.at[q].train, accused);
  }
}
