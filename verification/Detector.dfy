// The failure detector: strikes accrue per process, a sign of life clears them,
// and enough of them confirm a crash for good.

module Detector {

  const U32_MAX: nat := 0xFFFF_FFFF

  /** Threshold and disconnect weight; the constructor insists on a positive threshold. */
  datatype Limits = Limits(threshold: nat, weight: nat)
  type Policy = c: Limits | 1 <= c.threshold <= U32_MAX && c.weight <= U32_MAX witness Limits(1, 1)

  datatype State = State(strikes: map<nat, nat>, confirmed: set<nat>)

  datatype Signal = GapHint(p: nat) | Disconnect(p: nat) | Alive(p: nat)

  datatype Verdict = Verdict(state: State, reported: seq<nat>)

  function Saturate(x: nat): nat { if x > U32_MAX then U32_MAX else x }

  function Suspicion(s: State, p: nat): nat { if p in s.strikes then s.strikes[p] else 0 }

  function AddStrikes(c: Policy, s: State, p: nat, n: nat): Verdict {
    if p in s.confirmed then Verdict(s, [])
    else
      var sum := Saturate(Suspicion(s, p) + n);
      if sum >= c.threshold then Verdict(State(s.strikes - {p}, s.confirmed + {p}), [p])
      else Verdict(State(s.strikes[p := sum], s.confirmed), [])
  }

  function NoteAlive(s: State, p: nat): State {
    if p in s.confirmed then s else State(s.strikes - {p}, s.confirmed)
  }

  function Hear(c: Policy, s: State, sig: Signal): Verdict {
    match sig
    case GapHint(p) => AddStrikes(c, s, p, 1)
    case Disconnect(p) => AddStrikes(c, s, p, c.weight)
    case Alive(p) => Verdict(NoteAlive(s, p), [])
  }

  class FailureDetector {
    const policy: Policy
    var strikes: map<nat, nat>
    var confirmed: set<nat>

    ghost function Model(): State
      reads this
    {
      State(strikes, confirmed)
    }

    constructor (policy: Policy)
      ensures this.policy == policy && Model() == State(map[], {})
    {
      this.policy, strikes, confirmed := policy, map[], {};
    }

    /** `Some(victim)` is `[victim]`, `None` is `[]`. */
    method Strike(victim: nat, n: nat) returns (reported: seq<nat>)
      modifies this
      ensures Verdict(Model(), reported) == AddStrikes(policy, old(Model()), victim, n)
    {
      if victim in confirmed { return []; }
      var count := if victim in strikes then strikes[victim] else 0;
      count := Saturate(count + n);
      if count >= policy.threshold {
        strikes := strikes - {victim};
        confirmed := confirmed + {victim};
        reported := [victim];
      } else {
        strikes := strikes[victim := count];
        reported := [];
      }
    }

    method RecordGapHint(victim: nat) returns (reported: seq<nat>)
      modifies this
      ensures Verdict(Model(), reported) == Hear(policy, old(Model()), GapHint(victim))
    {
      reported := Strike(victim, 1);
    }

    method RecordDisconnect(victim: nat) returns (reported: seq<nat>)
      modifies this
      ensures Verdict(Model(), reported) == Hear(policy, old(Model()), Disconnect(victim))
    {
      reported := Strike(victim, policy.weight);
    }

    method HeardFrom(p: nat)
      modifies this
      ensures Verdict(Model(), []) == Hear(policy, old(Model()), Alive(p))
    {
      if p !in confirmed { strikes := strikes - {p}; }
    }
  }

  // ----- histories -----

  function Run(c: Policy, h: seq<Signal>): Verdict {
    if h == [] then Verdict(State(map[], {}), [])
    else
      var before := Run(c, h[..|h| - 1]);
      var v := Hear(c, before.state, h[|h| - 1]);
      Verdict(v.state, before.reported + v.reported)
  }

  /** What a signal counts against `p`. */
  function Weight(c: Policy, sig: Signal, p: nat): nat {
    if sig.p != p || sig.Alive? then 0 else if sig.GapHint? then 1 else c.weight
  }

  function Evidence(c: Policy, h: seq<Signal>, p: nat): nat {
    if h == [] then 0 else Evidence(c, h[..|h| - 1], p) + Weight(c, h[|h| - 1], p)
  }

  /** No sign of life from `p`. */
  predicate Silent(h: seq<Signal>, p: nat) { forall i :: 0 <= i < |h| ==> h[i] != Alive(p) }

  /** Some silent stretch of the history carries enough evidence against `p`. */
  ghost predicate Condemned(c: Policy, h: seq<Signal>, p: nat) {
    exists i, j :: 0 <= i <= j <= |h| && Silent(h[i..j], p) && Evidence(c, h[i..j], p) >= c.threshold
  }

  // ----- the accrual equals the evidence since the last sign of life -----

  function Since(c: Policy, h: seq<Signal>, p: nat): nat {
    if h == [] || h[|h| - 1] == Alive(p) then 0 else Since(c, h[..|h| - 1], p) + Weight(c, h[|h| - 1], p)
  }

  predicate Crossed(c: Policy, h: seq<Signal>, p: nat) {
    h != [] && (Crossed(c, h[..|h| - 1], p) || Since(c, h, p) >= c.threshold)
  }

  /** What one signal does to one process. */
  lemma HearAbout(c: Policy, s: State, sig: Signal, p: nat)
    ensures var v := Hear(c, s, sig); var sum := if sig == Alive(p) then 0 else Suspicion(s, p) + Weight(c, sig, p);
      if p in s.confirmed then p in v.state.confirmed && p !in v.reported && Suspicion(v.state, p) == Suspicion(s, p)
      else (Suspicion(s, p) < c.threshold ==>
              && (p in v.state.confirmed <==> sum >= c.threshold)
              && multiset(v.reported)[p] == (if sum >= c.threshold then 1 else 0)
              && Suspicion(v.state, p) == if sum < c.threshold then sum else 0)
  {
  }

  /** Accrual is exact, saturation included, and each confirmation is reported once. */
  lemma {:induction false} Accrual(c: Policy, h: seq<Signal>, p: nat)
    ensures p in Run(c, h).state.confirmed <==> Crossed(c, h, p)
    ensures p !in Run(c, h).state.confirmed ==> Suspicion(Run(c, h).state, p) == Since(c, h, p) < c.threshold
    ensures p in Run(c, h).state.confirmed ==> Suspicion(Run(c, h).state, p) == 0
    ensures multiset(Run(c, h).reported)[p] == if p in Run(c, h).state.confirmed then 1 else 0
  {
    if h != [] {
      Accrual(c, h[..|h| - 1], p);
      HearAbout(c, Run(c, h[..|h| - 1]).state, h[|h| - 1], p);
    }
  }

  lemma {:induction false} SinceIsLongest(c: Policy, h: seq<Signal>, p: nat, i: nat)
    requires i <= |h| && Silent(h[i..], p)
    ensures Evidence(c, h[i..], p) <= Since(c, h, p)
    decreases |h|
  {
    if i < |h| {
      var prev := h[..|h| - 1];
      assert h[i..][..|h[i..]| - 1] == prev[i..];
      assert h[i..][|h[i..]| - 1] == h[|h| - 1];
      SinceIsLongest(c, prev, p, i);
    }
  }

  lemma {:induction false} SinceIsStretch(c: Policy, h: seq<Signal>, p: nat) returns (i: nat)
    ensures i <= |h| && Silent(h[i..], p) && Evidence(c, h[i..], p) == Since(c, h, p)
  {
    i := |h|;
    if h != [] && h[|h| - 1] != Alive(p) {
      var prev := h[..|h| - 1];
      i := SinceIsStretch(c, prev, p);
      assert h[i..][..|h[i..]| - 1] == prev[i..];
      assert h[i..][|h[i..]| - 1] == h[|h| - 1];
      forall x | 0 <= x < |h[i..]| ensures h[i..][x] != Alive(p) {
        if x < |h[i..]| - 1 { assert h[i..][x] == prev[i..][x]; }
      }
    }
  }

  lemma {:induction false} CrossedPrefix(c: Policy, h: seq<Signal>, p: nat, j: nat)
    requires j <= |h| && Crossed(c, h[..j], p)
    ensures Crossed(c, h, p)
  {
    if j < |h| {
      assert h[..|h| - 1][..j] == h[..j];
      CrossedPrefix(c, h[..|h| - 1], p, j);
    } else {
      assert h[..j] == h;
    }
  }

  lemma CondemnedCrosses(c: Policy, h: seq<Signal>, p: nat, i: nat, j: nat)
    requires i <= j <= |h| && Silent(h[i..j], p) && Evidence(c, h[i..j], p) >= c.threshold
    ensures Crossed(c, h, p)
  {
    assert h[..j][i..] == h[i..j];
    SinceIsLongest(c, h[..j], p, i);
    CrossedPrefix(c, h, p, j);
  }

  lemma {:induction false} CrossedCondemns(c: Policy, h: seq<Signal>, p: nat)
    requires Crossed(c, h, p)
    ensures Condemned(c, h, p)
  {
    var prev := h[..|h| - 1];
    if Crossed(c, prev, p) {
      CrossedCondemns(c, prev, p);
      var i, j :| 0 <= i <= j <= |prev| && Silent(prev[i..j], p) && Evidence(c, prev[i..j], p) >= c.threshold;
      assert h[i..j] == prev[i..j];
    } else {
      var i := SinceIsStretch(c, h, p);
      assert h[i..|h|] == h[i..];
    }
  }

  /** Confirmed exactly when some stretch without a sign of life carries enough evidence. */
  lemma DetectorExact(c: Policy, h: seq<Signal>, p: nat)
    ensures p in Run(c, h).state.confirmed <==> Condemned(c, h, p)
  {
    Accrual(c, h, p);
    if Condemned(c, h, p) {
      var i, j :| 0 <= i <= j <= |h| && Silent(h[i..j], p) && Evidence(c, h[i..j], p) >= c.threshold;
      CondemnedCrosses(c, h, p, i, j);
    } else if Crossed(c, h, p) {
      CrossedCondemns(c, h, p);
    }
  }

  /** A confirmation is reported once and never taken back, however the history goes on. */
  lemma ConfirmedForGood(c: Policy, h: seq<Signal>, more: seq<Signal>, p: nat)
    requires p in Run(c, h).state.confirmed
    ensures p in Run(c, h + more).state.confirmed
    ensures multiset(Run(c, h).reported)[p] == 1 && multiset(Run(c, h + more).reported)[p] == 1
  {
    Accrual(c, h, p);
    assert (h + more)[..|h|] == h;
    CrossedPrefix(c, h + more, p, |h|);
    Accrual(c, h + more, p);
  }
}
