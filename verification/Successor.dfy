// The successor search links the live processes into one cycle.

module Successor {
  import opened Types

  function After(p: nat, n: nat): (r: nat)
    requires p < n
    ensures r < n
  {
    if p + 1 == n then 0 else p + 1
  }

  function Scan(j: nat, me: nat, n: nat, gone: set<nat>): (r: nat)
    requires j < n && me < n
    ensures r < n
    decreases Offset(n, j, me)
  {
    if j in gone && j != me then Scan(After(j, n), me, n, gone) else j
  }

  function NextAlive(me: nat, n: nat, gone: set<nat>): (r: nat)
    requires me < n
    ensures r < n
  {
    Scan(After(me, n), me, n, gone)
  }

  lemma StepRound(p: nat, n: nat)
    requires p < n
    ensures (p + 1) % n == After(p, n)
  {
    if p + 1 < n { assert (p + 1) / n == 0; }
  }

  method FindNextAlive(me: nat, n: nat, gone: set<nat>) returns (j: nat)
    requires me < n
    ensures j == NextAlive(me, n, gone)
  {
    StepRound(me, n);
    j := (me + 1) % n;
    while j in gone && j != me
      invariant j < n && Scan(j, me, n, gone) == NextAlive(me, n, gone)
      decreases Offset(n, j, me)
    {
      StepRound(j, n);
      j := (j + 1) % n;
    }
  }

  /** The scan stops at the first process that is live, or at `me`. */
  lemma {:induction false} ScanStops(j: nat, me: nat, n: nat, gone: set<nat>, r: nat)
    requires j < n && me < n && r < n && (r !in gone || r == me)
    requires forall x :: 0 <= x < n && Offset(n, j, x) < Offset(n, j, r) ==> x in gone && x != me
    ensures Scan(j, me, n, gone) == r
    decreases Offset(n, j, r)
  {
    if j != r {
      assert Offset(n, j, j) < Offset(n, j, r);
      var j' := After(j, n);
      assert Offset(n, j', r) == Offset(n, j, r) - 1;
      forall x | 0 <= x < n && Offset(n, j', x) < Offset(n, j', r) ensures x in gone && x != me {
        assert Offset(n, j, x) < Offset(n, j, r);
      }
      ScanStops(j', me, n, gone, r);
    }
  }

  // ----- the cycle of live processes -----

  /** `order` lists the processes of `0..n` outside `gone`, lowest first. */
  datatype TourShape = TourShape(n: nat, gone: set<nat>, order: seq<nat>)

  predicate Ascending(s: seq<nat>) { forall i, j :: 0 <= i < j < |s| ==> s[i] < s[j] }

  ghost predicate IsTour(t: TourShape) {
    && |t.order| > 0 && Ascending(t.order)
    && (forall p :: p in t.order <==> 0 <= p < t.n && p !in t.gone)
  }

  lemma OneMember()
    ensures IsTour(TourShape(1, {}, [0]))
  {
    assert [0][0] == 0;
  }

  /** The processes of `0..n` outside `gone`, lowest first. */
  function LiveOrder(n: nat, gone: set<nat>): (order: seq<nat>)
    ensures Ascending(order) && forall p :: p in order <==> 0 <= p < n && p !in gone
  {
    if n == 0 then []
    else
      var below := LiveOrder(n - 1, gone);
      assert forall i :: 0 <= i < |below| ==> below[i] in below;
      if n - 1 in gone then below else below + [n - 1]
  }

  lemma LiveOrderIsTour(n: nat, gone: set<nat>, p: nat)
    requires p < n && p !in gone
    ensures IsTour(TourShape(n, gone, LiveOrder(n, gone)))
  {
    assert p in LiveOrder(n, gone);
  }

  lemma OrderBounds(t: TourShape, i: nat)
    requires IsTour(t) && i < |t.order|
    ensures t.order[i] < t.n && t.order[i] !in t.gone
  {
    assert t.order[i] in t.order;
  }

  /** Nobody live sits strictly between two neighbours, or outside the ends. */
  lemma NobodyBetween(t: TourShape, i: nat, x: nat)
    requires IsTour(t) && i < |t.order| && x < t.n
    requires t.order[i] < x && (i + 1 < |t.order| ==> x < t.order[i + 1])
    ensures x in t.gone
  {
    forall j | 0 <= j < |t.order| ensures t.order[j] != x {
      if j <= i {
        assert t.order[j] <= t.order[i];
      } else {
        assert t.order[i + 1] <= t.order[j];
      }
    }
    assert x !in t.order;
  }

  lemma NobodyBelow(t: TourShape, x: nat)
    requires IsTour(t) && x < t.order[0] && x < t.n
    ensures x in t.gone
  {
    forall j | 0 <= j < |t.order| ensures t.order[j] != x { assert t.order[0] <= t.order[j]; }
    assert x !in t.order;
  }

  /** Following the successor search walks `order` round and round: one cycle, everybody on it. */
  lemma SingleCycle(t: TourShape, i: nat)
    requires IsTour(t) && i < |t.order|
    ensures t.order[i] < t.n
    ensures NextAlive(t.order[i], t.n, t.gone) == t.order[After(i, |t.order|)]
  {
    OrderBounds(t, i);
    var me, r := t.order[i], t.order[After(i, |t.order|)];
    OrderBounds(t, After(i, |t.order|));
    forall x | 0 <= x < t.n && Offset(t.n, After(me, t.n), x) < Offset(t.n, After(me, t.n), r)
      ensures x in t.gone && x != me
    {
      InBetween(t, i, x);
    }
    ScanStops(After(me, t.n), me, t.n, t.gone, r);
  }

  lemma InBetween(t: TourShape, i: nat, x: nat)
    requires IsTour(t) && i < |t.order| && t.order[i] < t.n && t.order[After(i, |t.order|)] < t.n && x < t.n
    requires Offset(t.n, After(t.order[i], t.n), x) < Offset(t.n, After(t.order[i], t.n), t.order[After(i, |t.order|)])
    ensures x in t.gone && x != t.order[i]
  {
    var me, r := t.order[i], t.order[After(i, |t.order|)];
    if i + 1 < |t.order| {
      assert me < r;
      assert me < x < r;
      NobodyBetween(t, i, x);
    } else {
      assert r <= me;
      assert x > me || x < r;
      if x > me { NobodyBetween(t, i, x); } else { NobodyBelow(t, x); }
    }
  }
}
