// View-change recovery: survivors' reports, their merge into one plan, and the
// plan's application to a node.

module Recovery {
  import opened Types
  import opened Kernel

  datatype Report = Report(seen: seq<nat>, issued: seq<nat>, done: set<Key>, have: map<Key, seq<Payload>>)

  datatype Action = Resend(payloads: seq<Payload>) | Skip

  datatype Plan = Plan(actions: map<Key, Action>, boundary: seq<nat>)

  function Larger(a: nat, b: nat): nat { if a > b then a else b }

  /** Freeze, then confirm the crash; under the freeze nothing drains. */
  function Excluded(s: Node, v: nat): (r: Node)
    requires Wf(s)
    ensures r == s.(frozen := true, crashed := s.crashed + {v})
  {
    ConfirmCrash(Freeze(s), v).node
  }

  // ----- recovery_report -----

  /** Payloads this node could retransmit; the cache wins over a parked copy. */
  function Have(s: Node): map<Key, seq<Payload>> {
    (map k | k in s.parked && s.parked[k].payloads != [] :: s.parked[k].payloads)
    + (map k | k in s.cache && s.cache[k] != [] :: s.cache[k])
  }

  function ReportOf(s: Node): (r: Report)
    requires Wf(s)
    ensures Fits(s.ring.n, r)
  {
    Report(s.seen, Zeros(s.ring.n)[s.id := if s.issueClock == 0 then 0 else s.issueClock - 1], s.done, Have(s))
  }

  predicate Fits(n: nat, r: Report) { |r.seen| == n && |r.issued| == n }

  predicate AllFit(n: nat, reports: seq<Report>) { forall r :: r in reports ==> Fits(n, r) }

  // ----- compute_recovery_plan -----

  function Bound(reports: seq<Report>, q: nat): (b: nat)
    requires forall r :: r in reports ==> q < |r.seen| && q < |r.issued|
    ensures forall r :: r in reports ==> r.seen[q] <= b && r.issued[q] <= b
    ensures b > 0 ==> exists r :: r in reports && (r.seen[q] == b || r.issued[q] == b)
  {
    if reports == [] then 0
    else
      var last := reports[|reports| - 1];
      var prev := reports[..|reports| - 1];
      assert reports == prev + [last];
      Larger(Bound(prev, q), Larger(last.seen[q], last.issued[q]))
  }

  /** Every key at or below a per-issuer boundary. */
  function KeysUpTo(b: seq<nat>): set<Key> {
    set q, cl | 0 <= q < |b| && 1 <= cl <= b[q] :: ClockKey(cl, q)
  }

  predicate DoneByAll(reports: seq<Report>, k: Key) { forall r :: r in reports ==> k in r.done }

  /** Append what is new by identity, keeping the first copy of each id. */
  function Merge(acc: seq<Payload>, ps: seq<Payload>): seq<Payload>
    decreases |ps|
  {
    if ps == [] then acc
    else Merge(if ps[0].Id() in Ids(acc) then acc else acc + [ps[0]], ps[1..])
  }

  function Union(reports: seq<Report>, k: Key): seq<Payload> {
    if reports == [] then []
    else
      var last := reports[|reports| - 1];
      var prev := Union(reports[..|reports| - 1], k);
      if k in last.have then Merge(prev, last.have[k]) else prev
  }

  function ActionFor(reports: seq<Report>, k: Key): Action {
    if Union(reports, k) == [] then Skip else Resend(Union(reports, k))
  }

  function Boundary(n: nat, reports: seq<Report>): (b: seq<nat>)
    requires AllFit(n, reports)
    ensures |b| == n
  {
    seq(n, q requires 0 <= q < n && AllFit(n, reports) => Bound(reports, q))
  }

  function ComputePlan(n: nat, reports: seq<Report>): Plan
    requires AllFit(n, reports)
  {
    var b := Boundary(n, reports);
    Plan(map k | k in KeysUpTo(b) && !DoneByAll(reports, k) :: ActionFor(reports, k), b)
  }

  // ----- apply_recovery -----

  predicate PlanFor(n: nat, plan: Plan) {
    |plan.boundary| == n && forall k :: k in plan.actions ==> k.issuer < n && 1 <= k.clock
  }

  function ApplyKey(s: Node, k: Key, action: Action): (r: Effect)
    requires Wf(s) && k.issuer < s.ring.n
    ensures Wf(r.node) && r.node.ring == s.ring && r.node.id == s.id && r.node.mode == s.mode
    ensures r.node.done == s.done + {k}
    ensures r.node.seen == Bump(s.seen, k.issuer, k.clock) && r.node.parked == s.parked - {k}
    ensures r.node.floor == s.floor && r.node.issueClock == s.issueClock && r.node.crashed == s.crashed
  {
    var s1 := s.(seen := Bump(s.seen, k.issuer, k.clock), parked := s.parked - {k});
    if k in s1.done then Effect(s1, [])
    else match action
      case Resend(ps) => Record(s1.(known := s1.known + Ids(ps)), k, ps)
      case Skip => Record(s1, k, [])
  }

  lemma TakeOut(done: set<Key>, acts: map<Key, Action>, k: Key)
    requires k in acts
    ensures |acts - {k}| < |acts| && (acts - {k}).Keys == acts.Keys - {k}
    ensures (done + {k}) + (acts - {k}).Keys == done + acts.Keys
  {
    var rest := acts - {k};
    assert rest.Keys == acts.Keys - {k};
    assert |rest.Keys| == |acts.Keys| - 1;
  }

  /** The plan's actions in ascending key order. */
  function ApplyActions(s: Node, acts: map<Key, Action>): (r: Effect)
    requires Wf(s) && forall k :: k in acts ==> k.issuer < s.ring.n
    ensures Wf(r.node) && r.node.ring == s.ring && r.node.id == s.id && r.node.mode == s.mode
    ensures r.node.done == s.done + acts.Keys
    ensures r.node.floor == s.floor && r.node.issueClock == s.issueClock && r.node.crashed == s.crashed
    decreases |acts|
  {
    if acts == map[] then Effect(s, [])
    else
      var k := Min(acts.Keys);
      var rest := acts - {k};
      TakeOut(s.done, acts, k);
      var r1 := ApplyKey(s, k, acts[k]);
      var r2 := ApplyActions(r1.node, rest);
      Effect(r2.node, r1.out + r2.out)
  }

  function Raised(floor: seq<nat>, b: seq<nat>): (r: seq<nat>)
    requires |floor| == |b|
    ensures |r| == |floor| && forall q :: 0 <= q < |r| ==> r[q] == Larger(floor[q], b[q])
  {
    seq(|floor|, q requires 0 <= q < |floor| && |floor| == |b| => Larger(floor[q], b[q]))
  }

  /** Fence, advance the issue clock, lift the freeze. */
  function InstallView(s: Node, plan: Plan): (r: Node)
    requires Wf(s) && |plan.boundary| == s.ring.n
    ensures Wf(r) && r.ring == s.ring && r.id == s.id && r.parked == s.parked && r.done == s.done
  {
    s.(floor := Raised(s.floor, plan.boundary),
       issueClock := Larger(s.issueClock, plan.boundary[s.id] + 1),
       frozen := false)
  }

  function Apply(s: Node, plan: Plan): (r: Effect)
    requires Wf(s) && PlanFor(s.ring.n, plan)
    ensures Wf(r.node) && r.node.ring == s.ring && r.node.id == s.id && r.node.mode == s.mode
  {
    var r1 := ApplyActions(s, plan.actions);
    var r2 := Drain(InstallView(r1.node, plan));
    Effect(r2.node, r1.out + r2.out)
  }

  // ----- export_state / import_state -----

  datatype Snapshot = Snapshot(seen: seq<nat>, done: set<Key>, crashed: set<nat>, floor: seq<nat>, known: set<Id>)

  function Export(s: Node): Snapshot { Snapshot(s.seen, s.done, s.crashed, s.floor, s.known) }

  function Import(s: Node, snap: Snapshot): (r: Node)
    requires Wf(s) && |snap.seen| == s.ring.n && |snap.floor| == s.ring.n
    ensures Wf(r)
  {
    s.(seen := snap.seen, done := snap.done, crashed := snap.crashed, floor := snap.floor, known := snap.known,
       issueClock := Larger(snap.seen[s.id], snap.floor[s.id]) + 1,
       frozen := false, pending := [], parked := map[], cache := map[])
  }
}
