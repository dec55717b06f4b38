// What apply_recovery does to one node: the batch of actions in key order, then
// the new view.

module Applying {
  import opened Types
  import opened Kernel
  import opened LocalOrder
  import opened Recovery
  import opened Operations

  // ----- what applying a batch of actions does -----

  ghost function Planned(acts: map<Key, Action>): Key -> seq<Payload> {
    k => if k in acts && acts[k].Resend? then acts[k].payloads else []
  }

  /** Cached keys are done and carry something. */
  predicate CacheSane(s: Node) {
    |s.cache| <= CACHE_CAP && forall k :: k in s.cache ==> k in s.done && s.cache[k] != []
  }

  lemma {:induction false} ActionsParked(s: Node, acts: map<Key, Action>)
    requires Wf(s) && forall k :: k in acts ==> k.issuer < s.ring.n
    ensures ApplyActions(s, acts).node.parked.Keys == s.parked.Keys - acts.Keys
    decreases |acts|
  {
    if acts != map[] {
      var k := Min(acts.Keys);
      var rest := acts - {k};
      assert rest.Keys == acts.Keys - {k};
      assert |rest.Keys| == |acts.Keys| - 1;
      ActionsParked(ApplyKey(s, k, acts[k]).node, rest);
    }
  }

  /** Broadcasts still queued are untouched: they go out in the new view. */
  lemma {:induction false} ActionsKeepQueue(s: Node, acts: map<Key, Action>)
    requires Wf(s) && forall k :: k in acts ==> k.issuer < s.ring.n
    ensures var r := ApplyActions(s, acts).node; r.pending == s.pending && r.nextSeq == s.nextSeq
    decreases |acts|
  {
    if acts != map[] {
      var k := Min(acts.Keys);
      TakeOut(s.done, acts, k);
      ActionsKeepQueue(ApplyKey(s, k, acts[k]).node, acts - {k});
    }
  }

  lemma ApplyKeepsQueue(s: Node, plan: Plan)
    requires Wf(s) && PlanFor(s.ring.n, plan)
    ensures var r := Apply(s, plan).node;
      && r.pending == s.pending && r.nextSeq == s.nextSeq
      && r.issueClock == Larger(s.issueClock, plan.boundary[s.id] + 1)
  {
    ActionsKeepQueue(s, plan.actions);
  }

  lemma KeyCache(s: Node, k: Key, action: Action)
    requires Wf(s) && k.issuer < s.ring.n && CacheSane(s)
    ensures CacheSane(ApplyKey(s, k, action).node)
  {
    var s1 := s.(seen := Bump(s.seen, k.issuer, k.clock), parked := s.parked - {k});
    if k !in s.done {
      match action
      case Resend(ps) => RecordCache(s1.(known := s1.known + Ids(ps)), k, ps);
      case Skip => RecordCache(s1, k, []);
    }
  }

  lemma RecordCache(s: Node, k: Key, payloads: seq<Payload>)
    requires CacheSane(s)
    ensures CacheSane(Record(s, k, payloads).node)
  {
  }

  lemma {:induction false} ActionsCache(s: Node, acts: map<Key, Action>)
    requires Wf(s) && CacheSane(s) && forall k :: k in acts ==> k.issuer < s.ring.n
    ensures CacheSane(ApplyActions(s, acts).node)
    decreases |acts|
  {
    if acts != map[] {
      var k := Min(acts.Keys);
      var rest := acts - {k};
      assert rest.Keys == acts.Keys - {k};
      assert |rest.Keys| == |acts.Keys| - 1;
      KeyCache(s, k, acts[k]);
      ActionsCache(ApplyKey(s, k, acts[k]).node, rest);
    }
  }

  /** Clocks only rise, and only to the clocks of actions. */
  ghost predicate Caught(seen: seq<nat>, acts: map<Key, Action>, seen': seq<nat>) {
    && |seen'| == |seen|
    && (forall q :: 0 <= q < |seen| ==> seen[q] <= seen'[q])
    && (forall k :: k in acts && k.issuer < |seen| ==> k.clock <= seen'[k.issuer])
    && (forall q :: 0 <= q < |seen| ==>
          seen'[q] == seen[q] || exists k :: k in acts && k.issuer == q && k.clock == seen'[q])
  }

  lemma CaughtCons(seen: seq<nat>, acts: map<Key, Action>, k: Key, seen': seq<nat>)
    requires k in acts && k.issuer < |seen| && Caught(Bump(seen, k.issuer, k.clock), acts - {k}, seen')
    ensures Caught(seen, acts, seen')
  {
    var mid := Bump(seen, k.issuer, k.clock);
    forall q | 0 <= q < |seen| && seen'[q] != seen[q]
      ensures exists j :: j in acts && j.issuer == q && j.clock == seen'[q]
    {
      if seen'[q] != mid[q] {
        var j :| j in acts - {k} && j.issuer == q && j.clock == seen'[q];
        assert j in acts;
      }
    }
    forall j | j in acts && j.issuer < |seen| ensures j.clock <= seen'[j.issuer] {
      if j != k { assert j in acts - {k}; }
    }
  }

  lemma {:induction false} ActionsSeen(s: Node, acts: map<Key, Action>)
    requires Wf(s) && forall k :: k in acts ==> k.issuer < s.ring.n
    ensures Caught(s.seen, acts, ApplyActions(s, acts).node.seen)
    decreases |acts|
  {
    if acts != map[] {
      var k := Min(acts.Keys);
      var rest := acts - {k};
      assert rest.Keys == acts.Keys - {k};
      assert |rest.Keys| == |acts.Keys| - 1;
      var s1 := ApplyKey(s, k, acts[k]).node;
      ActionsSeen(s1, rest);
      CaughtCons(s.seen, acts, k, ApplyActions(s1, rest).node.seen);
    }
  }

  lemma KeyDelivers(s: Node, k: Key, action: Action)
    requires Wf(s) && k.issuer < s.ring.n
    ensures Delivered(ApplyKey(s, k, action).out) ==
      (if k in s.done || action.Skip? then [] else SortPayloads(action.payloads))
  {
    if k !in s.done && action.Resend? && action.payloads != [] {
      assert Delivered(ApplyKey(s, k, action).out) == SortPayloads(action.payloads) + Delivered([]);
    }
  }

  lemma {:induction false} ActionsLog(s: Node, acts: map<Key, Action>)
    requires Wf(s) && forall k :: k in acts ==> k.issuer < s.ring.n
    ensures Delivered(ApplyActions(s, acts).out) == LogOf(acts.Keys - s.done, Planned(acts))
    decreases |acts|
  {
    if acts == map[] {
      assert acts.Keys - s.done == {};
    } else {
      var k := Min(acts.Keys);
      var rest := acts - {k};
      assert rest.Keys == acts.Keys - {k};
      assert |rest.Keys| == |acts.Keys| - 1;
      var r1 := ApplyKey(s, k, acts[k]);
      ActionsLog(r1.node, rest);
      assert rest.Keys - r1.node.done == acts.Keys - s.done - {k};
      DeliveredConcat(r1.out, ApplyActions(r1.node, rest).out);
      KeyDelivers(s, k, acts[k]);
      BatchLog(s.done, acts, k);
    }
  }

  lemma BatchLog(done: set<Key>, acts: map<Key, Action>, k: Key)
    requires acts != map[] && k == Min(acts.Keys)
    ensures LogOf(acts.Keys - done, Planned(acts)) ==
      (if k in done || acts[k].Skip? then [] else SortPayloads(acts[k].payloads))
      + LogOf(acts.Keys - done - {k}, Planned(acts - {k}))
  {
    if k in done { BatchSkip(done, acts, k); } else { BatchTake(done, acts, k); }
  }

  lemma BatchSkip(done: set<Key>, acts: map<Key, Action>, k: Key)
    requires k in acts && k in done
    ensures LogOf(acts.Keys - done, Planned(acts)) == LogOf(acts.Keys - done - {k}, Planned(acts - {k}))
  {
    LogCongruent(acts.Keys - done - {k}, Planned(acts - {k}), Planned(acts));
    assert acts.Keys - done == acts.Keys - done - {k};
  }

  lemma LogSingle(k: Key, raw: Key -> seq<Payload>)
    ensures LogOf({k}, raw) == SortPayloads(raw(k))
  {
    assert Max({k}) == k;
    assert {k} - {k} == {};
  }

  /** Smallest action first, the rest after it. */
  lemma BatchTake(done: set<Key>, acts: map<Key, Action>, k: Key)
    requires acts != map[] && k == Min(acts.Keys) && k !in done
    ensures LogOf(acts.Keys - done, Planned(acts)) ==
      SortPayloads(Planned(acts)(k)) + LogOf(acts.Keys - done - {k}, Planned(acts - {k}))
  {
    var tail := acts.Keys - done - {k};
    PlannedRest(acts, k, tail);
    FirstThenRest(k, tail, Planned(acts));
    assert {k} + tail == acts.Keys - done;
  }

  lemma PlannedRest(acts: map<Key, Action>, k: Key, tail: set<Key>)
    requires k !in tail
    ensures LogOf(tail, Planned(acts - {k})) == LogOf(tail, Planned(acts))
  {
    LogCongruent(tail, Planned(acts - {k}), Planned(acts));
  }

  lemma FirstThenRest(k: Key, tail: set<Key>, raw: Key -> seq<Payload>)
    requires forall j :: j in tail ==> Before(k, j)
    ensures LogOf({k} + tail, raw) == SortPayloads(raw(k)) + LogOf(tail, raw)
  {
    LogSplit({k}, tail, raw);
    LogSingle(k, raw);
  }

  /** Level with everybody else: the state every survivor reaches. */
  predicate Level(s: Node, b: seq<nat>, v: nat) {
    && Wf(s) && |b| == s.ring.n
    && s.done == KeysUpTo(b) && s.parked == map[] && s.seen == b && s.floor == b
    && s.issueClock == b[s.id] + 1 && s.crashed == {v} && !s.frozen
  }

  lemma LevelClock(x: Node, acts: map<Key, Action>, b: seq<nat>, q: nat, seen': seq<nat>)
    requires Tidy(x) && |b| == x.ring.n && q < x.ring.n && x.done + acts.Keys == KeysUpTo(b)
    requires forall i :: 0 <= i < x.ring.n ==> x.seen[i] <= b[i]
    requires Caught(x.seen, acts, seen')
    ensures seen'[q] == b[q]
  {
    if seen'[q] != x.seen[q] {
      var k :| k in acts && k.issuer == q && k.clock == seen'[q];
      assert k in KeysUpTo(b);
    }
    if b[q] > 0 {
      var top := ClockKey(b[q], q);
      assert top in KeysUpTo(b);
      assert top in x.done || top in acts;
    }
  }

  /** A frozen node the plan is about to complete. */
  predicate Completed(x: Node, plan: Plan) {
    && Tidy(x) && PlanFor(x.ring.n, plan) && x.floor == Zeros(x.ring.n)
    && x.done + plan.actions.Keys == KeysUpTo(plan.boundary) && x.parked.Keys <= plan.actions.Keys
    && (forall i :: 0 <= i < x.ring.n ==> x.seen[i] <= plan.boundary[i])
    && x.issueClock <= plan.boundary[x.id] + 1
  }

  lemma ActionsLevel(x: Node, plan: Plan)
    requires Completed(x, plan)
    ensures var r1 := ApplyActions(x, plan.actions); r1.node.parked == map[] && r1.node.seen == plan.boundary
  {
    var r1 := ApplyActions(x, plan.actions);
    ActionsParked(x, plan.actions);
    ActionsSeen(x, plan.actions);
    assert r1.node.parked.Keys == {};
    forall q | 0 <= q < x.ring.n ensures r1.node.seen[q] == plan.boundary[q] {
      LevelClock(x, plan.actions, plan.boundary, q, r1.node.seen);
    }
  }

  lemma ApplyWithoutDrain(x: Node, plan: Plan, r1: Effect, s2: Node)
    requires Wf(x) && PlanFor(x.ring.n, plan) && r1 == ApplyActions(x, plan.actions) && s2 == InstallView(r1.node, plan)
    requires r1.node.parked == map[]
    ensures Apply(x, plan) == Effect(s2, r1.out)
  {
    DrainNothing(s2);
    NothingAfter(r1.out);
  }

  lemma DrainNothing(s: Node)
    requires Wf(s) && s.parked == map[]
    ensures Drain(s) == Effect(s, [])
  {
  }

  lemma InstallLevel(s: Node, plan: Plan, v: nat)
    requires Wf(s) && |plan.boundary| == s.ring.n && s.done == KeysUpTo(plan.boundary) && s.parked == map[]
    requires s.seen == plan.boundary && s.floor == Zeros(s.ring.n) && s.crashed == {v}
    requires s.issueClock <= plan.boundary[s.id] + 1
    ensures Level(InstallView(s, plan), plan.boundary, v)
  {
    assert Raised(s.floor, plan.boundary) == plan.boundary;
  }

  /** A node whose missing keys the plan supplies comes out level with the boundary. */
  lemma ApplyLevels(x: Node, plan: Plan, v: nat)
    requires Completed(x, plan) && x.crashed == {v}
    ensures var r1 := ApplyActions(x, plan.actions);
      && Apply(x, plan) == Effect(InstallView(r1.node, plan), r1.out)
      && Level(InstallView(r1.node, plan), plan.boundary, v)
  {
    ActionsLevel(x, plan);
    var r1 := ApplyActions(x, plan.actions);
    ApplyWithoutDrain(x, plan, r1, InstallView(r1.node, plan));
    InstallLevel(r1.node, plan, v);
  }

  lemma {:induction false} DrainCache(s: Node)
    requires Wf(s) && CacheSane(s)
    ensures CacheSane(Drain(s).node)
    decreases |s.parked|
  {
    if !s.frozen && s.parked != map[] {
      var key := Min(s.parked.Keys);
      if Deliverable(s, key) {
        var rest := s.parked - {key};
        assert rest.Keys == s.parked.Keys - {key};
        assert |rest.Keys| == |s.parked.Keys| - 1;
        DrainCache(Record(s.(parked := rest), key, s.parked[key].payloads).node);
      }
    }
  }

  lemma ApplyCache(x: Node, plan: Plan)
    requires Wf(x) && PlanFor(x.ring.n, plan) && CacheSane(x)
    ensures CacheSane(Apply(x, plan).node)
  {
    ActionsCache(x, plan.actions);
    DrainCache(InstallView(ApplyActions(x, plan.actions).node, plan));
  }

  lemma ApplyDelivers(x: Node, plan: Plan, v: nat)
    requires Completed(x, plan) && x.crashed == {v}
    ensures Delivered(Apply(x, plan).out) == LogOf(plan.actions.Keys - x.done, Planned(plan.actions))
  {
    ApplyLevels(x, plan, v);
    ActionsLog(x, plan.actions);
  }

  // ----- what a node can offer, in every run -----

  /** In any state a key is offered when payloads for it are cached or parked, and a cached copy wins. */
  lemma CachedWins(s: Node, k: Key)
    ensures k in Have(s) <==> (k in s.cache && s.cache[k] != []) || (k in s.parked && s.parked[k].payloads != [])
    ensures k in Have(s) ==>
      Have(s)[k] == if k in s.cache && s.cache[k] != [] then s.cache[k] else s.parked[k].payloads
  {
  }

  lemma TryCache(s: Node, t: Train)
    requires Wf(s) && CacheSane(s)
    ensures CacheSane(TryDeliver(s, t).node)
  {
  }

  lemma TrainCache(s: Node, t: Train)
    requires Wf(s) && CacheSane(s) && t.issuer < s.ring.n
    ensures CacheSane(HandleTrain(s, t).node)
  {
    if Fenced(s, t) || (t.issuer == s.id && t.Key() in s.done) {
    } else if t.issuer == s.id {
      var s1 := s.(seen := Bump(s.seen, s.id, t.clock));
      TryCache(s1, t);
      DrainCache(TryDeliver(s1, t).node);
    } else if IsReplay(s, t) {
      var s1 := s.(known := s.known + Ids(t.payloads));
      TryCache(s1, t);
      DrainCache(TryDeliver(s1, t).node);
    } else {
      DrainCache(AfterLoad(s, t));
    }
  }

  lemma PerformCache(s: Node, op: Op)
    requires Allowed(s, op) && CacheSane(s)
    ensures CacheSane(Perform(s, op).node)
  {
    match op
    case Do(input) => if input.TrainReceived? { TrainCache(s, input.train); }
    case Confirm(p) => DrainCache(s.(crashed := s.crashed + {p}));
    case Admit(_) =>
    case Suspend =>
    case Install(plan) => ApplyCache(s, plan);
    case Reissue =>
  }

  /**
   * In every run what a node offers for a key is unambiguous: a key is cached or
   * parked, never both, so it is offered exactly the payloads the node delivered
   * for it or, not yet recorded, the ones it holds parked.
   */
  lemma {:induction false} OfferedInRun(s: Node, ops: seq<Op>, s': Node, k: Key)
    requires Sound(s) && CacheSane(s) && OpRun(s, ops, s')
    ensures s'.cache.Keys <= s'.done && s'.cache.Keys !! s'.parked.Keys && |s'.cache| <= CACHE_CAP
    ensures k in Have(s') && k in s'.done <==> k in s'.cache
    ensures k in Have(s') && k !in s'.done <==> k in s'.parked && s'.parked[k].payloads != []
    ensures k in s'.cache ==> Have(s')[k] == s'.cache[k] != []
    ensures k in s'.parked && k in Have(s') ==> Have(s')[k] == s'.parked[k].payloads
    decreases |ops|
  {
    if ops != [] {
      PerformCache(s, ops[0]);
      PerformSound(s, ops[0]);
      OfferedInRun(Perform(s, ops[0]).node, ops[1..], s', k);
    } else {
      forall j | j in s'.parked ensures j !in s'.done { assert Held(s', j); }
    }
  }
}
