// The node as the kernel writes it: a class whose handlers update its fields in
// place.  Every method is proved equal to the functions of `Kernel` and
// `Recovery`; `Model()` is the abstract state.

module TrainsNodeClass {
  import opened Types
  import opened Kernel
  import opened LocalOrder
  import opened Recovery
  import opened Operations

  class TrainsNode {
    const ring: Ring
    const id: nat
    const mode: Mode
    const seen: array<nat>
    var done: set<Key>
    var crashed: set<nat>
    var issueClock: nat
    var nextSeq: nat
    var pending: seq<Payload>
    var parked: map<Key, Train>
    var known: set<Id>
    var cache: map<Key, seq<Payload>>
    const floor: array<nat>
    var frozen: bool

    ghost predicate Valid()
      reads this
    {
      seen.Length == ring.n && floor.Length == ring.n && seen != floor && id < ring.n
    }

    ghost function Model(): (s: Node)
      requires Valid()
      reads this, seen, floor
      ensures Wf(s)
    {
      Node(ring, id, mode, seen[..], done, crashed, issueClock, nextSeq, pending, parked, known, cache, floor[..],
           frozen)
    }

    constructor (ring: Ring, id: nat, mode: Mode)
      requires id < ring.n
      ensures Valid() && fresh(seen) && fresh(floor)
      ensures Model() == Fresh(ring, id, mode)
    {
      this.ring, this.id, this.mode := ring, id, mode;
      seen := new nat[ring.n](_ => 0);
      floor := new nat[ring.n](_ => 0);
      done, crashed, issueClock, nextSeq, pending := {}, {}, 1, 0, [];
      parked, known, cache, frozen := map[], {}, map[], false;
      new;
      assert seen[..] == Zeros(ring.n) && floor[..] == Zeros(ring.n);
    }

    // ----- clocks and membership -----

    method CheckAndUpdate(q: nat, clock: nat) returns (check: ClockCheck)
      requires Valid() && q < ring.n
      modifies seen
      ensures check == CheckClock(old(seen[q]), clock)
      ensures seen[..] == Bump(old(seen[..]), q, clock)
    {
      var prev := seen[q];
      if clock == prev {
        check := Duplicate;
      } else if clock == prev + 1 {
        seen[q] := clock;
        check := Ok;
      } else if clock > prev {
        seen[q] := clock;
        check := Gap(prev + 1, clock);
      } else {
        check := Duplicate;
      }
    }

    method ConfirmCrashed(p: nat) returns (out: seq<Output>)
      requires Valid()
      modifies this
      ensures Valid() && Effect(Model(), out) == ConfirmCrash(old(Model()), p)
    {
      crashed := crashed + {p};
      out := DrainParked();
    }

    method ReadmitNode(p: nat)
      requires Valid()
      modifies this`crashed
      ensures Model() == Readmit(old(Model()), p)
    {
      crashed := crashed - {p};
    }

    method SetFrozen(b: bool)
      requires Valid()
      modifies this`frozen
      ensures Model() == old(Model()).(frozen := b)
    {
      frozen := b;
    }

    // ----- delivery -----

    /** A release build's insert; `Operations.RecordsAreFresh` shows the debug assertion holds. */
    method RecordDelivered(key: Key)
      requires Valid()
      modifies this`done
      ensures done == old(done) + {key}
    {
      done := done + {key};
    }

    method CacheDelivered(key: Key, payloads: seq<Payload>)
      requires Valid() && payloads != []
      modifies this`cache
      ensures cache == Evict(old(cache)[key := payloads])
    {
      cache := cache[key := payloads];
      while |cache| > CACHE_CAP
        invariant Evict(cache) == Evict(old(cache)[key := payloads])
        decreases |cache|
      {
        var m := SmallestKey(cache.Keys);
        ghost var rest := cache - {m};
        assert rest.Keys == cache.Keys - {m};
        assert |rest.Keys| == |cache.Keys| - 1;
        cache := cache - {m};
      }
    }

    method RecordAndDeliver(key: Key, payloads: seq<Payload>) returns (out: seq<Output>)
      requires Valid()
      modifies this`done, this`cache
      ensures Effect(Model(), out) == Record(old(Model()), key, payloads)
    {
      RecordDelivered(key);
      out := [];
      if payloads != [] {
        CacheDelivered(key, payloads);
        out := [Deliver(SortPayloads(payloads))];
      }
    }

    method SeenClocksAdvancedEnough(key: Key) returns (b: bool)
      requires Valid()
      ensures b == ClocksCaughtUp(Model(), key)
    {
      for q := 0 to ring.k
        invariant forall x :: 0 <= x < q && x !in crashed ==> seen[x] >= key.clock
      {
        if q !in crashed && seen[q] < key.clock {
          assert Model().seen[q] < key.clock;
          return false;
        }
      }
      b := true;
    }

    method KnownAreDone(key: Key) returns (b: bool)
      requires Valid()
      ensures b == KnownBeforeDone(Model(), key)
    {
      for q := 0 to ring.n
        invariant forall x, cl ::
          0 <= x < q && 1 <= cl <= seen[x] && Before(ClockKey(cl, x), key) ==> ClockKey(cl, x) in done
      {
        for cl := 1 to seen[q] + 1
          invariant forall c :: 1 <= c < cl && Before(ClockKey(c, q), key) ==> ClockKey(c, q) in done
        {
          if Before(ClockKey(cl, q), key) && ClockKey(cl, q) !in done {
            assert 1 <= cl <= Model().seen[q];
            return false;
          }
        }
      }
      b := true;
    }

    method IsDeliverable(key: Key) returns (b: bool)
      requires Valid()
      ensures b == Deliverable(Model(), key)
    {
      var rest := parked.Keys;
      while rest != {}
        invariant rest <= parked.Keys
        invariant forall p :: p in parked && p !in rest ==> !Before(p, key)
        decreases |rest|
      {
        var p :| p in rest;
        if Before(p, key) { return false; }
        rest := rest - {p};
      }
      b := KnownAreDone(key);
      if b { b := SeenClocksAdvancedEnough(key); }
    }

    predicate IsReady(acks: set<nat>)
      requires Valid()
      reads this, seen, floor
      ensures IsReady(acks) == Ready(Model(), acks)
    {
      match mode
      case UniformTotalOrder => acks == Members(ring, {})
      case TotalOrder => Members(ring, crashed) <= acks
      case CausalOrder => false
    }

    method TryToDeliver(train: Train) returns (out: seq<Output>)
      requires Valid()
      modifies this`done, this`parked, this`cache
      ensures Effect(Model(), out) == TryDeliver(old(Model()), train)
    {
      out := [];
      if frozen || !IsReady(train.acks) || train.Key() in done { return; }
      var deliverable := IsDeliverable(train.Key());
      if !deliverable {
        if train.Key() !in parked { parked := parked[train.Key() := train]; }
        return;
      }
      out := RecordAndDeliver(train.Key(), train.payloads);
    }

    method DrainParked() returns (out: seq<Output>)
      requires Valid()
      modifies this`done, this`parked, this`cache
      ensures Effect(Model(), out) == Drain(old(Model()))
    {
      out := [];
      if frozen { return; }
      ghost var start := Model();
      DrainBegins(start);
      while parked != map[]
        invariant Draining(start, Model(), out)
        decreases |parked|
      {
        var key := SmallestKey(parked.Keys);
        var deliverable := IsDeliverable(key);
        if !deliverable {
          DrainEnds(start, Model(), out);
          return;
        }
        out := DrainOne(key, out, start);
      }
      DrainEnds(start, Model(), out);
    }

    /** One turn of the drain loop: unpark, record, deliver. */
    method DrainOne(key: Key, out0: seq<Output>, ghost start: Node) returns (out: seq<Output>)
      requires Valid() && parked != map[] && key == Min(parked.Keys) && Deliverable(Model(), key)
      requires Draining(start, Model(), out0)
      modifies this`done, this`parked, this`cache
      ensures Draining(start, Model(), out) && |parked| < |old(parked)|
    {
      DrainTurn(start, Model(), out0, key);
      var train := parked[key];
      ghost var s1 := Model().(parked := parked - {key});
      parked := parked - {key};
      assert Model() == s1;
      var more := RecordAndDeliver(key, train.payloads);
      out := out0 + more;
    }

    // ----- step -----

    method HandleBroadcast(data: Bytes)
      requires Valid()
      modifies this`known, this`pending, this`nextSeq
      ensures Model() == Broadcast(old(Model()), data)
    {
      if (id, nextSeq) in known { return; }
      known := known + {(id, nextSeq)};
      pending := pending + [Payload(id, nextSeq, data)];
      nextSeq := nextSeq + 1;
    }

    /** Also `issue_initial_train` and `reissue_train`. */
    method IssueNewTrain() returns (t: Train)
      requires Valid()
      modifies this`issueClock, this`known, this`pending
      ensures t == NewTrain(old(Model())) && Model() == AfterIssue(old(Model()))
    {
      var clock := issueClock;
      issueClock := issueClock + 1;
      known := known + Ids(pending);
      t := Train(id, clock, pending, {id});
      pending := [];
    }

    method HandleForeignTrain(train: Train) returns (out: seq<Output>)
      requires Valid() && train.issuer < ring.n
      modifies this, seen
      ensures Valid() && Effect(Model(), out) == HandleForeign(old(Model()), train)
    {
      ghost var s := Model();
      var prev := seen[train.issuer];
      if prev >= train.clock && prev > 0 {
        known := known + Ids(train.payloads);
        out := TryToDeliver(train);
        out := out + [ForwardTrain(train)];
        var more := DrainParked();
        out := out + more;
        return;
      }
      var check := CheckAndUpdate(train.issuer, train.clock);
      out := if check.Gap? then [DeclareCrash(train.issuer)] else [];
      var t := train.(payloads := train.payloads + pending, acks := train.acks + {id});
      known := known + Ids(t.payloads);
      pending := [];
      assert Model() == AfterLoad(s, train);
      out := out + [ForwardTrain(t)];
      var more := DrainParked();
      out := out + more;
    }

    method HandleReturningTrain(train: Train) returns (out: seq<Output>)
      requires Valid() && train.issuer == id
      modifies this, seen
      ensures Valid() && Effect(Model(), out) == HandleReturning(old(Model()), train)
    {
      ghost var s := Model();
      var _ := CheckAndUpdate(id, train.clock);
      assert Model() == s.(seen := Bump(s.seen, id, train.clock));
      if train.Key() in done {
        var t := IssueNewTrain();
        return [ForwardTrain(t)];
      }
      out := TryToDeliver(train);
      var more := DrainParked();
      out := out + more + [ForwardTrain(train)];
    }

    /** One step of the state machine, which keeps its invariant. */
    method DoStep(input: Input) returns (out: seq<Output>)
      requires Valid() && Accepts(Model(), input)
      modifies this, seen
      ensures Valid() && Effect(Model(), out) == Step(old(Model()), input)
      ensures Sound(old(Model())) ==> Sound(Model())
    {
      if Sound(Model()) { PerformSound(Model(), Do(input)); }
      out := [];
      match input {
        case LocalBroadcast(data) => HandleBroadcast(data);
        case Tick =>
        case TrainReceived(train) =>
          if train.clock > floor[train.issuer] {
            if train.issuer == id {
              out := HandleReturningTrain(train);
            } else {
              out := HandleForeignTrain(train);
            }
          }
      }
    }

    // ----- recovery -----

    method RecoveryReport() returns (r: Report)
      requires Valid()
      ensures r == ReportOf(Model())
    {
      var issued := Zeros(ring.n)[id := if issueClock == 0 then 0 else issueClock - 1];
      var cached := NonEmpty(cache);
      var have := AddParked(cached, parked);
      assert have == Have(Model());
      r := Report(seen[..], issued, done, have);
    }

    method ApplyOne(key: Key, action: Action) returns (out: seq<Output>)
      requires Valid() && key.issuer < ring.n
      modifies this, seen
      ensures Valid() && Effect(Model(), out) == ApplyKey(old(Model()), key, action)
    {
      ghost var s := Model();
      var _ := CheckAndUpdate(key.issuer, key.clock);
      parked := parked - {key};
      assert Model() == s.(seen := Bump(s.seen, key.issuer, key.clock), parked := s.parked - {key});
      out := [];
      if key in done { return; }
      match action {
        case Resend(ps) =>
          known := known + Ids(ps);
          out := RecordAndDeliver(key, ps);
        case Skip =>
          out := RecordAndDeliver(key, []);
      }
    }

    method ApplyInOrder(actions: map<Key, Action>) returns (out: seq<Output>)
      requires Valid() && InSlots(ring, actions)
      modifies this, seen
      ensures Valid() && Effect(Model(), out) == ApplyActions(old(Model()), actions)
    {
      out := [];
      var acts := actions;
      ghost var start := Model();
      ActionsBegin(start, actions);
      while acts != map[]
        invariant Valid() && Applying(start, actions, Model(), acts, out)
        decreases |acts|
      {
        var key := SmallestKey(acts.Keys);
        ActionTurn(start, actions, Model(), acts, out, key);
        var more := ApplyOne(key, acts[key]);
        acts := acts - {key};
        out := out + more;
      }
      NothingAfter(out);
    }

    method ApplyRecovery(plan: Plan) returns (out: seq<Output>)
      requires Valid() && PlanFor(ring.n, plan)
      modifies this, seen, floor
      ensures Valid() && Effect(Model(), out) == Apply(old(Model()), plan)
      ensures Tidy(old(Model())) ==> Sound(Model())
    {
      if Tidy(Model()) { ApplySound(Model(), plan); }
      out := ApplyInOrder(plan.actions);
      ghost var s := Model();
      RaiseFloor(plan.boundary);
      if plan.boundary[id] + 1 > issueClock { issueClock := plan.boundary[id] + 1; }
      frozen := false;
      assert Model() == InstallView(s, plan);
      var more := DrainParked();
      out := out + more;
    }

    method RaiseFloor(b: seq<nat>)
      requires Valid() && |b| == ring.n
      modifies floor
      ensures floor[..] == Raised(old(floor[..]), b)
    {
      for q := 0 to ring.n
        invariant forall x :: 0 <= x < q ==> floor[x] == Larger(old(floor[x]), b[x])
        invariant forall x :: q <= x < ring.n ==> floor[x] == old(floor[x])
      {
        if b[q] > floor[q] { floor[q] := b[q]; }
      }
    }

    // ----- state transfer -----

    method ExportState() returns (snap: Snapshot)
      requires Valid()
      ensures snap == Export(Model())
    {
      snap := Snapshot(seen[..], done, crashed, floor[..], known);
    }

    method ImportState(snap: Snapshot)
      requires Valid() && |snap.seen| == ring.n && |snap.floor| == ring.n
      modifies this, seen, floor
      ensures Valid() && Model() == Import(old(Model()), snap)
    {
      forall q | 0 <= q < ring.n { seen[q] := snap.seen[q]; }
      forall q | 0 <= q < ring.n { floor[q] := snap.floor[q]; }
      done, crashed, known := snap.done, snap.crashed, snap.known;
      issueClock := Larger(snap.seen[id], snap.floor[id]) + 1;
      frozen, pending, parked, cache := false, [], map[], map[];
      assert seen[..] == snap.seen && floor[..] == snap.floor;
    }
  }

  method NonEmpty(cache: map<Key, seq<Payload>>) returns (have: map<Key, seq<Payload>>)
    ensures have == map k | k in cache && cache[k] != [] :: cache[k]
  {
    have := map[];
    var keys := cache.Keys;
    while keys != {}
      invariant keys <= cache.Keys
      invariant forall k :: k in have <==> k in cache && k !in keys && cache[k] != []
      invariant forall k :: k in have ==> have[k] == cache[k]
      decreases |keys|
    {
      var k :| k in keys;
      if cache[k] != [] { have := have[k := cache[k]]; }
      keys := keys - {k};
    }
  }

  method AddParked(cached: map<Key, seq<Payload>>, parked: map<Key, Train>) returns (have: map<Key, seq<Payload>>)
    ensures have == (map k | k in parked && parked[k].payloads != [] :: parked[k].payloads) + cached
  {
    have := cached;
    var keys := parked.Keys;
    while keys != {}
      invariant keys <= parked.Keys
      invariant forall k :: k in have <==> k in cached || (k in parked && k !in keys && parked[k].payloads != [])
      invariant forall k :: k in cached ==> have[k] == cached[k]
      invariant forall k :: k in have && k !in cached ==> k in parked && have[k] == parked[k].payloads
      decreases |keys|
    {
      var k :| k in keys;
      if parked[k].payloads != [] && k !in have { have := have[k := parked[k].payloads]; }
      keys := keys - {k};
    }
  }

  predicate InSlots(ring: Ring, acts: map<Key, Action>) { forall k :: k in acts ==> k.issuer < ring.n }

  /** Applying `acts` to `s` completes applying `all` to `start`, `out` being delivered already. */
  ghost predicate Applying(start: Node, all: map<Key, Action>, s: Node, acts: map<Key, Action>, out: seq<Output>) {
    && Wf(start) && Wf(s) && InSlots(start.ring, all) && InSlots(s.ring, acts)
    && ApplyActions(start, all) == Effect(ApplyActions(s, acts).node, out + ApplyActions(s, acts).out)
  }

  lemma ActionsBegin(s: Node, acts: map<Key, Action>)
    requires Wf(s) && InSlots(s.ring, acts)
    ensures Applying(s, acts, s, acts, [])
  {
    assert [] + ApplyActions(s, acts).out == ApplyActions(s, acts).out;
  }

  lemma ActionTurn(start: Node, all: map<Key, Action>, s: Node, acts: map<Key, Action>, out: seq<Output>, k: Key)
    requires Applying(start, all, s, acts, out) && acts != map[] && k == Min(acts.Keys)
    ensures k.issuer < s.ring.n && |acts - {k}| < |acts|
    ensures var r1 := ApplyKey(s, k, acts[k]); Applying(start, all, r1.node, acts - {k}, out + r1.out)
  {
    TakeOut(s.done, acts, k);
    var r1 := ApplyKey(s, k, acts[k]);
    Assoc(out, r1.out, ApplyActions(r1.node, acts - {k}).out);
  }

  /** What is left to drain from `s` completes the drain of `start`, `out` being delivered already. */
  ghost predicate Draining(start: Node, s: Node, out: seq<Output>) {
    && Wf(start) && Wf(s) && !s.frozen
    && Drain(start) == Effect(Drain(s).node, out + Drain(s).out)
  }

  lemma DrainBegins(s: Node)
    requires Wf(s) && !s.frozen
    ensures Draining(s, s, [])
  {
    assert [] + Drain(s).out == Drain(s).out;
  }

  /** Nothing parked, or the smallest parked key is blocked: the drain is complete. */
  lemma DrainEnds(start: Node, s: Node, out: seq<Output>)
    requires Draining(start, s, out) && (s.parked == map[] || !Deliverable(s, Min(s.parked.Keys)))
    ensures Effect(s, out) == Drain(start)
  {
    NothingAfter(out);
  }

  lemma DrainTurn(start: Node, s: Node, out: seq<Output>, key: Key)
    requires Draining(start, s, out) && s.parked != map[] && key == Min(s.parked.Keys) && Deliverable(s, key)
    ensures var r1 := Record(s.(parked := s.parked - {key}), key, s.parked[key].payloads);
      Draining(start, r1.node, out + r1.out) && |r1.node.parked| < |s.parked|
  {
    var rest := s.parked - {key};
    assert rest.Keys == s.parked.Keys - {key};
    assert |rest.Keys| == |s.parked.Keys| - 1;
    var r1 := Record(s.(parked := rest), key, s.parked[key].payloads);
    Assoc(out, r1.out, Drain(r1.node).out);
  }

  method SmallestKey(keys: set<Key>) returns (m: Key)
    requires keys != {}
    ensures m == Min(keys)
  {
    MinExists(keys);
    m :| m in keys && forall j :: j in keys ==> !Before(j, m);
  }
}
