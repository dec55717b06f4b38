// What one node keeps, whatever trains arrive: no key is recorded twice, keys
// are recorded in ascending order as an initial segment, the delivered log is
// the concatenation of the recorded keys' contents, and the retransmission
// cache only ever forgets the smallest keys.

module LocalOrder {
  import opened Types
  import opened Kernel

  // ----- parked and done keys (any mode, any membership) -----

  predicate Held(s: Node, k: Key)
    requires Wf(s) && k in s.parked
  {
    k.issuer < s.ring.n && 1 <= k.clock <= s.seen[k.issuer] && k !in s.done && s.parked[k].Key() == k
  }

  predicate Tidy(s: Node) {
    && Wf(s)
    && (forall k :: k in s.done ==> k.issuer < s.ring.n && 1 <= k.clock <= s.seen[k.issuer])
    && (forall k :: k in s.parked ==> Held(s, k))
  }

  /** Outside a freeze nothing parked is waiting to be drained. */
  predicate Quiet(s: Node)
    requires Wf(s)
  {
    !s.frozen ==> forall k :: k in s.parked ==> !Deliverable(s, k)
  }

  predicate Sound(s: Node) { Tidy(s) && Quiet(s) }

  // ----- epochs: the keys one installed view orders -----

  /** `base`: clocks resolved by the last install; `before`: keys done by then. */
  datatype Epoch = Epoch(base: seq<nat>, crashed: set<nat>, before: set<Key>)

  predicate InEpoch(ring: Ring, e: Epoch, k: Key) {
    k.issuer < ring.k && k.issuer < |e.base| && k.issuer !in e.crashed && k.clock > e.base[k.issuer]
  }

  /** The first view: nobody crashed, nothing resolved. */
  function FirstEpoch(ring: Ring): Epoch { Epoch(Zeros(ring.n), {}, {}) }

  /** Done keys of the epoch are an initial segment of the epoch's keys. */
  ghost predicate Segment(s: Node, e: Epoch)
    requires Wf(s)
  {
    && e.before <= s.done
    && (forall k :: k in s.done - e.before ==> InEpoch(s.ring, e, k) && ClocksCaughtUp(s, k))
    && (forall k, j :: k in s.done - e.before && InEpoch(s.ring, e, j) && Before(j, k) ==> j in s.done)
    && (forall k :: k in e.before ==> !InEpoch(s.ring, e, k))
  }

  ghost predicate ParkedAgree(s: Node, e: Epoch, raw: Key -> seq<Payload>) {
    forall k :: k in s.parked ==> InEpoch(s.ring, e, k) && s.parked[k].payloads == raw(k)
  }

  /** What the cache has forgotten is smaller than everything it still holds. */
  ghost predicate Cached(s: Node, e: Epoch, raw: Key -> seq<Payload>) {
    && |s.cache| <= CACHE_CAP
    && (forall k :: k in s.cache ==> k in s.done && s.cache[k] != [] && (k in e.before || s.cache[k] == raw(k)))
    && (forall k :: k in s.done - e.before && raw(k) != [] && k !in s.cache ==>
          |s.cache| == CACHE_CAP && forall j :: j in s.cache ==> Before(k, j))
  }

  ghost predicate Ordered(s: Node, e: Epoch, raw: Key -> seq<Payload>) {
    && Tidy(s)
    && |e.base| == s.ring.n && s.crashed == e.crashed
    && Segment(s, e)
    && ParkedAgree(s, e, raw)
    && Cached(s, e, raw)
  }

  /** The log that delivers exactly `d`, ascending, with contents `raw`. */
  ghost function LogOf(d: set<Key>, raw: Key -> seq<Payload>): seq<Payload> {
    if d == {} then []
    else var m := Max(d); LogOf(d - {m}, raw) + SortPayloads(raw(m))
  }

  ghost function Log(s: Node, e: Epoch, raw: Key -> seq<Payload>): seq<Payload> {
    LogOf(s.done - e.before, raw)
  }

  // ----- LogOf -----

  lemma LogAppend(d: set<Key>, k: Key, raw: Key -> seq<Payload>)
    requires forall j :: j in d ==> Before(j, k)
    ensures LogOf(d + {k}, raw) == LogOf(d, raw) + SortPayloads(raw(k))
  {
    assert k !in d;
    assert Max(d + {k}) == k;
    assert d + {k} - {k} == d;
  }

  lemma {:induction false} LogSplit(a: set<Key>, b: set<Key>, raw: Key -> seq<Payload>)
    requires forall x, y :: x in a && y in b ==> Before(x, y)
    ensures LogOf(a + b, raw) == LogOf(a, raw) + LogOf(b, raw)
    decreases |b|
  {
    if b == {} {
      assert a + b == a;
    } else {
      var m := Max(b);
      var b' := b - {m};
      LogSplit(a, b', raw);
      LogAppend(a + b', m, raw);
      assert a + b' + {m} == a + b;
      assert LogOf(b, raw) == LogOf(b', raw) + SortPayloads(raw(m));
      Assoc(LogOf(a, raw), LogOf(b', raw), SortPayloads(raw(m)));
    }
  }

  lemma {:induction false} LogCongruent(d: set<Key>, raw: Key -> seq<Payload>, raw': Key -> seq<Payload>)
    requires forall k :: k in d ==> SortPayloads(raw(k)) == SortPayloads(raw'(k))
    ensures LogOf(d, raw) == LogOf(d, raw')
  {
    if d != {} {
      LogCongruent(d - {Max(d)}, raw, raw');
    }
  }

  predicate IsPrefix(a: seq<Payload>, b: seq<Payload>) { |a| <= |b| && a == b[..|a|] }

  /** Two initial segments: the smaller one's log is a prefix of the other's. */
  lemma SegmentPrefix(s: Node, t: Node, e: Epoch, raw: Key -> seq<Payload>)
    requires Wf(s) && Wf(t) && s.ring == t.ring && Segment(s, e) && Segment(t, e)
    ensures IsPrefix(Log(s, e, raw), Log(t, e, raw)) || IsPrefix(Log(t, e, raw), Log(s, e, raw))
  {
    var a, b := s.done - e.before, t.done - e.before;
    if a <= b {
      SubsegmentPrefix(s, t, e, raw);
    } else {
      var x :| x in a && x !in b;
      forall y | y in b ensures y in a {
        assert Before(x, y) ==> x in t.done;
        assert y == x || Before(y, x);
      }
      SubsegmentPrefix(t, s, e, raw);
    }
  }

  lemma SubsegmentPrefix(s: Node, t: Node, e: Epoch, raw: Key -> seq<Payload>)
    requires Wf(s) && Wf(t) && s.ring == t.ring && Segment(s, e) && Segment(t, e)
    requires s.done - e.before <= t.done - e.before
    ensures IsPrefix(Log(s, e, raw), Log(t, e, raw))
  {
    var a, b := s.done - e.before, t.done - e.before;
    forall x, y | x in a && y in b - a ensures Before(x, y) {
      assert Before(y, x) ==> y in s.done;
    }
    LogSplit(a, b - a, raw);
    assert a + (b - a) == b;
  }

  // ----- recording one key -----

  lemma {:induction false} EvictSmallest(cache: map<Key, seq<Payload>>)
    ensures forall k, j :: k in cache && k !in Evict(cache) && j in Evict(cache) ==> Before(k, j)
    decreases |cache|
  {
    if |cache| > CACHE_CAP {
      var m := Min(cache.Keys);
      var rest := cache - {m};
      assert rest.Keys == cache.Keys - {m};
      assert |rest.Keys| == |cache.Keys| - 1;
      EvictSmallest(rest);
    }
  }

  /** A deliverable key of the epoch is above every key recorded in it. */
  lemma DeliverableIsNext(s: Node, key: Key, e: Epoch)
    requires Wf(s) && |e.base| == s.ring.n && s.crashed == e.crashed && Segment(s, e)
    requires InEpoch(s.ring, e, key) && key !in s.done && Deliverable(s, key)
    ensures forall j :: j in s.done - e.before ==> Before(j, key)
    ensures forall j :: InEpoch(s.ring, e, j) && Before(j, key) ==> j in s.done
  {
    forall j | InEpoch(s.ring, e, j) && Before(j, key) ensures j in s.done {
      assert s.seen[j.issuer] >= key.clock;
      assert j == ClockKey(j.clock, j.issuer);
    }
    forall j | j in s.done - e.before ensures Before(j, key) {
      assert Before(key, j) ==> key in s.done;
    }
  }

  lemma RecordSegment(s: Node, key: Key, payloads: seq<Payload>, e: Epoch)
    requires Wf(s) && |e.base| == s.ring.n && s.crashed == e.crashed && Segment(s, e)
    requires InEpoch(s.ring, e, key) && key !in s.done && Deliverable(s, key)
    ensures Segment(Record(s, key, payloads).node, e)
  {
    DeliverableIsNext(s, key, e);
    var s' := Record(s, key, payloads).node;
    forall k | k in s'.done - e.before ensures InEpoch(s'.ring, e, k) && ClocksCaughtUp(s', k) {
      if k != key { assert k in s.done - e.before; assert ClocksCaughtUp(s, k); }
    }
  }

  lemma RecordCached(s: Node, key: Key, e: Epoch, raw: Key -> seq<Payload>)
    requires Cached(s, e, raw) && key !in s.done && key !in e.before
    requires forall j :: j in s.done - e.before ==> Before(j, key)
    ensures Cached(Record(s, key, raw(key)).node, e, raw)
  {
    var s' := Record(s, key, raw(key)).node;
    if raw(key) != [] {
      var big := s.cache[key := raw(key)];
      EvictSmallest(big);
      OneMoreCached(s.cache, key, raw(key));
      forall k | k in s'.done - e.before && raw(k) != [] && k !in s'.cache
        ensures |s'.cache| == CACHE_CAP && forall j :: j in s'.cache ==> Before(k, j)
      {
        if k !in big {
          assert k in s.done - e.before && k !in s.cache;
        }
      }
    } else {
      assert s'.cache == s.cache;
    }
  }

  lemma OneMoreCached(cache: map<Key, seq<Payload>>, key: Key, payloads: seq<Payload>)
    requires key !in cache
    ensures cache[key := payloads].Keys == cache.Keys + {key} && |cache[key := payloads]| == |cache| + 1
  {
    var big := cache[key := payloads];
    assert big.Keys == cache.Keys + {key};
    assert |big.Keys| == |cache.Keys| + 1;
  }

  lemma RecordLog(s: Node, key: Key, e: Epoch, raw: Key -> seq<Payload>)
    requires key !in e.before
    requires forall j :: j in s.done - e.before ==> Before(j, key)
    ensures var r := Record(s, key, raw(key)); Log(r.node, e, raw) == Log(s, e, raw) + Delivered(r.out)
  {
    var r := Record(s, key, raw(key));
    assert Delivered(r.out) == SortPayloads(raw(key)) by {
      if raw(key) != [] {
        assert Delivered(r.out) == SortPayloads(raw(key)) + Delivered([]);
      }
    }
    assert r.node.done - e.before == (s.done - e.before) + {key};
    LogAppend(s.done - e.before, key, raw);
  }

  lemma RecordTidy(s: Node, key: Key, payloads: seq<Payload>)
    requires Tidy(s) && key !in s.parked && key !in s.done
    requires key.issuer < s.ring.n && 1 <= key.clock <= s.seen[key.issuer]
    ensures Tidy(Record(s, key, payloads).node)
  {
    var s' := Record(s, key, payloads).node;
    forall k | k in s'.parked ensures Held(s', k) { assert Held(s, k); }
  }

  lemma RecordOrdered(s: Node, key: Key, e: Epoch, raw: Key -> seq<Payload>)
    requires Ordered(s, e, raw) && key !in s.parked
    requires InEpoch(s.ring, e, key) && 1 <= key.clock <= s.seen[key.issuer]
    requires key !in s.done && Deliverable(s, key)
    ensures var r := Record(s, key, raw(key));
      Ordered(r.node, e, raw) && Log(r.node, e, raw) == Log(s, e, raw) + Delivered(r.out)
  {
    DeliverableIsNext(s, key, e);
    RecordSegment(s, key, raw(key), e);
    RecordCached(s, key, e, raw);
    RecordLog(s, key, e, raw);
    RecordTidy(s, key, raw(key));
  }

  // ----- try_deliver and drain_parked -----

  lemma TryOrdered(s: Node, t: Train, e: Epoch, raw: Key -> seq<Payload>)
    requires Ordered(s, e, raw)
    requires InEpoch(s.ring, e, t.Key()) && 1 <= t.clock <= s.seen[t.issuer]
    requires t.Key() in s.parked ==> !Deliverable(s, t.Key())
    requires Ready(s, t.acks) && t.Key() !in s.done && t.Key() !in s.parked ==> t.payloads == raw(t.Key())
    ensures var r := TryDeliver(s, t);
      Ordered(r.node, e, raw) && Log(r.node, e, raw) == Log(s, e, raw) + Delivered(r.out)
  {
    var r := TryDeliver(s, t);
    var key := t.Key();
    if s.frozen || !Ready(s, t.acks) || key in s.done {
    } else if !Deliverable(s, key) {
      forall k | k in r.node.parked ensures Held(r.node, k) {
        if k in s.parked { assert Held(s, k); }
      }
      assert Segment(r.node, e) by {
        forall k | k in r.node.done - e.before ensures ClocksCaughtUp(r.node, k) {
          assert ClocksCaughtUp(s, k);
        }
      }
    } else {
      RecordOrdered(s, key, e, raw);
    }
  }

  lemma Unpark(s: Node, key: Key, e: Epoch, raw: Key -> seq<Payload>)
    requires Ordered(s, e, raw) && key in s.parked && Deliverable(s, key)
    ensures var s1 := s.(parked := s.parked - {key});
      Ordered(s1, e, raw) && Deliverable(s1, key)
  {
    var s1 := s.(parked := s.parked - {key});
    forall k | k in s1.parked ensures Held(s1, k) { assert Held(s, k); }
    assert Segment(s1, e) by {
      forall k | k in s1.done - e.before ensures ClocksCaughtUp(s1, k) { assert ClocksCaughtUp(s, k); }
    }
    assert KnownBeforeDone(s, key) && ClocksCaughtUp(s, key);
    assert KnownBeforeDone(s1, key) && ClocksCaughtUp(s1, key);
  }

  /** The smallest parked key blocks every other parked key. */
  lemma SmallestBlocks(s: Node)
    requires Wf(s) && s.parked != map[] && !Deliverable(s, Min(s.parked.Keys))
    ensures Quiet(s)
  {
    var m := Min(s.parked.Keys);
    assert m in s.parked;
  }

  lemma {:induction false} DrainOrdered(s: Node, e: Epoch, raw: Key -> seq<Payload>)
    requires Ordered(s, e, raw)
    ensures var r := Drain(s);
      Ordered(r.node, e, raw) && Quiet(r.node) && Log(r.node, e, raw) == Log(s, e, raw) + Delivered(r.out)
    decreases |s.parked|
  {
    if !s.frozen && s.parked != map[] {
      var key := Min(s.parked.Keys);
      if Deliverable(s, key) {
        assert Held(s, key);
        var rest := s.parked - {key};
        assert rest.Keys == s.parked.Keys - {key};
        assert |rest.Keys| == |s.parked.Keys| - 1;
        Unpark(s, key, e, raw);
        var s1 := s.(parked := rest);
        var r1 := Record(s1, key, raw(key));
        RecordOrdered(s1, key, e, raw);
        DrainOrdered(r1.node, e, raw);
        DeliveredConcat(r1.out, Drain(r1.node).out);
        Assoc(Log(s, e, raw), Delivered(r1.out), Delivered(Drain(r1.node).out));
        assert Drain(s) == Effect(Drain(r1.node).node, r1.out + Drain(r1.node).out);
      } else {
        SmallestBlocks(s);
      }
    }
  }

  // ----- one step -----

  /** Same recorded and parked keys, clocks only further along. */
  predicate Advanced(s: Node, s': Node) {
    && Wf(s) && Wf(s') && s'.ring == s.ring && s'.crashed == s.crashed && s'.mode == s.mode
    && s'.done == s.done && s'.parked == s.parked && s'.cache == s.cache
    && forall q :: 0 <= q < s.ring.n ==> s.seen[q] <= s'.seen[q]
  }

  lemma AdvanceOrdered(s: Node, s': Node, e: Epoch, raw: Key -> seq<Payload>)
    requires Ordered(s, e, raw) && Advanced(s, s')
    ensures Ordered(s', e, raw) && Log(s', e, raw) == Log(s, e, raw)
  {
    forall k | k in s'.parked ensures Held(s', k) { assert Held(s, k); }
    forall k | k in s'.done - e.before ensures ClocksCaughtUp(s', k) { assert ClocksCaughtUp(s, k); }
  }

  lemma SameClocksQuiet(s: Node, s': Node)
    requires Advanced(s, s') && s'.seen == s.seen && s'.frozen == s.frozen && Quiet(s)
    ensures Quiet(s')
  {
    forall k | k in s'.parked && !s'.frozen ensures !Deliverable(s', k) {
      assert !Deliverable(s, k);
      assert KnownBeforeDone(s', k) ==> KnownBeforeDone(s, k);
      assert ClocksCaughtUp(s', k) ==> ClocksCaughtUp(s, k);
    }
  }

  /** What the network must promise about a train that passes the fence. */
  ghost predicate Genuine(s: Node, t: Train, e: Epoch, raw: Key -> seq<Payload>) {
    && InEpoch(s.ring, e, t.Key())
    && (Ready(s, t.acks) && t.Key() !in s.done && t.Key() !in s.parked ==> t.payloads == raw(t.Key()))
  }

  ghost predicate GenuineInput(s: Node, input: Input, e: Epoch, raw: Key -> seq<Payload>)
    requires Wf(s) && Accepts(s, input)
  {
    input.TrainReceived? && !Fenced(s, input.train) ==> Genuine(s, input.train, e, raw)
  }

  lemma ForwardIsSilent(a: seq<Output>, t: Train, b: seq<Output>)
    ensures Delivered(a + [ForwardTrain(t)] + b) == Delivered(a) + Delivered(b)
  {
    DeliveredConcat(a + [ForwardTrain(t)], b);
    DeliveredConcat(a, [ForwardTrain(t)]);
    ForwardDeliversNothing(t);
    NothingAfter(Delivered(a));
  }

  lemma ForwardDeliversNothing(t: Train)
    ensures Delivered([ForwardTrain(t)]) == []
  {
    assert [ForwardTrain(t)][1..] == [];
  }

  lemma TryThenDrain(s: Node, t: Train, e: Epoch, raw: Key -> seq<Payload>)
    requires Ordered(s, e, raw) && t.issuer < s.ring.n && 1 <= t.clock <= s.seen[t.issuer]
    requires Genuine(s, t, e, raw)
    requires !s.frozen && t.Key() in s.parked ==> !Deliverable(s, t.Key())
    ensures var r1 := TryDeliver(s, t); var r2 := Drain(r1.node);
      && Ordered(r2.node, e, raw) && Quiet(r2.node)
      && Log(r2.node, e, raw) == Log(s, e, raw) + (Delivered(r1.out) + Delivered(r2.out))
  {
    if s.frozen {
      FrozenDelivers(s, t);
    } else {
      TryOrdered(s, t, e, raw);
      var r1 := TryDeliver(s, t);
      DrainOrdered(r1.node, e, raw);
      Assoc(Log(s, e, raw), Delivered(r1.out), Delivered(Drain(r1.node).out));
    }
  }

  lemma ReplayOrdered(s: Node, t: Train, e: Epoch, raw: Key -> seq<Payload>)
    requires Ordered(s, e, raw) && Quiet(s)
    requires t.issuer < s.ring.n && IsReplay(s, t) && t.clock >= 1 && Genuine(s, t, e, raw)
    ensures var r := HandleForeign(s, t);
      Ordered(r.node, e, raw) && Quiet(r.node) && Log(r.node, e, raw) == Log(s, e, raw) + Delivered(r.out)
  {
    var s1 := s.(known := s.known + Ids(t.payloads));
    AdvanceOrdered(s, s1, e, raw);
    SameClocksQuiet(s, s1);
    TryThenDrain(s1, t, e, raw);
    var r1 := TryDeliver(s1, t);
    ForwardIsSilent(r1.out, t, Drain(r1.node).out);
  }

  /** During a freeze nothing is delivered, recorded or parked. */
  lemma FrozenDelivers(s: Node, t: Train)
    requires Wf(s) && s.frozen
    ensures TryDeliver(s, t) == Effect(s, []) && Drain(s) == Effect(s, [])
  {
  }

  lemma FirstSightOrdered(s: Node, t: Train, e: Epoch, raw: Key -> seq<Payload>)
    requires Ordered(s, e, raw) && t.issuer < s.ring.n && !IsReplay(s, t)
    ensures var r := HandleForeign(s, t);
      Ordered(r.node, e, raw) && Quiet(r.node) && Log(r.node, e, raw) == Log(s, e, raw) + Delivered(r.out)
  {
    var s1 := AfterLoad(s, t);
    AdvanceOrdered(s, s1, e, raw);
    DrainOrdered(s1, e, raw);
    var r := Drain(s1);
    var gap := if CheckClock(s.seen[t.issuer], t.clock).Gap? then [DeclareCrash(t.issuer)] else [];
    ForwardIsSilent(gap, Loaded(s, t), r.out);
    assert Delivered(gap) == [] by {
      if gap != [] { assert Delivered(gap) == [] + Delivered([]); }
    }
    assert [] + Delivered(r.out) == Delivered(r.out);
  }

  lemma RecycledOrdered(s: Node, t: Train, e: Epoch, raw: Key -> seq<Payload>)
    requires Ordered(s, e, raw) && Quiet(s) && t.issuer == s.id && t.Key() in s.done
    ensures var r := HandleReturning(s, t);
      Ordered(r.node, e, raw) && Quiet(r.node) && Log(r.node, e, raw) == Log(s, e, raw) + Delivered(r.out)
  {
    assert s.(seen := Bump(s.seen, s.id, t.clock)) == s;
    AdvanceOrdered(s, AfterIssue(s), e, raw);
    SameClocksQuiet(s, AfterIssue(s));
    ForwardIsSilent([], NewTrain(s), []);
  }

  lemma ReturnedOrdered(s: Node, t: Train, e: Epoch, raw: Key -> seq<Payload>)
    requires Ordered(s, e, raw) && Quiet(s) && t.issuer == s.id && t.Key() !in s.done
    requires t.clock >= 1 && Genuine(s, t, e, raw)
    ensures var r := HandleReturning(s, t);
      Ordered(r.node, e, raw) && Quiet(r.node) && Log(r.node, e, raw) == Log(s, e, raw) + Delivered(r.out)
  {
    var s1 := s.(seen := Bump(s.seen, s.id, t.clock));
    AdvanceOrdered(s, s1, e, raw);
    ReturningNotParked(s, t);
    TryThenDrain(s1, t, e, raw);
    var r1 := TryDeliver(s1, t);
    assert Delivered(HandleReturning(s, t).out) == Delivered(r1.out) + Delivered(Drain(r1.node).out) by {
      ForwardLast(r1.out, Drain(r1.node).out, t);
    }
  }

  /** A returning train that moves our own clock cannot be parked yet. */
  lemma ReturningNotParked(s: Node, t: Train)
    requires Sound(s) && t.issuer == s.id
    ensures var s1 := s.(seen := Bump(s.seen, s.id, t.clock));
      !s1.frozen && t.Key() in s1.parked ==> !Deliverable(s1, t.Key())
  {
    if t.Key() in s.parked {
      assert Held(s, t.Key());
      assert s.(seen := Bump(s.seen, s.id, t.clock)) == s;
    }
  }

  lemma ForwardLast(a: seq<Output>, b: seq<Output>, t: Train)
    ensures Delivered(a + b + [ForwardTrain(t)]) == Delivered(a) + Delivered(b)
  {
    DeliveredConcat(a, b);
    DeliveredConcat(a + b, [ForwardTrain(t)]);
    assert Delivered([ForwardTrain(t)]) == [] + Delivered([]);
  }

  /** Every step records an ascending run of keys and delivers their contents. */
  lemma StepOrdered(s: Node, input: Input, e: Epoch, raw: Key -> seq<Payload>)
    requires Ordered(s, e, raw) && Quiet(s) && s.floor == e.base
    requires Accepts(s, input) && GenuineInput(s, input, e, raw)
    ensures var r := Step(s, input);
      Ordered(r.node, e, raw) && Quiet(r.node) && Log(r.node, e, raw) == Log(s, e, raw) + Delivered(r.out)
  {
    match input
    case LocalBroadcast(data) => BroadcastOrdered(s, data, e, raw);
    case Tick =>
    case TrainReceived(t) => if !Fenced(s, t) { TrainOrdered(s, t, e, raw); }
  }

  lemma BroadcastOrdered(s: Node, data: Bytes, e: Epoch, raw: Key -> seq<Payload>)
    requires Ordered(s, e, raw) && Quiet(s)
    ensures var s' := Broadcast(s, data); Ordered(s', e, raw) && Quiet(s') && Log(s', e, raw) == Log(s, e, raw)
  {
    AdvanceOrdered(s, Broadcast(s, data), e, raw);
    SameClocksQuiet(s, Broadcast(s, data));
  }

  lemma TrainOrdered(s: Node, t: Train, e: Epoch, raw: Key -> seq<Payload>)
    requires Ordered(s, e, raw) && Quiet(s) && s.floor == e.base && t.issuer < s.ring.n
    requires !Fenced(s, t) && Genuine(s, t, e, raw)
    ensures var r := HandleTrain(s, t);
      Ordered(r.node, e, raw) && Quiet(r.node) && Log(r.node, e, raw) == Log(s, e, raw) + Delivered(r.out)
  {
    if t.issuer == s.id && t.Key() in s.done {
      RecycledOrdered(s, t, e, raw);
    } else if t.issuer == s.id {
      ReturnedOrdered(s, t, e, raw);
    } else if IsReplay(s, t) {
      ReplayOrdered(s, t, e, raw);
    } else {
      FirstSightOrdered(s, t, e, raw);
    }
  }

  lemma FreshOrdered(ring: Ring, id: nat, mode: Mode, raw: Key -> seq<Payload>)
    requires id < ring.n
    ensures var s := Fresh(ring, id, mode);
      Ordered(s, FirstEpoch(ring), raw) && Quiet(s) && Log(s, FirstEpoch(ring), raw) == []
  {
  }

  // ----- arbitrary trains: order without agreement on contents -----

  ghost predicate InOrder(s: Node, e: Epoch) {
    && Sound(s) && |e.base| == s.ring.n && s.floor == e.base && s.crashed == e.crashed
    && Segment(s, e)
    && (forall k :: k in s.parked ==> InEpoch(s.ring, e, k))
    && |s.cache| <= CACHE_CAP && (forall k :: k in s.cache ==> k in s.done && s.cache[k] != [])
  }

  /** Trains of the view's issuers; their acks and contents are arbitrary. */
  predicate FromIssuers(s: Node, e: Epoch, input: Input)
    requires Wf(s)
  {
    Accepts(s, input) && (input.TrainReceived? && !Fenced(s, input.train) ==> InEpoch(s.ring, e, input.train.Key()))
  }

  /**
   * Local total order: whatever trains of the view's issuers arrive, the done
   * keys stay an initial segment, and each newly recorded key is above every key
   * recorded before it.
   */
  lemma LocalTotalOrder(s: Node, input: Input, e: Epoch)
    requires InOrder(s, e) && FromIssuers(s, e, input)
    ensures var s' := Step(s, input).node;
      && InOrder(s', e) && s.done <= s'.done
      && forall k, j :: k in s'.done - s.done && j in s.done - e.before ==> Before(j, k)
  {
    var s' := Step(s, input).node;
    KnownOrdered(s, input, e);
    StepOrdered(s, input, e, Known(s, input));
    forall k, j | k in s'.done - s.done && j in s.done - e.before ensures Before(j, k) {
      assert k !in e.before;
      assert Before(k, j) ==> k in s.done;
    }
  }

  // ----- what a step delivers -----

  /** What a step could record: trains already parked, and the one that arrived. */
  function Arrivals(s: Node, input: Input): Key -> seq<Payload> {
    k => if k in s.parked then s.parked[k].payloads
         else if input.TrainReceived? && input.train.Key() == k then input.train.payloads
         else []
  }

  lemma {:induction false} DrainRecords(s: Node)
    requires Wf(s)
    ensures Drain(s).node.done <= s.done + s.parked.Keys
    decreases |s.parked|
  {
    if !s.frozen && s.parked != map[] {
      var key := Min(s.parked.Keys);
      if Deliverable(s, key) {
        var rest := s.parked - {key};
        assert rest.Keys == s.parked.Keys - {key};
        assert |rest.Keys| == |s.parked.Keys| - 1;
        DrainRecords(Record(s.(parked := rest), key, s.parked[key].payloads).node);
      }
    }
  }

  lemma TryThenDrainRecords(s: Node, t: Train)
    requires Wf(s)
    ensures Drain(TryDeliver(s, t).node).node.done <= s.done + s.parked.Keys + {t.Key()}
  {
    DrainRecords(TryDeliver(s, t).node);
  }

  lemma TrainRecords(s: Node, t: Train)
    requires Wf(s) && t.issuer < s.ring.n
    ensures HandleTrain(s, t).node.done <= s.done + s.parked.Keys + {t.Key()}
  {
    if t.issuer == s.id {
      TryThenDrainRecords(s.(seen := Bump(s.seen, s.id, t.clock)), t);
    } else if IsReplay(s, t) {
      TryThenDrainRecords(s.(known := s.known + Ids(t.payloads)), t);
    } else {
      DrainRecords(AfterLoad(s, t));
    }
  }

  lemma StepRecords(s: Node, input: Input, k: Key)
    requires Wf(s) && Accepts(s, input) && k in Step(s, input).node.done - s.done
    ensures k in s.parked || (input.TrainReceived? && input.train.Key() == k)
  {
    if input.TrainReceived? { TrainRecords(s, input.train); }
  }

  /** As `Arrivals`, and the cached contents of keys recorded earlier. */
  ghost function Known(s: Node, input: Input): Key -> seq<Payload> {
    k => if k in s.parked then s.parked[k].payloads
         else if k in s.cache then s.cache[k]
         else if k !in s.done && input.TrainReceived? then input.train.payloads
         else []
  }

  lemma KnownOrdered(s: Node, input: Input, e: Epoch)
    requires InOrder(s, e) && FromIssuers(s, e, input)
    ensures Ordered(s, e, Known(s, input)) && GenuineInput(s, input, e, Known(s, input))
  {
    forall k | k in s.cache ensures s.cache[k] == Known(s, input)(k) {
      assert k in s.parked ==> Held(s, k);
    }
  }

  /**
   * A step delivers exactly the contents of the keys it records, each once, in
   * ascending key order.
   */
  lemma StepDelivers(s: Node, input: Input, e: Epoch)
    requires InOrder(s, e) && FromIssuers(s, e, input)
    ensures var r := Step(s, input);
      Delivered(r.out) == LogOf(r.node.done - s.done, Arrivals(s, input))
  {
    var raw, s' := Known(s, input), Step(s, input).node;
    KnownOrdered(s, input, e);
    StepOrdered(s, input, e, raw);
    LocalTotalOrder(s, input, e);
    forall k | k in s'.done - s.done ensures raw(k) == Arrivals(s, input)(k) {
      StepRecords(s, input, k);
      assert k in s.cache ==> k in s.done;
    }
    LogTail(s.done, s'.done, e.before, raw, Arrivals(s, input), Delivered(Step(s, input).out));
  }

  lemma LogTail(done: set<Key>, done': set<Key>, before: set<Key>, raw: Key -> seq<Payload>, raw': Key -> seq<Payload>,
                out: seq<Payload>)
    requires before <= done <= done' && LogOf(done' - before, raw) == LogOf(done - before, raw) + out
    requires forall k, j :: k in done' - done && j in done - before ==> Before(j, k)
    requires forall k :: k in done' - done ==> raw(k) == raw'(k)
    ensures out == LogOf(done' - done, raw')
  {
    LogSplit(done - before, done' - done, raw);
    assert (done - before) + (done' - done) == done' - before;
    LogCongruent(done' - done, raw, raw');
    SamePrefix(LogOf(done - before, raw), LogOf(done' - done, raw), out);
  }

  lemma SamePrefix(a: seq<Payload>, b: seq<Payload>, c: seq<Payload>)
    requires a + b == a + c
    ensures b == c
  {
    assert b == (a + b)[|a|..] && c == (a + c)[|a|..];
  }

  // ----- runs of arbitrary trains -----

  ghost predicate StepRun(s: Node, e: Epoch, ins: seq<Input>, s': Node)
    decreases |ins|
  {
    if ins == [] then s' == s
    else Wf(s) && FromIssuers(s, e, ins[0]) && StepRun(Step(s, ins[0]).node, e, ins[1..], s')
  }

  /**
   * Local total order over a whole run: the done keys of the view are always an
   * initial segment of its keys, and everything recorded during the run lies
   * above everything recorded before it.
   */
  lemma {:induction false} TotalOrderInEveryRun(s: Node, e: Epoch, ins: seq<Input>, s': Node)
    requires InOrder(s, e) && StepRun(s, e, ins, s')
    ensures InOrder(s', e) && s'.ring == s.ring && s'.id == s.id && s.done <= s'.done
    ensures forall k, j :: k in s'.done - s.done && j in s.done - e.before ==> Before(j, k)
    decreases |ins|
  {
    if ins != [] {
      LocalTotalOrder(s, ins[0], e);
      TotalOrderInEveryRun(Step(s, ins[0]).node, e, ins[1..], s');
    }
  }

  /**
   * From a fresh node, before or after its initial train, whatever trains of
   * issuers below K arrive: the done keys are always an initial segment of
   * (1,0), (1,1), ..., (1,K-1), (2,0), ...
   */
  lemma DoneIsInitialSegment(ring: Ring, id: nat, mode: Mode, s0: Node, ins: seq<Input>, s: Node)
    requires id < ring.n && (s0 == Fresh(ring, id, mode) || s0 == AfterIssue(Fresh(ring, id, mode)))
    requires StepRun(s0, FirstEpoch(ring), ins, s)
    ensures forall k :: k in s.done ==> k.issuer < ring.k && k.clock >= 1
    ensures forall k, j: Key :: k in s.done && j.issuer < ring.k && j.clock >= 1 && Before(j, k) ==> j in s.done
  {
    TotalOrderInEveryRun(s0, FirstEpoch(ring), ins, s);
    SegmentIsInitial(s, FirstEpoch(ring));
  }

  lemma SegmentIsInitial(s: Node, e: Epoch)
    requires Wf(s) && Segment(s, e) && e == FirstEpoch(s.ring)
    ensures forall k :: k in s.done ==> k.issuer < s.ring.k && k.clock >= 1
    ensures forall k, j: Key :: k in s.done && j.issuer < s.ring.k && j.clock >= 1 && Before(j, k) ==> j in s.done
  {
    forall k | k in s.done ensures InEpoch(s.ring, e, k) { assert k in s.done - e.before; }
    forall k, j: Key | k in s.done && j.issuer < s.ring.k && j.clock >= 1 && Before(j, k) ensures j in s.done {
      assert k in s.done - e.before && InEpoch(s.ring, e, j);
    }
  }
}
