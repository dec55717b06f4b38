// How far apart nodes of the token ring can drift, and why the bounded
// retransmission cache is enough.

module RingLag {
  import opened Types
  import opened Kernel
  import opened LocalOrder
  import opened Network
  import opened TokenRing

  /** A node is at most one clock behind the train of any issuer. */
  lemma SeenWithinOne(rs: LiveRing, p: nat, r: nat)
    requires p < rs.sys.ring.n && r < |rs.at|
    ensures rs.sys.nodes[p].seen[r] <= rs.at[r].train.clock <= rs.sys.nodes[p].seen[r] + 1
    ensures forall cl :: 1 <= cl < rs.at[r].train.clock ==> Handled(rs.sys.nodes[p], ClockKey(cl, r))
  {
    assert TokenOk(rs, r);
    assert VisitOk(rs.sys.nodes[p], rs.at[r], Offset(rs.sys.ring.n, r, p));
  }

  lemma DoneMeansCaughtUp(rs: LiveRing, p: nat, k: Key)
    requires p < rs.sys.ring.n && k in rs.sys.nodes[p].done
    ensures k.issuer < rs.sys.ring.k && ClocksCaughtUp(rs.sys.nodes[p], k) && rs.sys.nodes[p].crashed == {}
  {
    var s, e := rs.sys.nodes[p], FirstEpoch(rs.sys.ring);
    assert Segment(s, e) && s.crashed == {} by { NodeFromReachable(rs.sys.ring, rs.mode, rs.sys, p); }
    assert k in s.done - e.before;
  }

  /** Issuer clocks never differ by more than one. */
  lemma ClockSkew(rs: LiveRing, q: nat, r: nat)
    requires q < |rs.at| && r < |rs.at|
    ensures rs.at[q].train.clock <= rs.at[r].train.clock + 1
  {
    var c := rs.at[q].train.clock;
    assert TokenOk(rs, q);
    if c >= 2 {
      DoneMeansCaughtUp(rs, q, ClockKey(c - 1, q));
      SeenWithinOne(rs, q, r);
    }
  }

  /** Keys of the first view at or below clock `c` that `s` has not done. */
  ghost function Missing(s: Node, c: nat): set<Key> {
    set cl, q | 1 <= cl <= c && 0 <= q < s.ring.k && ClockKey(cl, q) !in s.done :: ClockKey(cl, q)
  }

  lemma SmallestMissingDeliverable(s: Node, c: nat, m: Key)
    requires Tidy(s) && s.crashed == {}
    requires forall k :: k in s.parked ==> k.issuer < s.ring.k
    requires forall q :: s.ring.k <= q < s.ring.n ==> s.seen[q] == 0
    requires forall q :: 0 <= q < s.ring.k ==> s.seen[q] >= c
    requires m in Missing(s, c) && (forall j :: j in Missing(s, c) && j != m ==> Before(m, j))
    ensures Deliverable(s, m)
  {
    forall k | k in s.parked ensures !Before(k, m) {
      assert Held(s, k);
      assert k == ClockKey(k.clock, k.issuer);
      assert Before(k, m) ==> k in Missing(s, c);
    }
    forall q, cl | 0 <= q < s.ring.n && 1 <= cl <= s.seen[q] && Before(ClockKey(cl, q), m)
      ensures ClockKey(cl, q) in s.done
    {
      var j := ClockKey(cl, q);
      assert j !in s.done ==> j in Missing(s, c);
    }
  }

  /** A quiet node with every clock at `c` and every key up to `c` handled misses none of them. */
  lemma NothingMissing(s: Node, c: nat)
    requires Settled(s)
    requires forall q :: 0 <= q < s.ring.k ==> s.seen[q] >= c
    requires forall q, cl :: 0 <= q < s.ring.k && 1 <= cl <= c ==> Handled(s, ClockKey(cl, q))
    ensures Missing(s, c) == {}
  {
    if Missing(s, c) != {} {
      var m := Min(Missing(s, c));
      assert Handled(s, ClockKey(m.clock, m.issuer));
      SmallestMissingDeliverable(s, c, m);
    }
  }

  predicate Settled(s: Node) {
    && Sound(s) && !s.frozen && s.crashed == {}
    && (forall k :: k in s.parked ==> k.issuer < s.ring.k)
    && (forall q :: s.ring.k <= q < s.ring.n ==> s.seen[q] == 0)
  }

  lemma RingNodeSettled(rs: LiveRing, p: nat)
    requires p < rs.sys.ring.n
    ensures Settled(rs.sys.nodes[p])
  {
    NodeFromReachable(rs.sys.ring, rs.mode, rs.sys, p);
  }

  /** A node has done every key more than one round below the highest issuer clock. */
  lemma NobodyLags(rs: LiveRing, p: nat, q: nat, k: Key)
    requires p < rs.sys.ring.n && q < |rs.at|
    requires k.issuer < rs.sys.ring.k && 1 <= k.clock && k.clock + 2 <= rs.at[q].train.clock
    ensures k in rs.sys.nodes[p].done
  {
    var s := rs.sys.nodes[p];
    var c: nat := rs.at[q].train.clock - 2;
    forall r | 0 <= r < s.ring.k ensures s.seen[r] >= c {
      ClockSkew(rs, q, r);
      SeenWithinOne(rs, p, r);
    }
    forall r, cl | 0 <= r < s.ring.k && 1 <= cl <= c ensures Handled(s, ClockKey(cl, r)) {
      ClockSkew(rs, q, r);
      SeenWithinOne(rs, p, r);
    }
    RingNodeSettled(rs, p);
    NothingMissing(s, c);
    assert k == ClockKey(k.clock, k.issuer);
    assert k !in s.done ==> k in Missing(s, c);
  }

  lemma {:induction false} TwoRoundsOfKeys(d: set<Key>, c: nat, k: nat)
    requires forall j :: j in d ==> (j.clock == c || j.clock == c + 1) && j.issuer < k
    ensures |d| <= 2 * k
  {
    if k == 0 {
      assert d == {};
    } else {
      var low := set j | j in d && j.issuer < k - 1;
      TwoRoundsOfKeys(low, c, k - 1);
      var top := {ClockKey(c, k - 1), ClockKey(c + 1, k - 1)};
      assert d <= low + top;
      SubsetCount(d, low + top);
      assert |top| == 2;
      assert |low + top| <= |low| + |top|;
    }
  }

  lemma {:induction false} SubsetCount(a: set<Key>, b: set<Key>)
    requires a <= b
    ensures |a| <= |b|
  {
    if a != {} {
      var x :| x in a;
      SubsetCount(a - {x}, b - {x});
    }
  }

  /**
   * The cache bound suffices: a payload that some node has delivered and another
   * still lacks is in the first node's cache, unaltered.
   */
  lemma CacheSuffices(rs: LiveRing, p: nat, p': nat, k: Key)
    requires p < rs.sys.ring.n && p' < rs.sys.ring.n
    requires k in rs.sys.nodes[p].done && k !in rs.sys.nodes[p'].done
    requires Contents(rs.sys, FirstEpoch(rs.sys.ring))(k) != []
    ensures k in rs.sys.nodes[p].cache
    ensures rs.sys.nodes[p].cache[k] == Contents(rs.sys, FirstEpoch(rs.sys.ring))(k)
  {
    var s, e, n := rs.sys.nodes[p], FirstEpoch(rs.sys.ring), rs.sys.ring.n;
    NodeFromReachable(rs.sys.ring, rs.mode, rs.sys, p);
    assert Ordered(s, e, Contents(rs.sys, e));
    assert k in s.done - e.before;
    if k !in s.cache {
      assert Cached(s, e, Contents(rs.sys, e));
      forall j | j in s.cache.Keys ensures (j.clock == k.clock || j.clock == k.clock + 1) && j.issuer < rs.sys.ring.k {
        assert j in s.done && Before(k, j);
        DoneMeansCaughtUp(rs, p, j);
        SeenWithinOne(rs, p, j.issuer);
        if k.clock + 2 <= rs.at[j.issuer].train.clock { NobodyLags(rs, p', j.issuer, k); }
      }
      TwoRoundsOfKeys(s.cache.Keys, k.clock, rs.sys.ring.k);
    }
  }

  // ----- what a recycle says about the others -----

  /** A quiet node that has caught up with `key` and handled everything up to it has recorded it. */
  lemma HandledMeansDone(s: Node, key: Key)
    requires Settled(s) && key.issuer < s.ring.k && key.clock >= 1 && ClocksCaughtUp(s, key)
    requires forall j: Key :: j.issuer < s.ring.k && 1 <= j.clock && !Before(key, j) ==> Handled(s, j)
    ensures key in s.done
  {
    if key !in s.done {
      assert key == ClockKey(key.clock, key.issuer);
      assert key in Missing(s, key.clock);
      var m := Min(Missing(s, key.clock));
      assert Handled(s, m);
      SmallestMissingDeliverable(s, key.clock, m);
    }
  }

  /** Node `p` has met every issuer's clock `key.clock` and handled the smaller keys of that round. */
  predicate Abreast(s: Node, key: Key)
    requires Wf(s)
  {
    ClocksCaughtUp(s, key) && forall r :: 0 <= r < key.issuer ==> Handled(s, ClockKey(key.clock, r))
  }

  lemma DoneIsAbreast(rs: LiveRing, p: nat, key: Key)
    requires p < rs.sys.ring.n && key in rs.sys.nodes[p].done
    ensures Abreast(rs.sys.nodes[p], key)
  {
    var s, e := rs.sys.nodes[p], FirstEpoch(rs.sys.ring);
    DoneMeansCaughtUp(rs, p, key);
    assert Segment(s, e) by { NodeFromReachable(rs.sys.ring, rs.mode, rs.sys, p); }
    assert key in s.done - e.before;
    forall r | 0 <= r < key.issuer ensures Handled(s, ClockKey(key.clock, r)) {
      assert InEpoch(rs.sys.ring, e, ClockKey(key.clock, r));
    }
  }

  /** Everything before `key` has been handled by a node abreast of it. */
  lemma AbreastHandled(rs: LiveRing, p: nat, q: nat, j: Key)
    requires p < rs.sys.ring.n && q < |rs.at| && rs.at[q].lap >= 2 && j.issuer < rs.sys.ring.k && 1 <= j.clock
    requires Abreast(rs.sys.nodes[p], rs.at[q].train.Key()) && !Before(rs.at[q].train.Key(), j)
    ensures Handled(rs.sys.nodes[p], j)
  {
    assert TokenOk(rs, q);
    assert VisitOk(rs.sys.nodes[p], rs.at[q], Offset(rs.sys.ring.n, q, p));
    SeenWithinOne(rs, p, j.issuer);
    assert j == ClockKey(j.clock, j.issuer);
    NobodyCrashed(rs, p);
  }

  lemma NobodyCrashed(rs: LiveRing, p: nat)
    requires p < rs.sys.ring.n
    ensures rs.sys.nodes[p].crashed == {}
  {
    NodeFromReachable(rs.sys.ring, rs.mode, rs.sys, p);
  }

  /**
   * What the issuer may conclude when its train comes round the second time:
   * a node has recorded the key if and only if it has met every issuer's train of
   * that clock and handled the smaller keys of the round.  The others hold it
   * parked.
   */
  lemma RecycledRecordedIff(rs: LiveRing, q: nat, p: nat)
    requires p < rs.sys.ring.n && q < |rs.at| && rs.at[q].lap >= 2
    ensures Handled(rs.sys.nodes[p], rs.at[q].train.Key())
    ensures rs.at[q].train.Key() in rs.sys.nodes[p].done <==> Abreast(rs.sys.nodes[p], rs.at[q].train.Key())
  {
    var s, key := rs.sys.nodes[p], rs.at[q].train.Key();
    assert TokenOk(rs, q);
    assert VisitOk(s, rs.at[q], Offset(rs.sys.ring.n, q, p));
    if key in s.done { DoneIsAbreast(rs, p, key); }
    if Abreast(s, key) {
      RingNodeSettled(rs, p);
      forall j: Key | j.issuer < s.ring.k && 1 <= j.clock && !Before(key, j) ensures Handled(s, j) {
        AbreastHandled(rs, p, q, j);
      }
      HandledMeansDone(s, key);
    }
  }
}
