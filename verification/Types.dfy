// Wire-level data of the TRAINS protocol: ring shape, clock keys, payloads,
// trains, and the deterministic order used inside one train.

module Types {

  /** RING_SIZE and NUM_TRAINS, with the bounds the build script enforces. */
  datatype Shape = Shape(n: nat, k: nat)
  type Ring = r: Shape | 2 <= r.n <= 30 && 1 <= r.k <= r.n witness Shape(3, 2)

  /** How many places on from `q` the process `p` sits. */
  function Offset(n: nat, q: nat, p: nat): (off: nat)
    requires q < n && p < n
    ensures off < n && (off == 0 <==> q == p)
  {
    if p >= q then p - q else p + n - q
  }

  lemma Assoc<T>(a: seq<T>, b: seq<T>, c: seq<T>)
    ensures a + (b + c) == (a + b) + c
  {
  }

  lemma NothingAfter<T>(a: seq<T>)
    ensures a + [] == a
  {
  }

  type Byte = b: int | 0 <= b < 256
  type Bytes = seq<Byte>
  type Id = (nat, nat)

  datatype Payload = Payload(sender: nat, number: nat, data: Bytes)
  {
    function Id(): Id { (sender, number) }
  }

  function Ids(ps: seq<Payload>): set<Id> {
    set p | p in ps :: p.Id()
  }

  /** No two positions carry the same (sender, seq). */
  predicate DistinctIds(ps: seq<Payload>) {
    forall i, j :: 0 <= i < j < |ps| ==> ps[i].Id() != ps[j].Id()
  }

  datatype Train = Train(issuer: nat, clock: nat, payloads: seq<Payload>, acks: set<nat>)
  {
    function Key(): Key { ClockKey(clock, issuer) }
  }

  // ----- the global order on trains -----

  datatype Key = ClockKey(clock: nat, issuer: nat)

  predicate Before(a: Key, b: Key) {
    a.clock < b.clock || (a.clock == b.clock && a.issuer < b.issuer)
  }

  lemma {:induction false} MinExists(s: set<Key>)
    requires s != {}
    ensures exists m :: m in s && forall j :: j in s ==> !Before(j, m)
  {
    var x :| x in s;
    var rest := s - {x};
    if rest != {} {
      MinExists(rest);
      var m :| m in rest && forall j :: j in rest ==> !Before(j, m);
      var best := if Before(x, m) then x else m;
      assert forall j :: j in s ==> j == x || j in rest;
      assert best in s && forall j :: j in s ==> !Before(j, best);
    } else {
      assert s == {x};
      assert x in s && forall j :: j in s ==> !Before(j, x);
    }
  }

  /** The smallest key, as `BTreeMap` iteration yields it first. */
  function Min(s: set<Key>): (m: Key)
    requires s != {}
    ensures m in s
    ensures forall j :: j in s && j != m ==> Before(m, j)
  {
    MinExists(s);
    var m :| m in s && forall j :: j in s ==> !Before(j, m);
    m
  }

  lemma {:induction false} MaxExists(s: set<Key>)
    requires s != {}
    ensures exists m :: m in s && forall j :: j in s ==> !Before(m, j)
  {
    var x :| x in s;
    var rest := s - {x};
    if rest != {} {
      MaxExists(rest);
      var m :| m in rest && forall j :: j in rest ==> !Before(m, j);
      var best := if Before(m, x) then x else m;
      assert forall j :: j in s ==> j == x || j in rest;
      assert best in s && forall j :: j in s ==> !Before(best, j);
    } else {
      assert s == {x};
      assert x in s && forall j :: j in s ==> !Before(x, j);
    }
  }

  function Max(s: set<Key>): (m: Key)
    requires s != {}
    ensures m in s
    ensures forall j :: j in s && j != m ==> Before(j, m)
  {
    MaxExists(s);
    var m :| m in s && forall j :: j in s ==> !Before(m, j);
    m
  }

  // ----- delivery order inside one train -----

  predicate IdBefore(a: Id, b: Id) {
    a.0 < b.0 || (a.0 == b.0 && a.1 < b.1)
  }

  predicate Sorted(ps: seq<Payload>) {
    forall i, j :: 0 <= i < j < |ps| ==> !IdBefore(ps[j].Id(), ps[i].Id())
  }

  function Insert(p: Payload, ps: seq<Payload>): (r: seq<Payload>)
    ensures multiset(r) == multiset(ps) + multiset{p}
    ensures |r| == |ps| + 1
  {
    if ps == [] || !IdBefore(ps[0].Id(), p.Id()) then [p] + ps
    else
      assert ps == [ps[0]] + ps[1..];
      [ps[0]] + Insert(p, ps[1..])
  }

  /** `sort_by_key(|p| (p.sender, p.seq))`: stable, by identity. */
  function SortPayloads(ps: seq<Payload>): (r: seq<Payload>)
    ensures multiset(r) == multiset(ps)
    ensures |r| == |ps|
  {
    if ps == [] then []
    else
      assert ps == [ps[0]] + ps[1..];
      Insert(ps[0], SortPayloads(ps[1..]))
  }

  lemma {:induction false} InsertSorted(p: Payload, ps: seq<Payload>)
    requires Sorted(ps)
    ensures Sorted(Insert(p, ps))
  {
    if ps != [] && IdBefore(ps[0].Id(), p.Id()) {
      InsertSorted(p, ps[1..]);
      var rest := Insert(p, ps[1..]);
      forall j | 0 <= j < |rest| ensures !IdBefore(rest[j].Id(), ps[0].Id()) {
        assert rest[j] in multiset(rest);
        assert rest[j] == p || rest[j] in multiset(ps[1..]);
      }
    }
  }

  lemma {:induction false} SortIsSorted(ps: seq<Payload>)
    ensures Sorted(SortPayloads(ps))
  {
    if ps != [] {
      SortIsSorted(ps[1..]);
      InsertSorted(ps[0], SortPayloads(ps[1..]));
    }
  }

  /** Sorting an already ascending list changes nothing (`pending` is one). */
  lemma {:induction false} SortOfSorted(ps: seq<Payload>)
    requires Sorted(ps)
    ensures SortPayloads(ps) == ps
  {
    if ps != [] {
      SortOfSorted(ps[1..]);
      assert ps == [ps[0]] + ps[1..];
      if |ps| > 1 {
        assert !IdBefore(ps[1].Id(), ps[0].Id());
      }
    }
  }

  lemma SortMembers(ps: seq<Payload>, p: Payload)
    ensures p in SortPayloads(ps) <==> p in ps
  {
    assert p in multiset(SortPayloads(ps)) <==> p in multiset(ps);
  }

  lemma {:induction false} InsertDistinct(p: Payload, ps: seq<Payload>)
    requires DistinctIds(ps)
    requires forall x :: x in ps ==> x.Id() != p.Id()
    ensures DistinctIds(Insert(p, ps))
  {
    if ps != [] && IdBefore(ps[0].Id(), p.Id()) {
      InsertDistinct(p, ps[1..]);
      var rest := Insert(p, ps[1..]);
      forall j | 0 <= j < |rest| ensures rest[j].Id() != ps[0].Id() {
        assert rest[j] in multiset(rest);
        assert rest[j] == p || rest[j] in multiset(ps[1..]);
      }
    }
  }

  lemma {:induction false} SortDistinct(ps: seq<Payload>)
    requires DistinctIds(ps)
    ensures DistinctIds(SortPayloads(ps))
  {
    if ps != [] {
      SortDistinct(ps[1..]);
      forall x | x in SortPayloads(ps[1..]) ensures x.Id() != ps[0].Id() {
        SortMembers(ps[1..], x);
      }
      InsertDistinct(ps[0], SortPayloads(ps[1..]));
    }
  }

  /** Ascending lists of distinct ids over the same payloads are equal. */
  lemma {:induction false} SortedUnique(a: seq<Payload>, b: seq<Payload>)
    requires Sorted(a) && Sorted(b) && DistinctIds(a) && DistinctIds(b)
    requires forall p :: p in a <==> p in b
    ensures a == b
  {
    assert a != [] ==> a[0] in b;
    assert b != [] ==> b[0] in a;
    if a != [] && b != [] {
      SameHead(a, b);
      forall p ensures p in a[1..] <==> p in b[1..] {
        TailMembers(a, p);
        TailMembers(b, p);
      }
      SortedUnique(a[1..], b[1..]);
      assert a == [a[0]] + a[1..] && b == [b[0]] + b[1..];
    }
  }

  lemma SameHead(a: seq<Payload>, b: seq<Payload>)
    requires Sorted(a) && Sorted(b) && a != [] && b != [] && a[0] in b && b[0] in a && DistinctIds(b)
    ensures a[0] == b[0]
  {
    var i :| 0 <= i < |b| && b[i] == a[0];
    var j :| 0 <= j < |a| && a[j] == b[0];
  }

  lemma TailMembers(a: seq<Payload>, p: Payload)
    requires a != [] && DistinctIds(a)
    ensures p in a[1..] <==> p in a && p != a[0]
  {
    if p in a[1..] { var x :| 1 <= x < |a| && a[x] == p; }
  }
}
