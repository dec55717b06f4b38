// `ReferenceNode` as written: vectors and sets changed in place, every method
// proved equal to the functions of `Reference`.

module ReferenceNodeClass {
  import opened Types
  import opened Kernel
  import opened Reference

  class ReferenceNode {
    const ring: Ring
    const id: nat
    const seenClk: array<nat>
    var issClk: nat
    var nextSeq: nat
    var pending: seq<Payload>
    var done: set<Key>
    var delivered: seq<Payload>
    var parked: seq<Train>
    var known: set<Id>

    ghost predicate Valid()
      reads this
    {
      seenClk.Length == ring.n && id < ring.n
    }

    ghost function Model(): (r: RefNode)
      requires Valid()
      reads this, seenClk
      ensures RefWf(r)
    {
      RefNode(ring, id, seenClk[..], issClk, nextSeq, pending, done, delivered, parked, known)
    }

    constructor (ring: Ring, id: nat)
      requires id < ring.n
      ensures Valid() && fresh(seenClk) && Model() == RefFresh(ring, id)
    {
      this.ring, this.id := ring, id;
      seenClk := new nat[ring.n](_ => 0);
      issClk, nextSeq, pending, done, delivered, parked, known := 1, 0, [], {}, [], [], {};
      new;
      assert seenClk[..] == Zeros(ring.n);
    }

    method IsDeliverable(key: Key) returns (b: bool)
      requires Valid()
      ensures b == RefDeliverable(Model(), key)
    {
      for i := 0 to |parked|
        invariant forall j :: 0 <= j < i ==> !Before(parked[j].Key(), key)
      {
        if Before(parked[i].Key(), key) {
          assert parked[i] in Model().parked;
          return false;
        }
      }
      b := KnownAreDone(key);
      if !b { return; }
      for q := 0 to ring.k
        invariant forall x :: 0 <= x < q ==> seenClk[x] >= key.clock
      {
        if seenClk[q] < key.clock {
          assert Model().seen[q] < key.clock;
          return false;
        }
      }
    }

    method KnownAreDone(key: Key) returns (b: bool)
      requires Valid()
      ensures b == RefKnownDone(Model(), key)
    {
      for q := 0 to ring.n
        invariant forall x, cl ::
          0 <= x < q && 1 <= cl <= seenClk[x] && Before(ClockKey(cl, x), key) ==> ClockKey(cl, x) in done
      {
        for cl := 1 to seenClk[q] + 1
          invariant forall c :: 1 <= c < cl && Before(ClockKey(c, q), key) ==> ClockKey(c, q) in done
        {
          if Before(ClockKey(cl, q), key) && ClockKey(cl, q) !in done {
            assert 1 <= cl <= Model().seen[q];
            return false;
          }
        }
      }
      b := true;
    }

    method RecordAndDeliver(key: Key, payloads: seq<Payload>) returns (out: seq<Output>)
      requires Valid()
      modifies this`done, this`delivered
      ensures RefEffect(Model(), out) == RefRecord(old(Model()), key, payloads)
    {
      done := done + {key};
      out := [];
      if payloads != [] {
        delivered := delivered + SortPayloads(payloads);
        out := [Deliver(SortPayloads(payloads))];
      }
    }

    method IsParked(key: Key) returns (b: bool)
      requires Valid()
      ensures b == (key in ParkedKeys(parked))
    {
      for i := 0 to |parked|
        invariant forall j :: 0 <= j < i ==> parked[j].Key() != key
      {
        if parked[i].Key() == key { return true; }
      }
      b := false;
    }

    method TryDeliver(train: Train) returns (out: seq<Output>)
      requires Valid()
      modifies this`done, this`parked, this`delivered
      ensures RefEffect(Model(), out) == RefTry(old(Model()), train)
    {
      out := [];
      if train.acks != Members(ring, {}) || train.Key() in done { return; }
      var deliverable := IsDeliverable(train.Key());
      if !deliverable {
        var already := IsParked(train.Key());
        if !already { parked := parked + [train]; }
        return;
      }
      out := RecordAndDeliver(train.Key(), train.payloads);
    }

    /** The minimum over the vector and the first position that holds it. */
    method Smallest() returns (i: nat)
      requires Valid() && parked != []
      ensures SmallestAt(parked, i)
    {
      i := 0;
      for j := 1 to |parked|
        invariant i < |parked| && (forall x :: 0 <= x < i ==> Before(parked[i].Key(), parked[x].Key()))
        invariant forall x :: 0 <= x < j ==> !Before(parked[x].Key(), parked[i].Key())
      {
        if Before(parked[j].Key(), parked[i].Key()) { i := j; }
      }
      assert parked[i].Key() in ParkedKeys(parked);
      assert parked[i].Key() == Min(ParkedKeys(parked));
      FirstIndex(parked, i);
    }

    method DrainParked() returns (out: seq<Output>)
      requires Valid()
      modifies this`done, this`parked, this`delivered
      ensures RefEffect(Model(), out) == RefDrain(old(Model()))
    {
      out := [];
      ghost var start := Model();
      DrainBegins(start);
      while parked != []
        invariant Draining(start, Model(), out)
        decreases |parked|
      {
        var i := Smallest();
        var deliverable := IsDeliverable(parked[i].Key());
        if !deliverable {
          DrainEnds(start, Model(), out, i);
          return;
        }
        DrainTurn(start, Model(), out, i);
        var train := parked[i];
        parked := parked[..i] + parked[i + 1..];
        var more := RecordAndDeliver(train.Key(), train.payloads);
        out := out + more;
      }
      DrainEnds(start, Model(), out, 0);
    }

    method AppBroadcast(data: Bytes)
      requires Valid()
      modifies this`known, this`pending, this`nextSeq
      ensures Model() == RefBroadcast(old(Model()), data)
    {
      if (id, nextSeq) in known { return; }
      known := known + {(id, nextSeq)};
      pending := pending + [Payload(id, nextSeq, data)];
      nextSeq := nextSeq + 1;
    }

    method IssueNewTrain() returns (t: Train)
      requires Valid()
      modifies this`issClk, this`known, this`pending
      ensures (t, Model()) == RefIssue(old(Model()))
    {
      var clock := issClk;
      issClk := issClk + 1;
      var taken := SortPayloads(pending);
      pending := [];
      known := known + Ids(taken);
      t := Train(id, clock, taken, {id});
    }

    method HandleForeign(train: Train) returns (out: seq<Output>)
      requires Valid() && train.issuer < ring.n
      modifies this, seenClk
      ensures Valid() && RefEffect(Model(), out) == RefForeign(old(Model()), train)
    {
      ghost var r := Model();
      var prev := seenClk[train.issuer];
      if prev >= train.clock && prev > 0 {
        known := known + Ids(train.payloads);
        out := TryDeliver(train);
        out := out + [ForwardTrain(train)];
        var more := DrainParked();
        out := out + more;
        return;
      }
      out := if train.clock > prev + 1 then [DeclareCrash(train.issuer)] else [];
      seenClk[train.issuer] := train.clock;
      var t := train.(payloads := train.payloads + SortPayloads(pending), acks := train.acks + {id});
      pending := [];
      known := known + Ids(t.payloads);
      assert seenClk[..] == r.seen[train.issuer := train.clock];
      out := out + [ForwardTrain(t)];
      var more := DrainParked();
      out := out + more;
    }

    method HandleReturning(train: Train) returns (out: seq<Output>)
      requires Valid() && train.issuer == id
      modifies this, seenClk
      ensures Valid() && RefEffect(Model(), out) == RefReturning(old(Model()), train)
    {
      ghost var r := Model();
      if train.clock > seenClk[id] { seenClk[id] := train.clock; }
      assert seenClk[..] == if train.clock > r.seen[id] then r.seen[id := train.clock] else r.seen;
      if train.Key() in done {
        var t := IssueNewTrain();
        return [ForwardTrain(t)];
      }
      out := TryDeliver(train);
      var more := DrainParked();
      out := out + more + [ForwardTrain(train)];
    }

    method DoStep(input: Input) returns (out: seq<Output>)
      requires Valid() && RefAccepts(Model(), input)
      modifies this, seenClk
      ensures Valid() && RefEffect(Model(), out) == RefStep(old(Model()), input)
    {
      out := [];
      match input {
        case LocalBroadcast(data) => AppBroadcast(data);
        case Tick =>
        case TrainReceived(train) =>
          if train.issuer == id {
            out := HandleReturning(train);
          } else {
            out := HandleForeign(train);
          }
      }
    }
  }

  /** What is left to drain from `r` completes the drain of `start`, `out` being delivered already. */
  ghost predicate Draining(start: RefNode, r: RefNode, out: seq<Output>) {
    RefWf(start) && RefWf(r) && RefDrain(start) == RefEffect(RefDrain(r).node, out + RefDrain(r).out)
  }

  /** `i` is where the smallest parked key sits first. */
  ghost predicate SmallestAt(ts: seq<Train>, i: nat) {
    ts != [] && ParkedKeys(ts) != {} && Min(ParkedKeys(ts)) in ParkedKeys(ts) && i == IndexOf(ts, Min(ParkedKeys(ts)))
  }

  lemma DrainBegins(r: RefNode)
    requires RefWf(r)
    ensures Draining(r, r, [])
  {
    assert [] + RefDrain(r).out == RefDrain(r).out;
  }

  lemma DrainEnds(start: RefNode, r: RefNode, out: seq<Output>, i: nat)
    requires Draining(start, r, out)
    requires r.parked == [] || (SmallestAt(r.parked, i) && !RefDeliverable(r, r.parked[i].Key()))
    ensures RefEffect(r, out) == RefDrain(start)
  {
    NothingAfter(out);
  }

  lemma DrainTurn(start: RefNode, r: RefNode, out: seq<Output>, i: nat)
    requires Draining(start, r, out) && SmallestAt(r.parked, i) && RefDeliverable(r, r.parked[i].Key())
    ensures var e1 := RefRecord(r.(parked := Without(r.parked, i)), r.parked[i].Key(), r.parked[i].payloads);
      Draining(start, e1.node, out + e1.out)
  {
    var e1 := RefRecord(r.(parked := Without(r.parked, i)), r.parked[i].Key(), r.parked[i].payloads);
    Assoc(out, e1.out, RefDrain(e1.node).out);
  }

  lemma {:induction false} FirstIndex(ts: seq<Train>, i: nat)
    requires i < |ts| && forall x :: 0 <= x < i ==> ts[x].Key() != ts[i].Key()
    ensures ts[i].Key() in ParkedKeys(ts) && IndexOf(ts, ts[i].Key()) == i
  {
    assert ts[i] in ts;
    if i > 0 {
      assert ts[0].Key() != ts[i].Key();
      var rest := ts[1..];
      forall x | 0 <= x < i - 1 ensures rest[x].Key() != rest[i - 1].Key() { assert rest[x] == ts[x + 1]; }
      FirstIndex(rest, i - 1);
    }
  }
}
