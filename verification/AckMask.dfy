// Acks and crash marks are 32-bit masks in the source and sets of process numbers
// in this model; the two agree on every operation.

module AckMask {
  import opened Types
  import opened Kernel

  type Slot = b: bv32 | b < 32

  function Bit(b: Slot): bv32 { 1 << b }

  predicate Has(m: bv32, b: Slot) { m & Bit(b) != 0 }

  // ----- bits -----

  lemma OneHot(m: bv32, b: Slot)
    ensures Bit(b) != 0 && (m & Bit(b) == 0 || m & Bit(b) == Bit(b))
  {
  }

  lemma AndSplits(m: bv32, x: bv32, s: bv32)
    ensures (m & x) & s == (m & s) & (x & s)
  {
  }

  lemma AndHas(m: bv32, x: bv32, b: Slot)
    ensures Has(m & x, b) <==> Has(m, b) && Has(x, b)
  {
    OneHot(m, b);
    OneHot(x, b);
    AndSplits(m, x, Bit(b));
  }

  lemma NotHas(m: bv32, b: Slot)
    ensures Has(!m, b) <==> !Has(m, b)
  {
  }

  lemma OrSplits(m: bv32, x: bv32, s: bv32)
    ensures (m | x) & s == (m & s) | (x & s)
  {
  }

  lemma OrHas(m: bv32, x: bv32, b: Slot)
    ensures Has(m | x, b) <==> Has(m, b) || Has(x, b)
  {
    OrSplits(m, x, Bit(b));
    EitherNonzero(m & Bit(b), x & Bit(b));
  }

  lemma EitherNonzero(x: bv32, y: bv32)
    ensures x | y != 0 <==> x != 0 || y != 0
  {
  }

  lemma BitHas(a: Slot, b: Slot)
    ensures Has(Bit(a), b) <==> a == b
  {
    ShiftApart(a, b);
  }

  lemma ShiftApart(a: Slot, b: Slot)
    ensures ((1 as bv32) << a) & ((1 as bv32) << b) != 0 <==> a == b
  {
  }

  /** `(1 << n) - 1` */
  function Full(n: Slot): bv32 { ((1 as bv32) << n) - 1 }

  lemma FullHas(n: Slot, b: Slot)
    ensures Has(Full(n), b) <==> b < n
  {
  }

  // ----- masks with the same bits are the same mask -----

  predicate Agree(m: bv32, x: bv32, b: Slot) { Has(m, b) <==> Has(x, b) }

  lemma SameBits(m: bv32, x: bv32)
    requires forall b: Slot :: Agree(m, x, b)
    ensures m == x
  {
    assert Agree(m, x, 0) && Agree(m, x, 1) && Agree(m, x, 2) && Agree(m, x, 3);
    assert Agree(m, x, 4) && Agree(m, x, 5) && Agree(m, x, 6) && Agree(m, x, 7);
    assert Agree(m, x, 8) && Agree(m, x, 9) && Agree(m, x, 10) && Agree(m, x, 11);
    assert Agree(m, x, 12) && Agree(m, x, 13) && Agree(m, x, 14) && Agree(m, x, 15);
    assert Agree(m, x, 16) && Agree(m, x, 17) && Agree(m, x, 18) && Agree(m, x, 19);
    assert Agree(m, x, 20) && Agree(m, x, 21) && Agree(m, x, 22) && Agree(m, x, 23);
    assert Agree(m, x, 24) && Agree(m, x, 25) && Agree(m, x, 26) && Agree(m, x, 27);
    assert Agree(m, x, 28) && Agree(m, x, 29) && Agree(m, x, 30) && Agree(m, x, 31);
  }

  // ----- masks as sets of processes -----

  function ToSlot(p: nat): (b: Slot)
    requires p < 32
    ensures b as nat == p
  {
    p as bv32
  }

  function SetOf(m: bv32): set<nat> { set p: nat | p < 32 && Has(m, ToSlot(p)) }

  lemma SlotOrder(p: nat, q: nat)
    requires p < 32 && q < 32
    ensures ToSlot(p) < ToSlot(q) <==> p < q
    ensures ToSlot(p) == ToSlot(q) <==> p == q
  {
  }

  lemma EverySlot(b: Slot)
    ensures b as nat < 32 && ToSlot(b as nat) == b
  {
  }

  lemma BitSet(id: nat)
    requires id < 32
    ensures SetOf(Bit(ToSlot(id))) == {id}
  {
    forall p: nat | p < 32 ensures p in SetOf(Bit(ToSlot(id))) <==> p == id {
      BitHas(ToSlot(id), ToSlot(p));
      SlotOrder(id, p);
    }
  }

  lemma OrSet(m: bv32, x: bv32)
    ensures SetOf(m | x) == SetOf(m) + SetOf(x)
  {
    forall p: nat | p < 32 ensures p in SetOf(m | x) <==> p in SetOf(m) || p in SetOf(x) { OrHas(m, x, ToSlot(p)); }
  }

  lemma AndSet(m: bv32, x: bv32)
    ensures SetOf(m & x) == SetOf(m) * SetOf(x)
  {
    forall p: nat | p < 32 ensures p in SetOf(m & x) <==> p in SetOf(m) && p in SetOf(x) { AndHas(m, x, ToSlot(p)); }
  }

  /** `y` has exactly the bits `x` lacks. */
  ghost predicate Complement(x: bv32, y: bv32) { forall p: nat :: p in SetOf(y) <==> p < 32 && p !in SetOf(x) }

  lemma NotSet(m: bv32)
    ensures Complement(m, !m)
  {
    forall p: nat ensures p in SetOf(!m) <==> p < 32 && p !in SetOf(m) {
      if p < 32 { NotHas(m, ToSlot(p)); }
    }
  }

  lemma LessComplement(m: bv32, x: bv32, y: bv32)
    requires Complement(x, y)
    ensures SetOf(m & y) == SetOf(m) - SetOf(x)
  {
    AndSet(m, y);
  }

  /** `m` without `x`. */
  lemma LessSet(m: bv32, x: bv32)
    ensures SetOf(m & !x) == SetOf(m) - SetOf(x)
  {
    NotSet(x);
    LessComplement(m, x, !x);
  }

  /** `add_ack` and `mark_crashed` add one process. */
  lemma AddAck(m: bv32, id: nat)
    requires id < 32
    ensures SetOf(m | Bit(ToSlot(id))) == SetOf(m) + {id}
  {
    OrSet(m, Bit(ToSlot(id)));
    BitSet(id);
  }

  /** `unmark_crashed` takes one process out. */
  lemma UnmarkCrashed(m: bv32, id: nat)
    requires id < 32
    ensures SetOf(m & !Bit(ToSlot(id))) == SetOf(m) - {id}
  {
    LessSet(m, Bit(ToSlot(id)));
    BitSet(id);
  }

  function FullAck(ring: Ring): bv32 { Full(ToSlot(ring.n)) }

  lemma FullAckSet(ring: Ring)
    ensures SetOf(FullAck(ring)) == Members(ring, {})
  {
    forall p: nat | p < 32 ensures p in SetOf(FullAck(ring)) <==> p < ring.n {
      FullHas(ToSlot(ring.n), ToSlot(p));
      SlotOrder(p, ring.n);
    }
  }

  lemma SetDetermines(m: bv32, x: bv32)
    ensures m == x <==> SetOf(m) == SetOf(x)
  {
    if SetOf(m) == SetOf(x) {
      forall c: Slot ensures Agree(m, x, c) {
        EverySlot(c);
        assert c as nat in SetOf(m) <==> c as nat in SetOf(x);
      }
      SameBits(m, x);
    }
  }

  lemma LiveSet(ring: Ring, crashed: bv32)
    ensures SetOf(FullAck(ring) & !crashed) == Members(ring, SetOf(crashed))
  {
    LessSet(FullAck(ring), crashed);
    FullAckSet(ring);
  }

  // ----- ready_to_deliver -----

  /** As the source computes it, on masks. */
  predicate ReadyToDeliver(ring: Ring, mode: Mode, acks: bv32, crashed: bv32) {
    Decides(mode, acks, FullAck(ring), FullAck(ring) & !crashed)
  }

  predicate Decides(mode: Mode, acks: bv32, full: bv32, live: bv32) {
    match mode
    case UniformTotalOrder => acks == full
    case TotalOrder => acks & live == live
    case CausalOrder => false
  }

  lemma CoversIff(m: bv32, live: bv32)
    ensures m & live == live <==> SetOf(live) <= SetOf(m)
  {
    SetDetermines(m & live, live);
    AndSet(m, live);
  }

  lemma DecidesMeans(s: Node, acks: bv32, full: bv32, live: bv32)
    requires SetOf(full) == Members(s.ring, {}) && SetOf(live) == Members(s.ring, s.crashed)
    ensures Decides(s.mode, acks, full, live) <==> Ready(s, SetOf(acks))
  {
    SetDetermines(acks, full);
    CoversIff(acks, live);
  }

  /**
   * The mask tests decide the delivery condition: in UniformTotalOrder that
   * exactly the ring's processes have acked, in TotalOrder that every process not
   * marked crashed has.
   */
  lemma ReadyMeans(s: Node, acks: bv32, crashed: bv32)
    requires s.crashed == SetOf(crashed)
    ensures ReadyToDeliver(s.ring, s.mode, acks, crashed) <==> Ready(s, SetOf(acks))
  {
    FullAckSet(s.ring);
    LiveSet(s.ring, crashed);
    DecidesMeans(s, acks, FullAck(s.ring), FullAck(s.ring) & !crashed);
  }
}
