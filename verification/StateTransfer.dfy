// The state-transfer response on the wire: a length-prefixed snapshot, then a
// counted tail of length-prefixed frames.

module StateTransfer {
  import opened Types

  const MAX_SNAPSHOT_LEN: nat := 0x4000_0000
  const MAX_TAIL_FRAME_LEN: nat := 0x400_0000
  const MAX_TAIL_FRAMES: nat := 0x100_0000
  const U64_LIMIT: nat := 0x1_0000_0000_0000_0000

  datatype Transfer = Transfer(snapshot: Bytes, tail: seq<Bytes>)

  /** `Io` is the end of the stream inside a field. */
  datatype Error = Io | TooLarge(n: nat) | FrameTooLarge(n: nat) | TooManyFrames(n: nat)

  datatype Read<T> = Got(value: T, rest: Bytes) | Failed(error: Error)

  // ----- big-endian numbers -----

  function Pow256(n: nat): nat { if n == 0 then 1 else 256 * Pow256(n - 1) }

  function Digits(x: nat, n: nat): (r: Bytes)
    ensures |r| == n
  {
    if n == 0 then [] else Digits(x / 256, n - 1) + [x % 256]
  }

  function Value(bs: Bytes): nat { if bs == [] then 0 else 256 * Value(bs[..|bs| - 1]) + bs[|bs| - 1] }

  lemma {:induction false} ValueOfDigits(x: nat, n: nat)
    requires x < Pow256(n)
    ensures Value(Digits(x, n)) == x
  {
    if n > 0 {
      ValueOfDigits(x / 256, n - 1);
      assert Digits(x, n)[..n - 1] == Digits(x / 256, n - 1);
    }
  }

  lemma {:induction false} DigitsOfValue(bs: Bytes)
    ensures Digits(Value(bs), |bs|) == bs && Value(bs) < Pow256(|bs|)
  {
    if bs != [] {
      DigitsOfValue(bs[..|bs| - 1]);
      assert bs == bs[..|bs| - 1] + [bs[|bs| - 1]];
    }
  }

  lemma {:induction false} DigitAt(x: nat, n: nat, i: nat)
    requires i < n
    ensures Pow256(n - 1 - i) > 0 && Digits(x, n)[i] == x / Pow256(n - 1 - i) % 256
  {
    if i < n - 1 {
      DigitAt(x / 256, n - 1, i);
      assert Digits(x, n)[i] == Digits(x / 256, n - 1)[i];
      DivideTwice(x, Pow256(n - 2 - i));
    } else {
      assert Pow256(0) == 1;
    }
  }

  lemma DivideTwice(x: nat, d: nat)
    requires d > 0
    ensures x / 256 / d == x / (256 * d)
  {
    var a, b := x / 256, x / 256 / d;
    assert b * d <= a < (b + 1) * d;
    assert 256 * (b * d) <= x < 256 * ((b + 1) * d);
    assert b * (256 * d) <= x < (b + 1) * (256 * d);
    QuotientIs(x, 256 * d, b);
  }

  lemma QuotientIs(x: nat, d: nat, b: nat)
    requires d > 0 && b * d <= x < (b + 1) * d
    ensures x / d == b
  {
    var r := x - b * d;
    assert x == b * d + r && 0 <= r < d;
    var q := x / d;
    assert x == q * d + x % d;
    assert q < b ==> (q + 1) * d <= b * d;
    assert q > b ==> (b + 1) * d <= q * d;
  }

  lemma EightBytes()
    ensures Pow256(8) == U64_LIMIT
  {
    assert Pow256(4) == 0x1_0000_0000;
  }

  /** `to_be_bytes` of a u64. */
  function Be(x: nat): (r: Bytes)
    ensures |r| == 8
  {
    Digits(x, 8)
  }

  /** Most significant byte first. */
  lemma BigEndian(x: nat, i: nat)
    requires i < 8
    ensures Pow256(7 - i) > 0 && Be(x)[i] == x / Pow256(7 - i) % 256
  {
    DigitAt(x, 8, i);
  }

  // ----- writing -----

  function Blob(b: Bytes): Bytes { Be(|b|) + b }

  function Frames(tail: seq<Bytes>): Bytes {
    if tail == [] then [] else Blob(tail[0]) + Frames(tail[1..])
  }

  function Written(t: Transfer): Bytes { Blob(t.snapshot) + (Be(|t.tail|) + Frames(t.tail)) }

  /** Lengths are machine words. */
  predicate Representable(t: Transfer) {
    |t.snapshot| < U64_LIMIT && |t.tail| < U64_LIMIT && forall i :: 0 <= i < |t.tail| ==> |t.tail[i]| < U64_LIMIT
  }

  method WriteResponse(t: Transfer) returns (bytes: Bytes)
    ensures bytes == Written(t)
  {
    bytes := Be(|t.snapshot|) + t.snapshot;
    var framed := Be(|t.tail|);
    for i := 0 to |t.tail|
      invariant framed + Frames(t.tail[i..]) == Be(|t.tail|) + Frames(t.tail)
    {
      var frame := t.tail[i];
      assert t.tail[i..][0] == frame && t.tail[i..][1..] == t.tail[i + 1..];
      Regroup(framed, Be(|frame|), frame, Frames(t.tail[i + 1..]));
      framed := framed + Be(|frame|) + frame;
    }
    bytes := bytes + framed;
  }

  /** Where the frame at `i` starts: after the snapshot, the count and the frames before it. */
  function FrameStart(t: Transfer, i: nat): nat
    requires i <= |t.tail|
  {
    if i == 0 then 16 + |t.snapshot| else FrameStart(t, i - 1) + 8 + |t.tail[i - 1]|
  }

  lemma {:induction false} FramesFrom(t: Transfer, i: nat)
    requires i <= |t.tail|
    ensures FrameStart(t, i) <= |Written(t)| && Written(t)[FrameStart(t, i)..] == Frames(t.tail[i..])
  {
    var w := Written(t);
    if i == 0 {
      assert t.tail[0..] == t.tail;
      assert w == (Blob(t.snapshot) + Be(|t.tail|)) + Frames(t.tail);
    } else {
      FramesFrom(t, i - 1);
      var rest, frame := t.tail[i - 1..], t.tail[i - 1];
      assert rest[0] == frame && rest[1..] == t.tail[i..];
      assert Frames(rest) == Blob(frame) + Frames(t.tail[i..]);
      var a, b := FrameStart(t, i - 1), 8 + |frame|;
      assert w[a..][b..] == w[a + b..];
    }
  }

  /** The layout: the snapshot behind its length, then the number of frames. */
  lemma HeaderLayout(t: Transfer)
    ensures var w, n := Written(t), |t.snapshot|;
      |w| >= 16 + n && w[..8] == Be(n) && w[8..8 + n] == t.snapshot && w[8 + n..16 + n] == Be(|t.tail|)
  {
    var w, n, rest := Written(t), |t.snapshot|, Be(|t.tail|) + Frames(t.tail);
    assert w[..8 + n] == Blob(t.snapshot) && w[8 + n..] == rest;
    assert w[..8] == w[..8 + n][..8] && w[8..8 + n] == w[..8 + n][8..];
    assert w[8 + n..16 + n] == rest[..8];
  }

  /** Each frame follows behind its own length, and nothing follows the last. */
  lemma FrameLayout(t: Transfer, i: nat)
    requires i < |t.tail|
    ensures var w, at, len := Written(t), FrameStart(t, i), |t.tail[i]|;
      && at + 8 + len == FrameStart(t, i + 1) <= |w| == FrameStart(t, |t.tail|)
      && w[at..at + 8] == Be(len) && w[at + 8..at + 8 + len] == t.tail[i]
  {
    var w, at, len := Written(t), FrameStart(t, i), |t.tail[i]|;
    FramesFrom(t, i);
    FramesFrom(t, i + 1);
    FramesFrom(t, |t.tail|);
    var rest := Frames(t.tail[i..][1..]);
    assert w[at..] == Blob(t.tail[i]) + rest;
    assert w[at..at + 8] == w[at..][..8] && w[at + 8..at + 8 + len] == w[at..][8..8 + len];
  }

  lemma Regroup(a: Bytes, b: Bytes, c: Bytes, d: Bytes)
    ensures a + ((b + c) + d) == (a + b + c) + d
  {
  }

  // ----- reading -----

  function ReadU64(bs: Bytes): (r: Read<nat>)
    ensures r.Got? ==> |r.rest| < |bs|
  {
    if |bs| < 8 then Failed(Io) else Got(Value(bs[..8]), bs[8..])
  }

  function ReadBlob(bs: Bytes, max: nat, tooLarge: nat -> Error): Read<Bytes> {
    match ReadU64(bs)
    case Failed(e) => Failed(e)
    case Got(len, rest) =>
      if len > max then Failed(tooLarge(len))
      else if |rest| < len then Failed(Io)
      else Got(rest[..len], rest[len..])
  }

  function OverSnapshot(n: nat): Error { TooLarge(n) }
  function OverFrame(n: nat): Error { FrameTooLarge(n) }

  function ReadFrame(bs: Bytes): Read<Bytes> { ReadBlob(bs, MAX_TAIL_FRAME_LEN, OverFrame) }

  function ReadFrames(bs: Bytes, n: nat): Read<seq<Bytes>> {
    if n == 0 then Got([], bs)
    else match ReadFrame(bs)
      case Failed(e) => Failed(e)
      case Got(f, rest) =>
        match ReadFrames(rest, n - 1)
        case Failed(e) => Failed(e)
        case Got(fs, end) => Got([f] + fs, end)
  }

  function ReadTail(bs: Bytes): Read<seq<Bytes>> {
    match ReadU64(bs)
    case Failed(e) => Failed(e)
    case Got(n, rest) => if n > MAX_TAIL_FRAMES then Failed(TooManyFrames(n)) else ReadFrames(rest, n)
  }

  function Parse(bs: Bytes): Read<Transfer> {
    match ReadBlob(bs, MAX_SNAPSHOT_LEN, OverSnapshot)
    case Failed(e) => Failed(e)
    case Got(snapshot, rest) =>
      match ReadTail(rest)
      case Failed(e) => Failed(e)
      case Got(tail, end) => Got(Transfer(snapshot, tail), end)
  }

  function Behind(tail: seq<Bytes>, r: Read<seq<Bytes>>): Read<seq<Bytes>> {
    match r
    case Failed(e) => Failed(e)
    case Got(fs, rest) => Got(tail + fs, rest)
  }

  method FetchState(bs: Bytes) returns (r: Read<Transfer>)
    ensures r == Parse(bs)
  {
    var snapshot := ReadBlob(bs, MAX_SNAPSHOT_LEN, OverSnapshot);
    if snapshot.Failed? { return Failed(snapshot.error); }
    var count := ReadU64(snapshot.rest);
    if count.Failed? { return Failed(count.error); }
    if count.value > MAX_TAIL_FRAMES { return Failed(TooManyFrames(count.value)); }
    var tail: seq<Bytes>, rest := [], count.rest;
    NothingBehind(ReadFrames(rest, count.value));
    for i := 0 to count.value
      invariant Behind(tail, ReadFrames(rest, count.value - i)) == ReadFrames(count.rest, count.value)
    {
      var f := ReadFrame(rest);
      if f.Failed? { return Failed(f.error); }
      BehindNext(tail, f.value, ReadFrames(f.rest, count.value - i - 1));
      tail, rest := tail + [f.value], f.rest;
    }
    assert tail + [] == tail;
    r := Got(Transfer(snapshot.value, tail), rest);
  }

  lemma NothingBehind(r: Read<seq<Bytes>>)
    ensures Behind([], r) == r
  {
    if r.Got? { assert [] + r.value == r.value; }
  }

  lemma BehindNext(tail: seq<Bytes>, f: Bytes, r: Read<seq<Bytes>>)
    ensures Behind(tail, Behind([f], r)) == Behind(tail + [f], r)
  {
    if r.Got? { assert tail + ([f] + r.value) == tail + [f] + r.value; }
  }

  // ----- the round trip -----

  lemma ReadBe(x: nat, more: Bytes)
    requires x < U64_LIMIT
    ensures ReadU64(Be(x) + more) == Got(x, more)
  {
    EightBytes();
    ValueOfDigits(x, 8);
    assert (Be(x) + more)[..8] == Be(x) && (Be(x) + more)[8..] == more;
  }

  lemma ReadWrittenBlob(b: Bytes, more: Bytes, max: nat, tooLarge: nat -> Error)
    requires |b| < U64_LIMIT
    ensures ReadBlob(Blob(b) + more, max, tooLarge) == if |b| > max then Failed(tooLarge(|b|)) else Got(b, more)
  {
    assert Blob(b) + more == Be(|b|) + (b + more);
    ReadBe(|b|, b + more);
    assert (b + more)[..|b|] == b && (b + more)[|b|..] == more;
  }

  /** The error of the first oversized frame, or the whole tail. */
  function TailOutcome(tail: seq<Bytes>, more: Bytes): Read<seq<Bytes>> {
    if tail == [] then Got([], more)
    else if |tail[0]| > MAX_TAIL_FRAME_LEN then Failed(FrameTooLarge(|tail[0]|))
    else Behind([tail[0]], TailOutcome(tail[1..], more))
  }

  lemma {:induction false} ReadWrittenFrames(tail: seq<Bytes>, more: Bytes)
    requires forall i :: 0 <= i < |tail| ==> |tail[i]| < U64_LIMIT
    ensures ReadFrames(Frames(tail) + more, |tail|) == TailOutcome(tail, more)
  {
    if tail == [] {
      assert Frames(tail) + more == more;
    } else {
      ReadWrittenFrames(tail[1..], more);
      assert Frames(tail) + more == Blob(tail[0]) + (Frames(tail[1..]) + more);
      ReadWrittenBlob(tail[0], Frames(tail[1..]) + more, MAX_TAIL_FRAME_LEN, OverFrame);
    }
  }

  /** The frame at `i` is the first over the cap. */
  predicate FirstOver(tail: seq<Bytes>, i: nat) {
    i < |tail| && |tail[i]| > MAX_TAIL_FRAME_LEN && forall j :: 0 <= j < i ==> |tail[j]| <= MAX_TAIL_FRAME_LEN
  }

  predicate FramesWithin(tail: seq<Bytes>) { forall i :: 0 <= i < |tail| ==> |tail[i]| <= MAX_TAIL_FRAME_LEN }

  lemma {:induction false} TailOutcomeExact(tail: seq<Bytes>, more: Bytes)
    ensures FramesWithin(tail) ==> TailOutcome(tail, more) == Got(tail, more)
    ensures forall i: nat :: FirstOver(tail, i) ==> TailOutcome(tail, more) == Failed(FrameTooLarge(|tail[i]|))
  {
    if tail != [] {
      TailOutcomeExact(tail[1..], more);
      assert tail == [tail[0]] + tail[1..];
      forall i: nat | FirstOver(tail, i) ensures TailOutcome(tail, more) == Failed(FrameTooLarge(|tail[i]|)) {
        if i > 0 {
          assert |tail[0]| <= MAX_TAIL_FRAME_LEN;
          forall j | 0 <= j < i - 1 ensures |tail[1..][j]| <= MAX_TAIL_FRAME_LEN { assert tail[1..][j] == tail[j + 1]; }
          assert FirstOver(tail[1..], i - 1);
        }
      }
    }
  }

  predicate WithinCaps(t: Transfer) {
    |t.snapshot| <= MAX_SNAPSHOT_LEN && |t.tail| <= MAX_TAIL_FRAMES && FramesWithin(t.tail)
  }

  lemma ReadWrittenTail(tail: seq<Bytes>, more: Bytes)
    requires |tail| < U64_LIMIT && forall i :: 0 <= i < |tail| ==> |tail[i]| < U64_LIMIT
    ensures ReadTail(Be(|tail|) + Frames(tail) + more) ==
      if |tail| > MAX_TAIL_FRAMES then Failed(TooManyFrames(|tail|)) else TailOutcome(tail, more)
  {
    assert Be(|tail|) + Frames(tail) + more == Be(|tail|) + (Frames(tail) + more);
    ReadBe(|tail|, Frames(tail) + more);
    ReadWrittenFrames(tail, more);
  }

  /**
   * Parsing a written response, whatever follows it on the stream, returns the
   * same transfer with nothing else consumed when every cap is met, and otherwise
   * the error of the first cap exceeded: snapshot, then count, then frames.
   */
  lemma RoundTrip(t: Transfer, more: Bytes)
    requires Representable(t)
    ensures WithinCaps(t) ==> Parse(Written(t) + more) == Got(t, more)
    ensures |t.snapshot| > MAX_SNAPSHOT_LEN ==> Parse(Written(t) + more) == Failed(TooLarge(|t.snapshot|))
    ensures |t.snapshot| <= MAX_SNAPSHOT_LEN && |t.tail| > MAX_TAIL_FRAMES
      ==> Parse(Written(t) + more) == Failed(TooManyFrames(|t.tail|))
    ensures forall i: nat :: (|t.snapshot| <= MAX_SNAPSHOT_LEN && |t.tail| <= MAX_TAIL_FRAMES && FirstOver(t.tail, i)
                              ==> Parse(Written(t) + more) == Failed(FrameTooLarge(|t.tail[i]|)))
  {
    var second := Be(|t.tail|) + Frames(t.tail);
    assert Written(t) + more == Blob(t.snapshot) + (second + more);
    ReadWrittenBlob(t.snapshot, second + more, MAX_SNAPSHOT_LEN, OverSnapshot);
    ReadWrittenTail(t.tail, more);
    TailOutcomeExact(t.tail, more);
  }

  lemma {:induction false} FirstOverExists(tail: seq<Bytes>) returns (i: nat)
    requires !FramesWithin(tail)
    ensures FirstOver(tail, i)
  {
    if |tail[0]| > MAX_TAIL_FRAME_LEN {
      i := 0;
    } else {
      var x :| 0 <= x < |tail| && |tail[x]| > MAX_TAIL_FRAME_LEN;
      assert tail[1..][x - 1] == tail[x];
      i := FirstOverExists(tail[1..]);
      forall j | 0 <= j < i + 1 ensures |tail[j]| <= MAX_TAIL_FRAME_LEN {
        if j > 0 { assert tail[1..][j - 1] == tail[j]; }
      }
      i := i + 1;
    }
  }

  /** Accepted back if and only if every cap is met. */
  lemma AcceptedIff(t: Transfer)
    requires Representable(t)
    ensures Parse(Written(t)) == Got(t, []) <==> WithinCaps(t)
    ensures Parse(Written(t)).Got? <==> WithinCaps(t)
  {
    assert Written(t) + [] == Written(t);
    RoundTrip(t, []);
    if |t.snapshot| <= MAX_SNAPSHOT_LEN && |t.tail| <= MAX_TAIL_FRAMES && !FramesWithin(t.tail) {
      var i := FirstOverExists(t.tail);
    }
  }

  // ----- nothing else is accepted -----

  lemma BlobCanonical(bs: Bytes, max: nat, tooLarge: nat -> Error)
    requires ReadBlob(bs, max, tooLarge).Got?
    ensures var r := ReadBlob(bs, max, tooLarge); bs == Blob(r.value) + r.rest && |r.value| <= max
  {
    var r := ReadBlob(bs, max, tooLarge);
    DigitsOfValue(bs[..8]);
    assert bs == bs[..8] + bs[8..] && bs[8..] == r.value + r.rest;
  }

  lemma FramesCons(f: Bytes, fs: seq<Bytes>, rest: Bytes)
    ensures Blob(f) + (Frames(fs) + rest) == Frames([f] + fs) + rest
  {
    assert ([f] + fs)[1..] == fs;
    Assoc(Blob(f), Frames(fs), rest);
  }

  lemma {:induction false} FramesCanonical(bs: Bytes, n: nat)
    requires ReadFrames(bs, n).Got?
    ensures var r := ReadFrames(bs, n); |r.value| == n && bs == Frames(r.value) + r.rest && FramesWithin(r.value)
  {
    if n > 0 {
      var f := ReadFrame(bs);
      BlobCanonical(bs, MAX_TAIL_FRAME_LEN, OverFrame);
      FramesCanonical(f.rest, n - 1);
      var fs := ReadFrames(f.rest, n - 1);
      FramesCons(f.value, fs.value, fs.rest);
    }
  }

  lemma U64Canonical(bs: Bytes)
    requires |bs| >= 8
    ensures bs == Be(ReadU64(bs).value) + ReadU64(bs).rest
  {
    DigitsOfValue(bs[..8]);
    assert bs == bs[..8] + bs[8..];
  }

  lemma TailCanonical(bs: Bytes)
    requires ReadTail(bs).Got?
    ensures var r := ReadTail(bs);
      bs == Be(|r.value|) + Frames(r.value) + r.rest && |r.value| <= MAX_TAIL_FRAMES && FramesWithin(r.value)
  {
    var n := ReadU64(bs);
    U64Canonical(bs);
    FramesCanonical(n.rest, n.value);
    Assoc(Be(n.value), Frames(ReadTail(bs).value), ReadTail(bs).rest);
  }

  /** Whatever parses is the writing of what was parsed, followed by the unread rest. */
  lemma Canonical(bs: Bytes)
    requires Parse(bs).Got?
    ensures var r := Parse(bs); bs == Written(r.value) + r.rest && WithinCaps(r.value)
  {
    var s := ReadBlob(bs, MAX_SNAPSHOT_LEN, OverSnapshot);
    BlobCanonical(bs, MAX_SNAPSHOT_LEN, OverSnapshot);
    TailCanonical(s.rest);
    var t := ReadTail(s.rest);
    Assoc(Blob(s.value), Be(|t.value|) + Frames(t.value), t.rest);
  }

  // ----- responses cut short -----

  /** What a reader makes of the first `k` bytes: the stream ends inside a field, or it reads the same value. */
  ghost predicate SameOrCut<T(!new)>(cut: Read<T>, whole: Read<T>) {
    cut == Failed(Io) || (cut.Got? && whole.Got? && cut.value == whole.value && cut.rest <= whole.rest)
  }

  lemma BlobCut(bs: Bytes, cut: Bytes, max: nat, tooLarge: nat -> Error)
    requires cut <= bs && ReadBlob(bs, max, tooLarge).Got?
    ensures SameOrCut(ReadBlob(cut, max, tooLarge), ReadBlob(bs, max, tooLarge))
  {
    if |cut| >= 8 {
      var len, c, w := Value(bs[..8]), cut[8..], bs[8..];
      assert cut[..8] == bs[..8] && c <= w;
      if |c| >= len { assert c[..len] == w[..len] && c[len..] <= w[len..]; }
    }
  }

  lemma {:induction false} FramesCut(bs: Bytes, cut: Bytes, n: nat)
    requires cut <= bs && ReadFrames(bs, n).Got?
    ensures SameOrCut(ReadFrames(cut, n), ReadFrames(bs, n))
  {
    if n > 0 {
      BlobCut(bs, cut, MAX_TAIL_FRAME_LEN, OverFrame);
      if ReadFrame(cut).Got? { FramesCut(ReadFrame(bs).rest, ReadFrame(cut).rest, n - 1); }
    }
  }

  lemma ParseCut(bs: Bytes, cut: Bytes)
    requires cut <= bs && Parse(bs).Got?
    ensures SameOrCut(Parse(cut), Parse(bs))
  {
    BlobCut(bs, cut, MAX_SNAPSHOT_LEN, OverSnapshot);
    var c := ReadBlob(cut, MAX_SNAPSHOT_LEN, OverSnapshot);
    if c.Got? {
      var w := ReadBlob(bs, MAX_SNAPSHOT_LEN, OverSnapshot);
      if |c.rest| >= 8 {
        assert c.rest[..8] == w.rest[..8] && c.rest[8..] <= w.rest[8..];
        FramesCut(w.rest[8..], c.rest[8..], Value(w.rest[..8]));
      }
    }
  }

  /** A response cut short anywhere is never taken for a response: the reader reports the end of the stream. */
  lemma CutShortRefused(t: Transfer, k: nat)
    requires WithinCaps(t) && k < |Written(t)|
    ensures Parse(Written(t)[..k]) == Failed(Io)
  {
    var w := Written(t);
    assert w == Written(t) + [];
    RoundTrip(t, []);
    ParseCut(w, w[..k]);
    if Parse(w[..k]).Got? { Canonical(w[..k]); }
  }
}
