/** The bounded sample buffer with absolute 64-bit sequence numbers, its readers, and the
    capture pipeline that feeds it from the resampler. */
module SampleBuffer {
  import opened Resampler

  const U64_MAX: nat := 0xFFFF_FFFF_FFFF_FFFF

  type U64 = n: nat | n <= U64_MAX

  function SaturatingAdd(a: U64, b: nat): U64 { if a + b <= U64_MAX then a + b else U64_MAX }

  function Min(a: nat, b: nat): nat { if a <= b then a else b }

  datatype Ring = Ring(samples: seq<real>, start: U64, next: U64)

  const Empty := Ring([], 0, 0)

  predicate Ordered(r: Ring, capacity: nat) { r.start <= r.next && |r.samples| <= capacity }

  function Push(r: Ring, capacity: nat, xs: seq<real>): (r': Ring)
    ensures Ordered(r, capacity) ==> Ordered(r', capacity)
  {
    var all := r.samples + xs;
    var excess := if |all| > capacity then |all| - capacity else 0;
    Ring(all[excess..], SaturatingAdd(r.start, excess), SaturatingAdd(r.next, |xs|))
  }

  /** The samples after `cursor`, and the cursor moved to the end. */
  function Read(r: Ring, cursor: nat): (seq<real>, nat)
    requires r.start <= r.next
  {
    var at := if cursor < r.start then r.start else if cursor > r.next then r.next else cursor;
    var offset := at - r.start;
    (if offset <= |r.samples| then r.samples[offset..] else [], r.next)
  }

  // ---- the buffer against the whole stream -------------------------------

  function LastOf(s: seq<real>, n: nat): seq<real> { s[|s| - Min(n, |s|)..] }

  /** The buffer after the whole stream `s` has gone through it. */
  ghost predicate Holds(r: Ring, capacity: nat, s: seq<real>) {
    && r.samples == LastOf(s, capacity)
    && r.next == Min(|s|, U64_MAX)
    && r.start == Min(|s| - |r.samples|, U64_MAX)
  }

  /** The last samples of a longer stream are the last of those kept so far and the new ones. */
  lemma LastOfLonger(s: seq<real>, xs: seq<real>, n: nat)
    ensures LastOf(s + xs, n) == LastOf(LastOf(s, n) + xs, n)
  {
    var kept := LastOf(s, n);
    assert s + xs == s[..|s| - |kept|] + (kept + xs);
  }

  lemma PushHolds(r: Ring, capacity: nat, s: seq<real>, xs: seq<real>)
    requires Holds(r, capacity, s)
    ensures Holds(Push(r, capacity, xs), capacity, s + xs)
  {
    LastOfLonger(s, xs, capacity);
    PushKeepsLast(r, capacity, xs);
  }

  lemma PushKeepsLast(r: Ring, capacity: nat, xs: seq<real>)
    ensures Push(r, capacity, xs).samples == LastOf(r.samples + xs, capacity)
  {}

  /** The sequence numbers measure the buffer exactly as long as they have not saturated. */
  lemma SequenceNumbersExact(r: Ring, capacity: nat, s: seq<real>)
    requires Holds(r, capacity, s)
    ensures r.next - r.start == |r.samples| <==> |s| <= U64_MAX || r.samples == []
  {}

  /** A reader gets the retained suffix from its cursor on, and nothing twice. */
  lemma ReadGetsSuffix(r: Ring, capacity: nat, s: seq<real>, cursor: nat)
    requires Holds(r, capacity, s) && |s| <= U64_MAX && cursor <= |s|
    ensures
      var (xs, cursor') := Read(r, cursor);
      && cursor' == |s|
      && xs == (if |s| - cursor <= capacity then s[cursor..] else LastOf(s, capacity))
  {
    var kept := |r.samples|;
    if |s| - cursor <= capacity {
      assert r.samples[cursor - r.start..] == s[cursor..];
    }
  }

  // ---- a reader over a whole run -------------------------------------------

  datatype Op = Append(xs: seq<real>) | Take

  datatype Session = Session(ring: Ring, cursor: nat, got: seq<real>)

  function Step(s: Session, capacity: nat, op: Op): (s': Session)
    requires Ordered(s.ring, capacity)
    ensures Ordered(s'.ring, capacity)
  {
    match op
    case Append(xs) => s.(ring := Push(s.ring, capacity, xs))
    case Take =>
      var (xs, cursor') := Read(s.ring, s.cursor);
      s.(cursor := cursor', got := s.got + xs)
  }

  /** Everything appended by the operations. */
  function Appended(ops: seq<Op>): seq<real> {
    if ops == [] then []
    else Appended(ops[..|ops| - 1]) + match ops[|ops| - 1] case Append(xs) => xs case Take => []
  }

  /** The reader takes often enough: at every Take at most `capacity` samples are new. */
  ghost predicate NeverLags(capacity: nat, s: seq<real>, cursor: nat, ops: seq<Op>)
    decreases |ops|
  {
    ops != [] ==>
      match ops[0]
      case Append(xs) => NeverLags(capacity, s + xs, cursor, ops[1..])
      case Take => |s| - cursor <= capacity && NeverLags(capacity, s, |s|, ops[1..])
  }

  /** The reader has received exactly the stream from `first` to its cursor. */
  ghost predicate UpToDate(t: Session, capacity: nat, s: seq<real>, first: nat) {
    && Holds(t.ring, capacity, s)
    && first <= t.cursor <= |s| <= U64_MAX
    && t.got == s[first..t.cursor]
  }

  function RunOps(t: Session, capacity: nat, ops: seq<Op>): Session
    requires Ordered(t.ring, capacity)
    decreases |ops|
  {
    if ops == [] then t else RunOps(Step(t, capacity, ops[0]), capacity, ops[1..])
  }

  lemma AppendStep(t: Session, capacity: nat, s: seq<real>, first: nat, xs: seq<real>)
    requires UpToDate(t, capacity, s, first) && |s + xs| <= U64_MAX
    ensures UpToDate(Step(t, capacity, Append(xs)), capacity, s + xs, first)
  {
    PushHolds(t.ring, capacity, s, xs);
    assert (s + xs)[first..t.cursor] == s[first..t.cursor];
  }

  lemma TakeStep(t: Session, capacity: nat, s: seq<real>, first: nat)
    requires UpToDate(t, capacity, s, first) && |s| - t.cursor <= capacity
    ensures UpToDate(Step(t, capacity, Take), capacity, s, first) && Step(t, capacity, Take).cursor == |s|
  {
    ReadGetsSuffix(t.ring, capacity, s, t.cursor);
    assert s[first..t.cursor] + s[t.cursor..] == s[first..|s|];
  }

  /** A reader that never lags has, after any run, received the stream from its first cursor
      to its present one: once, in order and without a gap. */
  lemma {:induction false} ReaderSeesEverything(t: Session, capacity: nat, s: seq<real>, first: nat, ops: seq<Op>)
    requires UpToDate(t, capacity, s, first)
    requires |s + Appended(ops)| <= U64_MAX
    requires NeverLags(capacity, s, t.cursor, ops)
    ensures UpToDate(RunOps(t, capacity, ops), capacity, s + Appended(ops), first)
    decreases |ops|
  {
    if ops == [] {
      assert s + Appended(ops) == s;
    } else {
      AppendedHead(ops);
      match ops[0]
      case Append(xs) =>
        assert s + xs + Appended(ops[1..]) == s + Appended(ops);
        AppendStep(t, capacity, s, first, xs);
        ReaderSeesEverything(Step(t, capacity, ops[0]), capacity, s + xs, first, ops[1..]);
      case Take =>
        assert s + Appended(ops[1..]) == s + Appended(ops);
        TakeStep(t, capacity, s, first);
        ReaderSeesEverything(Step(t, capacity, ops[0]), capacity, s, first, ops[1..]);
    }
  }

  lemma {:induction false} AppendedHead(ops: seq<Op>)
    requires ops != []
    ensures Appended(ops) == (match ops[0] case Append(xs) => xs case Take => []) + Appended(ops[1..])
  {
    if |ops| > 1 {
      AppendedHead(ops[..|ops| - 1]);
      assert ops[..|ops| - 1][1..] == ops[1..][..|ops| - 2];
    }
  }

  // ---- the objects -----------------------------------------------------------

  class Buffer {
    const capacity: nat
    var samples: seq<real>
    var startSequence: U64
    var nextSequence: U64

    function State(): (r: Ring)
      reads this
    {
      Ring(samples, startSequence, nextSequence)
    }

    constructor (capacity: nat)
      ensures this.capacity == capacity && State() == Empty
    {
      this.capacity := capacity;
      samples, startSequence, nextSequence := [], 0, 0;
    }

    method Append(xs: seq<real>)
      modifies this
      ensures State() == Push(old(State()), capacity, xs)
    {
      nextSequence := SaturatingAdd(nextSequence, |xs|);
      samples := samples + xs;
      if |samples| > capacity {
        var excess := |samples| - capacity;
        samples := samples[excess..];
        startSequence := SaturatingAdd(startSequence, excess);
      }
    }

    method SamplesSince(cursor: nat) returns (xs: seq<real>, cursor': nat)
      requires startSequence <= nextSequence
      ensures (xs, cursor') == Read(State(), cursor)
    {
      var at := cursor;
      if at < startSequence { at := startSequence; }
      if at > nextSequence { at := nextSequence; }
      var offset := at - startSequence;
      xs := [];
      if offset <= |samples| { xs := samples[offset..]; }
      cursor' := nextSequence;
    }
  }

  lemma NothingCaptured(rate: nat, channels: nat, capacity: nat)
    requires rate >= 1 && channels >= 1
    ensures Stream([], rate, channels).0 == Origin && Mixed([], channels) == [] && Resample([], rate) == []
    ensures Holds(Empty, capacity, [])
  {}

  /** The recorder's pipeline: interleaved input, resampled, buffered. */
  class CaptureState {
    const normalizer: InputNormalizer
    const buffer: Buffer
    ghost var pushes: seq<seq<real>>

    /** What has gone in so far, as one resampled stream. */
    ghost function Captured(): seq<real>
      reads this
      requires normalizer.channels >= 1 && normalizer.rate >= 1
    {
      Resample(Mixed(pushes, normalizer.channels), normalizer.rate)
    }

    ghost predicate Valid()
      reads this, normalizer, buffer
    {
      && normalizer.channels >= 1 && normalizer.rate >= 1
      && normalizer.State() == Stream(pushes, normalizer.rate, normalizer.channels).0
      && Holds(buffer.State(), buffer.capacity, Captured())
    }

    constructor (inputRate: nat, channels: nat)
      ensures Valid() && pushes == [] && buffer.capacity == 16000 * 60
      ensures fresh(normalizer) && fresh(buffer)
    {
      normalizer := new InputNormalizer(inputRate, channels);
      buffer := new Buffer(16000 * 60);
      pushes := [];
      new;
      NothingCaptured(normalizer.rate, normalizer.channels, buffer.capacity);
    }

    method PushInterleaved(samples: seq<real>)
      requires Valid()
      modifies this, normalizer, buffer
      ensures Valid() && pushes == old(pushes) + [samples]
    {
      var normalized := normalizer.PushInterleaved(samples);
      buffer.Append(normalized);
      StreamIsBatch(pushes, normalizer.rate, normalizer.channels);
      PushHolds(old(buffer.State()), buffer.capacity, Captured(), normalized);
      ghost var before := pushes;
      pushes := pushes + [samples];
      assert pushes[..|pushes| - 1] == before;
      StreamIsBatch(pushes, normalizer.rate, normalizer.channels);
    }
  }

  /** After any frame-aligned pushes the buffer is the last `capacity` samples of the batch
      resampling of the whole input, and the sequence numbers delimit exactly those. */
  lemma CaptureHoldsLatest(c: CaptureState, n: nat)
    requires c.Valid()
    requires forall i :: 0 <= i < |c.pushes| ==> |c.pushes[i]| % c.normalizer.channels == 0
    requires n == |Resample(DownMix(Flatten(c.pushes), c.normalizer.channels), c.normalizer.rate)| <= U64_MAX
    ensures
      var ideal := Resample(DownMix(Flatten(c.pushes), c.normalizer.channels), c.normalizer.rate);
      var r := c.buffer.State();
      && r.samples == LastOf(ideal, c.buffer.capacity)
      && r.next == n && r.next - r.start == |r.samples| == Min(c.buffer.capacity, n)
  {
    AlignedPushesKeepFrames(c.pushes, c.normalizer.channels);
  }
}
