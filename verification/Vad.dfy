/** Voice activity detection: which frames end an utterance. */
module Vad {
  import opened Arithmetic

  datatype VadState = Silent | Speaking | SpeechEnded

  datatype VadConfig = VadConfig(threshold: real, startFrames: nat, endFrames: nat, frameSize: nat)

  // ---- the energy of a frame, in exact arithmetic -------------------------------

  function SumSquares(samples: seq<real>): real {
    if samples == [] then 0.0 else SumSquares(samples[..|samples| - 1]) + samples[|samples| - 1] * samples[|samples| - 1]
  }

  function MeanSquare(samples: seq<real>): real {
    if samples == [] then 0.0 else SumSquares(samples) / (|samples| as real)
  }

  /** The root of the mean square is above the threshold, said without the root. */
  predicate IsSpeech(c: VadConfig, samples: seq<real>) {
    c.threshold < 0.0 || MeanSquare(samples) > c.threshold * c.threshold
  }

  lemma ProductAtLeast(x: real, d: real)
    requires 0.0 <= x && 0.0 < d
    ensures x * d >= 0.0 && d * d > 0.0
  {
  }

  lemma SquareIncreases(x: real, y: real)
    requires 0.0 <= x < y
    ensures x * x < y * y
  {
    var d := y - x;
    ProductAtLeast(x, d);
    assert y * y == (x + d) * (x + d) == x * x + x * d + x * d + d * d;
  }

  lemma SquareMonotone(x: real, y: real)
    requires 0.0 <= x && 0.0 <= y
    ensures x < y <==> x * x < y * y
  {
    if x < y { SquareIncreases(x, y); }
    if y < x { SquareIncreases(y, x); }
  }

  /** For whatever root the mean square has, the test is the one on the root. */
  lemma IsSpeechIsRms(c: VadConfig, samples: seq<real>, rms: real)
    requires rms >= 0.0 && rms * rms == MeanSquare(samples)
    ensures IsSpeech(c, samples) <==> rms > c.threshold
  {
    if c.threshold >= 0.0 { SquareMonotone(c.threshold, rms); }
  }

  // ---- the detector on speech bits ------------------------------------------------

  datatype Vad = Vad(state: VadState, speech: nat, silence: nat)

  const Quiet := Vad(Silent, 0, 0)

  function Step(c: VadConfig, v: Vad, isSpeech: bool): Vad {
    match v.state
    case Silent =>
      if isSpeech then Vad(if v.speech + 1 >= c.startFrames then Speaking else Silent, v.speech + 1, 0)
      else v.(speech := 0)
    case Speaking =>
      if isSpeech then v.(silence := 0)
      else Vad(if v.silence + 1 >= c.endFrames then SpeechEnded else Speaking, v.speech, v.silence + 1)
    case SpeechEnded => Quiet
  }

  function After(c: VadConfig, v: Vad, bits: seq<bool>): Vad {
    if bits == [] then v else Step(c, After(c, v, bits[..|bits| - 1]), bits[|bits| - 1])
  }

  function AtLeastOne(n: nat): (m: nat)
    ensures m >= 1 && m >= n && (m == n || m == 1)
  {
    if n == 0 then 1 else n
  }

  // ---- the reference: trailing runs of the frames since the last reset -------------

  /** How many frames at the end of `bits` are all `b`. */
  function Trail(bits: seq<bool>, b: bool): (n: nat)
    ensures n <= |bits|
  {
    if bits != [] && bits[|bits| - 1] == b then 1 + Trail(bits[..|bits| - 1], b) else 0
  }

  lemma {:induction false} TrailMeaning(bits: seq<bool>, b: bool)
    ensures forall k :: |bits| - Trail(bits, b) <= k < |bits| ==> bits[k] == b
    ensures Trail(bits, b) < |bits| ==> bits[|bits| - Trail(bits, b) - 1] != b
  {
    if bits != [] { TrailMeaning(bits[..|bits| - 1], b); }
  }

  /** The number of frames up to and including the last one that only cleared an ended utterance. */
  function Reset(c: VadConfig, bits: seq<bool>): (r: nat)
    ensures r <= |bits|
  {
    if bits == [] then 0
    else if After(c, Quiet, bits[..|bits| - 1]).state.SpeechEnded? then |bits|
    else Reset(c, bits[..|bits| - 1])
  }

  /** No stretch of speech in `rest` was long enough to begin an utterance. */
  ghost predicate NotBegun(c: VadConfig, rest: seq<bool>) {
    forall k :: 0 <= k <= |rest| ==> Trail(rest[..k], true) < AtLeastOne(c.startFrames)
  }

  /** The utterance begins with frame `p` of `rest`: the first time enough speech frames follow each other. */
  ghost predicate BeginsAt(c: VadConfig, rest: seq<bool>, p: nat) {
    && 1 <= p <= |rest|
    && NotBegun(c, rest[..p - 1])
    && Trail(rest[..p], true) == AtLeastOne(c.startFrames)
  }

  /** From `p` on no pause in the first `n` frames of `rest` was long enough to end the utterance. */
  ghost predicate NotEnded(c: VadConfig, rest: seq<bool>, p: nat, n: nat) {
    n <= |rest| && forall k :: p <= k <= n ==> Trail(rest[..k], false) < AtLeastOne(c.endFrames)
  }

  /** What a detector must be after the frames `rest` since its last reset. */
  ghost predicate Explains(c: VadConfig, v: Vad, rest: seq<bool>) {
    match v.state
    case Silent => NotBegun(c, rest) && v.speech == Trail(rest, true) && v.silence == 0
    case Speaking =>
      && v.speech == AtLeastOne(c.startFrames) && v.silence == Trail(rest, false)
      && exists p: nat :: BeginsAt(c, rest, p) && NotEnded(c, rest, p, |rest|)
    case SpeechEnded =>
      && v.speech == AtLeastOne(c.startFrames) && v.silence == Trail(rest, false) == AtLeastOne(c.endFrames)
      && exists p: nat :: BeginsAt(c, rest, p) && p < |rest| && NotEnded(c, rest, p, |rest| - 1)
  }

  lemma SpeechTrail(rest: seq<bool>, s: bool)
    ensures Trail(rest + [s], true) == if s then Trail(rest, true) + 1 else 0
    ensures Trail(rest + [s], false) == if s then 0 else Trail(rest, false) + 1
  {
    assert (rest + [s])[..|rest|] == rest;
  }

  lemma Prefixes(rest: seq<bool>, s: bool)
    ensures forall k :: 0 <= k <= |rest| ==> (rest + [s])[..k] == rest[..k]
    ensures (rest + [s])[..|rest| + 1] == rest + [s]
  {
  }

  lemma NotBegunStep(c: VadConfig, rest: seq<bool>, s: bool)
    requires NotBegun(c, rest) && Trail(rest + [s], true) < AtLeastOne(c.startFrames)
    ensures NotBegun(c, rest + [s])
  {
    Prefixes(rest, s);
  }

  lemma BeginsStep(c: VadConfig, rest: seq<bool>, s: bool)
    requires NotBegun(c, rest) && Trail(rest + [s], true) == AtLeastOne(c.startFrames)
    ensures BeginsAt(c, rest + [s], |rest| + 1) && NotEnded(c, rest + [s], |rest| + 1, |rest| + 1)
  {
    Prefixes(rest, s);
    SpeechTrail(rest, s);
  }

  lemma BegunStep(c: VadConfig, rest: seq<bool>, s: bool, p: nat)
    requires BeginsAt(c, rest, p)
    ensures BeginsAt(c, rest + [s], p)
  {
    assert (rest + [s])[..p - 1] == rest[..p - 1] && (rest + [s])[..p] == rest[..p];
  }

  lemma NotEndedStep(c: VadConfig, rest: seq<bool>, s: bool, p: nat)
    requires NotEnded(c, rest, p, |rest|)
    ensures NotEnded(c, rest + [s], p, |rest|)
    ensures Trail(rest + [s], false) < AtLeastOne(c.endFrames) ==> NotEnded(c, rest + [s], p, |rest| + 1)
  {
    Prefixes(rest, s);
  }

  lemma ExplainsStep(c: VadConfig, v: Vad, rest: seq<bool>, s: bool)
    requires Explains(c, v, rest) && !v.state.SpeechEnded?
    ensures Explains(c, Step(c, v, s), rest + [s])
  {
    SpeechTrail(rest, s);
    if v.state.Silent? {
      assert rest[..|rest|] == rest;
      if Trail(rest + [s], true) < AtLeastOne(c.startFrames) {
        NotBegunStep(c, rest, s);
      } else {
        BeginsStep(c, rest, s);
      }
    } else {
      var p :| BeginsAt(c, rest, p) && NotEnded(c, rest, p, |rest|);
      assert rest[..|rest|] == rest;
      BegunStep(c, rest, s, p);
      NotEndedStep(c, rest, s, p);
    }
  }

  /** For every sequence of frames the detector is what the frames since its last reset say:
      the counters are the trailing runs, and the three states mean that no utterance has begun,
      that one has begun and not paused long enough, and that its pause is exactly long enough. */
  lemma {:induction false} DetectorExplained(c: VadConfig, bits: seq<bool>)
    ensures Explains(c, After(c, Quiet, bits), bits[Reset(c, bits)..])
  {
    if bits == [] {
    } else {
      var front, s := bits[..|bits| - 1], bits[|bits| - 1];
      DetectorExplained(c, front);
      if !After(c, Quiet, front).state.SpeechEnded? {
        var r := Reset(c, front);
        assert bits[r..] == front[r..] + [s];
        ExplainsStep(c, After(c, Quiet, front), front[r..], s);
      }
    }
  }

  /** The state is decided by the frames since the reset: no other state explains them. */
  lemma StateIsUnique(c: VadConfig, v: Vad, w: Vad, rest: seq<bool>)
    requires Explains(c, v, rest) && Explains(c, w, rest)
    ensures v == w
  {
    assert rest[..|rest|] == rest;
  }

  // ---- consequences --------------------------------------------------------------

  lemma BeginMeaning(c: VadConfig, rest: seq<bool>, p: nat)
    requires BeginsAt(c, rest, p)
    ensures AtLeastOne(c.startFrames) <= p
    ensures forall k :: p - AtLeastOne(c.startFrames) <= k < p ==> rest[k]
  {
    TrailMeaning(rest[..p], true);
    assert forall k :: 0 <= k < p ==> rest[..p][k] == rest[k];
  }

  /** A pause does not reach back to the frame that began the utterance. */
  lemma PauseMeaning(c: VadConfig, rest: seq<bool>, p: nat)
    requires 1 <= p <= |rest| && rest[p - 1] && Trail(rest, false) == AtLeastOne(c.endFrames)
    ensures
      var e := AtLeastOne(c.endFrames);
      p + e <= |rest| && rest[|rest| - e - 1] && forall k :: |rest| - e <= k < |rest| ==> !rest[k]
  {
    TrailMeaning(rest, false);
  }

  /** Where the utterance that has just ended began. */
  lemma EndedBegan(c: VadConfig, v: Vad, rest: seq<bool>) returns (p: nat)
    requires Explains(c, v, rest) && v.state.SpeechEnded?
    ensures BeginsAt(c, rest, p) && p < |rest| && Trail(rest, false) == AtLeastOne(c.endFrames)
  {
    p :| BeginsAt(c, rest, p) && p < |rest| && NotEnded(c, rest, p, |rest| - 1);
  }

  /** An utterance is reported as ended right after enough silent frames and not one more, which
      follow one of its own speech frames, and it was started by enough speech frames. */
  lemma EndedMeaning(c: VadConfig, bits: seq<bool>) returns (p: nat)
    requires After(c, Quiet, bits).state.SpeechEnded?
    ensures
      var rest, e, s := bits[Reset(c, bits)..], AtLeastOne(c.endFrames), AtLeastOne(c.startFrames);
      && s <= p <= |rest| - e
      && (forall k :: p - s <= k < p ==> rest[k])
      && rest[|rest| - e - 1]
      && (forall k :: |rest| - e <= k < |rest| ==> !rest[k])
  {
    DetectorExplained(c, bits);
    p := EndedBegan(c, After(c, Quiet, bits), bits[Reset(c, bits)..]);
    BeginMeaning(c, bits[Reset(c, bits)..], p);
    PauseMeaning(c, bits[Reset(c, bits)..], p);
  }

  lemma {:induction false} ResetAfterEnd(c: VadConfig, bits: seq<bool>, a: nat)
    requires a < |bits| && After(c, Quiet, bits[..a]).state.SpeechEnded?
    ensures Reset(c, bits) >= a + 1
  {
    var front := bits[..|bits| - 1];
    if a == |front| {
      assert bits[..a] == front;
    } else {
      assert front[..a] == bits[..a];
      ResetAfterEnd(c, front, a);
    }
  }

  /** Two reports are at least the length of an utterance and the ignored frame apart. */
  lemma ReportsApart(c: VadConfig, bits: seq<bool>, a: nat)
    requires a < |bits| && After(c, Quiet, bits[..a]).state.SpeechEnded? && After(c, Quiet, bits).state.SpeechEnded?
    ensures |bits| - a >= AtLeastOne(c.startFrames) + AtLeastOne(c.endFrames) + 1
  {
    ResetAfterEnd(c, bits, a);
    var p := EndedMeaning(c, bits);
  }

  /** The states follow their cycle, a report lasts one frame whatever the next one holds, and the
      counters never pass their limits. */
  lemma CycleFollowed(c: VadConfig, bits: seq<bool>, b: bool)
    ensures
      var v, w := After(c, Quiet, bits), After(c, Quiet, bits + [b]);
      && v.speech <= AtLeastOne(c.startFrames) && v.silence <= AtLeastOne(c.endFrames)
      && (v.state.Silent? ==> !w.state.SpeechEnded?)
      && (v.state.Speaking? ==> !w.state.Silent?)
      && (v.state.SpeechEnded? ==> w == Quiet)
  {
    assert (bits + [b])[..|bits|] == bits;
    DetectorExplained(c, bits);
    var rest := bits[Reset(c, bits)..];
    assert rest[..|rest|] == rest;
  }

  // ---- audio in frames --------------------------------------------------------------

  function Hearing(c: VadConfig): seq<real> -> bool {
    samples => IsSpeech(c, samples)
  }

  /** The speech bits of the complete frames; what is left over at the end is not looked at. */
  function FrameBits(hear: seq<real> -> bool, size: nat, audio: seq<real>): seq<bool>
    requires size >= 1
  {
    if |audio| < size then [] else [hear(audio[..size])] + FrameBits(hear, size, audio[size..])
  }

  /** The state after each bit. */
  function States(c: VadConfig, v: Vad, bits: seq<bool>): (s: seq<VadState>)
    ensures |s| == |bits|
  {
    if bits == [] then [] else States(c, v, bits[..|bits| - 1]) + [After(c, v, bits).state]
  }

  /** The reports: every state with the offset of its frame. */
  function Stamped(states: seq<VadState>, size: nat): (s: seq<(nat, VadState)>)
    ensures |s| == |states|
  {
    if states == [] then []
    else Stamped(states[..|states| - 1], size) + [((|states| - 1) * size, states[|states| - 1])]
  }

  /** Bit `k` tells of the samples from `p` = k * size on, for every frame that is complete, and for
      no other: a shorter last piece is not heard. */
  lemma {:induction false} FrameBitAt(hear: seq<real> -> bool, size: nat, audio: seq<real>, k: nat, p: nat)
    requires size >= 1 && p == k * size
    ensures k < |FrameBits(hear, size, audio)| <==> p + size <= |audio|
    ensures p + size <= |audio| ==> FrameBits(hear, size, audio)[k] == hear(audio[p..p + size])
    decreases k
  {
    if k > 0 {
      StepBack(k, size, p);
      if |audio| >= size {
        FrameBitAt(hear, size, audio[size..], k - 1, p - size);
        LaterBit(hear, size, audio, k, p);
      }
    }
  }

  lemma LaterBit(hear: seq<real> -> bool, size: nat, audio: seq<real>, k: nat, p: nat)
    requires size >= 1 && k > 0 && p >= size && |audio| >= size
    ensures |FrameBits(hear, size, audio)| == 1 + |FrameBits(hear, size, audio[size..])|
    ensures k <= |FrameBits(hear, size, audio[size..])| ==>
              FrameBits(hear, size, audio)[k] == FrameBits(hear, size, audio[size..])[k - 1]
    ensures p + size <= |audio| ==> audio[size..][p - size..p] == audio[p..p + size]
  {}

  /** Report `k` stands at the beginning of frame `k`. */
  lemma {:induction false} StampAt(states: seq<VadState>, size: nat, k: nat)
    requires k < |states|
    ensures Stamped(states, size)[k] == (k * size, states[k])
  {
    if k < |states| - 1 { StampAt(states[..|states| - 1], size, k); }
  }

  /** So many samples are a whole number of frames. */
  predicate Whole(n: nat, size: nat)
    requires size >= 1
  {
    n == 0 || (n >= size && Whole(n - size, size))
  }

  lemma {:induction false} MultiplesAreWhole(frames: nat, size: nat)
    requires size >= 1
    ensures Whole(frames * size, size)
  {
    if frames > 0 {
      assert frames * size == (frames - 1) * size + size;
      MultiplesAreWhole(frames - 1, size);
    }
  }

  lemma {:induction false} SplitBits(hear: seq<real> -> bool, size: nat, a: seq<real>, b: seq<real>)
    requires size >= 1 && Whole(|a|, size)
    ensures FrameBits(hear, size, a + b) == FrameBits(hear, size, a) + FrameBits(hear, size, b)
    decreases |a|
  {
    if a == [] {
      assert a + b == b;
    } else {
      assert (a + b)[..size] == a[..size] && (a + b)[size..] == a[size..] + b;
      SplitBits(hear, size, a[size..], b);
    }
  }

  lemma {:induction false} AfterAppend(c: VadConfig, v: Vad, a: seq<bool>, b: seq<bool>)
    ensures After(c, v, a + b) == After(c, After(c, v, a), b)
  {
    if b == [] {
      assert a + b == a;
    } else {
      assert (a + b)[..|a + b| - 1] == a + b[..|b| - 1];
      AfterAppend(c, v, a, b[..|b| - 1]);
    }
  }

  lemma {:induction false} StatesAppend(c: VadConfig, v: Vad, a: seq<bool>, b: seq<bool>)
    ensures States(c, v, a + b) == States(c, v, a) + States(c, After(c, v, a), b)
  {
    if b == [] {
      assert a + b == a;
    } else {
      assert (a + b)[..|a + b| - 1] == a + b[..|b| - 1];
      StatesAppend(c, v, a, b[..|b| - 1]);
      AfterAppend(c, v, a, b);
    }
  }

  /** Audio may be cut at any multiple of the frame size: processing the first part and then the
      second with the detector it left gives the same states and the same detector. */
  lemma SplitAudio(c: VadConfig, hear: seq<real> -> bool, v: Vad, a: seq<real>, b: seq<real>, frames: nat)
    requires c.frameSize >= 1 && |a| == frames * c.frameSize
    ensures
      var x, y := FrameBits(hear, c.frameSize, a), FrameBits(hear, c.frameSize, b);
      var all := FrameBits(hear, c.frameSize, a + b);
      && States(c, v, all) == States(c, v, x) + States(c, After(c, v, x), y)
      && After(c, v, all) == After(c, After(c, v, x), y)
  {
    MultiplesAreWhole(frames, c.frameSize);
    SplitBits(hear, c.frameSize, a, b);
    var x, y := FrameBits(hear, c.frameSize, a), FrameBits(hear, c.frameSize, b);
    StatesAppend(c, v, x, y);
    AfterAppend(c, v, x, y);
  }

  // ---- the object --------------------------------------------------------------------

  class VoiceActivityDetector {
    const config: VadConfig
    var state: VadState
    var speechFrameCount: nat
    var silenceFrameCount: nat

    function Model(): Vad
      reads this
    {
      Vad(state, speechFrameCount, silenceFrameCount)
    }

    constructor (config: VadConfig)
      ensures this.config == config && Model() == Quiet
    {
      this.config := config;
      state, speechFrameCount, silenceFrameCount := Silent, 0, 0;
    }

    method Clear()
      modifies this
      ensures Model() == Quiet
    {
      state, speechFrameCount, silenceFrameCount := Silent, 0, 0;
    }

    method ProcessFrame(samples: seq<real>) returns (r: VadState)
      modifies this
      ensures Model() == Step(config, old(Model()), Hearing(config)(samples)) && r == state
    {
      var isSpeech := IsSpeech(config, samples);
      assert isSpeech == Hearing(config)(samples);
      match state {
        case Silent =>
          if isSpeech {
            speechFrameCount := speechFrameCount + 1;
            silenceFrameCount := 0;
            if speechFrameCount >= config.startFrames { state := Speaking; }
          } else {
            speechFrameCount := 0;
          }
        case Speaking =>
          if isSpeech {
            silenceFrameCount := 0;
          } else {
            silenceFrameCount := silenceFrameCount + 1;
            if silenceFrameCount >= config.endFrames { state := SpeechEnded; }
          }
        case SpeechEnded =>
          state, speechFrameCount, silenceFrameCount := Silent, 0, 0;
      }
      r := state;
    }

    /** Processes chunk `i` and reports the state it led to. */
    method Report(chunk: seq<real>, i: nat, earlier: seq<(nat, VadState)>, ghost start: Vad, ghost bits: seq<bool>)
      returns (results: seq<(nat, VadState)>)
      requires Model() == After(config, start, bits) && i == |bits|
      requires earlier == Stamped(States(config, start, bits), config.frameSize)
      modifies this
      ensures var more := bits + [Hearing(config)(chunk)];
              && Model() == After(config, start, more)
              && results == Stamped(States(config, start, more), config.frameSize)
    {
      StampNext(config, start, bits, Hearing(config)(chunk), config.frameSize);
      var r := ProcessFrame(chunk);
      results := earlier + [(i * config.frameSize, r)];
    }

    /** The chunks of the audio, of which the last may be short. */
    method ProcessAudioChunks(audio: seq<real>) returns (results: seq<(nat, VadState)>)
      requires config.frameSize >= 1
      modifies this
      ensures var bits := FrameBits(Hearing(config), config.frameSize, audio);
              && results == Stamped(States(config, old(Model()), bits), config.frameSize)
              && Model() == After(config, old(Model()), bits)
    {
      var size, rest := config.frameSize, audio;
      var i := 0;
      ghost var hear, start := Hearing(config), Model();
      ghost var bits: seq<bool> := [];
      results := [];
      while rest != []
        invariant bits + FrameBits(hear, size, rest) == FrameBits(hear, size, audio)
        invariant Model() == After(config, start, bits)
        invariant results == Stamped(States(config, start, bits), size)
        invariant rest != [] ==> i == |bits|
        decreases |rest|
      {
        var chunk := if |rest| < size then rest else rest[..size];
        if |chunk| == size {
          FrameNext(hear, size, bits, rest);
          results := Report(chunk, i, results, start, bits);
          bits := bits + [hear(chunk)];
        }
        rest, i := rest[|chunk|..], i + 1;
      }
      assert bits + [] == bits;
    }
  }

  lemma FrameNext(hear: seq<real> -> bool, size: nat, bits: seq<bool>, rest: seq<real>)
    requires size >= 1 && |rest| >= size
    ensures bits + FrameBits(hear, size, rest) == bits + [hear(rest[..size])] + FrameBits(hear, size, rest[size..])
  {
  }

  lemma StampNext(c: VadConfig, v: Vad, bits: seq<bool>, bit: bool, size: nat)
    ensures After(c, v, bits + [bit]) == Step(c, After(c, v, bits), bit)
    ensures Stamped(States(c, v, bits + [bit]), size)
         == Stamped(States(c, v, bits), size) + [(|bits| * size, After(c, v, bits + [bit]).state)]
  {
    assert (bits + [bit])[..|bits|] == bits;
    var states := States(c, v, bits + [bit]);
    assert states[..|states| - 1] == States(c, v, bits);
  }
}
