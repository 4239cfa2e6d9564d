/** The streaming resampler in exact arithmetic. Positions are counted in 1/16000 of an
    input sample, so one output advances the position by the input rate. */
module Resampler {
  import opened Arithmetic

  // ---- the batch specification -------------------------------------------

  function Total(frame: seq<real>): real {
    if frame == [] then 0.0 else Total(frame[..|frame| - 1]) + frame[|frame| - 1]
  }

  /** The mean of every complete frame; a partial last frame is left out. */
  function DownMix(input: seq<real>, channels: nat): seq<real>
    requires channels >= 1
  {
    if |input| < channels then []
    else [Total(input[..channels]) / channels as real] + DownMix(input[channels..], channels)
  }

  /** The down-mixed signal at position `p`, interpolated between its two neighbours. */
  function At(mono: seq<real>, p: nat): real
    requires p + 16000 < |mono| * 16000
  {
    var left := p / 16000;
    var fraction := (p % 16000) as real / 16000 as real;
    mono[left] * (1.0 - fraction) + mono[left + 1] * fraction
  }

  /** The positions p, p + rate, ... that have a right neighbour in a signal of `n` samples. */
  function Grid(n: nat, p: nat, rate: nat): seq<nat>
    requires rate >= 1
    decreases n * 16000 - p
  {
    if p + 16000 < n * 16000 then [p] + Grid(n, p + rate, rate) else []
  }

  ghost predicate Inside(grid: seq<nat>, n: nat) { forall k :: 0 <= k < |grid| ==> grid[k] + 16000 < n * 16000 }

  lemma {:induction false} GridInside(n: nat, p: nat, rate: nat)
    requires rate >= 1
    ensures Inside(Grid(n, p, rate), n)
    decreases n * 16000 - p
  {
    if p + 16000 < n * 16000 { GridInside(n, p + rate, rate); }
  }

  /** The samples at those positions. */
  function From(mono: seq<real>, p: nat, rate: nat): seq<real>
    requires rate >= 1
  {
    GridInside(|mono|, p, rate);
    var grid := Grid(|mono|, p, rate);
    seq(|grid|, k requires 0 <= k < |grid| => At(mono, grid[k]))
  }

  function Resample(mono: seq<real>, rate: nat): seq<real>
    requires rate >= 1
  {
    From(mono, 0, rate)
  }

  lemma {:induction false} GridAt(n: nat, p: nat, rate: nat, k: nat)
    requires rate >= 1
    ensures k < |Grid(n, p, rate)| <==> p + k * rate + 16000 < n * 16000
    ensures k < |Grid(n, p, rate)| ==> Grid(n, p, rate)[k] == p + k * rate
    decreases k
  {
    if k > 0 {
      assert (k - 1) * rate == k * rate - rate;
      MulMonotone(0, k - 1, rate);
      if p + 16000 < n * 16000 { GridAt(n, p + rate, rate, k - 1); }
    }
  }

  lemma FromCharacterised(mono: seq<real>, p: nat, rate: nat, k: nat)
    requires rate >= 1
    ensures k < |From(mono, p, rate)| <==> p + k * rate + 16000 < |mono| * 16000
    ensures k < |From(mono, p, rate)| ==> From(mono, p, rate)[k] == At(mono, p + k * rate)
  {
    GridAt(|mono|, p, rate, k);
  }

  /** Output k exists exactly when k steps leave a right neighbour, and it is the interpolation there. */
  lemma ResampleCharacterised(mono: seq<real>, rate: nat, k: nat)
    requires rate >= 1
    ensures k < |Resample(mono, rate)| <==> k * rate + 16000 < |mono| * 16000
    ensures k < |Resample(mono, rate)| ==> Resample(mono, rate)[k] == At(mono, k * rate)
  {
    FromCharacterised(mono, 0, rate, k);
  }

  // ---- what mixing and interpolating mean ---------------------------------------

  /** Every sample of a frame counts once and alike: changing one by some amount changes the total by it. */
  lemma {:induction false} TotalCountsEach(frame: seq<real>, i: nat, v: real)
    requires i < |frame|
    ensures Total(frame[i := v]) == Total(frame) - frame[i] + v
  {
    var n := |frame| - 1;
    if i < n {
      TotalCountsEach(frame[..n], i, v);
      assert frame[i := v][..n] == frame[..n][i := v];
    } else {
      assert frame[i := v][..n] == frame[..n];
    }
  }

  lemma {:induction false} TotalOfSilence(frame: seq<real>)
    requires forall i :: 0 <= i < |frame| ==> frame[i] == 0.0
    ensures Total(frame) == 0.0
  {
    if frame != [] { TotalOfSilence(frame[..|frame| - 1]); }
  }

  lemma {:induction false} TotalOfEqual(frame: seq<real>, v: real)
    requires forall i :: 0 <= i < |frame| ==> frame[i] == v
    ensures Total(frame) == |frame| as real * v
  {
    if frame != [] {
      var n := |frame| - 1;
      TotalOfEqual(frame[..n], v);
      assert |frame| as real == n as real + 1.0;
      assert (n as real + 1.0) * v == n as real * v + v;
    }
  }

  /** The mean of equal samples is that sample. */
  lemma MeanOfEqual(frame: seq<real>, v: real)
    requires frame != [] && forall i :: 0 <= i < |frame| ==> frame[i] == v
    ensures Mean(frame) == v
  {
    TotalOfEqual(frame, v);
    Cancel(|frame| as real, v);
  }

  lemma Cancel(d: real, v: real)
    requires d > 0.0
    ensures d * v / d == v
  {}

  /** On a sample the output is that sample. */
  lemma AtSample(mono: seq<real>, i: nat)
    requires i + 1 < |mono|
    ensures At(mono, i * 16000) == mono[i]
  {
    assert i * 16000 / 16000 == i && i * 16000 % 16000 == 0;
  }

  /** Between two samples it moves in proportion: `rest` sixteen-thousandths of the way from one to the next. */
  lemma AtProportion(mono: seq<real>, i: nat, rest: nat)
    requires i + 1 < |mono| && rest < 16000
    ensures i * 16000 + rest + 16000 < |mono| * 16000
            ==> 16000.0 * (At(mono, i * 16000 + rest) - mono[i]) == rest as real * (mono[i + 1] - mono[i])
  {
    var p := i * 16000 + rest;
    assert p / 16000 == i && p % 16000 == rest;
    if p + 16000 < |mono| * 16000 { Proportion(mono[i], mono[i + 1], rest as real, At(mono, p)); }
  }

  lemma Proportion(x: real, y: real, rest: real, z: real)
    requires z == x * (1.0 - rest / 16000.0) + y * (rest / 16000.0)
    ensures 16000.0 * (z - x) == rest * (y - x)
  {
    var f := rest / 16000.0;
    assert rest == 16000.0 * f;
    assert x * (1.0 - f) == x - x * f;
    assert z - x == (y - x) * f;
    assert rest * (y - x) == 16000.0 * ((y - x) * f);
  }

  // ---- splitting the input -------------------------------------------------

  lemma {:induction false} DownMixOfFrames(a: seq<real>, frames: nat, b: seq<real>, channels: nat)
    requires channels >= 1 && |a| == frames * channels
    ensures DownMix(a + b, channels) == DownMix(a, channels) + DownMix(b, channels)
    decreases frames
  {
    if frames == 0 {
      assert a == [] && a + b == b;
    } else {
      assert frames * channels == (frames - 1) * channels + channels;
      MulMonotone(0, frames - 1, channels);
      assert (a + b)[..channels] == a[..channels];
      assert (a + b)[channels..] == a[channels..] + b;
      DownMixOfFrames(a[channels..], frames - 1, b, channels);
    }
  }

  lemma DownMixSplits(a: seq<real>, b: seq<real>, channels: nat)
    requires channels >= 1 && |a| % channels == 0
    ensures DownMix(a + b, channels) == DownMix(a, channels) + DownMix(b, channels)
  {
    var frames := |a| / channels;
    assert |a| == frames * channels;
    DownMixOfFrames(a, frames, b, channels);
  }

  lemma {:induction false} DownMixLength(input: seq<real>, frames: nat, rest: nat, channels: nat)
    requires channels >= 1 && |input| == frames * channels + rest && rest < channels
    ensures |DownMix(input, channels)| == frames
    decreases frames
  {
    if frames > 0 {
      assert frames * channels == (frames - 1) * channels + channels;
      MulMonotone(0, frames - 1, channels);
      DownMixLength(input[channels..], frames - 1, rest, channels);
    }
  }

  lemma SplitFrames(a: seq<real>, x: nat, u: nat, b: seq<real>, y: nat, v: nat, channels: nat)
    requires channels >= 1 && u < channels && v < channels
    requires |a| == x * channels + u && |b| == y * channels + v
    ensures |DownMix(a + b, channels)| == if u + v < channels then x + y else x + y + 1
  {
    assert (x + y) * channels == x * channels + y * channels;
    if u + v < channels {
      DownMixLength(a + b, x + y, u + v, channels);
    } else {
      assert (x + y + 1) * channels == x * channels + y * channels + channels;
      DownMixLength(a + b, x + y + 1, u + v - channels, channels);
    }
  }

  function Mean(frame: seq<real>): real
    requires frame != []
  {
    Total(frame) / |frame| as real
  }

  /** Frame `k` of the down-mix is the mean of the samples from position `p` = k * channels on. */
  lemma {:induction false} DownMixAt(s: seq<real>, channels: nat, k: nat, p: nat)
    requires channels >= 1 && p == k * channels && p + channels <= |s|
    ensures k < |DownMix(s, channels)| && DownMix(s, channels)[k] == Mean(s[p..p + channels])
    decreases k
  {
    if k > 0 {
      StepBack(k, channels, p);
      DownMixAt(s[channels..], channels, k - 1, p - channels);
      LaterFrame(s, channels, k, p);
    }
  }

  lemma LaterFrame(s: seq<real>, channels: nat, k: nat, p: nat)
    requires channels >= 1 && k > 0 && channels <= p && p + channels <= |s| && k - 1 < |DownMix(s[channels..], channels)|
    ensures k < |DownMix(s, channels)| && DownMix(s, channels)[k] == DownMix(s[channels..], channels)[k - 1]
    ensures s[channels..][p - channels..p] == s[p..p + channels]
  {
    assert DownMix(s, channels) == [Total(s[..channels]) / channels as real] + DownMix(s[channels..], channels);
    SliceOfSuffix(s, channels, p);
  }

  lemma SliceOfSuffix(s: seq<real>, d: nat, p: nat)
    requires d <= p && p + d <= |s|
    ensures s[d..][p - d..p] == s[p..p + d]
  {
    var x, y := s[d..][p - d..p], s[p..p + d];
    assert |x| == |y| && forall i :: 0 <= i < |x| ==> x[i] == y[i];
  }

  /** A stereo push of one sample drops it, so the frame it belongs to never appears. */
  lemma UnalignedPushLosesFrame()
    ensures DownMix([1.0], 2) + DownMix([3.0], 2) == []
    ensures |DownMix([1.0] + [3.0], 2)| == 1
  {}

  // ---- the stream ----------------------------------------------------------

  /** The fields the normalizer carries from push to push. */
  datatype Position = Position(at: nat, held: seq<real>)

  const Origin := Position(0, [])

  function Consumed(p: nat, n: nat): nat {
    if p / 16000 < n then p / 16000 else if n == 0 then 0 else n - 1
  }

  function Pushed(s: Position, mono: seq<real>, rate: nat): (Position, seq<real>)
    requires rate >= 1
  {
    var held := s.held + mono;
    var out := From(held, s.at, rate);
    var end := s.at + |out| * rate;
    var used := Consumed(end, |held|);
    (Position(if used * 16000 <= end then end - used * 16000 else 0, held[used..]), out)
  }

  /** The state after the whole signal `m`: its outputs are finished, at most one sample is
      kept, and the position continues where a single pass would. */
  ghost predicate Follows(s: Position, m: seq<real>, rate: nat)
    requires rate >= 1
  {
    && |s.held| <= |m| && s.held == m[|m| - |s.held|..]
    && s.at + (|m| - |s.held|) * 16000 == |Resample(m, rate)| * rate
    && |s.held| <= 1
  }

  lemma AtShift(m: seq<real>, drop: nat, p: nat)
    requires drop <= |m| && p + 16000 < (|m| - drop) * 16000
    ensures At(m[drop..], p) == At(m, p + drop * 16000)
  {
    assert (p + drop * 16000) / 16000 == p / 16000 + drop;
    assert (p + drop * 16000) % 16000 == p % 16000;
  }

  /** Dropping samples moves the grid by as many whole samples. */
  lemma {:induction false} GridShift(n: nat, drop: nat, p: nat, rate: nat, k: nat)
    requires rate >= 1 && drop <= n
    ensures |Grid(n - drop, p, rate)| == |Grid(n, p + drop * 16000, rate)|
    ensures k < |Grid(n - drop, p, rate)| ==> Grid(n, p + drop * 16000, rate)[k] == Grid(n - drop, p, rate)[k] + drop * 16000
    decreases (n - drop) * 16000 - p
  {
    if p + 16000 < (n - drop) * 16000 { GridShift(n, drop, p + rate, rate, if k > 0 then k - 1 else 0); }
  }

  lemma FromShift(m: seq<real>, drop: nat, p: nat, rate: nat)
    requires rate >= 1 && drop <= |m|
    ensures From(m[drop..], p, rate) == From(m, p + drop * 16000, rate)
  {
    var g := Grid(|m| - drop, p, rate);
    GridShift(|m|, drop, p, rate, 0);
    GridInside(|m| - drop, p, rate);
    forall k | 0 <= k < |g|
      ensures From(m[drop..], p, rate)[k] == From(m, p + drop * 16000, rate)[k]
    {
      GridShift(|m|, drop, p, rate, k);
      AtShift(m, drop, g[k]);
    }
  }

  lemma AtExtends(m: seq<real>, x: seq<real>, p: nat)
    requires p + 16000 < |m| * 16000
    ensures At(m + x, p) == At(m, p)
  {}

  lemma FromStep(m: seq<real>, p: nat, rate: nat)
    requires rate >= 1 && p + 16000 < |m| * 16000
    ensures From(m, p, rate) == [At(m, p)] + From(m, p + rate, rate)
  {
    assert Grid(|m|, p, rate) == [p] + Grid(|m|, p + rate, rate);
  }

  /** The first position without a right neighbour. */
  function End(n: nat, p: nat, rate: nat): nat
    requires rate >= 1
    decreases n * 16000 - p
  {
    if p + 16000 < n * 16000 then End(n, p + rate, rate) else p
  }

  lemma {:induction false} GridEnd(n: nat, p: nat, rate: nat)
    requires rate >= 1
    ensures End(n, p, rate) == p + |Grid(n, p, rate)| * rate
    decreases n * 16000 - p
  {
    if p + 16000 < n * 16000 {
      GridEnd(n, p + rate, rate);
      var k := |Grid(n, p + rate, rate)|;
      assert (1 + k) * rate == rate + k * rate;
    }
  }

  lemma EndPosition(m: seq<real>, p: nat, rate: nat)
    requires rate >= 1
    ensures End(|m|, p, rate) == p + |From(m, p, rate)| * rate
  {
    GridEnd(|m|, p, rate);
  }

  lemma {:induction false} GridExtends(n: nat, x: nat, p: nat, rate: nat)
    requires rate >= 1
    ensures Grid(n + x, p, rate) == Grid(n, p, rate) + Grid(n + x, End(n, p, rate), rate)
    decreases n * 16000 - p
  {
    if p + 16000 < n * 16000 { GridExtends(n, x, p + rate, rate); }
  }

  lemma FromExtends(m: seq<real>, x: seq<real>, p: nat, rate: nat)
    requires rate >= 1
    ensures From(m + x, p, rate) == From(m, p, rate) + From(m + x, End(|m|, p, rate), rate)
  {
    var g := Grid(|m|, p, rate);
    GridExtends(|m|, |x|, p, rate);
    GridInside(|m|, p, rate);
    forall k | 0 <= k < |g|
      ensures From(m + x, p, rate)[k] == From(m, p, rate)[k]
    {
      AtExtends(m, x, g[k]);
    }
  }

  /** Position of the first output that does not exist yet. */
  lemma FromEnds(m: seq<real>, p: nat, rate: nat)
    requires rate >= 1
    ensures p + |From(m, p, rate)| * rate + 16000 >= |m| * 16000
  {
    FromCharacterised(m, p, rate, |From(m, p, rate)|);
  }

  lemma PushOutput(s: Position, m: seq<real>, x: seq<real>, rate: nat)
    requires rate >= 1 && Follows(s, m, rate)
    ensures Resample(m + x, rate) == Resample(m, rate) + From(s.held + x, s.at, rate)
  {
    var drop := |m| - |s.held|;
    assert (m + x)[drop..] == s.held + x;
    FromShift(m + x, drop, s.at, rate);
    FromExtends(m, x, 0, rate);
    EndPosition(m, 0, rate);
  }

  lemma PushKeepsOne(at: nat, held: seq<real>, rate: nat)
    requires rate >= 1
    ensures
      var end := at + |From(held, at, rate)| * rate;
      Consumed(end, |held|) == (if |held| == 0 then 0 else |held| - 1) && Consumed(end, |held|) * 16000 <= end
  {
    FromEnds(held, at, rate);
  }

  lemma PushFollows(s: Position, m: seq<real>, x: seq<real>, rate: nat)
    requires rate >= 1 && Follows(s, m, rate)
    ensures
      var (s', out) := Pushed(s, x, rate);
      Follows(s', m + x, rate) && Resample(m + x, rate) == Resample(m, rate) + out
  {
    PushOutput(s, m, x, rate);
    PushKeepsOne(s.at, s.held + x, rate);
    var held, out := s.held + x, From(s.held + x, s.at, rate);
    var used := Consumed(s.at + |out| * rate, |held|);
    var before := |Resample(m, rate)|;
    assert (before + |out|) * rate == before * rate + |out| * rate;
    assert (m + x)[|m| - |s.held| + used..] == held[used..];
  }

  /** No push produces more than the capacity the source reserves for it. */
  lemma OutputFitsCapacity(s: Position, x: seq<real>, rate: nat)
    requires rate >= 1
    ensures
      var n, out := |s.held + x|, Pushed(s, x, rate).1;
      var room := if n * 16000 > s.at then n * 16000 - s.at else 0;
      |out| <= (room + rate - 1) / rate
  {
    var held := s.held + x;
    var k := |From(held, s.at, rate)|;
    if k > 0 {
      FromCharacterised(held, s.at, rate, k - 1);
      var room := |held| * 16000 - s.at;
      assert (k - 1) * rate < room;
      assert (k - 1) * rate == k * rate - rate;
      QuotientAtLeast(room + rate - 1, rate, k);
    }
  }

  // ---- many pushes -----------------------------------------------------------

  function Flatten(pushes: seq<seq<real>>): seq<real> {
    if pushes == [] then [] else Flatten(pushes[..|pushes| - 1]) + pushes[|pushes| - 1]
  }

  function Mixed(pushes: seq<seq<real>>, channels: nat): seq<real>
    requires channels >= 1
  {
    if pushes == [] then []
    else Mixed(pushes[..|pushes| - 1], channels) + DownMix(pushes[|pushes| - 1], channels)
  }

  /** State and concatenated output after all pushes. */
  function Stream(pushes: seq<seq<real>>, rate: nat, channels: nat): (Position, seq<real>)
    requires rate >= 1 && channels >= 1
  {
    if pushes == [] then (Origin, [])
    else
      var (s, out) := Stream(pushes[..|pushes| - 1], rate, channels);
      var (s', more) := Pushed(s, DownMix(pushes[|pushes| - 1], channels), rate);
      (s', out + more)
  }

  /** For any pushes at all the output is one batch resampling of the frames that were kept,
      and at most one sample is retained. */
  lemma {:induction false} StreamIsBatch(pushes: seq<seq<real>>, rate: nat, channels: nat)
    requires rate >= 1 && channels >= 1
    ensures
      var (s, out) := Stream(pushes, rate, channels);
      var m := Mixed(pushes, channels);
      out == Resample(m, rate) && Follows(s, m, rate)
  {
    if pushes != [] {
      var front, last := pushes[..|pushes| - 1], pushes[|pushes| - 1];
      StreamIsBatch(front, rate, channels);
      PushFollows(Stream(front, rate, channels).0, Mixed(front, channels), DownMix(last, channels), rate);
    }
  }

  lemma {:induction false} AlignedPushesKeepFrames(pushes: seq<seq<real>>, channels: nat)
    requires channels >= 1
    requires forall i :: 0 <= i < |pushes| ==> |pushes[i]| % channels == 0
    ensures |Flatten(pushes)| % channels == 0
    ensures Mixed(pushes, channels) == DownMix(Flatten(pushes), channels)
  {
    if pushes != [] {
      var front, last := pushes[..|pushes| - 1], pushes[|pushes| - 1];
      AlignedPushesKeepFrames(front, channels);
      DownMixSplits(Flatten(front), last, channels);
      MultiplesAdd(|Flatten(front)|, |last|, channels);
    }
  }

  /** Split invariance: for any split into frame-aligned pushes the concatenated output equals
      that of a single push of the whole input, which is the batch resampling. */
  lemma SplitInvariance(pushes: seq<seq<real>>, rate: nat, channels: nat)
    requires rate >= 1 && channels >= 1
    requires forall i :: 0 <= i < |pushes| ==> |pushes[i]| % channels == 0
    ensures Stream(pushes, rate, channels).1 == Stream([Flatten(pushes)], rate, channels).1
    ensures Stream(pushes, rate, channels).1 == Resample(DownMix(Flatten(pushes), channels), rate)
  {
    StreamIsBatch(pushes, rate, channels);
    AlignedPushesKeepFrames(pushes, channels);
    var whole := [Flatten(pushes)];
    StreamIsBatch(whole, rate, channels);
    assert whole[..0] == [] && Mixed(whole[..0], channels) == [];
    assert Mixed(whole, channels) == DownMix(Flatten(pushes), channels);
  }

  // ---- the object ------------------------------------------------------------

  class InputNormalizer {
    const channels: nat
    const rate: nat
    var position: nat
    var pendingMono: seq<real>

    function State(): (s: Position)
      reads this
    {
      Position(position, pendingMono)
    }

    constructor (inputRate: nat, inputChannels: nat)
      ensures channels == (if inputChannels == 0 then 1 else inputChannels)
      ensures rate == (if inputRate == 0 then 1 else inputRate)
      ensures State() == Origin
    {
      channels := if inputChannels == 0 then 1 else inputChannels;
      rate := if inputRate == 0 then 1 else inputRate;
      position, pendingMono := 0, [];
    }

    method MixDown(input: seq<real>) returns (mono: seq<real>)
      requires channels >= 1
      ensures mono == DownMix(input, channels)
    {
      mono := [];
      var rest := input;
      while |rest| >= channels
        invariant mono + DownMix(rest, channels) == DownMix(input, channels)
        decreases |rest|
      {
        var sum := 0.0;
        var i := 0;
        while i < channels
          invariant i <= channels && sum == Total(rest[..i])
        {
          sum := sum + rest[i];
          i := i + 1;
          assert rest[..i][..i - 1] == rest[..i - 1];
        }
        mono := mono + [sum / channels as real];
        rest := rest[channels..];
      }
    }

    method SampleHere() returns (sample: real)
      requires position + 16000 < |pendingMono| * 16000
      ensures sample == At(pendingMono, position)
    {
      var left := position / 16000;
      var fraction := (position - left * 16000) as real / 16000 as real;
      return pendingMono[left] * (1.0 - fraction) + pendingMono[left + 1] * fraction;
    }

    /** The output loop: everything the held samples allow, and where the position stops. */
    method Interpolate() returns (output: seq<real>)
      requires rate >= 1
      modifies this`position
      ensures output == From(pendingMono, old(position), rate)
      ensures position == End(|pendingMono|, old(position), rate)
    {
      output := [];
      while position + 16000 < |pendingMono| * 16000
        invariant output + From(pendingMono, position, rate) == From(pendingMono, old(position), rate)
        invariant End(|pendingMono|, position, rate) == End(|pendingMono|, old(position), rate)
        decreases |pendingMono| * 16000 - position
      {
        var sample := SampleHere();
        FromStep(pendingMono, position, rate);
        output := output + [sample];
        position := position + rate;
      }
      assert From(pendingMono, position, rate) == [];
    }

    method PushInterleaved(input: seq<real>) returns (output: seq<real>)
      requires channels >= 1 && rate >= 1
      modifies this
      ensures (State(), output) == Pushed(old(State()), DownMix(input, channels), rate)
    {
      var mono := MixDown(input);
      pendingMono := pendingMono + mono;
      output := Interpolate();
      EndPosition(pendingMono, old(position), rate);
      PushKeepsOne(old(position), pendingMono, rate);
      var last := if |pendingMono| == 0 then 0 else |pendingMono| - 1;
      var consumed := if position / 16000 <= last then position / 16000 else last;
      if consumed > 0 {
        pendingMono := pendingMono[consumed..];
        position := position - consumed * 16000;
      }
    }
  }
}
