/** Pushes that cut a frame: exactly which shapes of a split leave the down-mix alone, and exactly
    which leave the resampled output alone, for all contents. */
module UnalignedPushes {
  import opened Arithmetic
  import opened Resampler

  /** A split after `x` samples with `y` to follow is at a frame boundary, or completes no frame. */
  predicate Keeps(x: nat, y: nat, channels: nat)
    requires channels >= 1
  {
    x % channels == 0 || x % channels + y < channels
  }

  lemma NoFrame(s: seq<real>, channels: nat)
    requires channels >= 1 && |s| < channels
    ensures DownMix(s, channels) == []
  {}

  lemma TailDropped(head: seq<real>, frames: nat, tail: seq<real>, b: seq<real>, channels: nat)
    requires channels >= 1 && |head| == frames * channels && |tail| + |b| < channels
    ensures DownMix(head + tail + b, channels) == DownMix(head + tail, channels) + DownMix(b, channels)
  {
    NoFrame(tail, channels);
    NoFrame(b, channels);
    NoFrame(tail + b, channels);
    DownMixOfFrames(head, frames, tail, channels);
    DownMixOfFrames(head, frames, tail + b, channels);
    Associate(head, tail, b);
    Nothing(DownMix(head, channels));
  }

  lemma Associate(a: seq<real>, b: seq<real>, c: seq<real>)
    ensures a + b + c == a + (b + c)
  {}

  lemma Nothing(a: seq<real>)
    ensures a + [] == a
  {}

  lemma ShortSecond(a: seq<real>, frames: nat, whole: nat, b: seq<real>, channels: nat)
    requires channels >= 1 && whole == frames * channels && whole <= |a| && |a| - whole + |b| < channels
    ensures DownMix(a + b, channels) == DownMix(a, channels) + DownMix(b, channels)
  {
    TailDropped(a[..whole], frames, a[whole..], b, channels);
    assert a[..whole] + a[whole..] == a;
  }

  lemma KeptSplit(a: seq<real>, b: seq<real>, channels: nat)
    requires channels >= 1 && Keeps(|a|, |b|, channels)
    ensures DownMix(a + b, channels) == DownMix(a, channels) + DownMix(b, channels)
  {
    if |a| % channels == 0 {
      DownMixSplits(a, b, channels);
    } else {
      DivMod(|a|, channels);
      ShortSecond(a, |a| / channels, |a| / channels * channels, b, channels);
    }
  }

  // ---- a signal on which every misplaced frame shows ---------------------------

  function Ramp(n: nat): seq<real> { seq(n, i requires 0 <= i < n => i as real) }

  lemma {:induction false} TotalLess(s: seq<real>, t: seq<real>)
    requires |s| == |t| && forall i :: 0 <= i < |s| ==> s[i] < t[i]
    ensures if s == [] then Total(s) == Total(t) else Total(s) < Total(t)
  {
    if s != [] {
      var n := |s| - 1;
      assert forall i :: 0 <= i < n ==> s[..n][i] == s[i] && t[..n][i] == t[i];
      TotalLess(s[..n], t[..n]);
    }
  }

  lemma QuotientLess(p: real, q: real, d: real)
    requires p < q && d > 0.0
    ensures p / d < q / d
  {}

  lemma MeanLess(s: seq<real>, t: seq<real>)
    requires |s| == |t| > 0 && forall i :: 0 <= i < |s| ==> s[i] < t[i]
    ensures Mean(s) < Mean(t)
  {
    TotalLess(s, t);
    QuotientLess(Total(s), Total(t), |s| as real);
  }

  lemma SliceOfPrefix(a: seq<real>, b: seq<real>, p: nat, c: nat)
    requires p + c <= |a|
    ensures (a + b)[p..p + c] == a[p..p + c]
  {}

  /** The frames before the cut are the same either way. */
  lemma HeadAgrees(a: seq<real>, b: seq<real>, c: nat, j: nat, p: nat)
    requires c >= 1 && p == j * c && p + c <= |a|
    ensures j < |DownMix(a, c)| && j < |DownMix(a + b, c)| && DownMix(a + b, c)[j] == DownMix(a, c)[j]
  {
    DownMixAt(a, c, j, p);
    DownMixAt(a + b, c, j, p);
    SliceOfPrefix(a, b, p, c);
  }

  lemma RampSlices(n: nat, x: nat, p: nat, r: nat, c: nat)
    requires c >= 1 && p + c <= n && x + r + c <= n && p < x + r
    ensures Mean(Ramp(n)[p..p + c]) < Mean(Ramp(n)[x..][r..r + c])
  {
    MeanLess(Ramp(n)[p..p + c], Ramp(n)[x..][r..r + c]);
  }

  /** Where frame `j` begins in the whole (`p`) and in the second part (`w`). */
  lemma Offsets(q: nat, u: nat, r: nat, y: nat, c: nat, j: nat) returns (p: nat, w: nat)
    requires c >= 1 && r * c <= y && q <= j < q + r
    ensures p == j * c && w == (j - q) * c && w + c <= y && p == q * c + w
  {
    assert (j - q) * c == j * c - q * c && (j - q + 1) * c == (j - q) * c + c;
    MulMonotone(j - q + 1, r, c);
    MulMonotone(0, j - q, c);
    p, w := j * c, (j - q) * c;
  }

  /** After a cut inside frame `q` every later frame of a ramp is larger when the second part starts afresh. */
  lemma RampShifted(x: nat, y: nat, c: nat, q: nat, u: nat, r: nat, j: nat)
    requires c >= 1 && x == q * c + u && 0 < u && r * c <= y && q <= j < q + r
    ensures
      var s := Ramp(x + y);
      && j - q < |DownMix(s[x..], c)| && j < |DownMix(s, c)|
      && DownMix(s, c)[j] < DownMix(s[x..], c)[j - q]
  {
    var p, w := Offsets(q, u, r, y, c, j);
    RampAt(x, y, c, j, p, j - q, w);
  }

  lemma RampAt(x: nat, y: nat, c: nat, j: nat, p: nat, k: nat, w: nat)
    requires c >= 1 && p == j * c && w == k * c && w + c <= y && p < x + w
    ensures
      var s := Ramp(x + y);
      k < |DownMix(s[x..], c)| && j < |DownMix(s, c)| && DownMix(s, c)[j] < DownMix(s[x..], c)[k]
  {
    var s := Ramp(x + y);
    DownMixAt(s, c, j, p);
    DownMixAt(s[x..], c, k, w);
    RampSlices(x + y, x, p, w, c);
  }

  /** The frame counts of the parts and of the whole. */
  lemma Counts(a: seq<real>, q: nat, u: nat, b: seq<real>, r: nat, v: nat, c: nat)
    requires c >= 1 && u < c && v < c && |a| == q * c + u && |b| == r * c + v
    ensures |DownMix(a, c)| == q && |DownMix(b, c)| == r
    ensures |DownMix(a + b, c)| == if u + v < c then q + r else q + r + 1
  {
    DownMixLength(a, q, u, c);
    DownMixLength(b, r, v, c);
    SplitFrames(a, q, u, b, r, v, c);
  }

  // ---- the down-mix ----------------------------------------------------------------

  /** Whether the down-mix of every input of this shape survives the split. */
  ghost predicate SplitsAlways(x: nat, y: nat, channels: nat)
    requires channels >= 1
  {
    forall a: seq<real>, b: seq<real> :: |a| == x && |b| == y ==>
      DownMix(a + b, channels) == DownMix(a, channels) + DownMix(b, channels)
  }

  /** For all contents, splitting leaves the down-mix alone exactly when the cut is at a frame
      boundary or what follows does not even complete the frame it cut. */
  lemma SplitExactly(x: nat, y: nat, channels: nat)
    requires channels >= 1
    ensures SplitsAlways(x, y, channels) <==> Keeps(x, y, channels)
  {
    if Keeps(x, y, channels) {
      forall a: seq<real>, b: seq<real> | |a| == x && |b| == y
        ensures DownMix(a + b, channels) == DownMix(a, channels) + DownMix(b, channels)
      {
        KeptSplit(a, b, channels);
      }
    } else {
      RampFails(x, y, channels);
      var s := Ramp(x + y);
      assert s[..x] + s[x..] == s;
    }
  }

  lemma RampFails(x: nat, y: nat, channels: nat)
    requires channels >= 1 && !Keeps(x, y, channels)
    ensures var s := Ramp(x + y); DownMix(s, channels) != DownMix(s[..x], channels) + DownMix(s[x..], channels)
  {
    DivMod(x, channels);
    DivMod(y, channels);
    RampFailsAt(x, x / channels, x % channels, y, y / channels, y % channels, channels);
  }

  lemma RampFailsAt(x: nat, q: nat, u: nat, y: nat, r: nat, v: nat, c: nat)
    requires c >= 1 && x == q * c + u && 0 < u < c && y == r * c + v && v < c && u + y >= c
    ensures var s := Ramp(x + y); DownMix(s, c) != DownMix(s[..x], c) + DownMix(s[x..], c)
  {
    var s := Ramp(x + y);
    assert s[..x] + s[x..] == s;
    Counts(s[..x], q, u, s[x..], r, v, c);
    if r > 0 { RampShifted(x, y, c, q, u, r, q); }
  }

  /** Whether a split keeps the number of frames is another matter: exactly when the two partial
      frames do not make up a whole one. */
  lemma SplitFrameCount(a: seq<real>, b: seq<real>, channels: nat)
    requires channels >= 1
    ensures |DownMix(a, channels)| + |DownMix(b, channels)| == |DownMix(a + b, channels)|
            <==> |a| % channels + |b| % channels < channels
  {
    DivMod(|a|, channels);
    DivMod(|b|, channels);
    Counts(a, |a| / channels, |a| % channels, b, |b| / channels, |b| % channels, channels);
  }

  /** A split that keeps the number of frames can still move every sample into another frame. */
  lemma SplitMovesFrames()
    ensures DownMix([1.0], 2) + DownMix([2.0, 3.0, 4.0, 5.0], 2) == [2.5, 4.5]
    ensures DownMix([1.0] + [2.0, 3.0, 4.0, 5.0], 2) == [1.5, 3.5]
  {
    var b: seq<real> := [2.0, 3.0, 4.0, 5.0];
    var w: seq<real> := [1.0, 2.0, 3.0, 4.0, 5.0];
    assert [1.0] + b == w;
    Pairs(b[..2], b[2..]);
    Pairs(w[..2], w[2..]);
    Pairs(b[2..], []);
    Pairs(w[2..][..2], w[2..][2..]);
    assert b[..2] + b[2..] == b && w[..2] + w[2..] == w && b[2..] + [] == b[2..];
    assert w[2..][..2] + w[2..][2..] == w[2..];
  }

  lemma Pairs(pair: seq<real>, rest: seq<real>)
    requires |pair| == 2
    ensures DownMix(pair + rest, 2) == [(pair[0] + pair[1]) / 2.0] + DownMix(rest, 2)
  {
    assert (pair + rest)[..2] == pair && (pair + rest)[2..] == rest;
    assert pair[..1][..0] == [] && Total(pair[..1]) == pair[0];
  }

  // ---- the resampled output -----------------------------------------------------------

  /** `end` is the position after the last output. That output, if there is one, reads at most the
      first `q` frames; if it needs all of them, the second part brings a frame of its own. */
  predicate Unreached(q: nat, end: nat, y: nat, rate: nat, channels: nat) {
    end == 0 || end + 16000 < q * 16000 + rate || (end + 16000 == q * 16000 + rate && y >= channels)
  }

  /** A cut `u` samples into frame `q` of the second to last push, which is followed by `y` samples,
      is harmless: `h` frames came before and the whole has `n`. */
  predicate Harmless(h: nat, q: nat, u: nat, n: nat, y: nat, rate: nat, channels: nat)
    requires rate >= 1
  {
    u == 0 || u + y < channels || Unreached(h + q, End(h + n, 0, rate), y, rate, channels)
  }

  lemma LerpLess(a0: real, a1: real, b0: real, b1: real, g: real, f: real)
    requires 0.0 < g && 0.0 <= f && a0 <= b0 && a1 <= b1
    requires a0 < b0 || (a1 < b1 && f > 0.0)
    ensures a0 * g + a1 * f < b0 * g + b1 * f
  {
    LerpTerm(a0, b0, g);
    LerpTerm(a1, b1, f);
  }

  lemma LerpTerm(a: real, b: real, g: real)
    requires a <= b && g >= 0.0
    ensures a * g <= b * g && (a < b && g > 0.0 ==> a * g < b * g)
  {
    var d := b - a;
    assert b * g == a * g + d * g;
    assert d * g >= 0.0 && (d > 0.0 && g > 0.0 ==> d * g > 0.0);
  }

  lemma Fraction(rest: nat, f: real)
    requires rest < 16000 && f == rest as real / 16000.0
    ensures 0.0 <= f < 1.0 && (rest > 0 ==> f > 0.0)
  {}

  /** Interpolation at a position that reaches into frames that are larger gives a larger sample. */
  lemma LargerOutput(m1: seq<real>, m2: seq<real>, q: nat, p: nat)
    requires p + 16000 < |m1| * 16000 && p + 16000 < |m2| * 16000 && p + 16000 > q * 16000
    requires forall i :: 0 <= i < q && i < |m1| && i < |m2| ==> m1[i] == m2[i]
    requires forall i :: q <= i < |m1| && i < |m2| ==> m2[i] < m1[i]
    ensures At(m2, p) < At(m1, p)
  {
    var l, rest := p / 16000, p % 16000;
    var f := rest as real / 16000 as real;
    Fraction(rest, f);
    assert p == l * 16000 + rest;
    assert m2[l] < m1[l] || (m2[l] == m1[l] && l + 1 == q && rest > 0);
    LerpLess(m2[l], m2[l + 1], m1[l], m1[l + 1], 1.0 - f, f);
  }

  lemma SameOutput(m1: seq<real>, m2: seq<real>, q: nat, p: nat)
    requires p + 16000 < |m1| * 16000 && p + 16000 < |m2| * 16000 && p + 16000 <= q * 16000
    requires forall i :: 0 <= i < q && i < |m1| && i < |m2| ==> m1[i] == m2[i]
    ensures At(m1, p) == At(m2, p)
  {
    var l, rest := p / 16000, p % 16000;
    assert p == l * 16000 + rest && l < q && m1[l] == m2[l];
    if l + 1 < q {
      assert m1[l + 1] == m2[l + 1];
    } else {
      assert rest == 0;
      AtSample(m1, l);
      AtSample(m2, l);
    }
  }

  ghost predicate SameUpTo(m1: seq<real>, m2: seq<real>, q: nat) {
    && q <= |m1| <= |m2|
    && forall i :: 0 <= i < q ==> m1[i] == m2[i]
  }

  /** Positions end a step before the first one without a right neighbour. */
  lemma {:induction false} GridLast(n: nat, p: nat, rate: nat, k: nat)
    requires rate >= 1 && k < |Grid(n, p, rate)|
    ensures Grid(n, p, rate)[k] + rate <= End(n, p, rate)
    ensures k == |Grid(n, p, rate)| - 1 ==> Grid(n, p, rate)[k] + rate == End(n, p, rate)
    decreases n * 16000 - p
  {
    if k > 0 {
      GridLast(n, p + rate, rate, k - 1);
    } else {
      EndBeyond(n, p + rate, rate);
    }
  }

  lemma {:induction false} EndBeyond(n: nat, p: nat, rate: nat)
    requires rate >= 1
    ensures p <= End(n, p, rate)
    ensures p == End(n, p, rate) <==> Grid(n, p, rate) == []
    decreases n * 16000 - p
  {
    if p + 16000 < n * 16000 { EndBeyond(n, p + rate, rate); }
  }

  /** A longer signal has the same positions first; the further ones reach beyond the shorter signal. */
  lemma {:induction false} GridGrows(n1: nat, n2: nat, p: nat, rate: nat, k: nat)
    requires rate >= 1 && n1 <= n2
    ensures |Grid(n1, p, rate)| <= |Grid(n2, p, rate)|
    ensures k < |Grid(n1, p, rate)| ==> Grid(n1, p, rate)[k] == Grid(n2, p, rate)[k]
    ensures |Grid(n1, p, rate)| <= k < |Grid(n2, p, rate)| ==> Grid(n2, p, rate)[k] + 16000 >= n1 * 16000
    decreases n2 * 16000 - p
  {
    if p + 16000 < n2 * 16000 {
      if k > 0 {
        GridGrows(n1, n2, p + rate, rate, k - 1);
      } else {
        GridGrows(n1, n2, p + rate, rate, 0);
      }
    }
  }

  lemma OutputAt(m: seq<real>, rate: nat, k: nat)
    requires rate >= 1
    ensures |Resample(m, rate)| == |Grid(|m|, 0, rate)|
    ensures k < |Resample(m, rate)| ==>
              && Grid(|m|, 0, rate)[k] + 16000 < |m| * 16000
              && Resample(m, rate)[k] == At(m, Grid(|m|, 0, rate)[k])
  {
    GridInside(|m|, 0, rate);
  }

  /** Every output of the whole exists in the split stream too, and is the same. */
  lemma OutputSame(m1: seq<real>, m2: seq<real>, q: nat, y: nat, rate: nat, channels: nat, k: nat)
    requires rate >= 1 && SameUpTo(m1, m2, q) && (y >= channels ==> |m1| > q)
    requires Unreached(q, End(|m2|, 0, rate), y, rate, channels) && k < |Resample(m2, rate)|
    ensures k < |Resample(m1, rate)| && Resample(m1, rate)[k] == Resample(m2, rate)[k]
  {
    OutputAt(m1, rate, k);
    OutputAt(m2, rate, k);
    var p := Grid(|m2|, 0, rate)[k];
    EndBeyond(|m2|, 0, rate);
    GridLast(|m2|, 0, rate, k);
    GridGrows(|m1|, |m2|, 0, rate, k);
    SameOutput(m1, m2, q, p);
  }

  lemma OutputsSame(m1: seq<real>, m2: seq<real>, q: nat, y: nat, rate: nat, channels: nat)
    requires rate >= 1 && SameUpTo(m1, m2, q) && (y >= channels ==> |m1| > q)
    requires Unreached(q, End(|m2|, 0, rate), y, rate, channels)
    ensures Resample(m1, rate) == Resample(m2, rate)
  {
    OutputAt(m1, rate, 0);
    OutputAt(m2, rate, 0);
    GridGrows(|m1|, |m2|, 0, rate, 0);
    var n := |Resample(m2, rate)|;
    if n > 0 { OutputSame(m1, m2, q, y, rate, channels, n - 1); }
    forall k: nat | k < n
      ensures Resample(m1, rate)[k] == Resample(m2, rate)[k]
    {
      OutputSame(m1, m2, q, y, rate, channels, k);
    }
  }

  lemma OutputsDiffer(m1: seq<real>, m2: seq<real>, q: nat, y: nat, rate: nat, channels: nat)
    requires rate >= 1 && SameUpTo(m1, m2, q) && (y < channels ==> |m1| == q)
    requires forall i :: q <= i < |m1| ==> m2[i] < m1[i]
    requires !Unreached(q, End(|m2|, 0, rate), y, rate, channels)
    ensures Resample(m1, rate) != Resample(m2, rate)
  {
    EndBeyond(|m2|, 0, rate);
    var k := |Grid(|m2|, 0, rate)| - 1;
    OutputAt(m1, rate, k);
    OutputAt(m2, rate, k);
    GridLast(|m2|, 0, rate, k);
    GridGrows(|m1|, |m2|, 0, rate, k);
    if k < |Resample(m1, rate)| { LargerOutput(m1, m2, q, Grid(|m2|, 0, rate)[k]); }
  }

  lemma MixedMore(pushes: seq<seq<real>>, a: seq<real>, b: seq<real>, c: nat)
    requires c >= 1
    ensures Mixed(pushes + [a], c) == Mixed(pushes, c) + DownMix(a, c)
    ensures Mixed(pushes + [a, b], c) == Mixed(pushes, c) + DownMix(a, c) + DownMix(b, c)
  {
    assert (pushes + [a])[..|pushes|] == pushes;
    assert (pushes + [a, b])[..|pushes| + 1] == pushes + [a];
  }

  /** Common part and sizes of the two down-mixes, after any earlier frames `m`. */
  lemma CutAgrees(m: seq<real>, a: seq<real>, b: seq<real>, q: nat, u: nat, r: nat, v: nat, c: nat)
    requires c >= 1 && u < c && v < c && |a| == q * c + u && |b| == r * c + v
    ensures SameUpTo(m + DownMix(a, c) + DownMix(b, c), m + DownMix(a + b, c), |m| + q)
    ensures |m + DownMix(a, c) + DownMix(b, c)| == |m| + q + r
    ensures |m + DownMix(a + b, c)| == |m| + if u + v < c then q + r else q + r + 1
  {
    Counts(a, q, u, b, r, v, c);
    forall j: nat | j < q
      ensures DownMix(a + b, c)[j] == DownMix(a, c)[j]
    {
      assert (j + 1) * c == j * c + c;
      MulMonotone(j + 1, q, c);
      MulMonotone(0, j, c);
      HeadAgrees(a, b, c, j, j * c);
    }
  }

  lemma RampCut(m: seq<real>, x: nat, q: nat, u: nat, y: nat, r: nat, v: nat, c: nat)
    requires c >= 1 && 0 < u < c && v < c && x == q * c + u && y == r * c + v
    ensures
      var s := Ramp(x + y);
      var m1, m2 := m + DownMix(s[..x], c) + DownMix(s[x..], c), m + DownMix(s, c);
      |m1| <= |m2| && forall i :: |m| + q <= i < |m1| ==> m2[i] < m1[i]
  {
    var s := Ramp(x + y);
    assert s[..x] + s[x..] == s;
    CutAgrees(m, s[..x], s[x..], q, u, r, v, c);
    Counts(s[..x], q, u, s[x..], r, v, c);
    forall j: nat | q <= j < q + r
      ensures j < |DownMix(s, c)| && DownMix(s, c)[j] < DownMix(s[x..], c)[j - q]
    {
      RampShifted(x, y, c, q, u, r, j);
    }
  }

  lemma HarmfulSplitAt(m: seq<real>, x: nat, q: nat, u: nat, y: nat, r: nat, v: nat, rate: nat, c: nat)
    requires rate >= 1 && c >= 1 && 0 < u < c && v < c && x == q * c + u && y == r * c + v
    requires !Harmless(|m|, q, u, |DownMix(Ramp(x + y), c)|, y, rate, c)
    ensures var s := Ramp(x + y);
            Resample(m + DownMix(s[..x], c) + DownMix(s[x..], c), rate) != Resample(m + DownMix(s, c), rate)
  {
    var s := Ramp(x + y);
    assert s[..x] + s[x..] == s;
    CutAgrees(m, s[..x], s[x..], q, u, r, v, c);
    RampCut(m, x, q, u, y, r, v, c);
    SmallQuotient(y, r, v, c);
    OutputsDiffer(m + DownMix(s[..x], c) + DownMix(s[x..], c), m + DownMix(s, c), |m| + q, y, rate, c);
  }

  lemma HarmlessSplitAt(
    m: seq<real>, a: seq<real>, q: nat, u: nat, b: seq<real>, r: nat, v: nat, rate: nat, c: nat)
    requires rate >= 1 && c >= 1 && u < c && v < c && |a| == q * c + u && |b| == r * c + v
    requires Harmless(|m|, q, u, |DownMix(a + b, c)|, |b|, rate, c)
    ensures Resample(m + DownMix(a, c) + DownMix(b, c), rate) == Resample(m + DownMix(a + b, c), rate)
  {
    if u == 0 || u + |b| < c {
      if u == 0 { DownMixOfFrames(a, q, b, c); } else { ShortSecond(a, q, |a| - u, b, c); }
      assert m + DownMix(a, c) + DownMix(b, c) == m + DownMix(a + b, c);
    } else {
      CutAgrees(m, a, b, q, u, r, v, c);
      SmallQuotient(|b|, r, v, c);
      OutputsSame(m + DownMix(a, c) + DownMix(b, c), m + DownMix(a + b, c), |m| + q, |b|, rate, c);
    }
  }

  lemma SmallQuotient(y: nat, r: nat, v: nat, c: nat)
    requires c >= 1 && y == r * c + v && v < c
    ensures y >= c <==> r > 0
  {
    if r > 0 { MulMonotone(1, r, c); }
  }

  /** Whether, after `pushes`, the output for every input of this shape survives the split. */
  ghost predicate OutputSplitsAlways(pushes: seq<seq<real>>, x: nat, y: nat, rate: nat, channels: nat)
    requires rate >= 1 && channels >= 1
  {
    forall a: seq<real>, b: seq<real> :: |a| == x && |b| == y ==>
      Stream(pushes + [a, b], rate, channels).1 == Stream(pushes + [a + b], rate, channels).1
  }

  lemma FramesOfWhole(x: nat, q: nat, u: nat, y: nat, r: nat, v: nat, s: seq<real>, c: nat)
    requires c >= 1 && u < c && v < c && x == q * c + u && y == r * c + v && |s| == x + y
    ensures |DownMix(s, c)| == if u + v < c then q + r else q + r + 1
  {
    Counts(s[..x], q, u, s[x..], r, v, c);
    assert s[..x] + s[x..] == s;
  }

  /** The shape of a split: complete frames and rests of both parts, and the frames of the whole. */
  lemma Shape(x: nat, y: nat, c: nat) returns (q: nat, u: nat, r: nat, v: nat, n: nat)
    requires c >= 1
    ensures q == x / c && u == x % c && n == (x + y) / c
    ensures u < c && v < c && x == q * c + u && y == r * c + v && n == if u + v < c then q + r else q + r + 1
  {
    DivMod(x, c);
    DivMod(y, c);
    QuotientOfSum(x, x / c, x % c, y, y / c, y % c, c);
    q, u, r, v, n := x / c, x % c, y / c, y % c, (x + y) / c;
  }

  lemma HarmlessAlways(
    pushes: seq<seq<real>>, x: nat, q: nat, u: nat, y: nat, r: nat, v: nat, n: nat, rate: nat, c: nat)
    requires rate >= 1 && c >= 1 && u < c && v < c && x == q * c + u && y == r * c + v
    requires n == (if u + v < c then q + r else q + r + 1)
    requires Harmless(|Mixed(pushes, c)|, q, u, n, y, rate, c)
    ensures OutputSplitsAlways(pushes, x, y, rate, c)
  {
    forall a: seq<real>, b: seq<real> | |a| == x && |b| == y
      ensures Stream(pushes + [a, b], rate, c).1 == Stream(pushes + [a + b], rate, c).1
    {
      StreamsOf(pushes, a, b, rate, c);
      FramesOfWhole(x, q, u, y, r, v, a + b, c);
      HarmlessSplitAt(Mixed(pushes, c), a, q, u, b, r, v, rate, c);
    }
  }

  lemma HarmfulOnce(
    pushes: seq<seq<real>>, x: nat, q: nat, u: nat, y: nat, r: nat, v: nat, n: nat, rate: nat, c: nat)
    requires rate >= 1 && c >= 1 && u < c && v < c && x == q * c + u && y == r * c + v
    requires n == (if u + v < c then q + r else q + r + 1)
    requires !Harmless(|Mixed(pushes, c)|, q, u, n, y, rate, c)
    ensures !OutputSplitsAlways(pushes, x, y, rate, c)
  {
    var s := Ramp(x + y);
    assert s[..x] + s[x..] == s;
    FramesOfWhole(x, q, u, y, r, v, s, c);
    StreamsOf(pushes, s[..x], s[x..], rate, c);
    HarmfulSplitAt(Mixed(pushes, c), x, q, u, y, r, v, rate, c);
  }

  /** For all contents and after any history, splitting a push leaves the output alone exactly when
      the cut leaves the down-mix alone or no output looks beyond the frames completed before it. */
  lemma OutputSplitsExactly(pushes: seq<seq<real>>, x: nat, y: nat, rate: nat, channels: nat)
    requires rate >= 1 && channels >= 1
    ensures
      var h := |Mixed(pushes, channels)|;
      OutputSplitsAlways(pushes, x, y, rate, channels)
      <==> Harmless(h, x / channels, x % channels, (x + y) / channels, y, rate, channels)
  {
    var q, u, r, v, n := Shape(x, y, channels);
    if Harmless(|Mixed(pushes, channels)|, q, u, n, y, rate, channels) {
      HarmlessAlways(pushes, x, q, u, y, r, v, n, rate, channels);
    } else {
      HarmfulOnce(pushes, x, q, u, y, r, v, n, rate, channels);
    }
  }

  lemma StreamsOf(pushes: seq<seq<real>>, a: seq<real>, b: seq<real>, rate: nat, c: nat)
    requires rate >= 1 && c >= 1
    ensures Stream(pushes + [a, b], rate, c).1 == Resample(Mixed(pushes, c) + DownMix(a, c) + DownMix(b, c), rate)
    ensures Stream(pushes + [a + b], rate, c).1 == Resample(Mixed(pushes, c) + DownMix(a + b, c), rate)
  {
    StreamIsBatch(pushes + [a, b], rate, c);
    StreamIsBatch(pushes + [a + b], rate, c);
    MixedMore(pushes, a, b, c);
    MixedMore(pushes, a + b, b, c);
  }
}
