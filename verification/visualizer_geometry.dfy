/** Index and geometry arithmetic of the visualizer's renderers: which
    analyser samples each style reads in one frame, and the layout loops of
    the bar and waveform styles. Canvas calls themselves are not modelled;
    a frame's drawing is described by the indices it reads and the shapes it
    would draw. */
module VisualizerGeometry {
  import opened Visualizer

  // ---- Sample indices ----

  /** `Math.floor((i / count) * n)` for `0 <= i`, as exact arithmetic. */
  function Spread(i: nat, count: nat, n: nat): (k: nat)
    requires count > 0
    ensures i < count ==> k < n || n == 0
    ensures i == count ==> k == n
  {
    SpreadBound(i, count, n);
    i * n / count
  }

  lemma SpreadBound(i: nat, count: nat, n: nat)
    requires count > 0
    ensures i < count && n > 0 ==> i * n / count < n
    ensures i == count ==> i * n / count == n
  {
    if i < count && n > 0 {
      assert i * n < count * n;
      DivBelow(i * n, count, n);
    } else if i == count {
      MulDivCancel(count, n);
    }
  }

  lemma DivBelow(a: nat, count: nat, n: nat)
    requires count > 0 && a < count * n
    ensures a / count < n
  {
  }

  lemma MulDivCancel(count: nat, n: nat)
    requires count > 0
    ensures count * n / count == n
  {
    var d := n - count * n / count;
    assert count * d == count * n % count;
    assert MulAtLeast(count, d) && MulAtLeast(count, -d);
  }

  /** A positive multiple of `count` is at least `count`. */
  predicate MulAtLeast(count: nat, d: int) {
    d >= 1 ==> count * d >= count
  }

  /** The consecutive indices `0 .. count - 1`. */
  function Upto(count: nat): (r: seq<int>)
    ensures |r| == count && forall j :: 0 <= j < count ==> r[j] == j
  {
    seq(count, j => j)
  }

  /** `renderBlob` as written: vertices `i = 0 .. 32` (the loop runs while
      `i <= points`) read `Math.floor((i / 32) * bufferLength)`, so the
      closing vertex reads index `bufferLength`. */
  function BlobIndicesAsWritten(n: nat): (r: seq<int>)
    ensures |r| == BlobPoints + 1
  {
    seq(BlobPoints + 1, i requires 0 <= i <= BlobPoints => Spread(i, BlobPoints, n))
  }

  /** The closing vertex of the blob wraps round to the first vertex's
      sample, which is what closing the outline means. */
  function BlobIndices(n: nat): (r: seq<int>)
    ensures |r| == BlobPoints + 1
  {
    seq(BlobPoints + 1, i requires 0 <= i <= BlobPoints => Spread(i % BlobPoints, BlobPoints, n))
  }

  const BlobPoints: nat := 32
  const RadialBarCount: nat := 64
  const ParticleCount: nat := 80
  const SpiralPoints: nat := 200
  /** The spiral's glow points are every fifth spiral point. */
  const GlowStep: nat := 5

  /** The `dataArray` indices one frame of a style reads, in order, with a
      buffer of `n` samples. The waveform style reads its own 256-sample
      time-domain buffer (`WaveformIndices`) and none of `dataArray`. */
  function SampleIndices(r: Renderer, n: nat): seq<int> {
    match r
    case Bars => Upto(n)
    case Waveform => []
    case Circular => Upto(n)
    case RadialBars => seq(RadialBarCount, i => 2 * i)
    case Spectrum => Upto(n)
    case Particles => seq(ParticleCount, i requires 0 <= i < ParticleCount => Spread(i, ParticleCount, n))
    case Symmetrical => Upto(n)
    case Spiral =>
      seq(SpiralPoints, i requires 0 <= i < SpiralPoints => Spread(i, SpiralPoints, n)) +
      seq(SpiralPoints / GlowStep, j requires 0 <= j < SpiralPoints / GlowStep => Spread(GlowStep * j, SpiralPoints, n))
    case Blob => BlobIndices(n)
    case LineSpectrum => Upto(n)
    case DualWaveform => Upto(n) + Upto(n)
  }

  /** The waveform reads `waveData[0 .. fftSize - 1]` of a buffer of
      `fftSize` samples. */
  function WaveformIndices(): (r: seq<int>)
    ensures forall j :: 0 <= j < |r| ==> 0 <= r[j] < FftSize
  {
    Upto(FftSize)
  }

  predicate InBounds(indices: seq<int>, n: nat) {
    forall j :: 0 <= j < |indices| ==> 0 <= indices[j] < n
  }

  /** With the analyser's 128 bins every style reads only samples that
      exist (the radial style needs at least 127). */
  lemma SampleIndicesInBounds(r: Renderer, n: nat)
    requires n >= 2 * RadialBarCount - 1
    ensures InBounds(SampleIndices(r, n), n)
  {
    match r
    case Blob =>
      forall j | 0 <= j < BlobPoints + 1
        ensures 0 <= BlobIndices(n)[j] < n
      {
        assert BlobIndices(n)[j] == Spread(j % BlobPoints, BlobPoints, n);
      }
    case Spiral =>
      var a := seq(SpiralPoints, i requires 0 <= i < SpiralPoints => Spread(i, SpiralPoints, n));
      var b := seq(SpiralPoints / GlowStep, j requires 0 <= j < SpiralPoints / GlowStep => Spread(GlowStep * j, SpiralPoints, n));
      assert InBounds(a, n);
      assert InBounds(b, n) by {
        forall j | 0 <= j < |b|
          ensures 0 <= b[j] < n
        {
          assert GlowStep * j < SpiralPoints;
        }
      }
    case _ =>
  }

  /** The closing vertex of `renderBlob` as written reads one past the end
      of the buffer, for every buffer length. */
  lemma BlobAsWrittenReadsPastEnd(n: nat)
    ensures BlobIndicesAsWritten(n)[BlobPoints] == n
    ensures !InBounds(BlobIndicesAsWritten(n), n)
  {
    assert BlobIndicesAsWritten(n)[BlobPoints] == Spread(BlobPoints, BlobPoints, n);
  }

  /** Every other vertex of the blob is the same in both versions. */
  lemma BlobIndicesAgree(n: nat, i: nat)
    requires i < BlobPoints
    ensures BlobIndices(n)[i] == BlobIndicesAsWritten(n)[i]
  {
  }

  /** The corrected closing vertex reads the first vertex's sample. */
  lemma BlobCloses(n: nat)
    ensures BlobIndices(n)[BlobPoints] == BlobIndices(n)[0]
  {
  }

  // ---- Bar layout ----

  /** One filled rectangle: left edge, top edge, width and height. */
  datatype Rect = Rect(x: real, y: real, w: real, h: real)

  /** The height of a bar for sample value `v`: `(v / 255) * height * sensitivity`. */
  function BarHeight(v: nat, height: real, sensitivity: real): real {
    (v as real / 255.0) * height * sensitivity
  }

  /** The bar width of `renderBars`: `(width / bufferLength) * 2.5`. */
  function BarWidth(width: real, n: nat): real
    requires n > 0
  {
    (width / n as real) * 2.5
  }

  /** The `i`-th bar of `renderBars`, in closed form: it starts `i` steps
      of `barWidth + 1` from the left edge and rises from the bottom. */
  function BarRect(i: nat, v: nat, width: real, height: real, n: nat, sensitivity: real): Rect
    requires n > 0
  {
    var h := BarHeight(v, height, sensitivity);
    Rect(i as real * (BarWidth(width, n) + 1.0), height - h, BarWidth(width, n), h)
  }

  /** The loop of `renderBars`: `x` starts at 0 and grows by
      `barWidth + 1` after each bar. */
  method BarLayout(data: seq<nat>, width: real, height: real, sensitivity: real) returns (bars: seq<Rect>)
    ensures |bars| == |data|
    ensures forall i :: 0 <= i < |data| ==> bars[i] == BarRect(i, data[i], width, height, |data|, sensitivity)
  {
    bars := [];
    var n := |data|;
    if n == 0 {
      return;
    }
    var barWidth := (width / n as real) * 2.5;
    var x := 0.0;
    var i := 0;
    while i < n
      invariant 0 <= i <= n
      invariant |bars| == i
      invariant x == i as real * (barWidth + 1.0)
      invariant forall j :: 0 <= j < i ==> bars[j] == BarRect(j, data[j], width, height, n, sensitivity)
    {
      var barHeight := (data[i] as real / 255.0) * height * sensitivity;
      bars := bars + [Rect(x, height - barHeight, barWidth, barHeight)];
      x := x + barWidth + 1.0;
      i := i + 1;
    }
  }

  /** A byte sample draws a bar between the bottom edge and
      `height * sensitivity` above it. */
  lemma BarHeightBounds(v: nat, height: real, sensitivity: real)
    requires v <= 255 && height >= 0.0 && sensitivity >= 0.0
    ensures 0.0 <= BarHeight(v, height, sensitivity) <= height * sensitivity
  {
    var f := v as real / 255.0;
    ScaleBetween(f, height, sensitivity);
    assert BarHeight(v, height, sensitivity) == f * height * sensitivity;
  }

  lemma ScaleBetween(f: real, a: real, b: real)
    requires 0.0 <= f <= 1.0 && a >= 0.0 && b >= 0.0
    ensures 0.0 <= f * a * b <= a * b
  {
  }

  /** Bars step by more than 2.5 times `width / n`, so every bar from index
      `2n / 5` on starts at or past the right edge: only the lower part of
      the spectrum is ever visible. */
  lemma BarsPastRightEdge(i: nat, v: nat, width: real, height: real, n: nat, sensitivity: real)
    requires n > 0 && width >= 0.0 && 5 * i >= 2 * n
    ensures BarRect(i, v, width, height, n, sensitivity).x >= width
  {
    var bw := BarWidth(width, n);
    var q := width / n as real;
    assert q >= 0.0;
    assert q * n as real == width;
    assert i as real * 2.5 >= n as real;
    calc {
      i as real * (bw + 1.0);
    >= i as real * bw;
    == (i as real * 2.5) * q;
    >= n as real * q;
    == width;
    }
  }

  // ---- Waveform ----

  /** The `i`-th vertex of `renderWaveform`: `x` is `i` slices from the
      left, `y` is `(sample / 128) * sensitivity * height / 2`. */
  function WavePoint(i: nat, v: nat, width: real, height: real, count: nat, sensitivity: real): (real, real)
    requires count > 0
  {
    (i as real * (width / count as real), ((v as real / 128.0) * sensitivity * height) / 2.0)
  }

  /** The loop of `renderWaveform`: one vertex per time-domain sample,
      `x` growing by `width / fftSize`, then a last segment to the middle
      of the right edge. */
  method WaveformPoints(waveData: seq<nat>, width: real, height: real, sensitivity: real)
      returns (points: seq<(real, real)>)
    requires |waveData| == FftSize
    ensures |points| == |waveData| + 1
    ensures forall i :: 0 <= i < |waveData| ==> points[i] == WavePoint(i, waveData[i], width, height, |waveData|, sensitivity)
    ensures points[|waveData|] == (width, height / 2.0)
  {
    var sliceWidth := width / |waveData| as real;
    var x := 0.0;
    points := [];
    var i := 0;
    while i < |waveData|
      invariant 0 <= i <= |waveData|
      invariant |points| == i
      invariant x == i as real * sliceWidth
      invariant forall j :: 0 <= j < i ==> points[j] == WavePoint(j, waveData[j], width, height, |waveData|, sensitivity)
    {
      var v := (waveData[i] as real / 128.0) * sensitivity;
      var y := (v * height) / 2.0;
      assert x == WavePoint(i, waveData[i], width, height, |waveData|, sensitivity).0;
      assert y == WavePoint(i, waveData[i], width, height, |waveData|, sensitivity).1;
      points := points + [(x, y)];
      x := x + sliceWidth;
      i := i + 1;
    }
    points := points + [(width, height / 2.0)];
  }

  /** A share below one of a positive height lies below that height. */
  lemma ShareOfHeight(share: real, height: real)
    requires 0.0 <= share < 1.0 && height > 0.0
    ensures 0.0 <= share * height < height
  {
    var rest := 1.0 - share;
    assert rest * height > 0.0;
    assert share * height + rest * height == height;
  }

  /** Silence (every time-domain sample at the midpoint 128) at sensitivity
      1 draws a flat line through the middle of the canvas; any byte sample
      at sensitivity 1 stays on the canvas, louder samples lower down. */
  lemma SilenceIsFlat(i: nat, width: real, height: real, count: nat)
    requires count > 0
    ensures WavePoint(i, 128, width, height, count, 1.0).1 == height / 2.0
    ensures forall v: nat :: v <= 255 && height >= 0.0 ==>
      0.0 <= WavePoint(i, v, width, height, count, 1.0).1 < height || height == 0.0
    ensures forall v: nat, w: nat :: v <= w && height >= 0.0 ==>
      WavePoint(i, v, width, height, count, 1.0).1 <= WavePoint(i, w, width, height, count, 1.0).1
  {
    forall v: nat | v <= 255 && height >= 0.0
      ensures 0.0 <= WavePoint(i, v, width, height, count, 1.0).1 < height || height == 0.0
    {
      var share := v as real / 256.0;
      assert WavePoint(i, v, width, height, count, 1.0).1 == share * height;
      if height > 0.0 {
        ShareOfHeight(share, height);
      }
    }
    forall v: nat, w: nat | v <= w && height >= 0.0
      ensures WavePoint(i, v, width, height, count, 1.0).1 <= WavePoint(i, w, width, height, count, 1.0).1
    {
      assert WavePoint(i, v, width, height, count, 1.0).1 == (v as real / 256.0) * height;
      assert WavePoint(i, w, width, height, count, 1.0).1 == (w as real / 256.0) * height;
    }
  }
}
