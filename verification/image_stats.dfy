/** The image statistics of `stats.py`: a 256-bin histogram per channel in place of the pixels themselves. */
module ImageStatistics {
  import opened Wrappers
  import opened Numbers
  import opened Statistics

  type Byte = x: int | 0 <= x < 256

  datatype Shape = Shape(height: nat, width: nat, channels: nat)

  /** A decoded frame, its pixels in row order as `reshape(-1, channels)` lists them. */
  datatype Image = Image(shape: Shape, pixels: seq<seq<Byte>>)

  predicate HasChannels(image: Image, channels: nat) {
    forall i :: 0 <= i < |image.pixels| ==> |image.pixels[i]| == channels
  }

  /** The array has one entry per pixel and as many values in each as its shape says. */
  ghost predicate IsArray(image: Image) {
    |image.pixels| == Area(image.shape) && HasChannels(image, image.shape.channels)
  }

  function Area(shape: Shape): nat { shape.height * shape.width }

  predicate AllHaveChannels(images: seq<Image>, channels: nat) {
    forall k :: 0 <= k < |images| ==> HasChannels(images[k], channels)
  }

  function Channel(image: Image, channels: nat, c: nat): (r: seq<Byte>)
    requires HasChannels(image, channels) && c < channels
    ensures |r| == |image.pixels| && forall i :: 0 <= i < |r| ==> r[i] == image.pixels[i][c]
  {
    seq(|image.pixels|, i requires 0 <= i < |image.pixels| => image.pixels[i][c])
  }

  /** One channel of every pixel of every frame. */
  function ChannelPixels(images: seq<Image>, channels: nat, c: nat): seq<Byte>
    requires AllHaveChannels(images, channels) && c < channels
  {
    if images == [] then []
    else ChannelPixels(images[..|images| - 1], channels, c) + Channel(images[|images| - 1], channels, c)
  }

  /** Pixel values in [0, 1]. */
  function Normalized(xs: seq<Byte>): (r: seq<real>)
    ensures |r| == |xs| && forall i :: 0 <= i < |r| ==> r[i] == xs[i] as real / 255.0
  {
    seq(|xs|, i requires 0 <= i < |xs| => xs[i] as real / 255.0)
  }

  // ---- Histograms ----

  function Count(xs: seq<Byte>, v: int): nat {
    if xs == [] then 0 else Count(xs[..|xs| - 1], v) + if xs[|xs| - 1] == v then 1 else 0
  }

  /** `np.bincount(..., minlength=256)`. */
  function Bincount(xs: seq<Byte>): (r: seq<nat>)
    ensures |r| == 256 && forall v :: 0 <= v < 256 ==> r[v] == Count(xs, v)
  {
    seq(256, v requires 0 <= v < 256 => Count(xs, v))
  }

  function PlusBins(a: seq<nat>, b: seq<nat>): (r: seq<nat>)
    requires |a| == |b|
    ensures |r| == |a| && forall v :: 0 <= v < |r| ==> r[v] == a[v] + b[v]
  {
    seq(|a|, v requires 0 <= v < |a| => a[v] + b[v])
  }

  /** The running fields of one image feature. */
  datatype ImageSums = ImageSums(frames: nat, histogram: seq<seq<nat>>)

  predicate IsHistogram(h: seq<seq<nat>>, channels: nat) {
    |h| == channels && forall c :: 0 <= c < |h| ==> |h[c]| == 256
  }

  /** `ImageStats.histogram`. */
  function Histogram(image: Image, channels: nat): (r: seq<seq<nat>>)
    requires HasChannels(image, channels)
    ensures IsHistogram(r, channels)
    ensures forall c :: 0 <= c < channels ==> r[c] == Bincount(Channel(image, channels, c))
  {
    seq(channels, c requires 0 <= c < channels => Bincount(Channel(image, channels, c)))
  }

  /** `ImageStats.fold`. */
  function AddHistogram(s: ImageSums, h: seq<seq<nat>>, channels: nat): (r: ImageSums)
    requires IsHistogram(s.histogram, channels) && IsHistogram(h, channels)
    ensures IsHistogram(r.histogram, channels)
  {
    ImageSums(s.frames + 1, seq(channels, c requires 0 <= c < channels => PlusBins(s.histogram[c], h[c])))
  }

  function NewImageSums(channels: nat): (r: ImageSums)
    ensures IsHistogram(r.histogram, channels)
  {
    ImageSums(0, seq(channels, _ => seq(256, _ => 0)))
  }

  function FoldImages(images: seq<Image>, channels: nat): (r: ImageSums)
    requires AllHaveChannels(images, channels)
    ensures IsHistogram(r.histogram, channels)
  {
    if images == [] then NewImageSums(channels)
    else
      var last := images[|images| - 1];
      assert HasChannels(last, channels);
      AddHistogram(FoldImages(images[..|images| - 1], channels), Histogram(last, channels), channels)
  }

  lemma FoldOneMoreImage(images: seq<Image>, image: Image, channels: nat)
    requires AllHaveChannels(images, channels) && HasChannels(image, channels)
    ensures AllHaveChannels(images + [image], channels)
    ensures FoldImages(images + [image], channels) ==
            AddHistogram(FoldImages(images, channels), Histogram(image, channels), channels)
  {
    assert (images + [image])[..|images|] == images;
  }

  lemma {:induction false} CountAppends(xs: seq<Byte>, ys: seq<Byte>, v: int)
    ensures Count(xs + ys, v) == Count(xs, v) + Count(ys, v)
  {
    if ys == [] {
      assert xs + ys == xs;
    } else {
      assert (xs + ys)[..|xs + ys| - 1] == xs + ys[..|ys| - 1];
      CountAppends(xs, ys[..|ys| - 1], v);
    }
  }

  /** The folded histogram counts the pixels of all frames. */
  lemma {:induction false} FoldedImages(images: seq<Image>, channels: nat, c: nat)
    requires AllHaveChannels(images, channels) && c < channels
    ensures FoldImages(images, channels).frames == |images|
    ensures FoldImages(images, channels).histogram[c] == Bincount(ChannelPixels(images, channels, c))
  {
    if images != [] {
      var init, last := images[..|images| - 1], images[|images| - 1];
      FoldedImages(init, channels, c);
      var before, added := ChannelPixels(init, channels, c), Channel(last, channels, c);
      forall v | 0 <= v < 256 ensures PlusBins(Bincount(before), Bincount(added))[v] == Bincount(before + added)[v] {
        CountAppends(before, added, v);
      }
    }
  }

  // ---- Moments ----

  function Power(v: int, p: nat): int { if p == 0 then 1 else if p == 1 then v else v * v }

  /** `(counts * values ** p).sum()` over the first `k` bins. */
  function Moment(h: seq<nat>, k: nat, p: nat): int
    requires k <= |h|
  {
    if k == 0 then 0 else Moment(h, k - 1, p) + h[k - 1] * Power(k - 1, p)
  }

  /** The same moment over the pixels themselves. */
  function PixelMoment(xs: seq<Byte>, p: nat): int {
    if xs == [] then 0 else PixelMoment(xs[..|xs| - 1], p) + Power(xs[|xs| - 1], p)
  }

  lemma OneMoreInBin(count: int, power: int)
    ensures (count + 1) * power == count * power + power
  {
  }

  /** One more pixel of value `x` adds its power to the moment. */
  lemma {:induction false} MomentOneMore(h: seq<nat>, g: seq<nat>, x: int, k: nat, p: nat)
    requires |h| == |g| && k <= |h|
    requires forall v :: 0 <= v < |h| ==> g[v] == h[v] + if v == x then 1 else 0
    ensures Moment(g, k, p) == Moment(h, k, p) + if 0 <= x < k then Power(x, p) else 0
  {
    if k > 0 {
      MomentOneMore(h, g, x, k - 1, p);
      OneMoreInBin(h[k - 1], Power(k - 1, p));
    }
  }

  lemma {:induction false} EmptyMoment(k: nat, p: nat)
    requires k <= 256
    ensures Moment(Bincount([]), k, p) == 0
  {
    if k > 0 { EmptyMoment(k - 1, p); }
  }

  lemma {:induction false} MomentOfBincount(xs: seq<Byte>, p: nat)
    ensures Moment(Bincount(xs), 256, p) == PixelMoment(xs, p)
  {
    if xs == [] {
      EmptyMoment(256, p);
    } else {
      var init := xs[..|xs| - 1];
      MomentOfBincount(init, p);
      MomentOneMore(Bincount(init), Bincount(xs), xs[|xs| - 1], 256, p);
    }
  }

  lemma SquareOfNormalized(x: int)
    ensures Square(x as real / 255.0) == (x * x) as real / 65025.0
  {
    assert (x as real / 255.0) * (x as real / 255.0) == (x as real * x as real) / 65025.0;
    assert (x * x) as real == x as real * x as real;
  }

  lemma {:induction false} NormalizedMoments(xs: seq<Byte>)
    ensures PixelMoment(xs, 0) == |xs|
    ensures Sum(Normalized(xs)) == PixelMoment(xs, 1) as real / 255.0
    ensures Squares(Normalized(xs)) == PixelMoment(xs, 2) as real / 65025.0
  {
    if xs != [] {
      var init, x := xs[..|xs| - 1], xs[|xs| - 1];
      NormalizedMoments(init);
      assert Normalized(xs) == Normalized(init) + [x as real / 255.0];
      SumOneMore(Normalized(init), x as real / 255.0);
      SquareOfNormalized(x);
    }
  }

  // ---- Extremes ----

  /** `np.argmax` of the populated bins from `k` on; the length when none is populated. */
  function FirstPopulated(h: seq<nat>, k: nat): (r: nat)
    requires k <= |h|
    ensures k <= r <= |h|
    ensures forall v :: k <= v < r ==> h[v] == 0
    ensures r < |h| ==> h[r] > 0
    decreases |h| - k
  {
    if k == |h| || h[k] > 0 then k else FirstPopulated(h, k + 1)
  }

  function Reverse(h: seq<nat>): (r: seq<nat>)
    ensures |r| == |h| && forall v :: 0 <= v < |r| ==> r[v] == h[|h| - 1 - v]
  {
    seq(|h|, v requires 0 <= v < |h| => h[|h| - 1 - v])
  }

  function LowBin(h: seq<nat>): nat {
    if FirstPopulated(h, 0) < |h| then FirstPopulated(h, 0) else 0
  }

  function HighBin(h: seq<nat>): int
    requires |h| == 256
  {
    if FirstPopulated(h, 0) < |h| then 255 - FirstPopulated(Reverse(h), 0) else 0
  }

  lemma {:induction false} CountWitness(xs: seq<Byte>, v: int) returns (i: nat)
    requires Count(xs, v) > 0
    ensures i < |xs| && xs[i] == v
  {
    if xs[|xs| - 1] == v {
      i := |xs| - 1;
    } else {
      i := CountWitness(xs[..|xs| - 1], v);
    }
  }

  lemma {:induction false} CountedWhere(xs: seq<Byte>, i: nat)
    requires i < |xs|
    ensures Count(xs, xs[i]) > 0
  {
    if i < |xs| - 1 { CountedWhere(xs[..|xs| - 1], i); }
  }

  /** The first and last populated bins are the smallest and largest pixel values. */
  lemma BinsAreExtremes(xs: seq<Byte>)
    requires xs != []
    ensures LowBin(Bincount(xs)) in xs && HighBin(Bincount(xs)) in xs
    ensures forall i :: 0 <= i < |xs| ==> LowBin(Bincount(xs)) <= xs[i] <= HighBin(Bincount(xs))
  {
    var h := Bincount(xs);
    var first, last := FirstPopulated(h, 0), FirstPopulated(Reverse(h), 0);
    forall i | 0 <= i < |xs| ensures first <= xs[i] && xs[i] <= 255 - last && last < 256 {
      CountedWhere(xs, i);
      assert h[xs[i]] > 0 && Reverse(h)[255 - xs[i]] > 0;
    }
    assert first <= xs[0] && xs[0] <= 255 - last && last < 256;
    var low := CountWitness(xs, first);
    var high := CountWitness(xs, 255 - last);
  }

  // ---- Published statistics ----

  /** `ImageStats.stats`, per channel. */
  function ImageStat(h: seq<nat>): Stat
    requires |h| == 256
  {
    var pixels := MaxInt(Moment(h, 256, 0), 0);
    var mean := Average(Moment(h, 256, 1) as real, pixels) / 255.0;
    var meanSquare := Average(Moment(h, 256, 2) as real, pixels) / 65025.0;
    Stat(Some(LowBin(h) as real / 255.0), Some(HighBin(h) as real / 255.0), mean, Variance(mean, meanSquare))
  }

  lemma AverageScales(total: real, n: nat, scale: real)
    requires scale > 0.0
    ensures Average(total, n) / scale == Average(total / scale, n)
  {
    var m := MaxInt(n, 1) as real;
    assert total / m / scale == total / scale / m;
  }

  /** The histogram statistics of one channel equal the direct reduction over its pixels. */
  lemma BinsDescribePixels(xs: seq<Byte>)
    requires xs != []
    ensures Describes(ImageStat(Bincount(xs)), Normalized(xs))
  {
    BinsGiveMoments(xs);
    MomentsDescribe(Normalized(xs));
    ExtremesDescribe(xs);
  }

  lemma BinsGiveMoments(xs: seq<Byte>)
    requires xs != []
    ensures var mean := Average(Sum(Normalized(xs)), |xs|);
            && ImageStat(Bincount(xs)).mean == mean
            && ImageStat(Bincount(xs)).variance == Variance(mean, Average(Squares(Normalized(xs)), |xs|))
  {
    MomentOfBincount(xs, 0);
    MomentOfBincount(xs, 1);
    MomentOfBincount(xs, 2);
    NormalizedMoments(xs);
    AverageScales(PixelMoment(xs, 1) as real, |xs|, 255.0);
    AverageScales(PixelMoment(xs, 2) as real, |xs|, 65025.0);
  }

  lemma ExtremesDescribe(xs: seq<Byte>)
    requires xs != []
    ensures IsLowest(Some(LowBin(Bincount(xs)) as real / 255.0), Normalized(xs))
    ensures IsHighest(Some(HighBin(Bincount(xs)) as real / 255.0), Normalized(xs))
  {
    BinsAreExtremes(xs);
    var low :| 0 <= low < |xs| && xs[low] == LowBin(Bincount(xs));
    var high :| 0 <= high < |xs| && xs[high] == HighBin(Bincount(xs));
    assert Normalized(xs)[low] in Normalized(xs) && Normalized(xs)[high] in Normalized(xs);
  }

  /** For any frames folded in, each channel's published statistics are those of all its pixels; a channel without any
      pixel is all zero. */
  lemma ImageStatsAreDirect(images: seq<Image>, channels: nat, c: nat)
    requires AllHaveChannels(images, channels) && c < channels
    ensures DescribesChannel(ImageStat(FoldImages(images, channels).histogram[c]), ChannelPixels(images, channels, c))
  {
    FoldedImages(images, channels, c);
    var pixels := ChannelPixels(images, channels, c);
    if pixels == [] { EmptyStat(); } else { BinsDescribePixels(pixels); }
  }

  /** The statistics are those of the pixels; without any they are all zero. */
  ghost predicate DescribesChannel(stat: Stat, pixels: seq<Byte>) {
    if pixels == [] then stat == Stat(Some(0.0), Some(0.0), 0.0, 0.0) else Describes(stat, Normalized(pixels))
  }

  lemma EmptyStat()
    ensures ImageStat(Bincount([])) == Stat(Some(0.0), Some(0.0), 0.0, 0.0)
  {
    EmptyMoment(256, 0);
    EmptyMoment(256, 1);
    EmptyMoment(256, 2);
    NothingPopulated(Bincount([]), 0);
  }

  lemma {:induction false} NothingPopulated(h: seq<nat>, k: nat)
    requires k <= |h| && forall v :: 0 <= v < |h| ==> h[v] == 0
    ensures FirstPopulated(h, k) == |h|
    decreases |h| - k
  {
    if k < |h| { NothingPopulated(h, k + 1); }
  }

  lemma {:induction false} FoldedFrames(images: seq<Image>, channels: nat)
    requires AllHaveChannels(images, channels)
    ensures FoldImages(images, channels).frames == |images|
  {
    if images != [] { FoldedFrames(images[..|images| - 1], channels); }
  }

  /** `ImageStats`. */
  class ImageStats {
    const channels: nat
    var frames: nat
    var histogram: seq<seq<nat>>

    constructor (channels: nat)
      ensures this.channels == channels && Sums() == FoldImages([], channels)
    {
      this.channels := channels;
      frames := 0;
      histogram := seq(channels, _ => seq(256, _ => 0));
    }

    function Sums(): ImageSums
      reads this
    {
      ImageSums(frames, histogram)
    }

    method Fold(h: seq<seq<nat>>, ghost images: seq<Image>, ghost image: Image)
      requires AllHaveChannels(images, channels) && HasChannels(image, channels)
               && Sums() == FoldImages(images, channels)
      requires h == Histogram(image, channels)
      modifies this
      ensures AllHaveChannels(images + [image], channels) && Sums() == FoldImages(images + [image], channels)
    {
      frames := frames + 1;
      histogram := AddHistogram(ImageSums(0, histogram), h, channels).histogram;
      FoldOneMoreImage(images, image, channels);
    }

    method Add(image: Image, ghost images: seq<Image>)
      requires AllHaveChannels(images, channels) && HasChannels(image, channels)
               && Sums() == FoldImages(images, channels)
      modifies this
      ensures AllHaveChannels(images + [image], channels) && Sums() == FoldImages(images + [image], channels)
    {
      Fold(Histogram(image, channels), images, image);
    }

    method Stats(ghost images: seq<Image>) returns (stats: seq<Stat>, published: nat)
      requires AllHaveChannels(images, channels) && Sums() == FoldImages(images, channels)
      ensures |stats| == channels && published == |images|
      ensures forall c :: 0 <= c < channels ==> DescribesChannel(stats[c], ChannelPixels(images, channels, c))
    {
      var h := histogram;
      stats := seq(channels, c requires 0 <= c < channels && IsHistogram(h, channels) => ImageStat(h[c]));
      forall c | 0 <= c < channels ensures DescribesChannel(stats[c], ChannelPixels(images, channels, c)) {
        ImageStatsAreDirect(images, channels, c);
      }
      published := frames;
      FoldedFrames(images, channels);
    }
  }
}
