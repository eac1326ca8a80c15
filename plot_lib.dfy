/**
 * The library half of the plugin (src/lib.rs): the extrema scan, the padded
 * viewport, the pixel buffer and the adaptation of drawing and codec failures
 * into one labelled error.
 *
 * Numbers are `real` where the source has `f32`; the sentinels `f32::MAX` and
 * `f32::MIN` are kept as exact constants so that the scan of an empty input ends
 * at the sentinels as in the source. The drawing library and the PNG codec are
 * function parameters.
 */
module PlotLib {
  import opened Wrappers

  type byte = bv8

  /** One point of the series, `(x, y)`. */
  datatype Sample = Sample(x: real, y: real)

  /** `f32::MAX`, the largest finite `f32`: (2 - 2^-23) * 2^127. */
  const F32_MAX: real := 340282346638528859811704183484516925440.0
  /** `f32::MIN`, the lowest finite `f32`. */
  const F32_MIN: real := -F32_MAX

  datatype Axis = X | Y

  function Coord(s: Sample, a: Axis): real
  {
    match a
    case X => s.x
    case Y => s.y
  }

  /** Every coordinate is a finite `f32` value. */
  predicate Finite(values: seq<Sample>)
  {
    forall k | 0 <= k < |values| ::
      F32_MIN <= values[k].x <= F32_MAX && F32_MIN <= values[k].y <= F32_MAX
  }

  // ---------------------------------------------------------------------------
  // Extrema scan
  // ---------------------------------------------------------------------------

  /** The value of the `min_*` accumulator once the scan has seen `values`. */
  function Lowest(values: seq<Sample>, a: Axis): real
  {
    if values == [] then F32_MAX
    else
      var acc := Lowest(values[..|values| - 1], a);
      var c := Coord(values[|values| - 1], a);
      if c < acc then c else acc
  }

  /** The value of the `max_*` accumulator once the scan has seen `values`. */
  function Highest(values: seq<Sample>, a: Axis): real
  {
    if values == [] then F32_MIN
    else
      var acc := Highest(values[..|values| - 1], a);
      var c := Coord(values[|values| - 1], a);
      if c > acc then c else acc
  }

  /**
   * The loop of `make_plot` that tightens four accumulators from their
   * sentinels. Afterwards every sample lies inside [min, max] on both axes.
   */
  method ScanExtrema(values: seq<Sample>) returns (minX: real, maxX: real, minY: real, maxY: real)
    ensures minX == Lowest(values, X) && maxX == Highest(values, X)
    ensures minY == Lowest(values, Y) && maxY == Highest(values, Y)
    ensures forall k | 0 <= k < |values| ::
      minX <= values[k].x <= maxX && minY <= values[k].y <= maxY
  {
    minX, maxX := F32_MAX, F32_MIN;
    minY, maxY := F32_MAX, F32_MIN;
    for i := 0 to |values|
      invariant minX == Lowest(values[..i], X) && maxX == Highest(values[..i], X)
      invariant minY == Lowest(values[..i], Y) && maxY == Highest(values[..i], Y)
    {
      assert values[..i + 1][..i] == values[..i];
      var s := values[i];
      if s.x < minX {
        minX := s.x;
      }
      if s.x > maxX {
        maxX := s.x;
      }
      if s.y < minY {
        minY := s.y;
      }
      if s.y > maxY {
        maxY := s.y;
      }
    }
    assert values[..|values|] == values;
    ExtremaBoundSamples(values, X);
    ExtremaBoundSamples(values, Y);
  }

  /** The accumulators never pass their sentinels and enclose every sample. */
  lemma {:induction false} ExtremaBoundSamples(values: seq<Sample>, a: Axis)
    ensures Lowest(values, a) <= F32_MAX && F32_MIN <= Highest(values, a)
    ensures forall k | 0 <= k < |values| ::
      Lowest(values, a) <= Coord(values[k], a) <= Highest(values, a)
  {
    if values != [] {
      var init := values[..|values| - 1];
      ExtremaBoundSamples(init, a);
      forall k | 0 <= k < |values| - 1
        ensures Lowest(values, a) <= Coord(values[k], a) <= Highest(values, a)
      {
        assert values[k] == init[k];
      }
    }
  }

  /** Each accumulator is either still its sentinel or the coordinate of some sample. */
  lemma {:induction false} ExtremaAreSamplesOrSentinels(values: seq<Sample>, a: Axis)
    ensures Lowest(values, a) == F32_MAX ||
            exists k | 0 <= k < |values| :: Lowest(values, a) == Coord(values[k], a)
    ensures Highest(values, a) == F32_MIN ||
            exists k | 0 <= k < |values| :: Highest(values, a) == Coord(values[k], a)
  {
    if values != [] {
      var init := values[..|values| - 1];
      ExtremaAreSamplesOrSentinels(init, a);
      if Lowest(values, a) != F32_MAX && Lowest(values, a) != Coord(values[|values| - 1], a) {
        var k :| 0 <= k < |init| && Lowest(init, a) == Coord(init[k], a);
        assert values[k] == init[k];
      }
      if Highest(values, a) != F32_MIN && Highest(values, a) != Coord(values[|values| - 1], a) {
        var k :| 0 <= k < |init| && Highest(init, a) == Coord(init[k], a);
        assert values[k] == init[k];
      }
    }
  }

  /** For non-empty finite input each of the four extrema is the coordinate of some sample. */
  lemma ExtremaAreSamples(values: seq<Sample>, a: Axis)
    requires |values| > 0 && Finite(values)
    ensures exists k | 0 <= k < |values| :: Lowest(values, a) == Coord(values[k], a)
    ensures exists k | 0 <= k < |values| :: Highest(values, a) == Coord(values[k], a)
  {
    ExtremaBoundSamples(values, a);
    ExtremaAreSamplesOrSentinels(values, a);
    // A sentinel that survived is itself the first sample's coordinate.
    if Lowest(values, a) == F32_MAX {
      assert Lowest(values, a) == Coord(values[0], a);
    }
    if Highest(values, a) == F32_MIN {
      assert Highest(values, a) == Coord(values[0], a);
    }
  }

  /** The least coordinate of a non-empty finite input is what the min scan yields. */
  lemma LowestIsLeastCoord(values: seq<Sample>, a: Axis, j: nat)
    requires j < |values| && Coord(values[j], a) <= F32_MAX
    requires forall k | 0 <= k < |values| :: Coord(values[j], a) <= Coord(values[k], a)
    ensures Lowest(values, a) == Coord(values[j], a)
  {
    ExtremaAreSamplesOrSentinels(values, a);
    ExtremaBoundSamples(values, a);
  }

  /** The greatest coordinate of a non-empty finite input is what the max scan yields. */
  lemma HighestIsGreatestCoord(values: seq<Sample>, a: Axis, j: nat)
    requires j < |values| && F32_MIN <= Coord(values[j], a)
    requires forall k | 0 <= k < |values| :: Coord(values[k], a) <= Coord(values[j], a)
    ensures Highest(values, a) == Coord(values[j], a)
  {
    ExtremaAreSamplesOrSentinels(values, a);
    ExtremaBoundSamples(values, a);
  }

  /** A value that bounds every sample from below also bounds every sample of a permutation. */
  lemma LowerBoundCarries(v1: seq<Sample>, v2: seq<Sample>, a: Axis, m: real)
    requires multiset(v1) == multiset(v2)
    requires forall k | 0 <= k < |v1| :: m <= Coord(v1[k], a)
    ensures forall k | 0 <= k < |v2| :: m <= Coord(v2[k], a)
  {
    forall k | 0 <= k < |v2|
      ensures m <= Coord(v2[k], a)
    {
      assert v2[k] in multiset(v1);
      var j :| 0 <= j < |v1| && v1[j] == v2[k];
    }
  }

  /** An upper bound of every sample also bounds every sample of a permutation. */
  lemma UpperBoundCarries(v1: seq<Sample>, v2: seq<Sample>, a: Axis, m: real)
    requires multiset(v1) == multiset(v2)
    requires forall k | 0 <= k < |v1| :: Coord(v1[k], a) <= m
    ensures forall k | 0 <= k < |v2| :: Coord(v2[k], a) <= m
  {
    forall k | 0 <= k < |v2|
      ensures Coord(v2[k], a) <= m
    {
      assert v2[k] in multiset(v1);
      var j :| 0 <= j < |v1| && v1[j] == v2[k];
    }
  }

  /** The extrema depend only on the multiset of samples, not on their order. */
  lemma ExtremaPermutationInvariant(v1: seq<Sample>, v2: seq<Sample>, a: Axis)
    requires multiset(v1) == multiset(v2)
    ensures Lowest(v1, a) == Lowest(v2, a)
    ensures Highest(v1, a) == Highest(v2, a)
  {
    ExtremaBoundSamples(v1, a);
    ExtremaBoundSamples(v2, a);
    ExtremaAreSamplesOrSentinels(v1, a);
    ExtremaAreSamplesOrSentinels(v2, a);
    LowerBoundCarries(v1, v2, a, Lowest(v1, a));
    LowerBoundCarries(v2, v1, a, Lowest(v2, a));
    UpperBoundCarries(v1, v2, a, Highest(v1, a));
    UpperBoundCarries(v2, v1, a, Highest(v2, a));
  }

  // ---------------------------------------------------------------------------
  // Viewport
  // ---------------------------------------------------------------------------

  /** The chart's coordinate domain, `plot_min_x..plot_max_x` by `plot_min_y..plot_max_y`. */
  datatype Viewport = Viewport(minX: real, maxX: real, minY: real, maxY: real)

  /**
   * Widen `lo..hi` by a tenth of its extent on each side. The centre stays
   * put, the width grows by a fifth, and an ordered range only grows.
   */
  function PadAxis(lo: real, hi: real): (r: (real, real))
    ensures r.0 + r.1 == lo + hi
    ensures r.1 - r.0 == (hi - lo) * 6.0 / 5.0
    ensures lo <= hi ==> r.0 <= lo && hi <= r.1
    ensures lo == hi ==> r.0 == r.1 == lo
  {
    var buffer := (hi - lo) / 10.0;
    (lo - buffer, hi + buffer)
  }

  /** The viewport `make_plot` hands to the chart builder. */
  function PlotViewport(values: seq<Sample>): Viewport
  {
    var xs := PadAxis(Lowest(values, X), Highest(values, X));
    var ys := PadAxis(Lowest(values, Y), Highest(values, Y));
    Viewport(xs.0, xs.1, ys.0, ys.1)
  }

  /** For non-empty input the viewport encloses the extrema and therefore every sample. */
  lemma ViewportContainsSamples(values: seq<Sample>)
    requires |values| > 0
    ensures var vp := PlotViewport(values);
      && vp.minX <= Lowest(values, X) && Highest(values, X) <= vp.maxX
      && vp.minY <= Lowest(values, Y) && Highest(values, Y) <= vp.maxY
      && forall k | 0 <= k < |values| ::
           vp.minX <= values[k].x <= vp.maxX && vp.minY <= values[k].y <= vp.maxY
  {
    ExtremaBoundSamples(values, X);
    ExtremaBoundSamples(values, Y);
    assert Coord(values[0], X) == values[0].x && Coord(values[0], Y) == values[0].y;
  }

  /**
   * With no samples the sentinels survive and the viewport is inverted on both
   * axes. The exact bounds are those of real arithmetic; in `f32` the extent
   * `f32::MIN - f32::MAX` overflows and the padded bounds become infinite.
   */
  lemma EmptyViewportInverted()
    ensures Lowest([], X) == F32_MAX && Highest([], X) == F32_MIN
    ensures PlotViewport([]) == Viewport(F32_MAX * 6.0 / 5.0, F32_MIN * 6.0 / 5.0,
                                         F32_MAX * 6.0 / 5.0, F32_MIN * 6.0 / 5.0)
    ensures PlotViewport([]).minX > PlotViewport([]).maxX
    ensures PlotViewport([]).minY > PlotViewport([]).maxY
  {
  }

  /** Reordering the samples leaves the viewport unchanged. */
  lemma ViewportPermutationInvariant(v1: seq<Sample>, v2: seq<Sample>)
    requires multiset(v1) == multiset(v2)
    ensures PlotViewport(v1) == PlotViewport(v2)
  {
    ExtremaPermutationInvariant(v1, v2, X);
    ExtremaPermutationInvariant(v1, v2, Y);
  }

  /** A constant finite series has zero extent on that axis: the padded range collapses to the constant. */
  lemma ConstantSeriesDegenerate(values: seq<Sample>)
    requires |values| > 0 && Finite(values)
    ensures (forall k | 0 <= k < |values| :: values[k].x == values[0].x) ==>
      PlotViewport(values).minX == PlotViewport(values).maxX == values[0].x
    ensures (forall k | 0 <= k < |values| :: values[k].y == values[0].y) ==>
      PlotViewport(values).minY == PlotViewport(values).maxY == values[0].y
  {
    if forall k | 0 <= k < |values| :: values[k].x == values[0].x {
      LowestIsLeastCoord(values, X, 0);
      HighestIsGreatestCoord(values, X, 0);
    }
    if forall k | 0 <= k < |values| :: values[k].y == values[0].y {
      LowestIsLeastCoord(values, Y, 0);
      HighestIsGreatestCoord(values, Y, 0);
    }
  }

  /** A single finite sample gives a zero-width, zero-height viewport at that sample. */
  lemma SingleSampleDegenerate(s: Sample)
    requires Finite([s])
    ensures PlotViewport([s]) == Viewport(s.x, s.x, s.y, s.y)
  {
    ConstantSeriesDegenerate([s]);
  }

  // ---------------------------------------------------------------------------
  // Errors
  // ---------------------------------------------------------------------------

  /** A failure reported by the drawing library (`DrawingAreaErrorKind`). */
  datatype DrawingError = DrawingError(description: string)

  /** A failure reported by the image codec (`image::ImageError`). */
  datatype ImageError = ImageError(description: string)

  /** The `anyhow::Error` a cause is converted into; it remembers where it came from. */
  datatype Cause = FromDrawing(drawing: DrawingError) | FromImage(image: ImageError)

  /**
   * `MakePlotError`: the stage label and the underlying cause. The source's
   * `label` field is `labelText` here, because `label` is a Dafny keyword.
   */
  datatype MakePlotError = MakePlotError(labelText: string, source: Cause)

  /** `to_makeplot_err` on a drawing result: `Ok` passes through, an error gains the label. */
  function DrawingToMakePlotErr<T>(r: Result<T, DrawingError>, labelText: string): (out: Result<T, MakePlotError>)
    ensures out.Ok? <==> r.Ok?
    ensures r.Ok? ==> out.value == r.value
    ensures r.Err? ==> out.error.labelText == labelText && out.error.source == FromDrawing(r.error)
  {
    match r
    case Ok(x) => Ok(x)
    case Err(e) => Err(MakePlotError(labelText, FromDrawing(e)))
  }

  /** `to_makeplot_err` on a codec result: `Ok` passes through, an error gains the label. */
  function ImageToMakePlotErr<T>(r: Result<T, ImageError>, labelText: string): (out: Result<T, MakePlotError>)
    ensures out.Ok? <==> r.Ok?
    ensures r.Ok? ==> out.value == r.value
    ensures r.Err? ==> out.error.labelText == labelText && out.error.source == FromImage(r.error)
  {
    match r
    case Ok(x) => Ok(x)
    case Err(e) => Err(MakePlotError(labelText, FromImage(e)))
  }

  // ---------------------------------------------------------------------------
  // Rendering
  // ---------------------------------------------------------------------------

  const Width: nat := 640
  const Height: nat := 480
  /** Bytes per pixel of an RGB image. */
  const Channels: nat := 3

  /** The raw pixel bytes the drawing library writes into. */
  type Frame = seq<byte>

  datatype Colour = White | Red

  /** One call into the drawing library, with the configuration `make_plot` passes it. */
  datatype DrawStep =
    | Fill(colour: Colour)
    | BuildChart(margin: nat, xLabelArea: nat, yLabelArea: nat, domain: Viewport)
    | DrawMesh
    | DrawSeries(samples: seq<Sample>, colour: Colour)
    | Present

  /**
   * The drawing library works on a borrowed slice: whatever a step does to
   * the pixels, it cannot change how many there are.
   */
  ghost predicate KeepsSize(draw: (DrawStep, Frame) -> Result<Frame, DrawingError>)
  {
    forall st, f :: draw(st, f).Ok? ==> |draw(st, f).value| == |f|
  }

  /** The five drawing calls of `make_plot`, in order. */
  function ChartSteps(values: seq<Sample>): seq<DrawStep>
  {
    [Fill(White), BuildChart(5, 30, 30, PlotViewport(values)), DrawMesh, DrawSeries(values, Red), Present]
  }

  /** Run drawing steps in order on a frame; the first failure ends the run. */
  function RunSteps(steps: seq<DrawStep>, frame: Frame,
                    draw: (DrawStep, Frame) -> Result<Frame, DrawingError>): (r: Result<Frame, DrawingError>)
    requires KeepsSize(draw)
    ensures r.Ok? ==> |r.value| == |frame|
  {
    if steps == [] then Ok(frame)
    else
      var next :- draw(steps[0], frame);
      RunSteps(steps[1..], next, draw)
  }

  lemma RunStepsUnfold(steps: seq<DrawStep>, frame: Frame,
                       draw: (DrawStep, Frame) -> Result<Frame, DrawingError>)
    requires KeepsSize(draw) && |steps| > 0
    ensures RunSteps(steps, frame, draw) ==
      match draw(steps[0], frame)
      case Err(e) => Err(e)
      case Ok(next) => RunSteps(steps[1..], next, draw)
  {
  }

  /** An `RgbImage`: dimensions and the raw bytes it views. */
  datatype RgbImage = RgbImage(width: nat, height: nat, raw: seq<byte>)

  /** `RgbImage::from_raw`: a view over `raw` when it holds enough bytes, `None` otherwise. */
  function FromRaw(width: nat, height: nat, raw: seq<byte>): (r: Option<RgbImage>)
    ensures r.Some? <==> |raw| >= width * height * Channels
    ensures r.Some? ==> r.value.width == width && r.value.height == height && r.value.raw == raw
  {
    if |raw| >= width * height * Channels then Some(RgbImage(width, height, raw)) else None
  }

  /** `vec![0; width * height * 3]`. */
  function Blank(width: nat, height: nat): (f: Frame)
    ensures |f| == width * height * Channels
    ensures forall i | 0 <= i < |f| :: f[i] == 0
  {
    seq(width * height * Channels, _ => 0)
  }

  /**
   * `make_plot`: scan the extrema, pad them into the viewport, allocate a
   * `Width` x `Height` RGB buffer, run the five drawing calls on it (each
   * failure labelled "Error"), view the buffer as an image and encode it
   * (a codec failure labelled "Failed to make image").
   */
  method MakePlot(values: seq<Sample>,
                  draw: (DrawStep, Frame) -> Result<Frame, DrawingError>,
                  encode: RgbImage -> Result<seq<byte>, ImageError>)
    returns (r: Result<seq<byte>, MakePlotError>)
    requires KeepsSize(draw)
    ensures match RunSteps(ChartSteps(values), Blank(Width, Height), draw)
      case Err(e) => r == Err(MakePlotError("Error", FromDrawing(e)))
      case Ok(frame) =>
        && FromRaw(Width, Height, frame) == Some(RgbImage(Width, Height, frame))
        && r == ImageToMakePlotErr(encode(RgbImage(Width, Height, frame)), "Failed to make image")
  {
    var minX, maxX, minY, maxY := ScanExtrema(values);
    var (plotMinX, plotMaxX) := PadAxis(minX, maxX);
    var (plotMinY, plotMaxY) := PadAxis(minY, maxY);

    var buf := Blank(Width, Height);
    // `rest` is what remains of the drawing stage; running it on `buf` gives
    // the same outcome as running the whole stage on the blank buffer.
    ghost var rest := ChartSteps(values);
    assert rest[1] == BuildChart(5, 30, 30, Viewport(plotMinX, plotMaxX, plotMinY, plotMaxY));

    RunStepsUnfold(rest, buf, draw);
    buf :- DrawingToMakePlotErr(draw(Fill(White), buf), "Error");
    rest := rest[1..];
    RunStepsUnfold(rest, buf, draw);
    buf :- DrawingToMakePlotErr(draw(BuildChart(5, 30, 30, Viewport(plotMinX, plotMaxX, plotMinY, plotMaxY)), buf), "Error");
    rest := rest[1..];
    RunStepsUnfold(rest, buf, draw);
    buf :- DrawingToMakePlotErr(draw(DrawMesh, buf), "Error");
    rest := rest[1..];
    RunStepsUnfold(rest, buf, draw);
    buf :- DrawingToMakePlotErr(draw(DrawSeries(values, Red), buf), "Error");
    rest := rest[1..];
    RunStepsUnfold(rest, buf, draw);
    buf :- DrawingToMakePlotErr(draw(Present, buf), "Error");
    rest := rest[1..];
    assert RunSteps(ChartSteps(values), Blank(Width, Height), draw) == RunSteps(rest, buf, draw) == Ok(buf);

    var image := FromRaw(Width, Height, buf).Extract();
    var bytes :- ImageToMakePlotErr(encode(image), "Failed to make image");
    r := Ok(bytes);
  }
}
