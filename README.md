# nu_plugin_makeplot, modelled in Dafny

`makeplot` is a Nushell plugin. It turns the pipeline input into a PNG line
plot. The input is either a list of numbers, plotted against their positions,
or a table of records with numeric `x` and `y` columns.

This project models the two pieces of the plugin that hold logic.

- **The input normaliser** (`src/main.rs`, module `PluginMain`).
  - It folds the input list from left to right and stops at the first error.
  - A three-state shape tracker (`InputParse`) is fixed by the first element and enforced on every later one.
  - A bare number at position `i` becomes the sample `(i, v)`.
  - A record becomes `(x, y)`.
  - Every malformed element fails with its own label, in a fixed order of checks.
  - `parse_call_opts` overlays the optional `width`, `height` and `title` flags onto the default plot options.
- **The library** (`src/lib.rs`, module `PlotLib`).
  - `make_plot` scans the samples for four extrema, starting from the `f32::MAX` / `f32::MIN` sentinels.
  - It pads each axis by a tenth of its extent.
  - It draws into a 640×480 RGB buffer and encodes that buffer as PNG.
  - `to_makeplot_err` attaches a label to a drawing or codec failure.

The modelling choices are these.

- Numbers are `real`.
- The drawing library is a parameter `draw` that maps one drawing step and a frame to a new frame or a `DrawingError`.
- The PNG codec is a parameter `encode`.
- The parts of the source that change state are methods:
  - the extrema loop (`ScanExtrema`);
  - the normaliser with its mutable shape tracker and early returns (`NormalizeInput`);
  - the field-by-field option overlay (`ParseCallOpts`);
  - the sequence of fallible drawing calls (`MakePlot`).
- `ScanExtrema`, `NormalizeInput` and `MakePlot` are each proved against a recursive specification function: `Lowest`/`Highest`, `Normalize` and `RunSteps` respectively. The properties are proved about those functions.
- `ParseCallOpts` states the value of each option field directly in its postcondition.

`src/main.rs` calls `make_plot(values, &options)` and imports `PlotOptions`. The `make_plot` in `src/lib.rs` takes only the samples and hard-codes 640×480. The model follows `src/lib.rs`. `parse_call_opts` is modelled on its own, over a `PlotOptions` record whose defaults (640, 480, empty title) follow the size `src/lib.rs` uses.

## Model

| member | source | states |
|---|---|---|
| PluginMain.Label | src/main.rs:120-178 | each input error carries the label the source attaches: mixed shapes, "Missing x value", "Missing y value", "Incorrect type", "Incorrect input type", and each label belongs to exactly one kind of error |
| PluginMain.GetNumber | src/main.rs:20-30 | succeeds exactly on `Int` and `Float`, returning the value as a number; every other kind of value fails with "Incorrect type" carrying that value |
| PluginMain.CollectFrom | src/main.rs:113-180 | the fold over the remaining elements yields one sample per element when it succeeds |
| PluginMain.Normalize | src/main.rs:109-188 | a non-list input fails with "Incorrect input type"; an empty list gives no samples; a successful list gives one sample per element |
| PluginMain.NormalizeInput | src/main.rs:106-189 | the imperative fold, with a mutable shape tracker and early returns, computes exactly `Normalize` |
| PluginMain.ShapeFixedByFirst | src/main.rs:118-119 | once the first element is a number or a record, the tracker holds `List` or `Table` respectively for every later element |
| PluginMain.CollectFromElements | src/main.rs:113-180 | the fold succeeds exactly when every element's own step succeeds; sample `k` is element `k`'s result; on failure the error is that of an element with no failing element before it |
| PluginMain.NormalizeSucceeds | src/main.rs:113-180 | a list normalises exactly when no element is faulty, and then gives one sample per element in input order |
| PluginMain.NormalizeReportsFirstFailure | src/main.rs:180-189 | a list fails with error `e` exactly when its earliest faulty element fails with `e`; there is no partial result |
| PluginMain.ElementUnderFirstShape | src/main.rs:118-143 | each element is judged against the shape the first element fixed |
| PluginMain.NumbersAreIndexed | src/main.rs:116-130 | a list of numbers always normalises, with the same length, and sample `i` is `(i, v_i)` |
| PluginMain.RecordsKeepOrder | src/main.rs:132-172 | a list of records with numeric `x` and `y` always normalises to their `(x, y)` pairs in input order |
| PluginMain.MixedShapesRejected | src/main.rs:120-126 | a record after a number, or a number after a record, fails with mixed shapes when nothing failed before it |
| PluginMain.RecordFaultsReported | src/main.rs:145-170 | the first faulty record of a table reports, in this order: `x` missing (with its index), `x` not numeric, `y` missing (with its index), `y` not numeric |
| PluginMain.UnsupportedElementRejected | src/main.rs:174-178 | an element that is neither a number nor a record fails with "Incorrect input type" when nothing failed before it |
| PluginMain.AsU32 | src/main.rs:37 | the cast keeps the value modulo 2^32: the result is below 2^32, congruent to the input, and equal to it when it already fits |
| PluginMain.ParseCallOpts | src/main.rs:32-53 | a failed flag lookup ends the parse, checked in the order width, height, title; otherwise each present flag overwrites only its own field and each absent flag leaves its default |
| PlotLib.ScanExtrema | src/lib.rs:58-75 | the loop's four accumulators end as `Lowest`/`Highest` on each axis, and every sample lies between them |
| PlotLib.ExtremaBoundSamples | src/lib.rs:58-75 | the minimum is at most `f32::MAX`, the maximum at least `f32::MIN`, and every coordinate lies between them |
| PlotLib.ExtremaAreSamplesOrSentinels | src/lib.rs:58-75 | each extremum is either its sentinel or the coordinate of some sample |
| PlotLib.ExtremaAreSamples | src/lib.rs:58-75 | for non-empty finite input, each of the four extrema is the coordinate of some sample |
| PlotLib.LowestIsLeastCoord | src/lib.rs:63-65 | the smallest coordinate of the input is what the minimum scan yields |
| PlotLib.HighestIsGreatestCoord | src/lib.rs:66-68 | the largest coordinate of the input is what the maximum scan yields |
| PlotLib.ExtremaPermutationInvariant | src/lib.rs:62-75 | reordering the samples does not change any extremum |
| PlotLib.PadAxis | src/lib.rs:77-85 | padding keeps the centre of the range, widens it by a fifth, only grows an ordered range, and leaves a zero-width range at its single value |
| PlotLib.ViewportContainsSamples | src/lib.rs:77-85 | for non-empty input the viewport encloses both extrema and every sample on both axes |
| PlotLib.EmptyViewportInverted | src/lib.rs:58-61 | with no samples the sentinels survive and the viewport is inverted on both axes |
| PlotLib.ViewportPermutationInvariant | src/lib.rs:62-85 | reordering the samples leaves the viewport unchanged |
| PlotLib.ConstantSeriesDegenerate | src/lib.rs:77-85 | a constant series has zero extent on that axis, so the padded range is the single constant |
| PlotLib.SingleSampleDegenerate | src/lib.rs:77-85 | a single sample gives a viewport of zero width and height at that sample |
| PlotLib.DrawingToMakePlotErr | src/lib.rs:33-41 | `Ok` passes through unchanged; an error gets exactly the label passed in and keeps the drawing failure as its source |
| PlotLib.ImageToMakePlotErr | src/lib.rs:45-53 | `Ok` passes through unchanged; an error gets exactly the label passed in and keeps the codec failure as its source |
| PlotLib.RunSteps | src/lib.rs:93-112 | running the drawing steps keeps the frame size, given a drawing library that keeps it |
| PlotLib.FromRaw | src/lib.rs:115 | an image is built exactly when the buffer holds at least width × height × 3 bytes |
| PlotLib.Blank | src/lib.rs:88-90 | the fresh buffer holds width × height × 3 zero bytes |
| PlotLib.MakePlot | src/lib.rs:56-125 | the first failing drawing step is reported with the label "Error"; otherwise the 640×480×3 buffer always forms an image, and the codec's result is returned with failures labelled "Failed to make image" |

## Left out

- The Nushell plugin protocol is not modelled: `serve_plugin`, the JSON serializer, the signature and examples, and `Plot::run`'s lines 189-199 that chain the normaliser, the options and `make_plot`. They are protocol glue.
- Spans and the `msg` text of each `LabeledError` are not modelled. This covers the `Debug` rendering of a value in "is not the correct type" and the record index in "from record i". The index itself is kept in `MissingX`/`MissingY`.
- `MakePlotError`'s `Display` and `Debug` output (`file!()`, `line!()`, the `anyhow` text) is not modelled.
- `f32` arithmetic is modelled as exact `real` arithmetic. This leaves out rounding, the precision lost by `i64 as f32` and `usize as f32`, infinities and NaN. `Finite` marks inputs inside the `f32` range where a lemma needs it.
- The pixels drawn by `plotters` are not modelled. Each drawing call is one step of the `draw` parameter, which may fail.
- PNG encoding by the `image` crate is not modelled. It is the `encode` parameter.
- `call.get_flag` is not modelled. Its outcome is an input of `ParseCallOpts`.
- `PlotOptions::new` is not part of this model. Its defaults are taken as 640, 480 and the empty title.
- The buffer is passed from step to step as a sequence value, not written in place through a borrowed backend.
- Records are maps. A Nushell record with a duplicated column, where `get` returns the first match, is not represented.
- Scale-linearity of the viewport is not proved: for non-empty input, multiplying every sample by a positive constant should multiply each padded bound by the same constant, which would show the padding is relative to the data and not an absolute margin.
- PlotLib.EmptyViewportInverted: in `f32` the empty-input extent `f32::MIN - f32::MAX` overflows to negative infinity, so the source's padded bounds are (+inf, -inf) on each axis. The finite values 6/5 · `f32::MAX` and 6/5 · `f32::MIN` belong to the real-arithmetic model; only the inversion carries over to the source.
- PlotLib.LowestIsLeastCoord: requires the least coordinate to be at most `f32::MAX`, because a larger value never replaces the sentinel.
- PlotLib.HighestIsGreatestCoord: requires the greatest coordinate to be at least `f32::MIN`, for the same reason.
