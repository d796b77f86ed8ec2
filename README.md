# Cavalier frame renderer

This project models the frame renderer of Cavalier, an audio visualiser. Each frame, the renderer
turns a sequence of sample magnitudes, a configuration snapshot and a viewport size into calls on
a drawing canvas. The call sequence is: clear, one or two calls of the selected drawing strategy,
then flush.

The model follows the renderer's own structure:

- `CanvasSink` — the canvas. A class whose only state is `trace`, the ordered list of calls it
  has received: `Clear`, `Path`, `Rect`, `RoundRect` and `Flush`. A path is its start point, its
  cubic and line segments, and whether it is closed.
- `RenderTypes` — the configuration snapshot and the rectangle a strategy draws into:
  - mode, direction and mirror;
  - filling, line thickness, item offset and item roundness.

  It also holds `IsVertical`, the renderer's `direction < LeftRight` test.
- `Orientation` — the mirror functions. They give the opposite direction and the two half
  viewports.
- `Frames` — what one `Draw` call puts on the canvas:
  - which strategy the mode selects;
  - the one or two strategy calls, with their samples, directions and rectangles;
  - the complete frame.
- `Wave`, `Levels`, `Particles`, `Bars`, `Spine` — one module per strategy. Each gives the
  primitives it draws, as functions of the samples. Lemmas state their number, order and geometry.
- `Mirroring` — the reflection across the line between the two halves. A fully mirrored frame is
  proved to draw the first half's primitives and then the same primitives reflected, except for
  stroked Levels and Particles frames. There each cell or particle of the second half is the
  reflection moved on by half the line thickness.
- `Samples` — LINQ `Reverse`, and `Tally`, which counts the items drawn across the samples.
- `Rendering` — the `Renderer` class. It has the `drawFunc` and `canvas` fields. `Draw` clears
  the canvas, makes the one or two strategy calls and flushes. The five strategy methods append
  to the canvas trace in loops. Each method is proved to append exactly the primitives given by
  the matching function of the model.

Coordinates are exact reals. Notable behaviour of the code:

- With channel splitting and an odd sample count, the second half is one sample longer. No sample
  is dropped.
- Levels lights `floor(10 s)` cells. A sample of 1.1 or more therefore lights more than ten.
- A stroked wave line is shifted by half the line thickness towards the baseline edge: the top edge
  for TopBottom, the bottom edge for BottomTop, and so on. For a zero sample the line lies half the
  thickness beyond that edge, so its whole stroke falls outside the box and only touches its edge
  (`Wave.StrokedZeroOutsideBox`).
- The wave needs one sample, not two. It reads `sample[0]`, and the step it divides by
  `Length - 1` is never used when there is only one sample.
- Spine's position on the sample axis is computed exactly as written, as
  `step * (i + 1/2) + (1 - side) / 2`. That puts the centre of each square half a unit past the
  centre of its slot, and `Spine.SquareCentre` states this.

## Model

All sources are in `NickvisionCavalier.Shared/Models/Renderer.cs`.

| member | source | states |
|---|---|---|
| Orientation.MirrorDirection | NickvisionCavalier.Shared/Models/Renderer.cs:57-66 | the mirrored direction is never the input direction and lies on the same axis |
| Orientation.MirrorDirectionInvolution | NickvisionCavalier.Shared/Models/Renderer.cs:57-66 | mirroring twice gives back the direction |
| Orientation.HalvesTileViewport | NickvisionCavalier.Shared/Models/Renderer.cs:68-102 | the two half viewports have the same size, share one edge and cover the viewport exactly. Vertical directions stack two full-width halves of half the height; horizontal directions place two full-height halves of half the width side by side |
| Orientation.MirrorX | NickvisionCavalier.Shared/Models/Renderer.cs:68-75 | the second half starts at half the width for the horizontal directions and at 0 otherwise |
| Orientation.MirrorY | NickvisionCavalier.Shared/Models/Renderer.cs:77-84 | the second half starts at half the height for the vertical directions and at 0 otherwise |
| Orientation.MirrorWidth | NickvisionCavalier.Shared/Models/Renderer.cs:86-93 | each half is half the width for the horizontal directions and the full width otherwise |
| Orientation.MirrorHeight | NickvisionCavalier.Shared/Models/Renderer.cs:95-102 | each half is half the height for the vertical directions and the full height otherwise |
| Orientation.FirstHalf | NickvisionCavalier.Shared/Models/Renderer.cs:42 | the first call draws into the half at the origin |
| Orientation.SecondHalf | NickvisionCavalier.Shared/Models/Renderer.cs:43 | the second call draws into the half at the mirror offset |
| RenderTypes.IsVertical | NickvisionCavalier.Shared/Models/Renderer.cs:106 | TopBottom and BottomTop are exactly the directions declared before LeftRight |
| RenderTypes.StepSpansExtent | NickvisionCavalier.Shared/Models/Renderer.cs:192 | n steps of `extent / n` cover the extent exactly, and the step is non-negative when the extent is |
| RenderTypes.Step | NickvisionCavalier.Shared/Models/Renderer.cs:192 | the distance between samples, the extent over the sample count, as each strategy computes it (also at lines 106, 240, 285 and 332); for no samples the renderer's division by zero gives an infinite or NaN step, and 0 stands for it because no drawn primitive uses it |
| RenderTypes.HalfInset | NickvisionCavalier.Shared/Models/Renderer.cs:193 | the shift of a stroked item or wave line, half the line thickness, and nothing when filled; it moves item starts (`Items.SlotStart`, `Levels.TenthStart`, `Particles.Height`) and shrinks levels cells and particles |
| RenderTypes.FullInset | NickvisionCavalier.Shared/Models/Renderer.cs:333 | the whole line thickness when stroked and nothing when filled, by which bars and squares shrink |
| Items.SlotStart | NickvisionCavalier.Shared/Models/Renderer.cs:203 | where the item of sample i starts on the sample axis: i plus the offset steps from the near edge, plus the inset |
| Frames.SelectDrawFunc | NickvisionCavalier.Shared/Models/Renderer.cs:32-39 | each item mode selects its own strategy, and the wave is selected exactly for the wave mode |
| Frames.Accepts | NickvisionCavalier.Shared/Models/Renderer.cs:104-362 | a strategy call does not throw: only the wave needs a sample, because it reads `sample[0]`; the item strategies accept any sample |
| Frames.Drawable | NickvisionCavalier.Shared/Models/Renderer.cs:40-53 | the inputs on which a frame does not throw: a wave frame needs one sample, two when channels are split |
| Frames.StrategyCommands | NickvisionCavalier.Shared/Models/Renderer.cs:104-362 | what one call of a strategy appends: the wave path, the levels cells, the particles, the bars or the squares of its samples, direction and rectangle |
| Frames.Render | NickvisionCavalier.Shared/Models/Renderer.cs:40-53 | the primitives of a list of strategy calls, call after call |
| Frames.FrameCalls | NickvisionCavalier.Shared/Models/Renderer.cs:42-52 | what the `_drawFunc` calls of one frame append: the selected strategy over the frame's calls |
| Frames.Invocations | NickvisionCavalier.Shared/Models/Renderer.cs:40-53 | one strategy call when the mirror is off, two otherwise |
| Frames.DrawableAccepted | NickvisionCavalier.Shared/Models/Renderer.cs:40-53 | the frame's precondition holds exactly when the selected strategy accepts every call it is given |
| Frames.MirrorOffOnce | NickvisionCavalier.Shared/Models/Renderer.cs:50-53 | with the mirror off, one call draws the whole sample over the whole viewport at the configured direction |
| Frames.FullMirrorTwice | NickvisionCavalier.Shared/Models/Renderer.cs:40-44 | full mirroring passes the identical sample to both calls, the second at the mirrored direction, so twice the items are drawn |
| Frames.SplitChannelsPartition | NickvisionCavalier.Shared/Models/Renderer.cs:45-49 | the first call's samples followed by the second call's samples reversed are the whole sample; the second half is longer by `n % 2`; the directions are the configured one and its mirror |
| Frames.SplitChannelsKeepsItems | NickvisionCavalier.Shared/Models/Renderer.cs:45-49 | a split frame of an item strategy draws as many items as the whole sample has |
| Frames.StrategyItems | NickvisionCavalier.Shared/Models/Renderer.cs:104-362 | every strategy call appends only drawing primitives, as many as its item count |
| Frames.RenderItems | NickvisionCavalier.Shared/Models/Renderer.cs:40-53 | the strategy calls together append only primitives, the sum of their item counts |
| Frames.FrameBracketed | NickvisionCavalier.Shared/Models/Renderer.cs:25-54 | a frame is one Clear, then only drawing primitives, then one Flush, with the item count of its calls |
| Frames.WaveMirrorReflects | NickvisionCavalier.Shared/Models/Renderer.cs:40-43 | in a fully mirrored wave, filled or stroked, a sample's level in the second half is its level in the first half reflected across the line between the halves |
| Frames.Frame | NickvisionCavalier.Shared/Models/Renderer.cs:25-54 | a frame is Clear, the strategy calls, then Flush |
| Frames.RenderTwo | NickvisionCavalier.Shared/Models/Renderer.cs:40-49 | two strategy calls append the first call's primitives, then the second's |
| Mirroring.MirrorCommandInvolution | NickvisionCavalier.Shared/Models/Renderer.cs:40-44 | reflecting a primitive across the line between the halves twice gives it back |
| Mirroring.FullMirrorReflects | NickvisionCavalier.Shared/Models/Renderer.cs:40-44 | a fully mirrored frame is the first call's primitives followed by the second call's, and item m of the second call is item m of the first reflected across y = height / 2 (vertical directions) or x = width / 2 (horizontal ones); for every wave, bar and spine frame and for filled levels and particles |
| Mirroring.WavePathMirrored | NickvisionCavalier.Shared/Models/Renderer.cs:104-188 | the wave of the second half, filled or stroked, is the first half's wave reflected: start, every cubic and the closing lines |
| Mirroring.SegmentMirrored | NickvisionCavalier.Shared/Models/Renderer.cs:112-121 | each cubic of the second half is the first half's cubic reflected |
| Mirroring.ClosingMirrored | NickvisionCavalier.Shared/Models/Renderer.cs:122-184 | the closing lines of the second half are those of the first half reflected |
| Mirroring.LevelsMirrored | NickvisionCavalier.Shared/Models/Renderer.cs:195-234 | the filled cells of the second half are those of the first half, reflected one by one and in the same order |
| Mirroring.CellMirrored | NickvisionCavalier.Shared/Models/Renderer.cs:201-231 | a filled cell of the second half is the same cell of the first half reflected |
| Mirroring.CellMirroredWithInset | NickvisionCavalier.Shared/Models/Renderer.cs:201-231 | for any configuration, a cell of the second half is the first half's cell reflected and then moved by half the line thickness along the magnitude axis, which is nothing when filled |
| Mirroring.ParticlesMirrored | NickvisionCavalier.Shared/Models/Renderer.cs:243-280 | the filled particles of the second half are those of the first half, reflected one by one and in the same order |
| Mirroring.ParticleMirrored | NickvisionCavalier.Shared/Models/Renderer.cs:247-278 | a filled particle of the second half is the same particle of the first half reflected |
| Mirroring.ParticleMirroredWithInset | NickvisionCavalier.Shared/Models/Renderer.cs:247-278 | for any configuration, a particle of the second half is the first half's particle reflected and then moved by half the line thickness along the magnitude axis |
| Mirroring.BarsMirrored | NickvisionCavalier.Shared/Models/Renderer.cs:286-327 | the bars of the second half, filled or stroked, are those of the first half, reflected one by one and in the same order |
| Mirroring.BarMirrored | NickvisionCavalier.Shared/Models/Renderer.cs:294-325 | a bar of the second half is the same bar of the first half reflected |
| Mirroring.SpineMirrored | NickvisionCavalier.Shared/Models/Renderer.cs:334-361 | the squares of the second half are those of the first half, reflected one by one and in the same order |
| Mirroring.SquareMirrored | NickvisionCavalier.Shared/Models/Renderer.cs:340-359 | a square of the second half is the same square of the first half reflected |
| Rendering.Renderer.constructor | NickvisionCavalier.Shared/Models/Renderer.cs:14-17 | a new renderer has no canvas and no draw function |
| Rendering.Renderer.Draw | NickvisionCavalier.Shared/Models/Renderer.cs:19-55 | without a canvas nothing changes; otherwise the draw function becomes the mode's strategy and the canvas receives exactly the frame: Clear, the strategy calls, Flush |
| Rendering.Renderer.DrawMirrored | NickvisionCavalier.Shared/Models/Renderer.cs:40-53 | the canvas receives the primitives of the one or two strategy calls, in order |
| Rendering.Renderer.CallDrawFuncTwice | NickvisionCavalier.Shared/Models/Renderer.cs:42-48 | two calls of the stored draw function append the two strategy calls' primitives, in order |
| Rendering.Renderer.CallDrawFunc | NickvisionCavalier.Shared/Models/Renderer.cs:42-52 | calling the stored draw function appends exactly that strategy's primitives |
| Rendering.Renderer.DrawWaveBox | NickvisionCavalier.Shared/Models/Renderer.cs:104-188 | the canvas receives exactly the one wave path |
| Rendering.Renderer.DrawLevelsBox | NickvisionCavalier.Shared/Models/Renderer.cs:190-236 | the canvas receives exactly the lit cells of every sample, sample by sample |
| Rendering.Renderer.DrawColumn | NickvisionCavalier.Shared/Models/Renderer.cs:197-234 | the inner loop appends exactly the lit cells of one sample, from the baseline outwards |
| Rendering.Renderer.DrawParticlesBox | NickvisionCavalier.Shared/Models/Renderer.cs:238-281 | the canvas receives exactly one particle per sample, in order |
| Rendering.Renderer.DrawBarsBox | NickvisionCavalier.Shared/Models/Renderer.cs:283-328 | the canvas receives exactly the bars of the non-zero samples, in order |
| Rendering.Renderer.DrawSpineBox | NickvisionCavalier.Shared/Models/Renderer.cs:330-362 | the canvas receives exactly the squares of the non-zero samples, in order |
| Samples.Reverse | NickvisionCavalier.Shared/Models/Renderer.cs:48 | the reversal has the same length and element k is element n-1-k of the input |
| Samples.ReverseReverse | NickvisionCavalier.Shared/Models/Renderer.cs:48 | reversing twice gives back the samples |
| Samples.TallyReverse | NickvisionCavalier.Shared/Models/Renderer.cs:48 | the reversed samples draw as many items as the samples |
| Samples.NonZeroTally | NickvisionCavalier.Shared/Models/Renderer.cs:286-291 | at most one bar or square per sample, and none at all exactly when every sample is zero |
| Wave.Level | NickvisionCavalier.Shared/Models/Renderer.cs:111-168 | a sample's level on the magnitude axis: its value times the extent from the baseline edge, shifted towards the baseline edge by half the line thickness when stroked |
| Wave.Segment | NickvisionCavalier.Shared/Models/Renderer.cs:112-121 | the cubic from sample i to sample i + 1, both control points halfway between them |
| Wave.WaveStep | NickvisionCavalier.Shared/Models/Renderer.cs:106 | the distance between samples for the wave: the extent over n - 1, since the wave's n samples span n - 1 gaps |
| Wave.Segments | NickvisionCavalier.Shared/Models/Renderer.cs:112-121 | the n - 1 cubics of the wave, cubic i joining sample i to sample i + 1 |
| Wave.WaveStart | NickvisionCavalier.Shared/Models/Renderer.cs:111-168 | the path starts on the near edge of the sample axis at the level of `sample[0]`, the `MoveTo` of each direction (lines 111, 130, 149 and 168) |
| Wave.Closing | NickvisionCavalier.Shared/Models/Renderer.cs:122-184 | the two lines that close a filled wave along its baseline edge |
| Wave.WavePath | NickvisionCavalier.Shared/Models/Renderer.cs:108-186 | the single path of the wave strategy |
| Wave.StrokedZeroOutsideBox | NickvisionCavalier.Shared/Models/Renderer.cs:111-168 | a stroked line of a zero sample lies half the thickness beyond the baseline edge, so its stroke ends exactly on that edge, outside the box |
| Wave.WavePathShape | NickvisionCavalier.Shared/Models/Renderer.cs:108-186 | the path has n-1 cubics, followed by two lines exactly when filling, and it is closed exactly when filling |
| Wave.WaveInterpolates | NickvisionCavalier.Shared/Models/Renderer.cs:111-120 | the path starts at sample 0, and cubic k-1 ends at sample k, at `k * step` along the sample axis and at that sample's level |
| Wave.WaveSpansAxis | NickvisionCavalier.Shared/Models/Renderer.cs:106-120 | the path starts on the near edge of the sample axis, and its last cubic ends on the far edge at the last sample's level |
| Wave.SegmentsJoinSmoothly | NickvisionCavalier.Shared/Models/Renderer.cs:114-120 | at the point where consecutive cubics meet, the incoming and outgoing control points are equally far on either side |
| Wave.WaveSmoothJoins | NickvisionCavalier.Shared/Models/Renderer.cs:112-121 | at every inner knot of the drawn path the tangent is continuous |
| Wave.WaveClosesAtBaseline | NickvisionCavalier.Shared/Models/Renderer.cs:122-184 | a filled wave closes along the zero-sample line, first to the far end of the sample axis, then back to the near end |
| Levels.LevelsLayout | NickvisionCavalier.Shared/Models/Renderer.cs:192-194 | the step between samples and the item size of the levels grid |
| Levels.TenthStart | NickvisionCavalier.Shared/Models/Renderer.cs:204 | where the cell k tenths from the near edge starts on the magnitude axis: k plus the offset tenths, plus the inset |
| Levels.Column | NickvisionCavalier.Shared/Models/Renderer.cs:197-234 | the lit cells of one sample, cell 0 at the baseline edge |
| Levels.LevelsCommands | NickvisionCavalier.Shared/Models/Renderer.cs:195-235 | the strategy's primitives for the first k samples: their columns, sample after sample |
| Levels.Cell | NickvisionCavalier.Shared/Models/Renderer.cs:201-231 | where cell j of sample i is drawn, for each direction |
| Levels.LitCells | NickvisionCavalier.Shared/Models/Renderer.cs:197 | a non-negative sample s lights `floor(10 s)` cells (the count r has r <= 10 s < r + 1); a sample below 0.1 lights none |
| Levels.LitCellsExamples | NickvisionCavalier.Shared/Models/Renderer.cs:197 | 0.35 lights 3 cells, 0 and -0.5 light none, 1 lights ten |
| Levels.LevelsCount | NickvisionCavalier.Shared/Models/Renderer.cs:195-197 | the strategy draws exactly the sum over the samples of their lit cells |
| Levels.LevelsCellOrder | NickvisionCavalier.Shared/Models/Renderer.cs:195-234 | cell j of sample i comes right after the cells of the earlier samples, so samples come in index order and each column from the baseline outwards |
| Levels.LevelsItemShape | NickvisionCavalier.Shared/Models/Renderer.cs:193-234 | every cell is a round-rect of the layout's item size with radii of half the size times the roundness |
| Levels.LevelsDirectionsReflect | NickvisionCavalier.Shared/Models/Renderer.cs:201-231 | filled BottomTop cells are TopBottom cells reflected across the horizontal centre line, for every cell index including those past the tenth; RightLeft cells are LeftRight cells reflected across the vertical one |
| Levels.LevelsCellInBox | NickvisionCavalier.Shared/Models/Renderer.cs:192-231 | with the offset in [0, 1/2], every filled cell j < 10 of sample i < n lies inside the box |
| Particles.ParticlesLayout | NickvisionCavalier.Shared/Models/Renderer.cs:240-242 | the step between samples and the particle size |
| Particles.Height | NickvisionCavalier.Shared/Models/Renderer.cs:250 | where a particle of value v starts on the magnitude axis: v times ten elevenths plus the offset eleventh, plus the inset |
| Particles.ParticlesCommands | NickvisionCavalier.Shared/Models/Renderer.cs:243-280 | the strategy's primitives for the first k samples: one particle each, in index order |
| Particles.Particle | NickvisionCavalier.Shared/Models/Renderer.cs:247-278 | where the particle of sample i is drawn, for each direction |
| Particles.ParticlesOnePerSample | NickvisionCavalier.Shared/Models/Renderer.cs:243-280 | exactly one particle per sample, in index order, each a round-rect of the layout's item size |
| Particles.ParticleLinear | NickvisionCavalier.Shared/Models/Renderer.cs:247-278 | a particle moves linearly with its sample, by 10/11 of the extent per unit, towards the far edge for TopBottom and LeftRight and the near edge otherwise; nothing else changes |
| Particles.ParticlesDirectionsReflect | NickvisionCavalier.Shared/Models/Renderer.cs:247-278 | filled BottomTop particles are TopBottom particles reflected across the horizontal centre line; RightLeft particles are LeftRight particles reflected across the vertical one |
| Particles.ParticleInBox | NickvisionCavalier.Shared/Models/Renderer.cs:240-278 | with the offset in [0, 1/2], a filled particle of a sample in [0, 1] lies inside the box |
| Bars.Bar | NickvisionCavalier.Shared/Models/Renderer.cs:294-325 | the rectangle of sample i, for each direction, filled or stroked |
| Bars.BarsCommands | NickvisionCavalier.Shared/Models/Renderer.cs:286-327 | the strategy's primitives for the first k samples: a bar for each non-zero sample, none for a zero sample (lines 288-291) |
| Bars.BarsCount | NickvisionCavalier.Shared/Models/Renderer.cs:286-291 | one rectangle per non-zero sample and none for a zero sample |
| Bars.BarsOrder | NickvisionCavalier.Shared/Models/Renderer.cs:286-327 | the bar of a non-zero sample comes right after the bars of the earlier non-zero samples |
| Bars.FilledBarFromBaseline | NickvisionCavalier.Shared/Models/Renderer.cs:294-325 | a filled bar starts on the baseline edge and its length is the extent times the sample |
| Bars.StrokedBarInset | NickvisionCavalier.Shared/Models/Renderer.cs:294-325 | a stroked bar is the filled bar shrunk by half the line thickness on every side |
| Bars.BarsDirectionsReflect | NickvisionCavalier.Shared/Models/Renderer.cs:294-325 | BottomTop bars, filled or stroked, are TopBottom bars reflected across the horizontal centre line; RightLeft bars are LeftRight bars reflected across the vertical one |
| Bars.BarInBox | NickvisionCavalier.Shared/Models/Renderer.cs:285-325 | with the offset in [0, 1/2], a filled bar of a sample in [0, 1] lies inside the box |
| Bars.BarsStyleUnseenAtZeroThickness | NickvisionCavalier.Shared/Models/Renderer.cs:26-31 | at a line thickness of 0 the filled and the outlined bars are the same commands, so the trace cannot tell the paint style apart |
| Bars.BarStyleUnseenAtZeroThickness | NickvisionCavalier.Shared/Models/Renderer.cs:294-325 | at a line thickness of 0 a filled and an outlined bar are the same rectangle |
| Spine.ItemSize | NickvisionCavalier.Shared/Models/Renderer.cs:333 | the side of a square for a sample of 1 |
| Spine.Square | NickvisionCavalier.Shared/Models/Renderer.cs:340-358 | the square of sample i, for each axis |
| Spine.SpineCommands | NickvisionCavalier.Shared/Models/Renderer.cs:334-361 | the strategy's primitives for the first k samples: a square for each non-zero sample, none for a zero sample (lines 336-339) |
| Spine.SpineCount | NickvisionCavalier.Shared/Models/Renderer.cs:334-339 | one square per non-zero sample and none for a zero sample |
| Spine.SpineOrder | NickvisionCavalier.Shared/Models/Renderer.cs:334-361 | the square of a non-zero sample comes right after the squares of the earlier non-zero samples |
| Spine.SquareShape | NickvisionCavalier.Shared/Models/Renderer.cs:333-358 | each item is a square of side `itemSize * s` with both radii half the side times the roundness |
| Spine.SquareCentre | NickvisionCavalier.Shared/Models/Renderer.cs:345-355 | the square is centred on the middle of the box on the magnitude axis, and half a unit past the centre of slot i on the sample axis |
| Spine.SpineIgnoresSense | NickvisionCavalier.Shared/Models/Renderer.cs:340-359 | the two directions of one axis draw the same squares |
| Spine.SquareStyleUnseenAtZeroThickness | NickvisionCavalier.Shared/Models/Renderer.cs:340-358 | at a line thickness of 0 a filled and an outlined square are the same round-rect |
| Spine.SpineStyleUnseenAtZeroThickness | NickvisionCavalier.Shared/Models/Renderer.cs:26-31 | at a line thickness of 0 the filled and the outlined squares are the same commands, so the trace cannot tell the paint style apart |

## Left out

- The renderer's paint is not modelled: colour, style and stroke width. So the trace does not
  record whether a primitive is filled or outlined. Filling and line thickness reach the trace only
  through the insets and the closing of the wave. At a line thickness of 0 the insets vanish, and a
  filled and an outlined bar or square are the same command (`Bars.BarsStyleUnseenAtZeroThickness`,
  `Spine.SpineStyleUnseenAtZeroThickness`).
- Floating point is not modelled. Coordinates are exact reals, and single-precision rounding,
  infinities and NaN are absent.
- An item strategy given an empty sample divides by zero. The step is infinite, or NaN when the
  extent is 0 too. It flows into the item sizes, but nothing is drawn that uses them. The model writes that step as 0, so an item strategy with
  an empty sample draws nothing, as the renderer does.
- Rendering.Renderer.Draw: requires a drawable sample when there is a canvas. A wave call with no
  sample throws on `sample[0]` after the canvas was cleared, so the frame is never flushed. A split
  wave frame with fewer than two samples gives its first call no sample and fails the same way.
  These inputs are excluded rather than modelled as a half-drawn frame.
- The configuration singleton that the source reads is passed as an explicit snapshot. Concurrent
  changes to it during a frame are not modelled.
- The canvas is the trace of calls it receives. SkiaSharp's drawing, path objects and their
  disposal are not part of this model.
- Audio capture, the render-loop timer and the preferences dialog are not part of this model.
- Levels.LevelsCellInBox: proved for filled cells only. A stroked cell starts half the line
  thickness further down or right and is that much smaller, and is not covered.
- Particles.ParticleInBox: proved for filled particles only, for the same reason.
- Bars.BarInBox: proved for filled bars only. Bars.StrokedBarInset relates stroked bars to filled
  ones.
- Levels.LevelsDirectionsReflect and Particles.ParticlesDirectionsReflect: proved for filled items
  only. A stroked cell's or particle's inset is added on the same side for both directions, so the
  stroked items are not exact reflections.
- Mirroring.FullMirrorReflects: requires filling for levels and particles, for the same reason.
  Mirroring.CellMirroredWithInset and Mirroring.ParticleMirroredWithInset give the exact relation
  for stroked ones: the reflection moved on by half the line thickness.
- Rendering.Renderer.DrawColumn: the cell counter is unbounded. The renderer's counter is a 32-bit
  `int` compared against `Math.Floor(10 s)`. For a sample of 214748364.8 or more, the counter
  reaches `int.MaxValue`, wraps around to a negative value and stays below the bound, so the frame
  never finishes. The model stops after `floor(10 s)` cells. Samples are nominally in [0, 1].
- Spine squares are not shown to lie inside the box, because of the half-unit offset on the
  sample axis described above.
