/** The renderer object: it holds the canvas and the draw function chosen for the
    current frame, and each strategy appends its primitives to the canvas in a loop. */
module Rendering {
  import opened RenderTypes
  import opened Samples
  import opened CanvasSink
  import opened Orientation
  import opened Items
  import opened Frames
  import Wave
  import Levels
  import Particles
  import Bars
  import Spine

  datatype Option<T> = None | Some(value: T)

  class Renderer {
    /** The strategy chosen by the last frame drawn with a canvas. */
    var drawFunc: Option<DrawFunc>
    /** Where frames are drawn; a renderer starts without one. */
    var canvas: Canvas?

    constructor ()
      ensures canvas == null && drawFunc == None
    {
      canvas := null;
      drawFunc := None;
    }

    /** Draws one frame. Without a canvas nothing happens; otherwise the canvas gets
        Clear, the one or two strategy calls, and Flush. */
    method Draw(cfg: Config, sample: seq<real>, width: real, height: real)
      requires canvas != null ==> Drawable(cfg, sample)
      modifies this, canvas
      ensures canvas == old(canvas)
      ensures old(canvas) == null ==> drawFunc == old(drawFunc)
      ensures old(canvas) != null ==>
        && drawFunc == Some(SelectDrawFunc(cfg.mode))
        && canvas.trace == old(canvas.trace) + Frame(cfg, sample, width, height)
    {
      if canvas == null {
        return;
      }
      ghost var before := canvas.trace;
      canvas.Clear();
      drawFunc := Some(SelectDrawFunc(cfg.mode));
      DrawMirrored(cfg, sample, width, height);
      canvas.Flush();
      ghost var calls := FrameCalls(cfg, sample, width, height);
      assert canvas.trace == before + ([Clear] + calls + [Flush]);
    }

    /** The mirror switch of `Draw`: one call of the draw function over the whole
        viewport, or one into each half. */
    method DrawMirrored(cfg: Config, sample: seq<real>, width: real, height: real)
      requires canvas != null && drawFunc == Some(SelectDrawFunc(cfg.mode)) && Drawable(cfg, sample)
      modifies canvas
      ensures canvas.trace == old(canvas.trace) + FrameCalls(cfg, sample, width, height)
    {
      var f, d := drawFunc.value, cfg.direction;
      var invs := Invocations(cfg, sample, width, height);
      DrawableAccepted(cfg, sample, width, height);
      if cfg.mirror == Full {
        var first := Invocation(sample, d, Box(0.0, 0.0, MirrorWidth(d, width), MirrorHeight(d, height)));
        var second := Invocation(sample, MirrorDirection(d), Box(MirrorX(d, width), MirrorY(d, height), MirrorWidth(d, width), MirrorHeight(d, height)));
        assert invs == [first, second];
        CallDrawFuncTwice(first, second, cfg);
      } else if cfg.mirror == SplitChannels {
        var first := Invocation(sample[..|sample| / 2], d, Box(0.0, 0.0, MirrorWidth(d, width), MirrorHeight(d, height)));
        var second := Invocation(Reverse(sample[|sample| / 2..]), MirrorDirection(d), Box(MirrorX(d, width), MirrorY(d, height), MirrorWidth(d, width), MirrorHeight(d, height)));
        assert invs == [first, second];
        CallDrawFuncTwice(first, second, cfg);
      } else {
        var only := Invocation(sample, d, Box(0.0, 0.0, width, height));
        assert invs == [only];
        CallDrawFunc(only, cfg);
        assert Render(f, invs, cfg) == StrategyCommands(f, only, cfg) + Render(f, [], cfg);
      }
    }

    /** The two calls of a mirrored frame, first half then second half. */
    method CallDrawFuncTwice(first: Invocation, second: Invocation, cfg: Config)
      requires canvas != null && drawFunc.Some? && Accepts(drawFunc.value, first) && Accepts(drawFunc.value, second)
      modifies canvas
      ensures canvas.trace == old(canvas.trace) + Render(drawFunc.value, [first, second], cfg)
    {
      CallDrawFunc(first, cfg);
      CallDrawFunc(second, cfg);
      RenderTwo(drawFunc.value, [first, second], cfg);
    }

    /** Calls the stored draw function. */
    method CallDrawFunc(inv: Invocation, cfg: Config)
      requires canvas != null && drawFunc.Some? && Accepts(drawFunc.value, inv)
      modifies canvas
      ensures canvas.trace == old(canvas.trace) + StrategyCommands(drawFunc.value, inv, cfg)
    {
      match drawFunc.value
      case DrawWaveBox => DrawWaveBox(inv.sample, inv.direction, inv.box, cfg);
      case DrawLevelsBox => DrawLevelsBox(inv.sample, inv.direction, inv.box, cfg);
      case DrawParticlesBox => DrawParticlesBox(inv.sample, inv.direction, inv.box, cfg);
      case DrawBarsBox => DrawBarsBox(inv.sample, inv.direction, inv.box, cfg);
      case DrawSpineBox => DrawSpineBox(inv.sample, inv.direction, inv.box, cfg);
    }

    /** Builds the wave path cubic by cubic, closes it when filling, and draws it. */
    method DrawWaveBox(sample: seq<real>, d: DrawingDirection, b: Box, cfg: Config)
      requires canvas != null && |sample| >= 1
      modifies canvas
      ensures canvas.trace == old(canvas.trace) + [Wave.WavePath(sample, d, b, cfg)]
    {
      var start := Wave.At(d, Origin(d, b), Wave.Level(d, b, sample[0], cfg));
      var ops: seq<PathOp> := [];
      for i := 0 to |sample| - 1
        invariant |ops| == i
        invariant forall k :: 0 <= k < i ==> ops[k] == Wave.Segment(sample, d, b, cfg, k)
      {
        ops := ops + [Wave.Segment(sample, d, b, cfg, i)];
      }
      assert ops == Wave.Segments(sample, d, b, cfg);
      if cfg.filling {
        ops := ops + Wave.Closing(d, b);
      }
      assert Path(start, ops, cfg.filling) == Wave.WavePath(sample, d, b, cfg);
      canvas.DrawPath(start, ops, cfg.filling);
    }

    /** For every sample, draws its lit cells from the baseline outwards. */
    method DrawLevelsBox(sample: seq<real>, d: DrawingDirection, b: Box, cfg: Config)
      requires canvas != null
      modifies canvas
      ensures canvas.trace == old(canvas.trace) + Levels.LevelsCommands(sample, d, b, cfg, |sample|)
    {
      var lay := Levels.LevelsLayout(|sample|, d, b, cfg);
      for i := 0 to |sample|
        invariant canvas.trace == old(canvas.trace) + Levels.LevelsCommands(sample, d, b, cfg, i)
      {
        DrawColumn(sample, d, b, cfg, lay, i);
      }
    }

    /** The inner loop of `DrawLevelsBox`: the lit cells of sample i. */
    method DrawColumn(sample: seq<real>, d: DrawingDirection, b: Box, cfg: Config, lay: Items.Layout, i: nat)
      requires canvas != null && i < |sample| && lay == Levels.LevelsLayout(|sample|, d, b, cfg)
      modifies canvas
      ensures canvas.trace == old(canvas.trace) + Levels.Column(sample, d, b, cfg, i)
    {
      ghost var column := Levels.Column(sample, d, b, cfg, i);
      var j := 0;
      while j < (sample[i] * 10.0).Floor
        invariant 0 <= j <= Levels.LitCells(sample[i])
        invariant canvas.trace == old(canvas.trace) + column[..j]
      {
        var c := Levels.Cell(lay, d, b, cfg, i, j);
        canvas.DrawRoundRect(c.x, c.y, c.width, c.height, c.rx, c.ry);
        assert column[..j + 1] == column[..j] + [c];
        j := j + 1;
      }
      assert column[..j] == column;
    }

    /** Draws one particle per sample. */
    method DrawParticlesBox(sample: seq<real>, d: DrawingDirection, b: Box, cfg: Config)
      requires canvas != null
      modifies canvas
      ensures canvas.trace == old(canvas.trace) + Particles.ParticlesCommands(sample, d, b, cfg, |sample|)
    {
      var lay := Particles.ParticlesLayout(|sample|, d, b, cfg);
      for i := 0 to |sample|
        invariant canvas.trace == old(canvas.trace) + Particles.ParticlesCommands(sample, d, b, cfg, i)
      {
        var c := Particles.Particle(lay, d, b, cfg, i, sample[i]);
        canvas.DrawRoundRect(c.x, c.y, c.width, c.height, c.rx, c.ry);
      }
    }

    /** Draws one bar per non-zero sample. */
    method DrawBarsBox(sample: seq<real>, d: DrawingDirection, b: Box, cfg: Config)
      requires canvas != null
      modifies canvas
      ensures canvas.trace == old(canvas.trace) + Bars.BarsCommands(sample, d, b, cfg, |sample|)
    {
      var step := Step(Extent(d, b), |sample|);
      for i := 0 to |sample|
        invariant canvas.trace == old(canvas.trace) + Bars.BarsCommands(sample, d, b, cfg, i)
      {
        if sample[i] == 0.0 {
          continue;
        }
        var c := Bars.Bar(step, d, b, cfg, i, sample[i]);
        canvas.DrawRect(c.x, c.y, c.width, c.height);
      }
    }

    /** Draws one square per non-zero sample. */
    method DrawSpineBox(sample: seq<real>, d: DrawingDirection, b: Box, cfg: Config)
      requires canvas != null
      modifies canvas
      ensures canvas.trace == old(canvas.trace) + Spine.SpineCommands(sample, d, b, cfg, |sample|)
    {
      var step := Step(Extent(d, b), |sample|);
      for i := 0 to |sample|
        invariant canvas.trace == old(canvas.trace) + Spine.SpineCommands(sample, d, b, cfg, i)
      {
        if sample[i] == 0.0 {
          continue;
        }
        var c := Spine.Square(step, d, b, cfg, i, sample[i]);
        canvas.DrawRoundRect(c.x, c.y, c.width, c.height, c.rx, c.ry);
      }
    }
  }
}
