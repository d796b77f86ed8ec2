/** Full mirroring: the second strategy call draws the first call's primitives
    reflected across the line between the two halves of the viewport. */
module Mirroring {
  import opened RenderTypes
  import opened CanvasSink
  import opened Orientation
  import opened Items
  import opened Frames
  import Wave
  import Levels
  import Particles
  import Bars
  import Spine

  /** The reflection across the line between the halves: y = height / 2 for a
      vertical direction, x = width / 2 for a horizontal one. */
  function MirrorPoint(d: DrawingDirection, width: real, height: real, p: Point): Point
  {
    if IsVertical(d) then Point(p.x, height - p.y) else Point(width - p.x, p.y)
  }

  function MirrorOp(d: DrawingDirection, width: real, height: real, op: PathOp): PathOp
  {
    match op
    case CubicTo(c1, c2, end) =>
      CubicTo(MirrorPoint(d, width, height, c1), MirrorPoint(d, width, height, c2), MirrorPoint(d, width, height, end))
    case LineTo(to) => LineTo(MirrorPoint(d, width, height, to))
  }

  /** A primitive reflected across the line between the halves; a rectangle keeps its
      size and its far edge becomes its near edge. */
  function MirrorCommand(d: DrawingDirection, width: real, height: real, c: Command): Command
  {
    match c
    case Path(start, ops, closed) =>
      Path(MirrorPoint(d, width, height, start),
           seq(|ops|, k requires 0 <= k < |ops| => MirrorOp(d, width, height, ops[k])), closed)
    case Rect(x, y, w, h) =>
      if IsVertical(d) then Rect(x, height - y - h, w, h) else Rect(width - x - w, y, w, h)
    case RoundRect(x, y, w, h, rx, ry) =>
      if IsVertical(d) then RoundRect(x, height - y - h, w, h, rx, ry) else RoundRect(width - x - w, y, w, h, rx, ry)
    case _ => c
  }

  /** Reflecting twice gives back the primitive. */
  lemma MirrorCommandInvolution(d: DrawingDirection, width: real, height: real, c: Command)
    ensures MirrorCommand(d, width, height, MirrorCommand(d, width, height, c)) == c
  {
    if c.Path? {
      var m := MirrorCommand(d, width, height, c);
      assert MirrorCommand(d, width, height, m).ops == c.ops;
    }
  }

  /** Item m of `q` is item m of `p` reflected, and there are as many of each. */
  predicate Mirrored(d: DrawingDirection, width: real, height: real, p: seq<Command>, q: seq<Command>)
  {
    |q| == |p| && forall m :: 0 <= m < |p| ==> q[m] == MirrorCommand(d, width, height, p[m])
  }

  lemma MirroredAppend(d: DrawingDirection, width: real, height: real, p: seq<Command>, q: seq<Command>, p': seq<Command>, q': seq<Command>)
    requires Mirrored(d, width, height, p, q) && Mirrored(d, width, height, p', q')
    ensures Mirrored(d, width, height, p + p', q + q')
  {
    forall m | 0 <= m < |p + p'|
      ensures (q + q')[m] == MirrorCommand(d, width, height, (p + p')[m])
    {
      if m < |p| {
        assert (q + q')[m] == q[m] && (p + p')[m] == p[m];
      } else {
        assert (q + q')[m] == q'[m - |p|] && (p + p')[m] == p'[m - |p|];
      }
    }
  }

  /** A rounded rectangle moved by `delta` along the magnitude axis. */
  function ShiftAlong(d: DrawingDirection, c: Command, delta: real): Command
  {
    match c
    case RoundRect(x, y, w, h, rx, ry) =>
      if IsVertical(d) then RoundRect(x, y + delta, w, h, rx, ry) else RoundRect(x + delta, y, w, h, rx, ry)
    case _ => c
  }

  /** Along the magnitude axis, cell k of the second half (which starts at `ext`) sits
      where cell 9 - k of the first half sits after reflection across `ext`, moved on by
      the stroke inset, and the other way round. */
  lemma TenthsAcrossHalves(ext: real, k: int, cfg: Config)
    ensures var size := ext / 10.0 * (1.0 - cfg.itemsOffset * 2.0) - HalfInset(cfg);
      && Levels.TenthStart(ext, ext, 9 - k, cfg) == (ext + ext) - Levels.TenthStart(0.0, ext, k, cfg) - size + HalfInset(cfg)
      && Levels.TenthStart(ext, ext, k, cfg) == (ext + ext) - Levels.TenthStart(0.0, ext, 9 - k, cfg) - size + HalfInset(cfg)
  {
    var filled := cfg.(filling := true);
    Levels.TenthsReflect(0.0, ext, filled, k);
    Levels.TenthsReflect(0.0, ext, filled, 9 - k);
    assert Levels.TenthStart(ext, ext, 9 - k, cfg) == ext + Levels.TenthStart(0.0, ext, 9 - k, filled) + HalfInset(cfg);
    assert Levels.TenthStart(ext, ext, k, cfg) == ext + Levels.TenthStart(0.0, ext, k, filled) + HalfInset(cfg);
  }

  /** Along the magnitude axis, a particle at fraction 1 - v in the second half sits
      where the one at v in the first half sits after reflection across `ext`, moved on
      by the stroke inset, and the other way round. */
  lemma EleventhsAcrossHalves(ext: real, v: real, cfg: Config)
    ensures var size := ext / 11.0 * (1.0 - cfg.itemsOffset * 2.0) - HalfInset(cfg);
      && Particles.Height(ext, ext, 1.0 - v, cfg) == (ext + ext) - Particles.Height(0.0, ext, v, cfg) - size + HalfInset(cfg)
      && Particles.Height(ext, ext, v, cfg) == (ext + ext) - Particles.Height(0.0, ext, 1.0 - v, cfg) - size + HalfInset(cfg)
  {
    var filled := cfg.(filling := true);
    Particles.HeightsReflect(0.0, ext, filled, v);
    Particles.HeightsReflect(0.0, ext, filled, 1.0 - v);
    assert Particles.Height(ext, ext, 1.0 - v, cfg) == ext + Particles.Height(0.0, ext, 1.0 - v, filled) + HalfInset(cfg);
    assert Particles.Height(ext, ext, v, cfg) == ext + Particles.Height(0.0, ext, v, filled) + HalfInset(cfg);
  }

  /** Cells of a box `c` stacked on top of a box `a` of the same size are the cells of
      `a` reflected across their common edge, with the sense reversed, and moved on by
      the stroke inset. */
  lemma CellsAcrossVerticalHalves(lay: Layout, a: Box, c: Box, width: real, height: real, cfg: Config, i: nat, j: nat)
    requires a.y == 0.0 && c.x == a.x && c.y == a.height && c.height == a.height
    requires height == a.height + a.height
    requires lay.itemHeight == a.height / 10.0 * (1.0 - cfg.itemsOffset * 2.0) - HalfInset(cfg)
    ensures Levels.Cell(lay, BottomTop, c, cfg, i, j)
         == ShiftAlong(TopBottom, MirrorCommand(TopBottom, width, height, Levels.Cell(lay, TopBottom, a, cfg, i, j)), HalfInset(cfg))
    ensures Levels.Cell(lay, TopBottom, c, cfg, i, j)
         == ShiftAlong(BottomTop, MirrorCommand(BottomTop, width, height, Levels.Cell(lay, BottomTop, a, cfg, i, j)), HalfInset(cfg))
  {
    TenthsAcrossHalves(a.height, j, cfg);
  }

  /** Cells of a box `c` beside a box `a` of the same size are the cells of `a`
      reflected across their common edge, with the sense reversed, and moved on by the
      stroke inset. */
  lemma CellsAcrossHorizontalHalves(lay: Layout, a: Box, c: Box, width: real, height: real, cfg: Config, i: nat, j: nat)
    requires a.x == 0.0 && c.y == a.y && c.x == a.width && c.width == a.width
    requires width == a.width + a.width
    requires lay.itemWidth == a.width / 10.0 * (1.0 - cfg.itemsOffset * 2.0) - HalfInset(cfg)
    ensures Levels.Cell(lay, RightLeft, c, cfg, i, j)
         == ShiftAlong(LeftRight, MirrorCommand(LeftRight, width, height, Levels.Cell(lay, LeftRight, a, cfg, i, j)), HalfInset(cfg))
    ensures Levels.Cell(lay, LeftRight, c, cfg, i, j)
         == ShiftAlong(RightLeft, MirrorCommand(RightLeft, width, height, Levels.Cell(lay, RightLeft, a, cfg, i, j)), HalfInset(cfg))
  {
    TenthsAcrossHalves(a.width, j, cfg);
  }

  /** A cell of the second half is the same cell of the first half reflected and then
      moved by half the line thickness along the magnitude axis, which is nothing when
      filled. A stroked cell is inset on its near side in both halves, so after the
      reflection the two insets point the same way instead of cancelling. */
  lemma CellMirroredWithInset(n: nat, d: DrawingDirection, width: real, height: real, cfg: Config, i: nat, j: nat)
    ensures var a, c, e := FirstHalf(d, width, height), SecondHalf(d, width, height), MirrorDirection(d);
      Levels.Cell(Levels.LevelsLayout(n, e, c, cfg), e, c, cfg, i, j)
      == ShiftAlong(d, MirrorCommand(d, width, height, Levels.Cell(Levels.LevelsLayout(n, d, a, cfg), d, a, cfg, i, j)), HalfInset(cfg))
  {
    var a, c, e := FirstHalf(d, width, height), SecondHalf(d, width, height), MirrorDirection(d);
    HalvesTileViewport(d, width, height);
    var lay := Levels.LevelsLayout(n, d, a, cfg);
    assert Levels.LevelsLayout(n, e, c, cfg) == lay;
    if IsVertical(d) {
      CellsAcrossVerticalHalves(lay, a, c, width, height, cfg, i, j);
    } else {
      CellsAcrossHorizontalHalves(lay, a, c, width, height, cfg, i, j);
    }
  }

  /** A filled cell of the second half is the same cell of the first half reflected. */
  lemma CellMirrored(n: nat, d: DrawingDirection, width: real, height: real, cfg: Config, i: nat, j: nat)
    requires cfg.filling
    ensures var a, c, e := FirstHalf(d, width, height), SecondHalf(d, width, height), MirrorDirection(d);
      Levels.Cell(Levels.LevelsLayout(n, e, c, cfg), e, c, cfg, i, j)
      == MirrorCommand(d, width, height, Levels.Cell(Levels.LevelsLayout(n, d, a, cfg), d, a, cfg, i, j))
  {
    CellMirroredWithInset(n, d, width, height, cfg, i, j);
  }

  /** Particles of a box `c` stacked on top of a box `a` of the same size are the
      particles of `a` reflected across their common edge, with the sense reversed, and
      moved on by the stroke inset. */
  lemma ParticlesAcrossVerticalHalves(lay: Layout, a: Box, c: Box, width: real, height: real, cfg: Config, i: nat, s: real)
    requires a.y == 0.0 && c.x == a.x && c.y == a.height && c.height == a.height
    requires height == a.height + a.height
    requires lay.itemHeight == a.height / 11.0 * (1.0 - cfg.itemsOffset * 2.0) - HalfInset(cfg)
    ensures Particles.Particle(lay, BottomTop, c, cfg, i, s)
         == ShiftAlong(TopBottom, MirrorCommand(TopBottom, width, height, Particles.Particle(lay, TopBottom, a, cfg, i, s)), HalfInset(cfg))
    ensures Particles.Particle(lay, TopBottom, c, cfg, i, s)
         == ShiftAlong(BottomTop, MirrorCommand(BottomTop, width, height, Particles.Particle(lay, BottomTop, a, cfg, i, s)), HalfInset(cfg))
  {
    EleventhsAcrossHalves(a.height, s, cfg);
  }

  /** Particles of a box `c` beside a box `a` of the same size are the particles of `a`
      reflected across their common edge, with the sense reversed, and moved on by the
      stroke inset. */
  lemma ParticlesAcrossHorizontalHalves(lay: Layout, a: Box, c: Box, width: real, height: real, cfg: Config, i: nat, s: real)
    requires a.x == 0.0 && c.y == a.y && c.x == a.width && c.width == a.width
    requires width == a.width + a.width
    requires lay.itemWidth == a.width / 11.0 * (1.0 - cfg.itemsOffset * 2.0) - HalfInset(cfg)
    ensures Particles.Particle(lay, RightLeft, c, cfg, i, s)
         == ShiftAlong(LeftRight, MirrorCommand(LeftRight, width, height, Particles.Particle(lay, LeftRight, a, cfg, i, s)), HalfInset(cfg))
    ensures Particles.Particle(lay, LeftRight, c, cfg, i, s)
         == ShiftAlong(RightLeft, MirrorCommand(RightLeft, width, height, Particles.Particle(lay, RightLeft, a, cfg, i, s)), HalfInset(cfg))
  {
    EleventhsAcrossHalves(a.width, s, cfg);
  }

  /** A particle of the second half is the same particle of the first half reflected
      and then moved by half the line thickness along the magnitude axis, which is
      nothing when filled. */
  lemma ParticleMirroredWithInset(n: nat, d: DrawingDirection, width: real, height: real, cfg: Config, i: nat, s: real)
    ensures var a, c, e := FirstHalf(d, width, height), SecondHalf(d, width, height), MirrorDirection(d);
      Particles.Particle(Particles.ParticlesLayout(n, e, c, cfg), e, c, cfg, i, s)
      == ShiftAlong(d, MirrorCommand(d, width, height, Particles.Particle(Particles.ParticlesLayout(n, d, a, cfg), d, a, cfg, i, s)), HalfInset(cfg))
  {
    var a, c, e := FirstHalf(d, width, height), SecondHalf(d, width, height), MirrorDirection(d);
    HalvesTileViewport(d, width, height);
    var lay := Particles.ParticlesLayout(n, d, a, cfg);
    assert Particles.ParticlesLayout(n, e, c, cfg) == lay;
    if IsVertical(d) {
      ParticlesAcrossVerticalHalves(lay, a, c, width, height, cfg, i, s);
    } else {
      ParticlesAcrossHorizontalHalves(lay, a, c, width, height, cfg, i, s);
    }
  }

  /** A filled particle of the second half is the same particle of the first half
      reflected. */
  lemma ParticleMirrored(n: nat, d: DrawingDirection, width: real, height: real, cfg: Config, i: nat, s: real)
    requires cfg.filling
    ensures var a, c, e := FirstHalf(d, width, height), SecondHalf(d, width, height), MirrorDirection(d);
      Particles.Particle(Particles.ParticlesLayout(n, e, c, cfg), e, c, cfg, i, s)
      == MirrorCommand(d, width, height, Particles.Particle(Particles.ParticlesLayout(n, d, a, cfg), d, a, cfg, i, s))
  {
    ParticleMirroredWithInset(n, d, width, height, cfg, i, s);
  }

  /** Both halves space the same number of samples over the same length. */
  lemma HalvesShareStep(d: DrawingDirection, width: real, height: real, n: nat)
    ensures Step(Extent(MirrorDirection(d), SecondHalf(d, width, height)), n) == Step(Extent(d, FirstHalf(d, width, height)), n)
  {
    HalvesTileViewport(d, width, height);
  }

  /** A bar of the second half, filled or stroked, is the same bar of the first half
      reflected. */
  lemma BarMirrored(step: real, d: DrawingDirection, width: real, height: real, cfg: Config, i: nat, s: real)
    ensures var a, c, e := FirstHalf(d, width, height), SecondHalf(d, width, height), MirrorDirection(d);
      Bars.Bar(step, e, c, cfg, i, s) == MirrorCommand(d, width, height, Bars.Bar(step, d, a, cfg, i, s))
  {
    var a, c := FirstHalf(d, width, height), SecondHalf(d, width, height);
    HalvesTileViewport(d, width, height);
    if IsVertical(d) {
      assert a.height * (1.0 - s) == a.height - a.height * s;
    } else {
      assert a.width * (1.0 - s) == a.width - a.width * s;
    }
  }

  /** A square of the second half is the same square of the first half reflected. */
  lemma SquareMirrored(step: real, d: DrawingDirection, width: real, height: real, cfg: Config, i: nat, s: real)
    ensures var a, c, e := FirstHalf(d, width, height), SecondHalf(d, width, height), MirrorDirection(d);
      Spine.Square(step, e, c, cfg, i, s) == MirrorCommand(d, width, height, Spine.Square(step, d, a, cfg, i, s))
  {
    HalvesTileViewport(d, width, height);
  }

  /** On the magnitude axis a sample's level in a box `c` stacked on top of a box `a` of
      the same size is its level in `a` reflected across their common edge, with the
      sense reversed; the stroke inset changes sign with the sense. */
  lemma LevelsAcrossVerticalHalves(a: Box, c: Box, height: real, cfg: Config, s: real)
    requires a.y == 0.0 && c.y == a.height && c.height == a.height && height == a.height + a.height
    ensures Wave.Level(BottomTop, c, s, cfg) == height - Wave.Level(TopBottom, a, s, cfg)
    ensures Wave.Level(TopBottom, c, s, cfg) == height - Wave.Level(BottomTop, a, s, cfg)
  {
    assert a.height * (1.0 - s) == a.height - a.height * s;
  }

  /** The same for a box `c` beside a box `a`. */
  lemma LevelsAcrossHorizontalHalves(a: Box, c: Box, width: real, cfg: Config, s: real)
    requires a.x == 0.0 && c.x == a.width && c.width == a.width && width == a.width + a.width
    ensures Wave.Level(RightLeft, c, s, cfg) == width - Wave.Level(LeftRight, a, s, cfg)
    ensures Wave.Level(LeftRight, c, s, cfg) == width - Wave.Level(RightLeft, a, s, cfg)
  {
    assert a.width * (1.0 - s) == a.width - a.width * s;
  }

  /** Cubic i in a box `c` stacked on top of a box `a` of the same size is cubic i in
      `a` reflected across their common edge, with the sense reversed. */
  lemma SegmentsAcrossVerticalHalves(sample: seq<real>, a: Box, c: Box, width: real, height: real, cfg: Config, i: nat)
    requires i + 1 < |sample|
    requires a.y == 0.0 && c.x == a.x && c.width == a.width && c.y == a.height && c.height == a.height
    requires height == a.height + a.height
    ensures Wave.Segment(sample, BottomTop, c, cfg, i) == MirrorOp(TopBottom, width, height, Wave.Segment(sample, TopBottom, a, cfg, i))
    ensures Wave.Segment(sample, TopBottom, c, cfg, i) == MirrorOp(BottomTop, width, height, Wave.Segment(sample, BottomTop, a, cfg, i))
  {
    LevelsAcrossVerticalHalves(a, c, height, cfg, sample[i]);
    LevelsAcrossVerticalHalves(a, c, height, cfg, sample[i + 1]);
  }

  /** Cubic i in a box `c` beside a box `a` of the same size is cubic i in `a`
      reflected across their common edge, with the sense reversed. */
  lemma SegmentsAcrossHorizontalHalves(sample: seq<real>, a: Box, c: Box, width: real, height: real, cfg: Config, i: nat)
    requires i + 1 < |sample|
    requires a.x == 0.0 && c.y == a.y && c.height == a.height && c.x == a.width && c.width == a.width
    requires width == a.width + a.width
    ensures Wave.Segment(sample, RightLeft, c, cfg, i) == MirrorOp(LeftRight, width, height, Wave.Segment(sample, LeftRight, a, cfg, i))
    ensures Wave.Segment(sample, LeftRight, c, cfg, i) == MirrorOp(RightLeft, width, height, Wave.Segment(sample, RightLeft, a, cfg, i))
  {
    LevelsAcrossHorizontalHalves(a, c, width, cfg, sample[i]);
    LevelsAcrossHorizontalHalves(a, c, width, cfg, sample[i + 1]);
  }

  /** Cubic i of the second half's wave is cubic i of the first half's, reflected. */
  lemma SegmentMirrored(sample: seq<real>, d: DrawingDirection, width: real, height: real, cfg: Config, i: nat)
    requires i + 1 < |sample|
    ensures var a, c, e := FirstHalf(d, width, height), SecondHalf(d, width, height), MirrorDirection(d);
      Wave.Segment(sample, e, c, cfg, i) == MirrorOp(d, width, height, Wave.Segment(sample, d, a, cfg, i))
  {
    var a, c := FirstHalf(d, width, height), SecondHalf(d, width, height);
    HalvesTileViewport(d, width, height);
    if IsVertical(d) {
      SegmentsAcrossVerticalHalves(sample, a, c, width, height, cfg, i);
    } else {
      SegmentsAcrossHorizontalHalves(sample, a, c, width, height, cfg, i);
    }
  }

  /** The closing lines of the second half run along the viewport's far edge where
      those of the first half run along its near edge, or both along the line between
      the halves. */
  lemma ClosingMirrored(d: DrawingDirection, width: real, height: real)
    ensures var a, c, e := FirstHalf(d, width, height), SecondHalf(d, width, height), MirrorDirection(d);
      var p, q := Wave.Closing(d, a), Wave.Closing(e, c);
      |q| == |p| && forall k :: 0 <= k < |p| ==> q[k] == MirrorOp(d, width, height, p[k])
  {
    HalvesTileViewport(d, width, height);
  }

  /** The path of the second half, filled or stroked, is the first half's path
      reflected. */
  lemma WavePathMirrored(sample: seq<real>, d: DrawingDirection, width: real, height: real, cfg: Config)
    requires |sample| >= 1
    ensures var a, c, e := FirstHalf(d, width, height), SecondHalf(d, width, height), MirrorDirection(d);
      Wave.WavePath(sample, e, c, cfg) == MirrorCommand(d, width, height, Wave.WavePath(sample, d, a, cfg))
  {
    var a, c, e := FirstHalf(d, width, height), SecondHalf(d, width, height), MirrorDirection(d);
    HalvesTileViewport(d, width, height);
    assert Origin(e, c) == Origin(d, a);
    WaveMirrorReflects(d, width, height, sample[0], cfg);
    var p, q := Wave.WavePath(sample, d, a, cfg), Wave.WavePath(sample, e, c, cfg);
    var n := |sample| - 1;
    ClosingMirrored(d, width, height);
    forall k | 0 <= k < |p.ops|
      ensures q.ops[k] == MirrorOp(d, width, height, p.ops[k])
    {
      if k < n {
        SegmentMirrored(sample, d, width, height, cfg, k);
      } else {
        assert p.ops[k] == Wave.Closing(d, a)[k - n] && q.ops[k] == Wave.Closing(e, c)[k - n];
      }
    }
    assert q.ops == MirrorCommand(d, width, height, p).ops;
  }

  /** The column of a sample in the second half is its column in the first half,
      cell by cell reflected. */
  lemma ColumnMirrored(sample: seq<real>, d: DrawingDirection, width: real, height: real, cfg: Config, i: nat)
    requires cfg.filling && i < |sample|
    ensures var a, c, e := FirstHalf(d, width, height), SecondHalf(d, width, height), MirrorDirection(d);
      Mirrored(d, width, height, Levels.Column(sample, d, a, cfg, i), Levels.Column(sample, e, c, cfg, i))
  {
    var a, c, e := FirstHalf(d, width, height), SecondHalf(d, width, height), MirrorDirection(d);
    forall j | 0 <= j < Levels.LitCells(sample[i])
      ensures Levels.Column(sample, e, c, cfg, i)[j] == MirrorCommand(d, width, height, Levels.Column(sample, d, a, cfg, i)[j])
    {
      CellMirrored(|sample|, d, width, height, cfg, i, j);
    }
  }

  /** The filled cells the second call draws are the first call's, reflected one by
      one and in the same order. */
  lemma {:induction false} LevelsMirrored(sample: seq<real>, d: DrawingDirection, width: real, height: real, cfg: Config, k: nat)
    requires cfg.filling && k <= |sample|
    ensures var a, c, e := FirstHalf(d, width, height), SecondHalf(d, width, height), MirrorDirection(d);
      Mirrored(d, width, height, Levels.LevelsCommands(sample, d, a, cfg, k), Levels.LevelsCommands(sample, e, c, cfg, k))
  {
    var a, c, e := FirstHalf(d, width, height), SecondHalf(d, width, height), MirrorDirection(d);
    if k > 0 {
      LevelsMirrored(sample, d, width, height, cfg, k - 1);
      ColumnMirrored(sample, d, width, height, cfg, k - 1);
      MirroredAppend(d, width, height,
        Levels.LevelsCommands(sample, d, a, cfg, k - 1), Levels.LevelsCommands(sample, e, c, cfg, k - 1),
        Levels.Column(sample, d, a, cfg, k - 1), Levels.Column(sample, e, c, cfg, k - 1));
    }
  }

  /** The filled particles the second call draws are the first call's, reflected one
      by one and in the same order. */
  lemma {:induction false} ParticlesMirrored(sample: seq<real>, d: DrawingDirection, width: real, height: real, cfg: Config, k: nat)
    requires cfg.filling && k <= |sample|
    ensures var a, c, e := FirstHalf(d, width, height), SecondHalf(d, width, height), MirrorDirection(d);
      Mirrored(d, width, height, Particles.ParticlesCommands(sample, d, a, cfg, k), Particles.ParticlesCommands(sample, e, c, cfg, k))
  {
    var a, c, e := FirstHalf(d, width, height), SecondHalf(d, width, height), MirrorDirection(d);
    if k > 0 {
      ParticlesMirrored(sample, d, width, height, cfg, k - 1);
      ParticleMirrored(|sample|, d, width, height, cfg, k - 1, sample[k - 1]);
      var p1 := [Particles.Particle(Particles.ParticlesLayout(|sample|, d, a, cfg), d, a, cfg, k - 1, sample[k - 1])];
      var q1 := [Particles.Particle(Particles.ParticlesLayout(|sample|, e, c, cfg), e, c, cfg, k - 1, sample[k - 1])];
      MirroredAppend(d, width, height,
        Particles.ParticlesCommands(sample, d, a, cfg, k - 1), Particles.ParticlesCommands(sample, e, c, cfg, k - 1), p1, q1);
    }
  }

  /** What the second call draws for sample i, nothing or one bar, is what the first
      call draws for it, reflected. */
  lemma BarSlotMirrored(sample: seq<real>, d: DrawingDirection, width: real, height: real, cfg: Config, i: nat)
    requires i < |sample|
    ensures var a, c, e := FirstHalf(d, width, height), SecondHalf(d, width, height), MirrorDirection(d);
      Mirrored(d, width, height,
        if sample[i] == 0.0 then [] else [Bars.Bar(Step(Extent(d, a), |sample|), d, a, cfg, i, sample[i])],
        if sample[i] == 0.0 then [] else [Bars.Bar(Step(Extent(e, c), |sample|), e, c, cfg, i, sample[i])])
  {
    HalvesShareStep(d, width, height, |sample|);
    BarMirrored(Step(Extent(d, FirstHalf(d, width, height)), |sample|), d, width, height, cfg, i, sample[i]);
  }

  /** The bars the second call draws, filled or stroked, are the first call's,
      reflected one by one and in the same order. */
  lemma {:induction false} BarsMirrored(sample: seq<real>, d: DrawingDirection, width: real, height: real, cfg: Config, k: nat)
    requires k <= |sample|
    ensures var a, c, e := FirstHalf(d, width, height), SecondHalf(d, width, height), MirrorDirection(d);
      Mirrored(d, width, height, Bars.BarsCommands(sample, d, a, cfg, k), Bars.BarsCommands(sample, e, c, cfg, k))
  {
    var a, c, e := FirstHalf(d, width, height), SecondHalf(d, width, height), MirrorDirection(d);
    if k > 0 {
      BarsMirrored(sample, d, width, height, cfg, k - 1);
      BarSlotMirrored(sample, d, width, height, cfg, k - 1);
      var i := k - 1;
      MirroredAppend(d, width, height,
        Bars.BarsCommands(sample, d, a, cfg, i), Bars.BarsCommands(sample, e, c, cfg, i),
        if sample[i] == 0.0 then [] else [Bars.Bar(Step(Extent(d, a), |sample|), d, a, cfg, i, sample[i])],
        if sample[i] == 0.0 then [] else [Bars.Bar(Step(Extent(e, c), |sample|), e, c, cfg, i, sample[i])]);
    }
  }

  /** What the second call draws for sample i, nothing or one square, is what the
      first call draws for it, reflected. */
  lemma SquareSlotMirrored(sample: seq<real>, d: DrawingDirection, width: real, height: real, cfg: Config, i: nat)
    requires i < |sample|
    ensures var a, c, e := FirstHalf(d, width, height), SecondHalf(d, width, height), MirrorDirection(d);
      Mirrored(d, width, height,
        if sample[i] == 0.0 then [] else [Spine.Square(Step(Extent(d, a), |sample|), d, a, cfg, i, sample[i])],
        if sample[i] == 0.0 then [] else [Spine.Square(Step(Extent(e, c), |sample|), e, c, cfg, i, sample[i])])
  {
    HalvesShareStep(d, width, height, |sample|);
    SquareMirrored(Step(Extent(d, FirstHalf(d, width, height)), |sample|), d, width, height, cfg, i, sample[i]);
  }

  /** The squares the second call draws are the first call's, reflected one by one and
      in the same order. */
  lemma {:induction false} SpineMirrored(sample: seq<real>, d: DrawingDirection, width: real, height: real, cfg: Config, k: nat)
    requires k <= |sample|
    ensures var a, c, e := FirstHalf(d, width, height), SecondHalf(d, width, height), MirrorDirection(d);
      Mirrored(d, width, height, Spine.SpineCommands(sample, d, a, cfg, k), Spine.SpineCommands(sample, e, c, cfg, k))
  {
    var a, c, e := FirstHalf(d, width, height), SecondHalf(d, width, height), MirrorDirection(d);
    if k > 0 {
      SpineMirrored(sample, d, width, height, cfg, k - 1);
      SquareSlotMirrored(sample, d, width, height, cfg, k - 1);
      var i := k - 1;
      MirroredAppend(d, width, height,
        Spine.SpineCommands(sample, d, a, cfg, i), Spine.SpineCommands(sample, e, c, cfg, i),
        if sample[i] == 0.0 then [] else [Spine.Square(Step(Extent(d, a), |sample|), d, a, cfg, i, sample[i])],
        if sample[i] == 0.0 then [] else [Spine.Square(Step(Extent(e, c), |sample|), e, c, cfg, i, sample[i])]);
    }
  }

  /** A fully mirrored frame draws the first half, then the same primitives reflected
      across the line between the halves: item m of the second call is item m of the
      first, reflected. This holds for every wave, bar and spine frame and for filled
      levels and particles; stroked cells and particles are inset on their near side
      only and are not reflections of each other. */
  lemma FullMirrorReflects(cfg: Config, sample: seq<real>, width: real, height: real)
    requires cfg.mirror == Full && Drawable(cfg, sample)
    requires (cfg.mode == LevelsBox || cfg.mode == ParticlesBox) ==> cfg.filling
    ensures var f, invs := SelectDrawFunc(cfg.mode), Invocations(cfg, sample, width, height);
      && Accepts(f, invs[0]) && Accepts(f, invs[1])
      && FrameCalls(cfg, sample, width, height) == StrategyCommands(f, invs[0], cfg) + StrategyCommands(f, invs[1], cfg)
      && Mirrored(cfg.direction, width, height, StrategyCommands(f, invs[0], cfg), StrategyCommands(f, invs[1], cfg))
  {
    var f, invs := SelectDrawFunc(cfg.mode), Invocations(cfg, sample, width, height);
    var d := cfg.direction;
    DrawableAccepted(cfg, sample, width, height);
    RenderTwo(f, invs, cfg);
    match f
    case DrawWaveBox =>
      WavePathMirrored(sample, d, width, height, cfg);
    case DrawLevelsBox =>
      LevelsMirrored(sample, d, width, height, cfg, |sample|);
    case DrawParticlesBox =>
      ParticlesMirrored(sample, d, width, height, cfg, |sample|);
    case DrawBarsBox =>
      BarsMirrored(sample, d, width, height, cfg, |sample|);
    case DrawSpineBox =>
      SpineMirrored(sample, d, width, height, cfg, |sample|);
  }
}
