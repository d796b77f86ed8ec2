/** The Wave strategy: one smooth path through every sample. */
module Wave {
  import opened RenderTypes
  import opened CanvasSink

  /** Coordinate on the magnitude axis of a sample of value s; a stroked line is
      shifted towards the baseline edge by half its thickness. */
  function Level(d: DrawingDirection, b: Box, s: real, cfg: Config): real
  {
    match d
    case TopBottom => b.y + b.height * s - HalfInset(cfg)
    case BottomTop => b.y + b.height * (1.0 - s) + HalfInset(cfg)
    case LeftRight => b.x + b.width * s - HalfInset(cfg)
    case RightLeft => b.x + b.width * (1.0 - s) + HalfInset(cfg)
  }

  /** A stroked line of a zero sample lies half its thickness beyond the baseline edge,
      so the whole stroke, which spreads half the thickness to either side of the line,
      falls outside the box and only touches its edge. */
  lemma StrokedZeroOutsideBox(b: Box, cfg: Config)
    requires !cfg.filling
    ensures var t := cfg.linesThickness;
      && Level(TopBottom, b, 0.0, cfg) + t / 2.0 == b.y
      && Level(BottomTop, b, 0.0, cfg) - t / 2.0 == b.y + b.height
      && Level(LeftRight, b, 0.0, cfg) + t / 2.0 == b.x
      && Level(RightLeft, b, 0.0, cfg) - t / 2.0 == b.x + b.width
  {
  }

  /** The point at `along` on the sample axis and `level` on the magnitude axis. */
  function At(d: DrawingDirection, along: real, level: real): Point
  {
    if IsVertical(d) then Point(along, level) else Point(level, along)
  }

  /** Distance between consecutive samples on the sample axis. */
  function WaveStep(n: nat, d: DrawingDirection, b: Box): real
    requires n >= 1
  {
    Step(Extent(d, b), n - 1)
  }

  /** The cubic from sample i to sample i + 1; both control points sit halfway
      between the two samples, one at each sample's level. */
  function Segment(sample: seq<real>, d: DrawingDirection, b: Box, cfg: Config, i: nat): PathOp
    requires i + 1 < |sample|
  {
    var step := WaveStep(|sample|, d, b);
    var mid := Origin(d, b) + step * (i as real + 0.5);
    CubicTo(
      At(d, mid, Level(d, b, sample[i], cfg)),
      At(d, mid, Level(d, b, sample[i + 1], cfg)),
      At(d, Origin(d, b) + step * (i + 1) as real, Level(d, b, sample[i + 1], cfg)))
  }

  function Segments(sample: seq<real>, d: DrawingDirection, b: Box, cfg: Config): seq<PathOp>
    requires |sample| >= 1
  {
    seq(|sample| - 1, i requires 0 <= i < |sample| - 1 => Segment(sample, d, b, cfg, i))
  }

  /** The two lines that close a filled wave back along the baseline edge. */
  function Closing(d: DrawingDirection, b: Box): seq<PathOp>
  {
    match d
    case TopBottom => [LineTo(Point(b.x + b.width, b.y)), LineTo(Point(b.x, b.y))]
    case BottomTop => [LineTo(Point(b.x + b.width, b.y + b.height)), LineTo(Point(b.x, b.y + b.height))]
    case LeftRight => [LineTo(Point(b.x, b.y + b.height)), LineTo(Point(b.x, b.y))]
    case RightLeft => [LineTo(Point(b.x + b.width, b.y + b.height)), LineTo(Point(b.x + b.width, b.y))]
  }

  function WaveStart(sample: seq<real>, d: DrawingDirection, b: Box, cfg: Config): Point
    requires |sample| >= 1
  {
    At(d, Origin(d, b), Level(d, b, sample[0], cfg))
  }

  /** The single path the strategy draws. */
  function WavePath(sample: seq<real>, d: DrawingDirection, b: Box, cfg: Config): Command
    requires |sample| >= 1
  {
    Path(
      WaveStart(sample, d, b, cfg),
      Segments(sample, d, b, cfg) + (if cfg.filling then Closing(d, b) else []),
      cfg.filling)
  }

  /** n - 1 cubics, followed by two closing lines exactly when filling, and the path
      is closed exactly when filling. */
  lemma WavePathShape(sample: seq<real>, d: DrawingDirection, b: Box, cfg: Config)
    requires |sample| >= 1
    ensures var p := WavePath(sample, d, b, cfg);
      && p.Path? && p.closed == cfg.filling
      && |p.ops| == |sample| - 1 + (if cfg.filling then 2 else 0)
      && (forall k :: 0 <= k < |sample| - 1 ==> p.ops[k].CubicTo?)
      && (forall k :: |sample| - 1 <= k < |p.ops| ==> p.ops[k].LineTo?)
  {
  }

  /** The k-th point the path passes through: the start, then the end of each cubic. */
  function Knot(p: Command, k: nat): Point
    requires p.Path?
    requires k == 0 || (k - 1 < |p.ops| && p.ops[k - 1].CubicTo?)
  {
    if k == 0 then p.start else p.ops[k - 1].end
  }

  /** The path passes through every sample, in order, at evenly spaced positions
      along the sample axis. */
  lemma WaveInterpolates(sample: seq<real>, d: DrawingDirection, b: Box, cfg: Config, k: nat)
    requires k < |sample|
    ensures var p := WavePath(sample, d, b, cfg);
      && (k == 0 || p.ops[k - 1].CubicTo?)
      && Knot(p, k) == At(d, Origin(d, b) + WaveStep(|sample|, d, b) * k as real, Level(d, b, sample[k], cfg))
  {
    if k > 0 {
      OpIsSegment(sample, d, b, cfg, k - 1);
      SegmentEnd(sample, d, b, cfg, k);
    }
  }

  /** The cubic before knot k ends at sample k. */
  lemma SegmentEnd(sample: seq<real>, d: DrawingDirection, b: Box, cfg: Config, k: nat)
    requires 0 < k < |sample|
    ensures Segment(sample, d, b, cfg, k - 1).end == At(d, Origin(d, b) + WaveStep(|sample|, d, b) * k as real, Level(d, b, sample[k], cfg))
  {
    assert k - 1 + 1 == k;
  }

  /** The path starts on the near edge of the sample axis and its last cubic ends on
      the far edge. */
  lemma WaveSpansAxis(sample: seq<real>, d: DrawingDirection, b: Box, cfg: Config)
    requires |sample| >= 2
    ensures var p, n := WavePath(sample, d, b, cfg), |sample|;
      && p.start == At(d, Origin(d, b), Level(d, b, sample[0], cfg))
      && p.ops[n - 2].CubicTo?
      && p.ops[n - 2].end == At(d, Origin(d, b) + Extent(d, b), Level(d, b, sample[n - 1], cfg))
  {
    var n := |sample|;
    var step := WaveStep(n, d, b);
    assert step * (n - 1) as real == Extent(d, b);
    WaveInterpolates(sample, d, b, cfg, n - 1);
  }

  /** The i-th operation of the path is the cubic from sample i to sample i + 1. */
  lemma OpIsSegment(sample: seq<real>, d: DrawingDirection, b: Box, cfg: Config, i: nat)
    requires i + 1 < |sample|
    ensures WavePath(sample, d, b, cfg).ops[i] == Segment(sample, d, b, cfg, i)
  {
  }

  /** Three points spaced half a step apart: the middle one is equally far from both. */
  lemma HalfStepSpacing(o: real, step: real, i: nat)
    ensures (o + step * (i + 1) as real) - (o + step * (i as real + 0.5))
         == (o + step * ((i + 1) as real + 0.5)) - (o + step * (i + 1) as real)
  {
    assert step * (i + 1) as real == step * i as real + step;
    assert step * (i as real + 0.5) == step * i as real + step * 0.5;
    assert step * ((i + 1) as real + 0.5) == step * i as real + step + step * 0.5;
  }

  /** Points at one level and evenly spaced along the sample axis are evenly spaced
      in both coordinates. */
  lemma AtEvenlySpaced(d: DrawingDirection, a0: real, a1: real, a2: real, level: real)
    requires a1 - a0 == a2 - a1
    ensures At(d, a1, level).x - At(d, a0, level).x == At(d, a2, level).x - At(d, a1, level).x
    ensures At(d, a1, level).y - At(d, a0, level).y == At(d, a2, level).y - At(d, a1, level).y
  {
  }

  /** The points where cubics i and i + 1 meet: the incoming control point, the knot
      and the outgoing control point share a level and are evenly spaced along the
      sample axis. */
  lemma SegmentJoin(sample: seq<real>, d: DrawingDirection, b: Box, cfg: Config, i: nat)
    returns (a0: real, a1: real, a2: real, level: real)
    requires i + 2 < |sample|
    ensures Segment(sample, d, b, cfg, i).c2 == At(d, a0, level)
    ensures Segment(sample, d, b, cfg, i).end == At(d, a1, level)
    ensures Segment(sample, d, b, cfg, i + 1).c1 == At(d, a2, level)
    ensures a1 - a0 == a2 - a1
  {
    var step, o := WaveStep(|sample|, d, b), Origin(d, b);
    a0, a1, a2 := o + step * (i as real + 0.5), o + step * (i + 1) as real, o + step * ((i + 1) as real + 0.5);
    level := Level(d, b, sample[i + 1], cfg);
    HalfStepSpacing(o, step, i);
  }

  /** Consecutive cubics meet with their control points evenly spaced around the knot. */
  lemma SegmentsJoinSmoothly(sample: seq<real>, d: DrawingDirection, b: Box, cfg: Config, i: nat)
    requires i + 2 < |sample|
    ensures var s0, s1 := Segment(sample, d, b, cfg, i), Segment(sample, d, b, cfg, i + 1);
      && s0.end.x - s0.c2.x == s1.c1.x - s0.end.x
      && s0.end.y - s0.c2.y == s1.c1.y - s0.end.y
  {
    var a0, a1, a2, level := SegmentJoin(sample, d, b, cfg, i);
    AtEvenlySpaced(d, a0, a1, a2, level);
  }

  /** At every inner knot the incoming and outgoing control points sit at the knot's
      level, one on each side and equally far, so the tangent is continuous (C1). */
  lemma WaveSmoothJoins(sample: seq<real>, d: DrawingDirection, b: Box, cfg: Config, i: nat)
    requires i + 2 < |sample|
    ensures var p := WavePath(sample, d, b, cfg);
      && p.ops[i].CubicTo? && p.ops[i + 1].CubicTo?
      && p.ops[i].end.x - p.ops[i].c2.x == p.ops[i + 1].c1.x - p.ops[i].end.x
      && p.ops[i].end.y - p.ops[i].c2.y == p.ops[i + 1].c1.y - p.ops[i].end.y
  {
    OpIsSegment(sample, d, b, cfg, i);
    OpIsSegment(sample, d, b, cfg, i + 1);
    SegmentsJoinSmoothly(sample, d, b, cfg, i);
  }

  /** A filled wave is closed along the line where a zero sample sits: first to the
      far end of the sample axis, then back to the near end. */
  lemma WaveClosesAtBaseline(sample: seq<real>, d: DrawingDirection, b: Box, cfg: Config)
    requires |sample| >= 1 && cfg.filling
    ensures var p, n := WavePath(sample, d, b, cfg), |sample|;
      && p.ops[n - 1] == LineTo(At(d, Origin(d, b) + Extent(d, b), Level(d, b, 0.0, cfg)))
      && p.ops[n] == LineTo(At(d, Origin(d, b), Level(d, b, 0.0, cfg)))
  {
    var p, n := WavePath(sample, d, b, cfg), |sample|;
    assert p.ops[n - 1] == Closing(d, b)[0];
    assert p.ops[n] == Closing(d, b)[1];
  }
}
