/** What one call of `Draw` puts on the canvas: which strategy runs, on which
    samples and in which part of the viewport. */
module Frames {
  import opened RenderTypes
  import opened Samples
  import opened CanvasSink
  import opened Orientation
  import Wave
  import Levels
  import Particles
  import Bars
  import Spine

  /** The strategy the renderer stores in its draw function field. */
  datatype DrawFunc = DrawWaveBox | DrawLevelsBox | DrawParticlesBox | DrawBarsBox | DrawSpineBox

  /** The mode switch: each item mode has its strategy and anything else draws the
      wave. */
  function SelectDrawFunc(mode: DrawingMode): (f: DrawFunc)
    ensures f == DrawLevelsBox <==> mode == LevelsBox
    ensures f == DrawParticlesBox <==> mode == ParticlesBox
    ensures f == DrawBarsBox <==> mode == BarsBox
    ensures f == DrawSpineBox <==> mode == SpineBox
    ensures f == DrawWaveBox <==> mode == WaveBox
  {
    match mode
    case LevelsBox => DrawLevelsBox
    case ParticlesBox => DrawParticlesBox
    case BarsBox => DrawBarsBox
    case SpineBox => DrawSpineBox
    case _ => DrawWaveBox
  }

  /** The arguments of one call of the draw function. */
  datatype Invocation = Invocation(sample: seq<real>, direction: DrawingDirection, box: Box)

  /** The calls `Draw` makes: one over the whole viewport when the mirror is off;
      otherwise one into each half, the second at the mirrored direction. Full
      mirroring passes the whole sample twice; channel splitting passes the first
      half in order and the rest reversed. */
  function Invocations(cfg: Config, sample: seq<real>, width: real, height: real): (r: seq<Invocation>)
    ensures |r| == if cfg.mirror.Off? then 1 else 2
  {
    var d := cfg.direction;
    if cfg.mirror == Full then
      [Invocation(sample, d, FirstHalf(d, width, height)),
       Invocation(sample, MirrorDirection(d), SecondHalf(d, width, height))]
    else if cfg.mirror == SplitChannels then
      [Invocation(sample[..|sample| / 2], d, FirstHalf(d, width, height)),
       Invocation(Reverse(sample[|sample| / 2..]), MirrorDirection(d), SecondHalf(d, width, height))]
    else
      [Invocation(sample, d, Box(0.0, 0.0, width, height))]
  }

  /** The wave indexes its first sample, so it cannot be given an empty one. */
  predicate Accepts(f: DrawFunc, inv: Invocation)
  {
    f == DrawWaveBox ==> |inv.sample| >= 1
  }

  /** What `Draw` demands of its sample: a wave frame needs one sample, or two when
      the channels are split. */
  predicate Drawable(cfg: Config, sample: seq<real>)
  {
    SelectDrawFunc(cfg.mode) == DrawWaveBox ==> |sample| >= (if cfg.mirror == SplitChannels then 2 else 1)
  }

  /** What one strategy call appends to the canvas. */
  function StrategyCommands(f: DrawFunc, inv: Invocation, cfg: Config): seq<Command>
    requires Accepts(f, inv)
  {
    var s, d, b := inv.sample, inv.direction, inv.box;
    match f
    case DrawWaveBox => [Wave.WavePath(s, d, b, cfg)]
    case DrawLevelsBox => Levels.LevelsCommands(s, d, b, cfg, |s|)
    case DrawParticlesBox => Particles.ParticlesCommands(s, d, b, cfg, |s|)
    case DrawBarsBox => Bars.BarsCommands(s, d, b, cfg, |s|)
    case DrawSpineBox => Spine.SpineCommands(s, d, b, cfg, |s|)
  }

  /** The strategy calls in order. */
  function Render(f: DrawFunc, invs: seq<Invocation>, cfg: Config): seq<Command>
    requires forall k :: 0 <= k < |invs| ==> Accepts(f, invs[k])
  {
    if |invs| == 0 then [] else StrategyCommands(f, invs[0], cfg) + Render(f, invs[1..], cfg)
  }

  /** The one or two calls of the selected strategy that a frame makes. */
  function FrameCalls(cfg: Config, sample: seq<real>, width: real, height: real): seq<Command>
    requires Drawable(cfg, sample)
  {
    DrawableAccepted(cfg, sample, width, height);
    Render(SelectDrawFunc(cfg.mode), Invocations(cfg, sample, width, height), cfg)
  }

  /** Two strategy calls draw the first call's primitives, then the second's. */
  lemma RenderTwo(f: DrawFunc, invs: seq<Invocation>, cfg: Config)
    requires |invs| == 2 && Accepts(f, invs[0]) && Accepts(f, invs[1])
    ensures Render(f, invs, cfg) == StrategyCommands(f, invs[0], cfg) + StrategyCommands(f, invs[1], cfg)
  {
    assert invs[1..][1..] == [];
    assert Render(f, invs[1..], cfg) == StrategyCommands(f, invs[1], cfg) + Render(f, [], cfg);
  }

  /** Everything one `Draw` call with a canvas appends. */
  function Frame(cfg: Config, sample: seq<real>, width: real, height: real): seq<Command>
    requires Drawable(cfg, sample)
  {
    [Clear] + FrameCalls(cfg, sample, width, height) + [Flush]
  }

  /** A sample is drawable exactly when the selected strategy accepts every call. */
  lemma DrawableAccepted(cfg: Config, sample: seq<real>, width: real, height: real)
    ensures var invs := Invocations(cfg, sample, width, height);
      Drawable(cfg, sample) <==> forall k :: 0 <= k < |invs| ==> Accepts(SelectDrawFunc(cfg.mode), invs[k])
  {
    var f, invs, n := SelectDrawFunc(cfg.mode), Invocations(cfg, sample, width, height), |sample|;
    var all := forall k :: 0 <= k < |invs| ==> Accepts(f, invs[k]);
    if cfg.mirror.Off? {
      assert all <==> Accepts(f, invs[0]);
    } else {
      assert all <==> Accepts(f, invs[0]) && Accepts(f, invs[1]);
      if cfg.mirror == SplitChannels {
        assert |invs[0].sample| == n / 2 && |invs[1].sample| == n - n / 2;
      }
    }
  }

  /** Items a strategy draws for a sample: one path for the wave, the lit cells for
      Levels, one particle per sample, one bar or square per non-zero sample. */
  function ItemCount(f: DrawFunc, s: seq<real>): nat
  {
    match f
    case DrawWaveBox => 1
    case DrawLevelsBox => Tally(s, Levels.LitCells)
    case DrawParticlesBox => |s|
    case DrawBarsBox => Tally(s, NonZero)
    case DrawSpineBox => Tally(s, NonZero)
  }

  /** Every strategy call appends only drawing primitives, as many as ItemCount says. */
  lemma StrategyItems(f: DrawFunc, inv: Invocation, cfg: Config)
    requires Accepts(f, inv)
    ensures |StrategyCommands(f, inv, cfg)| == ItemCount(f, inv.sample)
    ensures forall m :: 0 <= m < |StrategyCommands(f, inv, cfg)| ==> IsPrimitive(StrategyCommands(f, inv, cfg)[m])
  {
    var s, d, b := inv.sample, inv.direction, inv.box;
    assert s[..|s|] == s;
    match f
    case DrawWaveBox =>
    case DrawLevelsBox =>
      Levels.LevelsCount(s, d, b, cfg, |s|);
      Levels.LevelsItemShape(s, d, b, cfg, |s|);
    case DrawParticlesBox =>
      Particles.ParticlesOnePerSample(s, d, b, cfg, |s|);
    case DrawBarsBox =>
      Bars.BarsCount(s, d, b, cfg, |s|);
    case DrawSpineBox =>
      Spine.SpineCount(s, d, b, cfg, |s|);
  }

  /** The calls' items, one call after the other. */
  function TotalItems(f: DrawFunc, invs: seq<Invocation>): nat
  {
    if |invs| == 0 then 0 else ItemCount(f, invs[0].sample) + TotalItems(f, invs[1..])
  }

  lemma TwoCalls(f: DrawFunc, invs: seq<Invocation>)
    requires |invs| == 2
    ensures TotalItems(f, invs) == ItemCount(f, invs[0].sample) + ItemCount(f, invs[1].sample)
  {
    assert invs[1..][1..] == [];
    assert TotalItems(f, invs[1..]) == ItemCount(f, invs[1].sample) + TotalItems(f, invs[1..][1..]);
  }

  lemma {:induction false} RenderItems(f: DrawFunc, invs: seq<Invocation>, cfg: Config)
    requires forall k :: 0 <= k < |invs| ==> Accepts(f, invs[k])
    ensures |Render(f, invs, cfg)| == TotalItems(f, invs)
    ensures forall m :: 0 <= m < |Render(f, invs, cfg)| ==> IsPrimitive(Render(f, invs, cfg)[m])
  {
    if |invs| > 0 {
      StrategyItems(f, invs[0], cfg);
      RenderItems(f, invs[1..], cfg);
      var a, r := StrategyCommands(f, invs[0], cfg), Render(f, invs[1..], cfg);
      assert Render(f, invs, cfg) == a + r;
      forall m | 0 <= m < |a + r|
        ensures IsPrimitive((a + r)[m])
      {
        if m < |a| { assert (a + r)[m] == a[m]; } else { assert (a + r)[m] == r[m - |a|]; }
      }
    }
  }

  /** A frame is one Clear, then only drawing primitives, then one Flush; the
      primitives are the items of the one or two strategy calls. */
  lemma FrameBracketed(cfg: Config, sample: seq<real>, width: real, height: real)
    requires Drawable(cfg, sample)
    ensures var fr, invs := Frame(cfg, sample, width, height), Invocations(cfg, sample, width, height);
      && |fr| == TotalItems(SelectDrawFunc(cfg.mode), invs) + 2
      && fr[0] == Clear && fr[|fr| - 1] == Flush
      && forall m :: 0 < m < |fr| - 1 ==> IsPrimitive(fr[m])
  {
    DrawableAccepted(cfg, sample, width, height);
    var f, invs := SelectDrawFunc(cfg.mode), Invocations(cfg, sample, width, height);
    RenderItems(f, invs, cfg);
    var r := Render(f, invs, cfg);
    var fr := Frame(cfg, sample, width, height);
    assert fr == [Clear] + r + [Flush];
    forall m | 0 < m < |fr| - 1
      ensures IsPrimitive(fr[m])
    {
      assert fr[m] == r[m - 1];
    }
  }

  /** Channel splitting loses no sample: the first call's samples followed by the
      second call's read backwards are the whole sample, and for an odd count the
      second call gets the extra one. */
  lemma SplitChannelsPartition(cfg: Config, sample: seq<real>, width: real, height: real)
    requires cfg.mirror == SplitChannels
    ensures var invs := Invocations(cfg, sample, width, height);
      && invs[0].sample + Reverse(invs[1].sample) == sample
      && |invs[1].sample| == |invs[0].sample| + |sample| % 2
      && invs[0].direction == cfg.direction && invs[1].direction == MirrorDirection(cfg.direction)
  {
    var n := |sample|;
    ReverseReverse(sample[n / 2..]);
    assert sample[..n / 2] + sample[n / 2..] == sample;
  }

  /** So a split frame of an item strategy draws exactly the items of the whole
      sample: no lit cell, particle, bar or square goes missing or is doubled. */
  lemma SplitChannelsKeepsItems(cfg: Config, sample: seq<real>, width: real, height: real)
    requires cfg.mirror == SplitChannels && SelectDrawFunc(cfg.mode) != DrawWaveBox
    ensures TotalItems(SelectDrawFunc(cfg.mode), Invocations(cfg, sample, width, height))
         == ItemCount(SelectDrawFunc(cfg.mode), sample)
  {
    var f, invs := SelectDrawFunc(cfg.mode), Invocations(cfg, sample, width, height);
    var n := |sample|;
    var first, second := sample[..n / 2], sample[n / 2..];
    assert first + second == sample;
    TwoCalls(f, invs);
    TallyReverse(second, Levels.LitCells);
    TallyReverse(second, NonZero);
    TallyAppend(first, second, Levels.LitCells);
    TallyAppend(first, second, NonZero);
  }

  /** Full mirroring draws the whole sample twice, into the two halves that tile
      the viewport, the second facing the other way along the same axis. */
  lemma FullMirrorTwice(cfg: Config, sample: seq<real>, width: real, height: real)
    requires cfg.mirror == Full
    ensures var invs := Invocations(cfg, sample, width, height);
      && invs[0].sample == sample && invs[1].sample == sample
      && invs[0].direction == cfg.direction && invs[1].direction == MirrorDirection(cfg.direction)
      && TotalItems(SelectDrawFunc(cfg.mode), invs) == 2 * ItemCount(SelectDrawFunc(cfg.mode), sample)
  {
    TwoCalls(SelectDrawFunc(cfg.mode), Invocations(cfg, sample, width, height));
  }

  /** With the mirror off a single call draws the whole sample over the viewport. */
  lemma MirrorOffOnce(cfg: Config, sample: seq<real>, width: real, height: real)
    requires cfg.mirror == Off
    ensures var invs := Invocations(cfg, sample, width, height);
      && invs == [Invocation(sample, cfg.direction, Box(0.0, 0.0, width, height))]
      && TotalItems(SelectDrawFunc(cfg.mode), invs) == ItemCount(SelectDrawFunc(cfg.mode), sample)
  {
  }

  /** A fully mirrored wave is reflected across the line between the halves: the
      level of a sample in the second half is the level in the first half reflected
      across that line. The stroke inset is subtracted in one direction and added in
      the other, so this holds for stroked waves too. */
  lemma WaveMirrorReflects(d: DrawingDirection, width: real, height: real, s: real, cfg: Config)
    ensures var a, b := FirstHalf(d, width, height), SecondHalf(d, width, height);
      var la, lb := Wave.Level(d, a, s, cfg), Wave.Level(MirrorDirection(d), b, s, cfg);
      && (IsVertical(d) ==> la + lb == height)
      && (!IsVertical(d) ==> la + lb == width)
  {
    var a, b := FirstHalf(d, width, height), SecondHalf(d, width, height);
    HalvesTileViewport(d, width, height);
    if IsVertical(d) {
      assert a.height * s + a.height * (1.0 - s) == a.height;
    } else {
      assert a.width * s + a.width * (1.0 - s) == a.width;
    }
  }
}
