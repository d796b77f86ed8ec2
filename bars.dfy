/** The Bars strategy: one rectangle per non-zero sample, growing from the baseline
    edge. */
module Bars {
  import opened RenderTypes
  import opened CanvasSink
  import opened Samples
  import opened Items

  /** The bar of sample i with value s, `step` being the distance between samples.
      A stroked bar is inset by half the line thickness on every side. */
  function Bar(step: real, d: DrawingDirection, b: Box, cfg: Config, i: nat, s: real): Command
  {
    var across := step * (1.0 - cfg.itemsOffset * 2.0) - FullInset(cfg);
    match d
    case TopBottom =>
      Rect(SlotStart(b.x, step, i, cfg), if cfg.filling then b.y else b.y + cfg.linesThickness / 2.0,
           across, b.height * s - FullInset(cfg))
    case BottomTop =>
      Rect(SlotStart(b.x, step, i, cfg), b.y + b.height * (1.0 - s) + HalfInset(cfg),
           across, b.height * s - FullInset(cfg))
    case LeftRight =>
      Rect(if cfg.filling then b.x else b.x + cfg.linesThickness / 2.0, SlotStart(b.y, step, i, cfg),
           b.width * s - FullInset(cfg), across)
    case RightLeft =>
      Rect(b.x + b.width * (1.0 - s) + HalfInset(cfg), SlotStart(b.y, step, i, cfg),
           b.width * s - FullInset(cfg), across)
  }

  /** What the strategy draws for the first k samples: nothing for a zero sample. */
  function BarsCommands(sample: seq<real>, d: DrawingDirection, b: Box, cfg: Config, k: nat): seq<Command>
    requires k <= |sample|
  {
    if k == 0 then []
    else
      BarsCommands(sample, d, b, cfg, k - 1)
      + (if sample[k - 1] == 0.0 then [] else [Bar(Step(Extent(d, b), |sample|), d, b, cfg, k - 1, sample[k - 1])])
  }

  /** One rectangle per non-zero sample and none for a zero sample. */
  lemma {:induction false} BarsCount(sample: seq<real>, d: DrawingDirection, b: Box, cfg: Config, k: nat)
    requires k <= |sample|
    ensures |BarsCommands(sample, d, b, cfg, k)| == Tally(sample[..k], NonZero)
    ensures forall m :: 0 <= m < |BarsCommands(sample, d, b, cfg, k)| ==> BarsCommands(sample, d, b, cfg, k)[m].Rect?
  {
    if k > 0 {
      BarsCount(sample, d, b, cfg, k - 1);
      assert sample[..k][..k - 1] == sample[..k - 1];
    }
  }

  /** The bar of a non-zero sample i comes right after the bars of the non-zero
      samples before it, so bars are drawn in index order. */
  lemma {:induction false} BarsOrder(sample: seq<real>, d: DrawingDirection, b: Box, cfg: Config, k: nat, i: nat)
    requires i < k <= |sample| && sample[i] != 0.0
    ensures Tally(sample[..i], NonZero) < |BarsCommands(sample, d, b, cfg, k)|
    ensures BarsCommands(sample, d, b, cfg, k)[Tally(sample[..i], NonZero)]
         == Bar(Step(Extent(d, b), |sample|), d, b, cfg, i, sample[i])
  {
    BarsCount(sample, d, b, cfg, k - 1);
    BarsCount(sample, d, b, cfg, i);
    if i < k - 1 {
      BarsOrder(sample, d, b, cfg, k - 1, i);
    }
  }

  /** A filled bar starts on the baseline edge and its length along the magnitude
      axis is the extent times the sample. */
  lemma FilledBarFromBaseline(step: real, d: DrawingDirection, b: Box, cfg: Config, i: nat, s: real)
    requires cfg.filling
    ensures var r := Bar(step, d, b, cfg, i, s);
      && (d == TopBottom ==> r.y == b.y && r.height == b.height * s)
      && (d == BottomTop ==> r.y + r.height == b.y + b.height && r.height == b.height * s)
      && (d == LeftRight ==> r.x == b.x && r.width == b.width * s)
      && (d == RightLeft ==> r.x + r.width == b.x + b.width && r.width == b.width * s)
  {
  }

  /** A stroked bar is the filled bar shrunk by half the line thickness on every
      side, so the outer edge of its stroke is the filled bar's outline. */
  lemma StrokedBarInset(step: real, d: DrawingDirection, b: Box, cfg: Config, i: nat, s: real)
    requires !cfg.filling
    ensures var r, f := Bar(step, d, b, cfg, i, s), Bar(step, d, b, cfg.(filling := true), i, s);
      var t := cfg.linesThickness;
      && r.x - t / 2.0 == f.x && r.y - t / 2.0 == f.y
      && r.width + t == f.width && r.height + t == f.height
  {
    var g, t := cfg.(filling := true), cfg.linesThickness;
    assert g.itemsOffset == cfg.itemsOffset && HalfInset(g) == 0.0 && FullInset(g) == 0.0;
    assert HalfInset(cfg) == t / 2.0 && FullInset(cfg) == t;
    var across := step * (1.0 - cfg.itemsOffset * 2.0);
    var along := step * (i as real + cfg.itemsOffset);
    assert SlotStart(b.x, step, i, cfg) == b.x + along + t / 2.0 && SlotStart(b.x, step, i, g) == b.x + along;
    assert SlotStart(b.y, step, i, cfg) == b.y + along + t / 2.0 && SlotStart(b.y, step, i, g) == b.y + along;
  }

  /** Bars of BottomTop are those of TopBottom reflected across the horizontal centre
      line, and RightLeft those of LeftRight across the vertical one. A stroked bar is
      inset on both ends, so stroked bars reflect as well. */
  lemma BarsDirectionsReflect(step: real, b: Box, cfg: Config, i: nat, s: real)
    ensures var t, u := Bar(step, TopBottom, b, cfg, i, s), Bar(step, BottomTop, b, cfg, i, s);
      && u.x == t.x && u.width == t.width && u.height == t.height
      && u.y - b.y == (b.y + b.height) - (t.y + t.height)
    ensures var l, r := Bar(step, LeftRight, b, cfg, i, s), Bar(step, RightLeft, b, cfg, i, s);
      && r.y == l.y && r.width == l.width && r.height == l.height
      && r.x - b.x == (b.x + b.width) - (l.x + l.width)
  {
  }

  /** A length `ext * s` with s in [0, 1] fits in `ext`, from either end. */
  lemma LengthInRange(ext: real, s: real)
    requires ext >= 0.0 && 0.0 <= s <= 1.0
    ensures 0.0 <= ext * s <= ext && 0.0 <= ext * (1.0 - s) && ext * (1.0 - s) + ext * s == ext
  {
    NonNegativeProduct(ext, s);
    NonNegativeProduct(ext, 1.0 - s);
  }

  /** The side of a filled bar across the sample axis: the slot of sample i. */
  lemma FilledBarAcross(step: real, d: DrawingDirection, b: Box, cfg: Config, i: nat, s: real)
    requires cfg.filling
    ensures var c, across := Bar(step, d, b, cfg, i, s), step * (1.0 - cfg.itemsOffset * 2.0);
      && (IsVertical(d) ==> c.x == SlotStart(b.x, step, i, cfg) && c.width == across)
      && (!IsVertical(d) ==> c.y == SlotStart(b.y, step, i, cfg) && c.height == across)
  {
  }

  /** Across the sample axis a filled bar stays within slot i of n. */
  lemma BarAcrossInSlot(step: real, n: nat, d: DrawingDirection, b: Box, cfg: Config, i: nat, s: real)
    requires cfg.filling && 0.0 <= cfg.itemsOffset <= 0.5 && i < n
    requires step >= 0.0 && step * n as real == Extent(d, b)
    ensures var c := Bar(step, d, b, cfg, i, s);
      && (IsVertical(d) ==> b.x <= c.x && c.x + c.width <= b.x + b.width)
      && (!IsVertical(d) ==> b.y <= c.y && c.y + c.height <= b.y + b.height)
  {
    var across := step * (1.0 - cfg.itemsOffset * 2.0);
    FilledBarAcross(step, d, b, cfg, i, s);
    if IsVertical(d) {
      SlotInRange(b.x, b.width, step, across, n, i, cfg);
    } else {
      SlotInRange(b.y, b.height, step, across, n, i, cfg);
    }
  }

  /** Along the magnitude axis a filled bar of a sample in [0, 1] stays within the box. */
  lemma BarLengthInBox(step: real, d: DrawingDirection, b: Box, cfg: Config, i: nat, s: real)
    requires cfg.filling && b.width >= 0.0 && b.height >= 0.0 && 0.0 <= s <= 1.0
    ensures var c := Bar(step, d, b, cfg, i, s);
      && (IsVertical(d) ==> b.y <= c.y && c.y + c.height <= b.y + b.height)
      && (!IsVertical(d) ==> b.x <= c.x && c.x + c.width <= b.x + b.width)
  {
    FilledBarFromBaseline(step, d, b, cfg, i, s);
    if IsVertical(d) {
      LengthInRange(b.height, s);
    } else {
      LengthInRange(b.width, s);
    }
  }

  /** With the offset in [0, 1/2], a filled bar of a sample in [0, 1] lies within
      the box. */
  lemma BarInBox(n: nat, d: DrawingDirection, b: Box, cfg: Config, i: nat, s: real)
    requires cfg.filling && 0.0 <= cfg.itemsOffset <= 0.5
    requires b.width >= 0.0 && b.height >= 0.0
    requires i < n && 0.0 <= s <= 1.0
    ensures var c := Bar(Step(Extent(d, b), n), d, b, cfg, i, s);
      && b.x <= c.x && c.x + c.width <= b.x + b.width
      && b.y <= c.y && c.y + c.height <= b.y + b.height
  {
    StepSpansExtent(Extent(d, b), n);
    BarAcrossInSlot(Step(Extent(d, b), n), n, d, b, cfg, i, s);
    BarLengthInBox(Step(Extent(d, b), n), d, b, cfg, i, s);
  }

  /** With no line thickness the insets vanish, so a filled and an outlined bar are
      the same command: the trace cannot tell them apart. */
  lemma BarStyleUnseenAtZeroThickness(step: real, d: DrawingDirection, b: Box, cfg: Config, i: nat, s: real)
    requires cfg.linesThickness == 0.0
    ensures Bar(step, d, b, cfg, i, s) == Bar(step, d, b, cfg.(filling := !cfg.filling), i, s)
  {
    var g := cfg.(filling := !cfg.filling);
    assert HalfInset(cfg) == HalfInset(g) == 0.0 && FullInset(cfg) == FullInset(g) == 0.0;
    assert SlotStart(b.x, step, i, cfg) == SlotStart(b.x, step, i, g);
    assert SlotStart(b.y, step, i, cfg) == SlotStart(b.y, step, i, g);
  }

  /** With no line thickness the bars drawn filled and outlined are the same. */
  lemma {:induction false} BarsStyleUnseenAtZeroThickness(sample: seq<real>, d: DrawingDirection, b: Box, cfg: Config, k: nat)
    requires k <= |sample| && cfg.linesThickness == 0.0
    ensures BarsCommands(sample, d, b, cfg, k) == BarsCommands(sample, d, b, cfg.(filling := !cfg.filling), k)
  {
    if k > 0 {
      BarsStyleUnseenAtZeroThickness(sample, d, b, cfg, k - 1);
      BarStyleUnseenAtZeroThickness(Step(Extent(d, b), |sample|), d, b, cfg, k - 1, sample[k - 1]);
    }
  }
}
