/** The Spine strategy: one square per non-zero sample, centred on the middle line
    of the box and sized by the sample. */
module Spine {
  import opened RenderTypes
  import opened CanvasSink
  import opened Samples

  /** `step * (1 - 2 ItemsOffset) - inset`: the side of the square of a sample of 1. */
  function ItemSize(step: real, cfg: Config): real
  {
    step * (1.0 - cfg.itemsOffset * 2.0) - FullInset(cfg)
  }

  /** The square of sample i with value s. On the sample axis its start is written
      `step * (i + 1/2) + (1 - side) / 2`, which puts its centre half a unit past the
      centre of the slot; that position is kept as the renderer computes it. */
  function Square(step: real, d: DrawingDirection, b: Box, cfg: Config, i: nat, s: real): Command
  {
    var side := ItemSize(step, cfg) * s;
    var r := side / 2.0 * cfg.itemsRoundness;
    if IsVertical(d) then
      RoundRect(b.x + step * (i as real + 0.5) + (1.0 - side) / 2.0, b.y + b.height / 2.0 - side / 2.0, side, side, r, r)
    else
      RoundRect(b.x + b.width / 2.0 - side / 2.0, b.y + step * (i as real + 0.5) + (1.0 - side) / 2.0, side, side, r, r)
  }

  /** What the strategy draws for the first k samples: nothing for a zero sample. */
  function SpineCommands(sample: seq<real>, d: DrawingDirection, b: Box, cfg: Config, k: nat): seq<Command>
    requires k <= |sample|
  {
    if k == 0 then []
    else
      SpineCommands(sample, d, b, cfg, k - 1)
      + (if sample[k - 1] == 0.0 then [] else [Square(Step(Extent(d, b), |sample|), d, b, cfg, k - 1, sample[k - 1])])
  }

  /** One square per non-zero sample and none for a zero sample. */
  lemma {:induction false} SpineCount(sample: seq<real>, d: DrawingDirection, b: Box, cfg: Config, k: nat)
    requires k <= |sample|
    ensures |SpineCommands(sample, d, b, cfg, k)| == Tally(sample[..k], NonZero)
    ensures forall m :: 0 <= m < |SpineCommands(sample, d, b, cfg, k)| ==> SpineCommands(sample, d, b, cfg, k)[m].RoundRect?
  {
    if k > 0 {
      SpineCount(sample, d, b, cfg, k - 1);
      assert sample[..k][..k - 1] == sample[..k - 1];
    }
  }

  /** The square of a non-zero sample i comes right after the squares of the
      non-zero samples before it. */
  lemma {:induction false} SpineOrder(sample: seq<real>, d: DrawingDirection, b: Box, cfg: Config, k: nat, i: nat)
    requires i < k <= |sample| && sample[i] != 0.0
    ensures Tally(sample[..i], NonZero) < |SpineCommands(sample, d, b, cfg, k)|
    ensures SpineCommands(sample, d, b, cfg, k)[Tally(sample[..i], NonZero)]
         == Square(Step(Extent(d, b), |sample|), d, b, cfg, i, sample[i])
  {
    SpineCount(sample, d, b, cfg, k - 1);
    SpineCount(sample, d, b, cfg, i);
    if i < k - 1 {
      SpineOrder(sample, d, b, cfg, k - 1, i);
    }
  }

  /** Each item is a square whose side is the item size times the sample, with both
      corner radii half the side scaled by the roundness. */
  lemma SquareShape(step: real, d: DrawingDirection, b: Box, cfg: Config, i: nat, s: real)
    ensures var c, side := Square(step, d, b, cfg, i, s), ItemSize(step, cfg) * s;
      && c.RoundRect? && c.width == side && c.height == side
      && c.rx == side / 2.0 * cfg.itemsRoundness && c.ry == c.rx
  {
  }

  /** On the magnitude axis the square is centred on the middle of the box; on the
      sample axis its centre sits half a unit past the centre of slot i. */
  lemma SquareCentre(step: real, d: DrawingDirection, b: Box, cfg: Config, i: nat, s: real)
    ensures var c := Square(step, d, b, cfg, i, s);
      && (IsVertical(d) ==>
            && c.y + c.height / 2.0 == b.y + b.height / 2.0
            && c.x + c.width / 2.0 == b.x + step * (i as real + 0.5) + 0.5)
      && (!IsVertical(d) ==>
            && c.x + c.width / 2.0 == b.x + b.width / 2.0
            && c.y + c.height / 2.0 == b.y + step * (i as real + 0.5) + 0.5)
  {
  }

  /** A square depends only on the axis of the direction, not on its sense. */
  lemma SquareIgnoresSense(step: real, b: Box, cfg: Config, i: nat, s: real)
    ensures Square(step, TopBottom, b, cfg, i, s) == Square(step, BottomTop, b, cfg, i, s)
    ensures Square(step, LeftRight, b, cfg, i, s) == Square(step, RightLeft, b, cfg, i, s)
  {
  }

  /** The two directions of one axis draw the same squares. */
  lemma {:induction false} SpineIgnoresSense(sample: seq<real>, b: Box, cfg: Config, k: nat)
    requires k <= |sample|
    ensures SpineCommands(sample, TopBottom, b, cfg, k) == SpineCommands(sample, BottomTop, b, cfg, k)
    ensures SpineCommands(sample, LeftRight, b, cfg, k) == SpineCommands(sample, RightLeft, b, cfg, k)
  {
    if k > 0 {
      SpineIgnoresSense(sample, b, cfg, k - 1);
      var n := |sample|;
      assert Step(Extent(TopBottom, b), n) == Step(Extent(BottomTop, b), n);
      assert Step(Extent(LeftRight, b), n) == Step(Extent(RightLeft, b), n);
      SquareIgnoresSense(Step(Extent(TopBottom, b), n), b, cfg, k - 1, sample[k - 1]);
      SquareIgnoresSense(Step(Extent(LeftRight, b), n), b, cfg, k - 1, sample[k - 1]);
    }
  }

  /** With no line thickness the insets vanish, so a filled and an outlined square
      are the same command: the trace cannot tell them apart. */
  lemma SquareStyleUnseenAtZeroThickness(step: real, d: DrawingDirection, b: Box, cfg: Config, i: nat, s: real)
    requires cfg.linesThickness == 0.0
    ensures Square(step, d, b, cfg, i, s) == Square(step, d, b, cfg.(filling := !cfg.filling), i, s)
  {
  }

  /** With no line thickness the squares drawn filled and outlined are the same. */
  lemma {:induction false} SpineStyleUnseenAtZeroThickness(sample: seq<real>, d: DrawingDirection, b: Box, cfg: Config, k: nat)
    requires k <= |sample| && cfg.linesThickness == 0.0
    ensures SpineCommands(sample, d, b, cfg, k) == SpineCommands(sample, d, b, cfg.(filling := !cfg.filling), k)
  {
    if k > 0 {
      SpineStyleUnseenAtZeroThickness(sample, d, b, cfg, k - 1);
      SquareStyleUnseenAtZeroThickness(Step(Extent(d, b), |sample|), d, b, cfg, k - 1, sample[k - 1]);
    }
  }
}
