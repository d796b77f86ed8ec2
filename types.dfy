/** Values the renderer reads once per frame: the drawing configuration and the
    rectangle a strategy draws into. */
module RenderTypes {

  datatype DrawingMode = WaveBox | LevelsBox | ParticlesBox | BarsBox | SpineBox

  /** Declared in this order; the renderer tests `direction < LeftRight`. */
  datatype DrawingDirection = TopBottom | BottomTop | LeftRight | RightLeft

  datatype Mirror = Off | Full | SplitChannels

  /** The snapshot of the settings that one frame is drawn with. */
  datatype Config = Config(
    mode: DrawingMode,
    direction: DrawingDirection,
    mirror: Mirror,
    filling: bool,
    linesThickness: real,
    itemsOffset: real,
    itemsRoundness: real)

  /** The sub-viewport a strategy draws into (its `x, y, width, height` arguments). */
  datatype Box = Box(x: real, y: real, width: real, height: real)

  /** Position of a direction in its declaration order. */
  function Ordinal(d: DrawingDirection): nat
  {
    match d
    case TopBottom => 0
    case BottomTop => 1
    case LeftRight => 2
    case RightLeft => 3
  }

  /** Samples are laid out along the width and magnitude grows along the height.
      Agrees with the ordinal test the renderer uses. */
  predicate IsVertical(d: DrawingDirection)
    ensures IsVertical(d) <==> Ordinal(d) < Ordinal(LeftRight)
  {
    d == TopBottom || d == BottomTop
  }

  /** Start of the axis along which the samples are laid out. */
  function Origin(d: DrawingDirection, b: Box): real
  {
    if IsVertical(d) then b.x else b.y
  }

  /** Length of the axis along which the samples are laid out. */
  function Extent(d: DrawingDirection, b: Box): real
  {
    if IsVertical(d) then b.width else b.height
  }

  /** `extent / count`. With count 0 the renderer divides by zero in floating point,
      giving an infinity, or NaN when the extent is 0 too; it flows into the item sizes,
      but no item or cubic that uses it is drawn, so 0 stands in for it. */
  function Step(extent: real, count: nat): real
  {
    if count == 0 then 0.0 else extent / count as real
  }

  /** `Filling ? 0 : LinesThickness / 2` */
  function HalfInset(cfg: Config): real
  {
    if cfg.filling then 0.0 else cfg.linesThickness / 2.0
  }

  /** `Filling ? 0 : LinesThickness` */
  function FullInset(cfg: Config): real
  {
    if cfg.filling then 0.0 else cfg.linesThickness
  }

  /** `count` steps cover the extent exactly. */
  lemma StepSpansExtent(extent: real, count: nat)
    requires count > 0
    ensures Step(extent, count) * count as real == extent
    ensures extent >= 0.0 ==> Step(extent, count) >= 0.0
  {
  }

  lemma NonNegativeProduct(a: real, b: real)
    requires a >= 0.0 && b >= 0.0
    ensures a * b >= 0.0
  {
  }

  /** Tenth k (0 <= k <= 9) of `ext`, shrunk by `off` on both sides, moved on by the
      inset `ins` and shortened by it to `size`, lies within `ext`; written in the
      shape of the Levels strategy. */
  lemma TenthWithin(lo: real, ext: real, k: real, off: real, ins: real, size: real)
    requires ext >= 0.0 && 0.0 <= k <= 9.0 && 0.0 <= off <= 0.5 && ins >= 0.0
    requires size == ext / 10.0 * (1.0 - off * 2.0) - ins
    ensures lo <= lo + ext / 10.0 * k + ext / 10.0 * off + ins
    ensures (lo + ext / 10.0 * k + ext / 10.0 * off + ins) + size <= lo + ext
  {
    var u := ext / 10.0;
    NonNegativeProduct(u, k + off);
    NonNegativeProduct(u, 9.0 - k + off);
    assert u * (k + off) == u * k + u * off;
    assert size == u - u * off * 2.0 - ins;
    assert u * (9.0 - k + off) == u * 9.0 - u * k + u * off;
  }

  /** Tenths k and c = 9 - k, each moved on by the inset `ins` and shortened by it,
      are mirror images within `ext` but for a further shift by `ins`. */
  lemma TenthsMirror(lo: real, ext: real, k: real, c: real, off: real, ins: real)
    requires k + c == 9.0
    ensures (lo + ext / 10.0 * c + ext / 10.0 * off + ins) - lo
         == (lo + ext) - ((lo + ext / 10.0 * k + ext / 10.0 * off + ins) + (ext / 10.0 * (1.0 - off * 2.0) - ins)) + ins
  {
    assert c == 9.0 - k;
    assert ext * c == ext * 9.0 - ext * k;
  }

  /** A particle at fraction v in [0, 1] of the ten elevenths of `ext`, shrunk by
      `off` on both sides, moved on by the inset `ins` and shortened by it to `size`,
      lies within `ext`; written in the shape of the Particles strategy. */
  lemma EleventhWithin(lo: real, ext: real, v: real, off: real, ins: real, size: real)
    requires ext >= 0.0 && 0.0 <= v <= 1.0 && 0.0 <= off <= 0.5 && ins >= 0.0
    requires size == ext / 11.0 * (1.0 - off * 2.0) - ins
    ensures lo <= lo + ext / 11.0 * 10.0 * v + ext / 11.0 * off + ins
    ensures (lo + ext / 11.0 * 10.0 * v + ext / 11.0 * off + ins) + size <= lo + ext
  {
    var u := ext / 11.0;
    NonNegativeProduct(u, 10.0 * v + off);
    NonNegativeProduct(u, 10.0 - 10.0 * v + off);
    assert u * 10.0 * v == u * (10.0 * v);
    assert u * (10.0 * v + off) == u * (10.0 * v) + u * off;
    assert size == u - u * off * 2.0 - ins;
    assert u * (10.0 - 10.0 * v + off) == u * 10.0 - u * (10.0 * v) + u * off;
    assert ext == u * 10.0 + u;
    assert (lo + u * 10.0 * v + u * off + ins) + size == lo + u * 10.0 * v + u - u * off;
    assert lo <= lo + u * 10.0 * v + u * off + ins;
    assert lo + u * 10.0 * v + u - u * off <= lo + ext;
  }

  /** Fractions v and c = 1 - v of the ten elevenths, each moved on by the inset
      `ins` and shortened by it, are mirror images within `ext` but for a further
      shift by `ins`. */
  lemma EleventhsMirror(lo: real, ext: real, v: real, c: real, off: real, ins: real)
    requires v + c == 1.0
    ensures (lo + ext / 11.0 * 10.0 * c + ext / 11.0 * off + ins) - lo
         == (lo + ext) - ((lo + ext / 11.0 * 10.0 * v + ext / 11.0 * off + ins) + (ext / 11.0 * (1.0 - off * 2.0) - ins)) + ins
  {
    assert c == 1.0 - v;
    assert ext * c == ext - ext * v;
  }

  /** Moving from fraction v to w of the ten elevenths of `ext` moves by
      10/11 of `ext` times w - v, and from 1 - v to 1 - w by the opposite. */
  lemma EleventhsShift(lo: real, ext: real, v: real, w: real, off: real)
    ensures (lo + ext / 11.0 * 10.0 * w + ext / 11.0 * off) - (lo + ext / 11.0 * 10.0 * v + ext / 11.0 * off)
         == ext / 11.0 * 10.0 * (w - v)
    ensures (lo + ext / 11.0 * 10.0 * (1.0 - w) + ext / 11.0 * off) - (lo + ext / 11.0 * 10.0 * (1.0 - v) + ext / 11.0 * off)
         == ext / 11.0 * 10.0 * (v - w)
  {
    assert ext * (w - v) == ext * w - ext * v;
    assert ext * (1.0 - w) - ext * (1.0 - v) == ext * (v - w);
  }

  /** Slot k of m slots of length u starting at lo, shrunk by the fraction `off` on
      both sides, moved on by the inset `ins` and shortened by at least it to `size`,
      lies within the m slots. */
  lemma SlotWithin(lo: real, ext: real, u: real, k: real, off: real, m: real, ins: real, size: real)
    requires u >= 0.0 && u * m == ext && 0.0 <= k && k + 1.0 <= m && 0.0 <= off <= 0.5 && ins >= 0.0
    requires size <= u * (1.0 - off * 2.0) - ins
    ensures lo <= lo + u * (k + off) + ins
    ensures (lo + u * (k + off) + ins) + size <= lo + ext
  {
    NonNegativeProduct(u, k + off);
    NonNegativeProduct(u, m - (k + 1.0 - off));
    assert u * (k + off) + u * (1.0 - off * 2.0) == u * (k + 1.0 - off);
    assert u * (m - (k + 1.0 - off)) == u * m - u * (k + 1.0 - off);
  }
}
