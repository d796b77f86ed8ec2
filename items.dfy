/** What the item strategies (Levels, Particles, Bars, Spine) share: one slot per
    sample along the sample axis. */
module Items {
  import opened RenderTypes
  import opened CanvasSink

  /** The locals a strategy computes once before its loop: the distance between
      samples and the size of every item. */
  datatype Layout = Layout(step: real, itemWidth: real, itemHeight: real)

  /** `lo + step * (i + ItemsOffset) + inset`: where item i starts on the sample axis. */
  function SlotStart(lo: real, step: real, i: nat, cfg: Config): real
  {
    lo + step * (i as real + cfg.itemsOffset) + HalfInset(cfg)
  }

  /** A round-rect of the layout's item size whose corner radii are half of that
      size scaled by the roundness. */
  predicate IsItem(c: Command, lay: Layout, cfg: Config)
  {
    && c.RoundRect? && c.width == lay.itemWidth && c.height == lay.itemHeight
    && c.rx == lay.itemWidth / 2.0 * cfg.itemsRoundness && c.ry == lay.itemHeight / 2.0 * cfg.itemsRoundness
  }

  /** Item i of n, of size `size`, along the sample axis lies within [lo, lo + ext]
      when filled. */
  lemma SlotInRange(lo: real, ext: real, step: real, size: real, n: nat, i: nat, cfg: Config)
    requires cfg.filling && 0.0 <= cfg.itemsOffset <= 0.5 && i < n
    requires step >= 0.0 && step * n as real == ext
    requires size == step * (1.0 - cfg.itemsOffset * 2.0)
    ensures lo <= SlotStart(lo, step, i, cfg) && SlotStart(lo, step, i, cfg) + size <= lo + ext
  {
    SlotWithin(lo, ext, step, i as real, cfg.itemsOffset, n as real, HalfInset(cfg), size);
  }
}
