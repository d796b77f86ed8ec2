/** The Particles strategy: one round-rect per sample, placed along the magnitude
    axis at a height given by the sample. */
module Particles {
  import opened RenderTypes
  import opened CanvasSink
  import opened Items

  /** Like the Levels layout, with the magnitude axis cut into eleven parts. */
  function ParticlesLayout(n: nat, d: DrawingDirection, b: Box, cfg: Config): Layout
  {
    var step, keep, ins := Step(Extent(d, b), n), 1.0 - cfg.itemsOffset * 2.0, HalfInset(cfg);
    if IsVertical(d) then Layout(step, step * keep - ins, b.height / 11.0 * keep - ins)
    else Layout(step, b.width / 11.0 * keep - ins, step * keep - ins)
  }

  /** `lo + ext / 11 * 10 * v + ext / 11 * ItemsOffset + inset`: where a particle at
      fraction v of the axis starts. */
  function Height(lo: real, ext: real, v: real, cfg: Config): real
  {
    lo + ext / 11.0 * 10.0 * v + ext / 11.0 * cfg.itemsOffset + HalfInset(cfg)
  }

  /** The particle of sample i with value s. TopBottom and LeftRight measure s from
      the near edge, BottomTop and RightLeft from the far edge. */
  function Particle(lay: Layout, d: DrawingDirection, b: Box, cfg: Config, i: nat, s: real): Command
  {
    var w, h, rnd := lay.itemWidth, lay.itemHeight, cfg.itemsRoundness;
    match d
    case TopBottom => RoundRect(SlotStart(b.x, lay.step, i, cfg), Height(b.y, b.height, s, cfg), w, h, w / 2.0 * rnd, h / 2.0 * rnd)
    case BottomTop => RoundRect(SlotStart(b.x, lay.step, i, cfg), Height(b.y, b.height, 1.0 - s, cfg), w, h, w / 2.0 * rnd, h / 2.0 * rnd)
    case LeftRight => RoundRect(Height(b.x, b.width, s, cfg), SlotStart(b.y, lay.step, i, cfg), w, h, w / 2.0 * rnd, h / 2.0 * rnd)
    case RightLeft => RoundRect(Height(b.x, b.width, 1.0 - s, cfg), SlotStart(b.y, lay.step, i, cfg), w, h, w / 2.0 * rnd, h / 2.0 * rnd)
  }

  /** What the strategy draws for the first k samples. */
  function ParticlesCommands(sample: seq<real>, d: DrawingDirection, b: Box, cfg: Config, k: nat): seq<Command>
    requires k <= |sample|
  {
    if k == 0 then []
    else ParticlesCommands(sample, d, b, cfg, k - 1) + [Particle(ParticlesLayout(|sample|, d, b, cfg), d, b, cfg, k - 1, sample[k - 1])]
  }

  /** Exactly one particle per sample, in index order, each an item of the layout. */
  lemma {:induction false} ParticlesOnePerSample(sample: seq<real>, d: DrawingDirection, b: Box, cfg: Config, k: nat)
    requires k <= |sample|
    ensures |ParticlesCommands(sample, d, b, cfg, k)| == k
    ensures forall i :: 0 <= i < k ==>
      ParticlesCommands(sample, d, b, cfg, k)[i] == Particle(ParticlesLayout(|sample|, d, b, cfg), d, b, cfg, i, sample[i])
    ensures forall i :: 0 <= i < k ==>
      IsItem(ParticlesCommands(sample, d, b, cfg, k)[i], ParticlesLayout(|sample|, d, b, cfg), cfg)
  {
    if k > 0 {
      ParticlesOnePerSample(sample, d, b, cfg, k - 1);
      var lay := ParticlesLayout(|sample|, d, b, cfg);
      assert IsItem(Particle(lay, d, b, cfg, k - 1, sample[k - 1]), lay, cfg);
    }
  }

  /** The particle moves linearly with the sample: between values s and t it shifts
      by 10/11 of the extent times t - s along the magnitude axis (towards the near
      edge for BottomTop and RightLeft), and nothing else about it changes. */
  lemma ParticleLinear(lay: Layout, d: DrawingDirection, b: Box, cfg: Config, i: nat, s: real, t: real)
    ensures var p, q := Particle(lay, d, b, cfg, i, s), Particle(lay, d, b, cfg, i, t);
      && q.width == p.width && q.height == p.height && q.rx == p.rx && q.ry == p.ry
      && (d == TopBottom ==> q.x == p.x && q.y - p.y == b.height / 11.0 * 10.0 * (t - s))
      && (d == BottomTop ==> q.x == p.x && q.y - p.y == b.height / 11.0 * 10.0 * (s - t))
      && (d == LeftRight ==> q.y == p.y && q.x - p.x == b.width / 11.0 * 10.0 * (t - s))
      && (d == RightLeft ==> q.y == p.y && q.x - p.x == b.width / 11.0 * 10.0 * (s - t))
  {
    HeightShift(b.y, b.height, s, t, cfg);
    HeightShift(b.x, b.width, s, t, cfg);
  }

  /** Moving from fraction v to fraction w moves the particle by 10/11 of the extent
      times w - v. */
  lemma HeightShift(lo: real, ext: real, v: real, w: real, cfg: Config)
    ensures Height(lo, ext, w, cfg) - Height(lo, ext, v, cfg) == ext / 11.0 * 10.0 * (w - v)
    ensures Height(lo, ext, 1.0 - w, cfg) - Height(lo, ext, 1.0 - v, cfg) == ext / 11.0 * 10.0 * (v - w)
  {
    EleventhsShift(lo, ext, v, w, cfg.itemsOffset);
  }

  /** A filled particle at fraction v and one at 1 - v are mirror images within the
      length `ext`. */
  lemma HeightsReflect(lo: real, ext: real, cfg: Config, v: real)
    requires cfg.filling
    ensures Height(lo, ext, 1.0 - v, cfg) - lo
         == (lo + ext) - (Height(lo, ext, v, cfg) + (ext / 11.0 * (1.0 - cfg.itemsOffset * 2.0) - HalfInset(cfg)))
  {
    EleventhsMirror(lo, ext, v, 1.0 - v, cfg.itemsOffset, HalfInset(cfg));
  }

  /** Filled particles of BottomTop are those of TopBottom reflected across the
      horizontal centre line, and RightLeft those of LeftRight across the vertical
      one. */
  lemma ParticlesDirectionsReflect(n: nat, b: Box, cfg: Config, i: nat, s: real)
    requires cfg.filling
    ensures var t, u := Particle(ParticlesLayout(n, TopBottom, b, cfg), TopBottom, b, cfg, i, s),
                        Particle(ParticlesLayout(n, BottomTop, b, cfg), BottomTop, b, cfg, i, s);
      && u.x == t.x && u.width == t.width && u.height == t.height
      && u.y - b.y == (b.y + b.height) - (t.y + t.height)
    ensures var l, r := Particle(ParticlesLayout(n, LeftRight, b, cfg), LeftRight, b, cfg, i, s),
                        Particle(ParticlesLayout(n, RightLeft, b, cfg), RightLeft, b, cfg, i, s);
      && r.y == l.y && r.width == l.width && r.height == l.height
      && r.x - b.x == (b.x + b.width) - (l.x + l.width)
  {
    HeightsReflect(b.y, b.height, cfg, s);
    HeightsReflect(b.x, b.width, cfg, s);
  }

  /** A filled particle at fraction v in [0, 1] lies within [lo, lo + ext]. */
  lemma HeightInRange(lo: real, ext: real, size: real, v: real, cfg: Config)
    requires cfg.filling && 0.0 <= cfg.itemsOffset <= 0.5 && ext >= 0.0 && 0.0 <= v <= 1.0
    requires size == ext / 11.0 * (1.0 - cfg.itemsOffset * 2.0)
    ensures lo <= Height(lo, ext, v, cfg) && Height(lo, ext, v, cfg) + size <= lo + ext
  {
    EleventhWithin(lo, ext, v, cfg.itemsOffset, HalfInset(cfg), size);
  }

  /** Where a filled particle sits: its slot on the sample axis, its height on the
      magnitude axis, and the sizes of the layout. */
  lemma FilledParticlePlacement(n: nat, d: DrawingDirection, b: Box, cfg: Config, i: nat, s: real)
    requires cfg.filling
    ensures var lay, c, keep := ParticlesLayout(n, d, b, cfg), Particle(ParticlesLayout(n, d, b, cfg), d, b, cfg, i, s), 1.0 - cfg.itemsOffset * 2.0;
      && lay.step == Step(Extent(d, b), n) && c.width == lay.itemWidth && c.height == lay.itemHeight
      && (IsVertical(d) ==> c.x == SlotStart(b.x, lay.step, i, cfg) && lay.itemWidth == lay.step * keep && lay.itemHeight == b.height / 11.0 * keep)
      && (!IsVertical(d) ==> c.y == SlotStart(b.y, lay.step, i, cfg) && lay.itemHeight == lay.step * keep && lay.itemWidth == b.width / 11.0 * keep)
      && (d == TopBottom ==> c.y == Height(b.y, b.height, s, cfg))
      && (d == BottomTop ==> c.y == Height(b.y, b.height, 1.0 - s, cfg))
      && (d == LeftRight ==> c.x == Height(b.x, b.width, s, cfg))
      && (d == RightLeft ==> c.x == Height(b.x, b.width, 1.0 - s, cfg))
  {
  }

  /** The sample axis of a filled particle: it starts in slot i of n slots of length
      `step` covering [lo, lo + ext] and has the size of a shrunk slot. */
  lemma ParticleAcross(n: nat, d: DrawingDirection, b: Box, cfg: Config, i: nat, s: real)
    returns (lo: real, ext: real, step: real, size: real)
    requires cfg.filling && n > 0 && Extent(d, b) >= 0.0
    ensures step >= 0.0 && step * n as real == ext && size == step * (1.0 - cfg.itemsOffset * 2.0)
    ensures var c := Particle(ParticlesLayout(n, d, b, cfg), d, b, cfg, i, s);
      && (IsVertical(d) ==> lo == b.x && ext == b.width && c.x == SlotStart(lo, step, i, cfg) && c.width == size)
      && (!IsVertical(d) ==> lo == b.y && ext == b.height && c.y == SlotStart(lo, step, i, cfg) && c.height == size)
  {
    StepSpansExtent(Extent(d, b), n);
    FilledParticlePlacement(n, d, b, cfg, i, s);
    step := Step(Extent(d, b), n);
    size := step * (1.0 - cfg.itemsOffset * 2.0);
    if IsVertical(d) {
      lo, ext := b.x, b.width;
    } else {
      lo, ext := b.y, b.height;
    }
  }

  /** Across the sample axis a filled particle of sample i < n stays within its slot. */
  lemma ParticleAcrossInSlot(n: nat, d: DrawingDirection, b: Box, cfg: Config, i: nat, s: real)
    requires cfg.filling && 0.0 <= cfg.itemsOffset <= 0.5 && i < n
    requires Extent(d, b) >= 0.0
    ensures var c := Particle(ParticlesLayout(n, d, b, cfg), d, b, cfg, i, s);
      && (IsVertical(d) ==> b.x <= c.x && c.x + c.width <= b.x + b.width)
      && (!IsVertical(d) ==> b.y <= c.y && c.y + c.height <= b.y + b.height)
  {
    var lo, ext, step, size := ParticleAcross(n, d, b, cfg, i, s);
    SlotInRange(lo, ext, step, size, n, i, cfg);
  }

  /** The magnitude axis of a filled particle: it starts at fraction v of the ten
      elevenths of [lo, lo + ext] and has the size of a shrunk eleventh. */
  lemma ParticleAlong(n: nat, d: DrawingDirection, b: Box, cfg: Config, i: nat, s: real)
    returns (lo: real, ext: real, size: real, v: real)
    requires cfg.filling
    ensures (v == s || v == 1.0 - s) && size == ext / 11.0 * (1.0 - cfg.itemsOffset * 2.0)
    ensures var c := Particle(ParticlesLayout(n, d, b, cfg), d, b, cfg, i, s);
      && (IsVertical(d) ==> lo == b.y && ext == b.height && c.y == Height(lo, ext, v, cfg) && c.height == size)
      && (!IsVertical(d) ==> lo == b.x && ext == b.width && c.x == Height(lo, ext, v, cfg) && c.width == size)
  {
    FilledParticlePlacement(n, d, b, cfg, i, s);
    if IsVertical(d) {
      lo, ext := b.y, b.height;
    } else {
      lo, ext := b.x, b.width;
    }
    size := ext / 11.0 * (1.0 - cfg.itemsOffset * 2.0);
    v := if d == TopBottom || d == LeftRight then s else 1.0 - s;
  }

  /** Along the magnitude axis a filled particle of a sample in [0, 1] stays within
      the box. */
  lemma ParticleAlongInBox(n: nat, d: DrawingDirection, b: Box, cfg: Config, i: nat, s: real)
    requires cfg.filling && 0.0 <= cfg.itemsOffset <= 0.5
    requires b.width >= 0.0 && b.height >= 0.0 && 0.0 <= s <= 1.0
    ensures var c := Particle(ParticlesLayout(n, d, b, cfg), d, b, cfg, i, s);
      && (IsVertical(d) ==> b.y <= c.y && c.y + c.height <= b.y + b.height)
      && (!IsVertical(d) ==> b.x <= c.x && c.x + c.width <= b.x + b.width)
  {
    var lo, ext, size, v := ParticleAlong(n, d, b, cfg, i, s);
    HeightInRange(lo, ext, size, v, cfg);
  }

  /** With the offset in [0, 1/2], a filled particle of a sample in [0, 1] lies
      within the box. */
  lemma ParticleInBox(n: nat, d: DrawingDirection, b: Box, cfg: Config, i: nat, s: real)
    requires cfg.filling && 0.0 <= cfg.itemsOffset <= 0.5
    requires b.width >= 0.0 && b.height >= 0.0
    requires i < n && 0.0 <= s <= 1.0
    ensures var c := Particle(ParticlesLayout(n, d, b, cfg), d, b, cfg, i, s);
      && b.x <= c.x && c.x + c.width <= b.x + b.width
      && b.y <= c.y && c.y + c.height <= b.y + b.height
  {
    ParticleAcrossInSlot(n, d, b, cfg, i, s);
    ParticleAlongInBox(n, d, b, cfg, i, s);
  }
}
