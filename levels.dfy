/** The Levels strategy: each sample lights a column of up to ten stacked cells. */
module Levels {
  import opened RenderTypes
  import opened CanvasSink
  import opened Items
  import opened Samples

  /** Cells lit by a sample: the number of j >= 0 with j < floor(10 s). */
  function LitCells(s: real): (r: nat)
    ensures s < 0.1 ==> r == 0
    ensures s >= 0.0 ==> r as real <= s * 10.0 < (r + 1) as real
  {
    var f := (s * 10.0).Floor;
    if f < 0 then 0 else f
  }

  function LevelsLayout(n: nat, d: DrawingDirection, b: Box, cfg: Config): Layout
  {
    var step, keep, ins := Step(Extent(d, b), n), 1.0 - cfg.itemsOffset * 2.0, HalfInset(cfg);
    if IsVertical(d) then Layout(step, step * keep - ins, b.height / 10.0 * keep - ins)
    else Layout(step, b.width / 10.0 * keep - ins, step * keep - ins)
  }

  /** `lo + ext / 10 * k + ext / 10 * ItemsOffset + inset`: where the cell k tenths from
      `lo` starts on the magnitude axis. */
  function TenthStart(lo: real, ext: real, k: int, cfg: Config): real
  {
    lo + ext / 10.0 * k as real + ext / 10.0 * cfg.itemsOffset + HalfInset(cfg)
  }

  /** Cell j of the column of sample i. Cell 0 is at the baseline: the top edge for
      TopBottom, the bottom edge for BottomTop, and so on. */
  function Cell(lay: Layout, d: DrawingDirection, b: Box, cfg: Config, i: nat, j: nat): Command
  {
    var w, h, rnd := lay.itemWidth, lay.itemHeight, cfg.itemsRoundness;
    match d
    case TopBottom => RoundRect(SlotStart(b.x, lay.step, i, cfg), TenthStart(b.y, b.height, j, cfg), w, h, w / 2.0 * rnd, h / 2.0 * rnd)
    case BottomTop => RoundRect(SlotStart(b.x, lay.step, i, cfg), TenthStart(b.y, b.height, 9 - j, cfg), w, h, w / 2.0 * rnd, h / 2.0 * rnd)
    case LeftRight => RoundRect(TenthStart(b.x, b.width, j, cfg), SlotStart(b.y, lay.step, i, cfg), w, h, w / 2.0 * rnd, h / 2.0 * rnd)
    case RightLeft => RoundRect(TenthStart(b.x, b.width, 9 - j, cfg), SlotStart(b.y, lay.step, i, cfg), w, h, w / 2.0 * rnd, h / 2.0 * rnd)
  }

  /** The cells of sample i, from the baseline outwards. */
  function Column(sample: seq<real>, d: DrawingDirection, b: Box, cfg: Config, i: nat): seq<Command>
    requires i < |sample|
  {
    seq(LitCells(sample[i]), j requires 0 <= j => Cell(LevelsLayout(|sample|, d, b, cfg), d, b, cfg, i, j))
  }

  /** What the strategy draws for the first k samples. */
  function LevelsCommands(sample: seq<real>, d: DrawingDirection, b: Box, cfg: Config, k: nat): seq<Command>
    requires k <= |sample|
  {
    if k == 0 then [] else LevelsCommands(sample, d, b, cfg, k - 1) + Column(sample, d, b, cfg, k - 1)
  }

  /** Sample s lights exactly floor(10 s) cells; the examples of a typical frame, a
      sample just above 1 that still lights ten, and 1.1, which lights eleven. */
  lemma LitCellsExamples()
    ensures LitCells(0.35) == 3 && LitCells(0.0) == 0 && LitCells(1.0) == 10 && LitCells(-0.5) == 0
    ensures LitCells(1.05) == 10 && LitCells(1.1) == 11
  {
    assert 0.35 * 10.0 == 3.5;
    assert 1.05 * 10.0 == 10.5;
    assert 1.1 * 10.0 == 11.0;
  }

  /** The strategy draws one round-rect per lit cell of every sample. */
  lemma {:induction false} LevelsCount(sample: seq<real>, d: DrawingDirection, b: Box, cfg: Config, k: nat)
    requires k <= |sample|
    ensures |LevelsCommands(sample, d, b, cfg, k)| == Tally(sample[..k], LitCells)
  {
    if k > 0 {
      LevelsCount(sample, d, b, cfg, k - 1);
      assert sample[..k][..k - 1] == sample[..k - 1];
    }
  }

  /** Cell j of sample i is drawn right after the cells of the samples before i,
      so samples come in index order and each column from the baseline outwards. */
  lemma {:induction false} LevelsCellOrder(sample: seq<real>, d: DrawingDirection, b: Box, cfg: Config, k: nat, i: nat, j: nat)
    requires i < k <= |sample| && j < LitCells(sample[i])
    ensures Tally(sample[..i], LitCells) + j < |LevelsCommands(sample, d, b, cfg, k)|
    ensures LevelsCommands(sample, d, b, cfg, k)[Tally(sample[..i], LitCells) + j] == Cell(LevelsLayout(|sample|, d, b, cfg), d, b, cfg, i, j)
  {
    var prev, col := LevelsCommands(sample, d, b, cfg, k - 1), Column(sample, d, b, cfg, k - 1);
    assert LevelsCommands(sample, d, b, cfg, k) == prev + col;
    LevelsCount(sample, d, b, cfg, k - 1);
    if i < k - 1 {
      LevelsCellOrder(sample, d, b, cfg, k - 1, i, j);
    } else {
      LevelsCount(sample, d, b, cfg, i);
      assert col[j] == Cell(LevelsLayout(|sample|, d, b, cfg), d, b, cfg, i, j);
    }
  }

  /** Every cell the strategy draws is an item of its layout. */
  lemma {:induction false} LevelsItemShape(sample: seq<real>, d: DrawingDirection, b: Box, cfg: Config, k: nat)
    requires k <= |sample|
    ensures forall m :: 0 <= m < |LevelsCommands(sample, d, b, cfg, k)| ==>
      IsItem(LevelsCommands(sample, d, b, cfg, k)[m], LevelsLayout(|sample|, d, b, cfg), cfg)
  {
    if k > 0 {
      LevelsItemShape(sample, d, b, cfg, k - 1);
      var prev, col := LevelsCommands(sample, d, b, cfg, k - 1), Column(sample, d, b, cfg, k - 1);
      var cs, lay := LevelsCommands(sample, d, b, cfg, k), LevelsLayout(|sample|, d, b, cfg);
      assert cs == prev + col;
      forall m | 0 <= m < |cs|
        ensures IsItem(cs[m], lay, cfg)
      {
        if m < |prev| {
          assert cs[m] == prev[m];
          assert IsItem(prev[m], lay, cfg);
        } else {
          assert cs[m] == col[m - |prev|];
          assert col[m - |prev|] == Cell(lay, d, b, cfg, k - 1, m - |prev|);
          assert IsItem(Cell(lay, d, b, cfg, k - 1, m - |prev|), lay, cfg);
        }
      }
    }
  }

  /** Cell k and cell 9 - k, both counted from `lo`, are mirror images within the
      length `ext`. */
  lemma TenthsReflect(lo: real, ext: real, cfg: Config, k: int)
    requires cfg.filling
    ensures TenthStart(lo, ext, 9 - k, cfg) - lo
         == (lo + ext) - (TenthStart(lo, ext, k, cfg) + (ext / 10.0 * (1.0 - cfg.itemsOffset * 2.0) - HalfInset(cfg)))
  {
    TenthsMirror(lo, ext, k as real, (9 - k) as real, cfg.itemsOffset, HalfInset(cfg));
  }

  /** Filled cells of BottomTop are those of TopBottom reflected across the horizontal
      centre line, and RightLeft those of LeftRight across the vertical one. */
  lemma LevelsDirectionsReflect(n: nat, b: Box, cfg: Config, i: nat, j: nat)
    requires cfg.filling
    ensures var t, u := Cell(LevelsLayout(n, TopBottom, b, cfg), TopBottom, b, cfg, i, j),
                        Cell(LevelsLayout(n, BottomTop, b, cfg), BottomTop, b, cfg, i, j);
      && u.x == t.x && u.width == t.width && u.height == t.height
      && u.y - b.y == (b.y + b.height) - (t.y + t.height)
    ensures var l, r := Cell(LevelsLayout(n, LeftRight, b, cfg), LeftRight, b, cfg, i, j),
                        Cell(LevelsLayout(n, RightLeft, b, cfg), RightLeft, b, cfg, i, j);
      && r.y == l.y && r.width == l.width && r.height == l.height
      && r.x - b.x == (b.x + b.width) - (l.x + l.width)
  {
    TenthsReflect(b.y, b.height, cfg, j);
    TenthsReflect(b.x, b.width, cfg, j);
  }

  /** Cell k < 10, of size `size`, along the magnitude axis lies within [lo, lo + ext]
      when filled. */
  lemma TenthInRange(lo: real, ext: real, size: real, k: int, cfg: Config)
    requires cfg.filling && 0.0 <= cfg.itemsOffset <= 0.5 && ext >= 0.0 && 0 <= k < 10
    requires size == ext / 10.0 * (1.0 - cfg.itemsOffset * 2.0)
    ensures lo <= TenthStart(lo, ext, k, cfg) && TenthStart(lo, ext, k, cfg) + size <= lo + ext
  {
    TenthWithin(lo, ext, k as real, cfg.itemsOffset, HalfInset(cfg), size);
  }

  /** Where a filled cell sits: its slot on the sample axis, its tenth on the
      magnitude axis, and the sizes of the layout. */
  lemma FilledCellPlacement(n: nat, d: DrawingDirection, b: Box, cfg: Config, i: nat, j: nat)
    requires cfg.filling
    ensures var lay, c, keep := LevelsLayout(n, d, b, cfg), Cell(LevelsLayout(n, d, b, cfg), d, b, cfg, i, j), 1.0 - cfg.itemsOffset * 2.0;
      && lay.step == Step(Extent(d, b), n) && c.width == lay.itemWidth && c.height == lay.itemHeight
      && (IsVertical(d) ==> c.x == SlotStart(b.x, lay.step, i, cfg) && lay.itemWidth == lay.step * keep && lay.itemHeight == b.height / 10.0 * keep)
      && (!IsVertical(d) ==> c.y == SlotStart(b.y, lay.step, i, cfg) && lay.itemHeight == lay.step * keep && lay.itemWidth == b.width / 10.0 * keep)
      && (d == TopBottom ==> c.y == TenthStart(b.y, b.height, j, cfg))
      && (d == BottomTop ==> c.y == TenthStart(b.y, b.height, 9 - j, cfg))
      && (d == LeftRight ==> c.x == TenthStart(b.x, b.width, j, cfg))
      && (d == RightLeft ==> c.x == TenthStart(b.x, b.width, 9 - j, cfg))
  {
  }

  /** The sample axis of a filled cell: it starts in slot i of n slots of length
      `step` covering [lo, lo + ext] and has the size of a shrunk slot. */
  lemma CellAcross(n: nat, d: DrawingDirection, b: Box, cfg: Config, i: nat, j: nat)
    returns (lo: real, ext: real, step: real, size: real)
    requires cfg.filling && n > 0 && Extent(d, b) >= 0.0
    ensures step >= 0.0 && step * n as real == ext && size == step * (1.0 - cfg.itemsOffset * 2.0)
    ensures var c := Cell(LevelsLayout(n, d, b, cfg), d, b, cfg, i, j);
      && (IsVertical(d) ==> lo == b.x && ext == b.width && c.x == SlotStart(lo, step, i, cfg) && c.width == size)
      && (!IsVertical(d) ==> lo == b.y && ext == b.height && c.y == SlotStart(lo, step, i, cfg) && c.height == size)
  {
    StepSpansExtent(Extent(d, b), n);
    FilledCellPlacement(n, d, b, cfg, i, j);
    step := Step(Extent(d, b), n);
    size := step * (1.0 - cfg.itemsOffset * 2.0);
    if IsVertical(d) {
      lo, ext := b.x, b.width;
    } else {
      lo, ext := b.y, b.height;
    }
  }

  /** Across the sample axis a filled cell of sample i < n stays within its slot. */
  lemma CellAcrossInSlot(n: nat, d: DrawingDirection, b: Box, cfg: Config, i: nat, j: nat)
    requires cfg.filling && 0.0 <= cfg.itemsOffset <= 0.5 && i < n
    requires Extent(d, b) >= 0.0
    ensures var c := Cell(LevelsLayout(n, d, b, cfg), d, b, cfg, i, j);
      && (IsVertical(d) ==> b.x <= c.x && c.x + c.width <= b.x + b.width)
      && (!IsVertical(d) ==> b.y <= c.y && c.y + c.height <= b.y + b.height)
  {
    var lo, ext, step, size := CellAcross(n, d, b, cfg, i, j);
    SlotInRange(lo, ext, step, size, n, i, cfg);
  }

  /** The magnitude axis of a filled cell j < 10: it starts at tenth k of the
      range [lo, lo + ext] and has the size of a shrunk tenth. */
  lemma CellAlong(n: nat, d: DrawingDirection, b: Box, cfg: Config, i: nat, j: nat)
    returns (lo: real, ext: real, size: real, k: int)
    requires cfg.filling && j < 10
    ensures 0 <= k < 10 && size == ext / 10.0 * (1.0 - cfg.itemsOffset * 2.0)
    ensures var c := Cell(LevelsLayout(n, d, b, cfg), d, b, cfg, i, j);
      && (IsVertical(d) ==> lo == b.y && ext == b.height && c.y == TenthStart(lo, ext, k, cfg) && c.height == size)
      && (!IsVertical(d) ==> lo == b.x && ext == b.width && c.x == TenthStart(lo, ext, k, cfg) && c.width == size)
  {
    FilledCellPlacement(n, d, b, cfg, i, j);
    if IsVertical(d) {
      lo, ext := b.y, b.height;
    } else {
      lo, ext := b.x, b.width;
    }
    size := ext / 10.0 * (1.0 - cfg.itemsOffset * 2.0);
    k := if d == TopBottom || d == LeftRight then j else 9 - j;
  }

  /** Along the magnitude axis a filled cell j < 10 stays within the box. */
  lemma CellAlongInBox(n: nat, d: DrawingDirection, b: Box, cfg: Config, i: nat, j: nat)
    requires cfg.filling && 0.0 <= cfg.itemsOffset <= 0.5
    requires b.width >= 0.0 && b.height >= 0.0 && j < 10
    ensures var c := Cell(LevelsLayout(n, d, b, cfg), d, b, cfg, i, j);
      && (IsVertical(d) ==> b.y <= c.y && c.y + c.height <= b.y + b.height)
      && (!IsVertical(d) ==> b.x <= c.x && c.x + c.width <= b.x + b.width)
  {
    var lo, ext, size, k := CellAlong(n, d, b, cfg, i, j);
    TenthInRange(lo, ext, size, k, cfg);
  }

  /** With the offset in [0, 1/2], a filled cell j < 10 of sample i < n lies within
      the box. */
  lemma LevelsCellInBox(n: nat, d: DrawingDirection, b: Box, cfg: Config, i: nat, j: nat)
    requires cfg.filling && 0.0 <= cfg.itemsOffset <= 0.5
    requires b.width >= 0.0 && b.height >= 0.0
    requires i < n && j < 10
    ensures var c := Cell(LevelsLayout(n, d, b, cfg), d, b, cfg, i, j);
      && b.x <= c.x && c.x + c.width <= b.x + b.width
      && b.y <= c.y && c.y + c.height <= b.y + b.height
  {
    CellAcrossInSlot(n, d, b, cfg, i, j);
    CellAlongInBox(n, d, b, cfg, i, j);
  }
}
