/** Where the second half of a mirrored frame goes and which way it faces. */
module Orientation {
  import opened RenderTypes

  /** The opposite direction on the same axis. */
  function MirrorDirection(d: DrawingDirection): (r: DrawingDirection)
    ensures r != d
    ensures IsVertical(r) == IsVertical(d)
  {
    match d
    case TopBottom => BottomTop
    case BottomTop => TopBottom
    case LeftRight => RightLeft
    case _ => LeftRight
  }

  lemma MirrorDirectionInvolution(d: DrawingDirection)
    ensures MirrorDirection(MirrorDirection(d)) == d
  {
  }

  function MirrorX(d: DrawingDirection, width: real): real
  {
    if d == LeftRight || d == RightLeft then width / 2.0 else 0.0
  }

  function MirrorY(d: DrawingDirection, height: real): real
  {
    if d == TopBottom || d == BottomTop then height / 2.0 else 0.0
  }

  function MirrorWidth(d: DrawingDirection, width: real): real
  {
    if d == LeftRight || d == RightLeft then width / 2.0 else width
  }

  function MirrorHeight(d: DrawingDirection, height: real): real
  {
    if d == TopBottom || d == BottomTop then height / 2.0 else height
  }

  /** The half drawn at the configured direction. */
  function FirstHalf(d: DrawingDirection, width: real, height: real): Box
  {
    Box(0.0, 0.0, MirrorWidth(d, width), MirrorHeight(d, height))
  }

  /** The half drawn at the mirrored direction. */
  function SecondHalf(d: DrawingDirection, width: real, height: real): Box
  {
    Box(MirrorX(d, width), MirrorY(d, height), MirrorWidth(d, width), MirrorHeight(d, height))
  }

  /** A vertical direction halves the height and stacks the halves; a horizontal one
      halves the width and puts them side by side. Either way the two halves have the
      same size, share one edge, and cover the viewport exactly. */
  lemma HalvesTileViewport(d: DrawingDirection, width: real, height: real)
    ensures var a, b := FirstHalf(d, width, height), SecondHalf(d, width, height);
      && a.x == 0.0 && a.y == 0.0
      && a.width == b.width && a.height == b.height
      && (IsVertical(d) ==>
            && a.width == width && b.x == 0.0
            && b.y == a.y + a.height && b.y + b.height == height)
      && (!IsVertical(d) ==>
            && a.height == height && b.y == 0.0
            && b.x == a.x + a.width && b.x + b.width == width)
  {
  }
}
