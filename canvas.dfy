/** The drawing surface, seen as the ordered list of calls made on it. */
module CanvasSink {

  datatype Point = Point(x: real, y: real)

  /** One step of a path after its `MoveTo`. */
  datatype PathOp =
    | CubicTo(c1: Point, c2: Point, end: Point)
    | LineTo(to: Point)

  datatype Command =
    | Clear
    | Path(start: Point, ops: seq<PathOp>, closed: bool)
    | Rect(x: real, y: real, width: real, height: real)
    | RoundRect(x: real, y: real, width: real, height: real, rx: real, ry: real)
    | Flush

  /** A call that draws something, as opposed to clearing or flushing. */
  predicate IsPrimitive(c: Command)
  {
    c.Path? || c.Rect? || c.RoundRect?
  }

  class Canvas {
    /** Every call received so far, oldest first. */
    var trace: seq<Command>

    constructor ()
      ensures trace == []
    {
      trace := [];
    }

    method Clear()
      modifies this
      ensures trace == old(trace) + [Command.Clear]
    {
      trace := trace + [Command.Clear];
    }

    method DrawPath(start: Point, ops: seq<PathOp>, closed: bool)
      modifies this
      ensures trace == old(trace) + [Path(start, ops, closed)]
    {
      trace := trace + [Path(start, ops, closed)];
    }

    method DrawRect(x: real, y: real, width: real, height: real)
      modifies this
      ensures trace == old(trace) + [Rect(x, y, width, height)]
    {
      trace := trace + [Rect(x, y, width, height)];
    }

    method DrawRoundRect(x: real, y: real, width: real, height: real, rx: real, ry: real)
      modifies this
      ensures trace == old(trace) + [RoundRect(x, y, width, height, rx, ry)]
    {
      trace := trace + [RoundRect(x, y, width, height, rx, ry)];
    }

    method Flush()
      modifies this
      ensures trace == old(trace) + [Command.Flush]
    {
      trace := trace + [Command.Flush];
    }
  }
}
