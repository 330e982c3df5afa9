/** Shared vocabulary of the level editor: points, colours, the wall `Segment`
    object and the floating-point geometry that the model does not reproduce.

    `guis/Segment.java` is not part of this model: only the state the editor
    and the arc touch (end points, colour, default colour) is given here. */
module Geometry {

  datatype Option<+T> = None | Some(value: T)

  /** A point in world coordinates (the source's `Vector2f` and float pairs). */
  datatype Point = Point(x: real, y: real)

  /** An RGBA colour with channels in [0, 1] (the source's `Vector4f`). */
  datatype Color = Color(r: real, g: real, b: real, a: real)

  /** The colour built from 0-255 channel values, as `new Vector4f(r / 255.0f, ...)`. */
  function Rgba(r: int, g: int, b: int, a: int): Color
  {
    Color(r as real / 255.0, g as real / 255.0, b as real / 255.0, a as real / 255.0)
  }

  /** The circle of a fillet: the radius the fillet formula yields and
      `step(i)`, the circle point reached at the i-th angle of the sweep.
      The first arc point `(x1, y1)` is `step(0)`: it is computed from the
      same angle as the sweep's first point. */
  datatype Fit = Fit(radius: real, step: int -> Point)

  /** The floating-point computations the editor relies on, taken as given
      functions:
      - `corner(a, b)`: `a.findCorner(b)`, the crossing of the two infinite
        lines, `None` when there is none;
      - `hitScore(w, x, y)`: `w.intersectsPoint(x, y)`, the hit-test score of
        a cursor position against a wall (lower is closer);
      - `norm(dx, dy)`: the Euclidean length of a vector (`Vector2f.length`);
      - `fit(t1, t2, c, d)`: the angle, radius and circle computations of the
        fillet for tangents `t1`, `t2` meeting at `c` with clearance `d`. */
  datatype FloatGeometry = FloatGeometry(
    corner: (Segment, Segment) -> Option<Point>,
    hitScore: (Segment, int, int) -> real,
    norm: (real, real) -> real,
    fit: (Segment, Segment, Point, real) -> Fit)

  /** A wall: a line between two end points, drawn in `color`, which a
      highlight changes and `ResetColor` restores to `baseColor`. Walls are
      compared by reference: two walls with the same end points are different
      walls. */
  class Segment {
    var x1: real
    var y1: real
    var x2: real
    var y2: real
    const width: real
    const baseColor: Color
    var color: Color

    constructor (x1: real, y1: real, x2: real, y2: real, width: real, color: Color)
      ensures this.x1 == x1 && this.y1 == y1 && this.x2 == x2 && this.y2 == y2
      ensures this.width == width && baseColor == color && this.color == color
    {
      this.x1, this.y1, this.x2, this.y2 := x1, y1, x2, y2;
      this.width := width;
      baseColor := color;
      this.color := color;
    }

    method SetStartPoint(x: real, y: real)
      modifies this`x1, this`y1
      ensures x1 == x && y1 == y
    {
      x1, y1 := x, y;
    }

    method SetEndPoint(x: real, y: real)
      modifies this`x2, this`y2
      ensures x2 == x && y2 == y
    {
      x2, y2 := x, y;
    }

    method SetColor(c: Color)
      modifies this`color
      ensures color == c
    {
      color := c;
    }

    method ResetColor()
      modifies this`color
      ensures color == baseColor
    {
      color := baseColor;
    }
  }
}
