/** Axis-aligned boxes: the overlap test, the conversion to an
    origin-plus-size rectangle, and the boxes of the ball and of a paddle. */
module Geometry {
  import opened Config

  datatype Box = Box(xMin: real, xMax: real, yMin: real, yMax: real)

  /** The drawing library's rectangle: top-left corner and size. */
  datatype Rectangle = Rectangle(x: real, y: real, width: real, height: real)

  /** A box whose minimum does not exceed its maximum on either axis. */
  predicate WellFormed(b: Box)
  {
    b.xMin <= b.xMax && b.yMin <= b.yMax
  }

  /** The point (px, py) lies in the closed box b. */
  predicate InBox(b: Box, px: real, py: real)
  {
    b.xMin <= px <= b.xMax && b.yMin <= py <= b.yMax
  }

  function Max(a: real, b: real): real
  {
    if a < b then b else a
  }

  /** Two boxes overlap when their extents intersect on both axes; touching
      edges count as overlap. */
  predicate BoxOverlap(box1: Box, box2: Box)
  {
    var x := box1.xMax >= box2.xMin && box1.xMin <= box2.xMax;
    var y := box1.yMax >= box2.yMin && box1.yMin <= box2.yMax;
    x && y
  }

  /** The rectangle keeps the box's top-left corner and spans exactly its
      extent; its size is non-negative when the box is well formed. */
  function BoxToRec(box: Box): (rec: Rectangle)
    ensures rec.x == box.xMin && rec.y == box.yMin
    ensures rec.x + rec.width == box.xMax && rec.y + rec.height == box.yMax
    ensures WellFormed(box) ==> rec.width >= 0.0 && rec.height >= 0.0
  {
    Rectangle(box.xMin, box.yMin, box.xMax - box.xMin, box.yMax - box.yMin)
  }

  /** The ball's box is a BALL_SIZE square centred on the position. */
  function BallBox(position: Vector2): (box: Box)
    ensures WellFormed(box)
    ensures box.xMax - box.xMin == BALL_SIZE && box.yMax - box.yMin == BALL_SIZE
    ensures (box.xMin + box.xMax) / 2.0 == position.x
    ensures (box.yMin + box.yMax) / 2.0 == position.y
  {
    Box(position.x - BALL_SIZE * 0.5, position.x + BALL_SIZE * 0.5,
        position.y - BALL_SIZE * 0.5, position.y + BALL_SIZE * 0.5)
  }

  /** A paddle's box is PADDLE_WIDTH wide and PADDLE_HEIGHT tall, centred on
      the position. */
  function PaddleBox(position: Vector2): (box: Box)
    ensures WellFormed(box)
    ensures box.xMax - box.xMin == PADDLE_WIDTH && box.yMax - box.yMin == PADDLE_HEIGHT
    ensures (box.xMin + box.xMax) / 2.0 == position.x
    ensures (box.yMin + box.yMax) / 2.0 == position.y
  {
    Box(position.x - PADDLE_WIDTH * 0.5, position.x + PADDLE_WIDTH * 0.5,
        position.y - PADDLE_HEIGHT * 0.5, position.y + PADDLE_HEIGHT * 0.5)
  }

  /** The clamp the paddle update relies on: the value itself when it lies in
      [lo, hi], otherwise the nearer bound. */
  function Clamp(value: real, lo: real, hi: real): (r: real)
    ensures lo <= hi ==> lo <= r <= hi
    ensures lo <= value <= hi ==> r == value
    ensures lo <= hi && value < lo ==> r == lo
    ensures lo <= hi && hi < value ==> r == hi
  {
    var result := if value < lo then lo else value;
    if result > hi then hi else result
  }

  /** The overlap test swaps its two conjuncts per axis when its arguments
      are swapped, so the order of the boxes does not matter. */
  lemma BoxOverlapSymmetric(a: Box, b: Box)
    ensures BoxOverlap(a, b) == BoxOverlap(b, a)
  {
  }

  /** For well-formed boxes the interval test agrees with the geometric
      meaning of overlap: some point lies in both boxes. */
  lemma OverlapIffCommonPoint(a: Box, b: Box)
    requires WellFormed(a) && WellFormed(b)
    ensures BoxOverlap(a, b) <==> exists px, py :: InBox(a, px, py) && InBox(b, px, py)
  {
    if BoxOverlap(a, b) {
      var px, py := Max(a.xMin, b.xMin), Max(a.yMin, b.yMin);
      assert InBox(a, px, py) && InBox(b, px, py);
    }
  }

  /** Every well-formed box, in particular every ball and paddle box,
      overlaps itself. */
  lemma WellFormedOverlapsItself(b: Box)
    requires WellFormed(b)
    ensures BoxOverlap(b, b)
  {
  }

  /** A ball box contains its centre and overlaps itself. */
  lemma BallBoxOverlapsItself(position: Vector2)
    ensures InBox(BallBox(position), position.x, position.y)
    ensures BoxOverlap(BallBox(position), BallBox(position))
  {
  }

  /** A paddle box contains its centre and overlaps itself. */
  lemma PaddleBoxOverlapsItself(position: Vector2)
    ensures InBox(PaddleBox(position), position.x, position.y)
    ensures BoxOverlap(PaddleBox(position), PaddleBox(position))
  {
  }
}
