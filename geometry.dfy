/** What the three games share: axis-aligned rectangles and the bounding-box
    overlap test written out inline for the dino and the maze
    (assets/script.js:122, 610, 621), whose one-axis half also opens the
    flappy pipe test (assets/script.js:239); the vertical state of an avatar;
    and Math.min/Math.max. */
module Geometry {

  /** A rectangle whose top-left corner is at (x, y), w wide and h tall;
      canvas coordinates, so y grows downwards. */
  datatype Box = Box(x: real, y: real, w: real, h: real)

  /** An avatar's height (its top edge) and vertical speed; positive is downwards. */
  datatype Vertical = Vertical(y: real, vy: real)

  /** Math.min on reals. */
  function Min(a: real, b: real): (m: real)
    ensures m <= a && m <= b && (m == a || m == b)
  {
    if a <= b then a else b
  }

  /** Math.max on reals. */
  function Max(a: real, b: real): (m: real)
    ensures m >= a && m >= b && (m == a || m == b)
  {
    if a >= b then a else b
  }

  /** Math.min on integers: Min at type int, kept apart because Dafny does
      not mix int and real. */
  function MinInt(a: int, b: int): (m: int)
    ensures m <= a && m <= b && (m == a || m == b)
  {
    if a <= b then a else b
  }

  /** Math.max on integers (the high scores): Max at type int. */
  function MaxInt(a: int, b: int): (m: int)
    ensures m >= a && m >= b && (m == a || m == b)
  {
    if a >= b then a else b
  }

  /** The half-open spans starting at a and at b, aLen and bLen long, share
      more than an end point: `a < b + bLen && a + aLen > b`. */
  predicate SpansOverlap(a: real, aLen: real, b: real, bLen: real) {
    a < b + bLen && a + aLen > b
  }

  /** The overlap test of the games: the projections intersect on both axes. */
  predicate Overlaps(a: Box, b: Box) {
    SpansOverlap(a.x, a.w, b.x, b.w) && SpansOverlap(a.y, a.h, b.y, b.h)
  }

  /** The point (px, py) lies strictly inside b. */
  predicate Inside(b: Box, px: real, py: real) {
    b.x < px < b.x + b.w && b.y < py < b.y + b.h
  }

  /** A reference reading of Overlaps: two boxes of positive size overlap
      exactly when some point lies strictly inside both of them. */
  lemma OverlapsIffCommonPoint(a: Box, b: Box)
    requires a.w > 0.0 && a.h > 0.0 && b.w > 0.0 && b.h > 0.0
    ensures Overlaps(a, b) <==> exists px, py :: Inside(a, px, py) && Inside(b, px, py)
  {
    if Overlaps(a, b) {
      var left, right := Max(a.x, b.x), Min(a.x + a.w, b.x + b.w);
      var top, bottom := Max(a.y, b.y), Min(a.y + a.h, b.y + b.h);
      var px, py := (left + right) / 2.0, (top + bottom) / 2.0;
      assert Inside(a, px, py) && Inside(b, px, py);
    }
  }
}
