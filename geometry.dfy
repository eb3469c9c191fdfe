/** The java.awt value types the game uses: Point, Rectangle and an image's size. */
module Geometry {

  datatype Point = Point(x: int, y: int)

  datatype Rect = Rect(x: int, y: int, width: int, height: int)

  /** Width and height of a loaded BufferedImage. */
  datatype Size = Size(width: nat, height: nat)

  /** Unit cell (px, py) lies inside r, taking r as the half-open box [x, x+width) x [y, y+height). */
  predicate Covers(r: Rect, px: int, py: int)
  {
    r.x <= px < r.x + r.width && r.y <= py < r.y + r.height
  }

  /** The two rectangles share at least one unit cell. */
  ghost predicate ShareCell(a: Rect, b: Rect)
  {
    exists px, py :: Covers(a, px, py) && Covers(b, px, py)
  }

  /** java.awt.Rectangle.intersects: empty rectangles intersect nothing; otherwise the
      boxes must overlap strictly on both axes (32-bit overflow is not modelled). */
  predicate Intersects(a: Rect, b: Rect)
  {
    a.width > 0 && a.height > 0 && b.width > 0 && b.height > 0 &&
    b.x + b.width > a.x && b.y + b.height > a.y &&
    a.x + a.width > b.x && a.y + a.height > b.y
  }

  /** Rectangle.intersects means exactly "share a cell", which also makes it symmetric. */
  lemma {:induction false} IntersectsIffShareCell(a: Rect, b: Rect)
    ensures Intersects(a, b) <==> ShareCell(a, b)
    ensures Intersects(a, b) == Intersects(b, a)
  {
    if Intersects(a, b) {
      var px := if a.x < b.x then b.x else a.x;
      var py := if a.y < b.y then b.y else a.y;
      assert Covers(a, px, py) && Covers(b, px, py);
    }
    if ShareCell(a, b) {
      var px, py :| Covers(a, px, py) && Covers(b, px, py);
      assert Intersects(a, b);
    }
  }
}
