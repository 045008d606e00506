/** Integer boxes (pygame.Rect) and the number conversions the game relies on. */
module Geometry {

  /** An axis-aligned box; x and y are the top-left corner. */
  datatype Rect = Rect(x: int, y: int, w: int, h: int) {
    function Left(): int { x }
    function Right(): int { x + w }
    function Top(): int { y }
    function Bottom(): int { y + h }
    /** pygame computes x + w / 2 with C division; for the non-negative widths
        used here that is Dafny's division too. */
    function CenterX(): int { x + w / 2 }
    function CenterY(): int { y + h / 2 }

    function WithLeft(v: int): (r: Rect)
      ensures r.Left() == v && r.w == w && r.y == y && r.h == h
    { this.(x := v) }

    function WithRight(v: int): (r: Rect)
      ensures r.Right() == v && r.w == w && r.y == y && r.h == h
    { this.(x := v - w) }

    function WithTop(v: int): (r: Rect)
      ensures r.Top() == v && r.h == h && r.x == x && r.w == w
    { this.(y := v) }

    function WithBottom(v: int): (r: Rect)
      ensures r.Bottom() == v && r.h == h && r.x == x && r.w == w
    { this.(y := v - h) }

    /** Rect.inflate(dx, dy): grows the box around its centre. */
    function Inflate(dx: int, dy: int): Rect
    {
      Rect(x - dx / 2, y - dy / 2, w + dx, h + dy)
    }
  }

  /** Rect.colliderect, taken as strict overlap: boxes that only share an edge
      do not collide. This is an assumption about pygame. */
  predicate Collides(a: Rect, b: Rect)
  {
    a.Left() < b.Right() && b.Left() < a.Right() && a.Top() < b.Bottom() && b.Top() < a.Bottom()
  }

  /** Python's int() on a float: truncation toward zero. */
  function Trunc(v: real): (r: int)
    ensures v >= 0.0 ==> r >= 0 && r as real <= v < r as real + 1.0
    ensures v < 0.0 ==> r <= 0 && r as real - 1.0 < v <= r as real
  {
    if v >= 0.0 then v.Floor else -((-v).Floor)
  }

  /** What a pygame Rect keeps when a position attribute is assigned a float
      (rect.x += velocity): the value truncated toward zero. This conversion
      happens inside pygame and is an assumption of the model. */
  function RectCoord(v: real): (r: int)
    ensures v >= 0.0 ==> r as real <= v < r as real + 1.0
    ensures v < 0.0 ==> r as real - 1.0 < v <= r as real
  {
    Trunc(v)
  }

  function Min(a: int, b: int): int { if a <= b then a else b }

  function Max(a: int, b: int): int { if a >= b then a else b }
}
