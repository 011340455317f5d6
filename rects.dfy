/** Integer rectangles with pygame's conventions: (x, y) is the top-left corner,
    y grows downward, and centres are computed with C's truncating division. */
module Rects {

  function Min(a: int, b: int): int { if a <= b then a else b }
  function Max(a: int, b: int): int { if a <= b then b else a }
  /** The same for the game's floating-point quantities (velocities, score). */
  function RMin(a: real, b: real): real { if a <= b then a else b }
  function RMax(a: real, b: real): real { if a <= b then b else a }

  /** Halving that truncates toward zero, as C's `/` does. */
  function Half(n: int): (h: int)
    ensures n >= 0 ==> 0 <= h && h + h <= n < h + h + 2
    ensures n < 0 ==> h <= 0 && n <= h + h && h + h - 2 < n
  {
    if n >= 0 then n / 2 else -((-n) / 2)
  }

  datatype Rect = Rect(x: int, y: int, w: int, h: int) {
    function Top(): int { y }
    function Bottom(): int { y + h }
    function Right(): int { x + w }
    function CenterX(): int { x + Half(w) }
    function CenterY(): int { y + Half(h) }

    /** Assigning `centery` moves the rectangle vertically and nothing else. */
    function WithCenterY(c: int): (r: Rect)
      ensures r.CenterY() == c
      ensures r.x == x && r.w == w && r.h == h
    {
      Rect(x, c - Half(h), w, h)
    }

    /** Assigning `bottom` moves the rectangle vertically and nothing else. */
    function WithBottom(b: int): (r: Rect)
      ensures r.Bottom() == b
      ensures r.x == x && r.w == w && r.h == h
    {
      Rect(x, b - h, w, h)
    }
  }

  /** The span one side of a rectangle covers, whatever the sign of its length. */
  function Lo(start: int, len: int): int { Min(start, start + len) }
  function Hi(start: int, len: int): int { Max(start, start + len) }

  /** `colliderect`: a rectangle of zero width or height touches nothing; otherwise
      the two rectangles' normalised spans must overlap with positive area on both axes
      (edges that merely touch do not collide). */
  predicate Collides(a: Rect, b: Rect)
  {
    a.w != 0 && a.h != 0 && b.w != 0 && b.h != 0 &&
    Lo(a.x, a.w) < Hi(b.x, b.w) && Lo(b.x, b.w) < Hi(a.x, a.w) &&
    Lo(a.y, a.h) < Hi(b.y, b.h) && Lo(b.y, b.h) < Hi(a.y, a.h)
  }
}
