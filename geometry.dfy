/** The parts of `pygame.Rect` the game logic uses. */
module Geometry {

  datatype Rect = Rect(x: int, y: int, w: int, h: int)
  {
    function Right(): int { x + w }
    function Bottom(): int { y + h }
    /** `centerx` / `centery`: the offset is halved with floor division. */
    function CenterX(): int { x + w / 2 }
    function CenterY(): int { y + h / 2 }
  }

  /** `a.colliderect(b)`: both rectangles have an area and their interiors overlap. */
  predicate Collide(a: Rect, b: Rect) {
    a.w != 0 && a.h != 0 && b.w != 0 && b.h != 0 &&
    a.x < b.Right() && b.x < a.Right() && a.y < b.Bottom() && b.y < a.Bottom()
  }

  /** `r.collidepoint(px, py)`: the left and top edges belong to the rectangle, the others do not. */
  predicate ContainsPoint(r: Rect, px: int, py: int) {
    r.x <= px < r.Right() && r.y <= py < r.Bottom()
  }
}
