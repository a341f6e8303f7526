/**
 * Integer rectangles in screen coordinates (y grows downwards), the overlap and
 * containment tests the game uses, and the pure parts of the player's movement:
 * key-driven displacement, the viewport clamp and the obstacle push-back.
 */
module Geometry {

  const ScreenWidth := 1280
  const ScreenHeight := 800

  /** An axis-aligned rectangle given by its top-left corner and its size. */
  datatype Rect = Rect(left: int, top: int, width: int, height: int) {

    function Right(): int { left + width }

    function Bottom(): int { top + height }

    function CenterX(): int { left + width / 2 }

    function CenterY(): int { top + height / 2 }

    /** Moving the rectangle so that its left edge is at `x` keeps its size. */
    function WithLeft(x: int): Rect { this.(left := x) }

    /** Moving the rectangle so that its right edge is at `x` keeps its size. */
    function WithRight(x: int): Rect { this.(left := x - width) }

    function WithTop(y: int): Rect { this.(top := y) }

    function WithBottom(y: int): Rect { this.(top := y - height) }
  }

  /** The whole viewport. */
  const Screen := Rect(0, 0, ScreenWidth, ScreenHeight)

  /** A rectangle of size `w` x `h` centred on (`cx`, `cy`), rounding as the sprite library does. */
  function CenteredRect(cx: int, cy: int, w: nat, h: nat): (r: Rect)
    ensures r.width == w && r.height == h
    ensures r.CenterX() == cx && r.CenterY() == cy
  {
    Rect(cx - w / 2, cy - h / 2, w, h)
  }

  function Max(x: int, y: int): int { if x < y then y else x }

  function Min(x: int, y: int): int { if x < y then x else y }

  /** The common part of two rectangles; its width or height is at most 0 when they share no area. */
  function Intersection(a: Rect, b: Rect): Rect
  {
    var l := Max(a.left, b.left);
    var t := Max(a.top, b.top);
    Rect(l, t, Min(a.Right(), b.Right()) - l, Min(a.Bottom(), b.Bottom()) - t)
  }

  /**
   * Strict overlap of two rectangles: rectangles that only touch along an
   * edge, or lie apart, do not overlap, and a rectangle with a zero or
   * negative side collides with nothing.
   */
  predicate Overlaps(a: Rect, b: Rect): (r: bool)
    ensures a.Right() <= b.left || b.Right() <= a.left || a.Bottom() <= b.top || b.Bottom() <= a.top ==> !r
    ensures a.width <= 0 || a.height <= 0 || b.width <= 0 || b.height <= 0 ==> !r
  {
    a.width > 0 && a.height > 0 && b.width > 0 && b.height > 0 &&
    a.left < b.Right() && b.left < a.Right() &&
    a.top < b.Bottom() && b.top < a.Bottom()
  }

  /**
   * Two rectangles of positive size overlap exactly when their common part
   * has positive area, and the test does not depend on the order of its
   * arguments.
   */
  lemma OverlapsIsIntersection(a: Rect, b: Rect)
    ensures Overlaps(a, b) <==> a.width > 0 && a.height > 0 && b.width > 0 && b.height > 0 &&
                                Intersection(a, b).width > 0 && Intersection(a, b).height > 0
    ensures Overlaps(a, b) <==> Overlaps(b, a)
  {
  }

  /**
   * `outer` contains `inner` (edges may coincide), as the sprite library's
   * containment test: a rectangle of positive size is contained exactly when
   * its common part with `outer` is all of it, and contained in the screen
   * exactly when it lies inside the viewport.
   */
  predicate Contains(outer: Rect, inner: Rect): (r: bool)
    ensures inner.width > 0 && inner.height > 0 ==> (r <==> Intersection(outer, inner) == inner)
    ensures (outer.left == 0 && outer.top == 0 && outer.width == ScreenWidth && outer.height == ScreenHeight &&
             inner.width > 0 && inner.height > 0) ==> (r <==> InsideScreen(inner))
    ensures inner.width <= 0 && inner.Right() == outer.Right() ==> !r
  {
    outer.left <= inner.left && outer.top <= inner.top &&
    inner.Right() <= outer.Right() && inner.Bottom() <= outer.Bottom() &&
    inner.left < outer.Right() && inner.top < outer.Bottom()
  }

  /** The rectangle lies inside the viewport. */
  predicate InsideScreen(r: Rect)
  {
    0 <= r.left && r.Right() <= ScreenWidth && 0 <= r.top && r.Bottom() <= ScreenHeight
  }

  datatype Direction = Left | Right | Up | Down

  /** The arrow keys held during a frame. */
  datatype Keys = Keys(left: bool, right: bool, up: bool, down: bool)

  /** Where a moving rectangle ends up and which way it faces afterwards. */
  datatype Step = Step(rect: Rect, facing: Direction)

  /**
   * Key-driven movement: each held key moves the rectangle by `speed` along
   * its axis, and the last held key in the order left, right, up, down
   * decides the new facing.
   */
  function Move(r: Rect, keys: Keys, speed: int, facing: Direction): (s: Step)
    ensures s.rect.width == r.width && s.rect.height == r.height
    ensures s.rect.left == r.left - (if keys.left then speed else 0) + (if keys.right then speed else 0)
    ensures s.rect.top == r.top - (if keys.up then speed else 0) + (if keys.down then speed else 0)
    ensures keys.down ==> s.facing == Down
    ensures keys.up && !keys.down ==> s.facing == Up
    ensures keys.right && !keys.up && !keys.down ==> s.facing == Right
    ensures keys.left && !keys.right && !keys.up && !keys.down ==> s.facing == Left
    ensures keys == Keys(false, false, false, false) ==> s == Step(r, facing)
  {
    var a := if keys.left then Step(r.WithLeft(r.left - speed), Left) else Step(r, facing);
    var b := if keys.right then Step(a.rect.WithLeft(a.rect.left + speed), Right) else a;
    var c := if keys.up then Step(b.rect.WithTop(b.rect.top - speed), Up) else b;
    if keys.down then Step(c.rect.WithTop(c.rect.top + speed), Down) else c
  }

  /**
   * The viewport clamp: each edge that sticks out is moved back onto the
   * screen border, in the order left, right, top, bottom.
   */
  function ClampToScreen(r: Rect): (c: Rect)
    ensures c.width == r.width && c.height == r.height
    ensures 0 <= r.width <= ScreenWidth ==> 0 <= c.left && c.Right() <= ScreenWidth
    ensures 0 <= r.height <= ScreenHeight ==> 0 <= c.top && c.Bottom() <= ScreenHeight
    ensures InsideScreen(r) ==> c == r
  {
    var a := if r.left < 0 then r.WithLeft(0) else r;
    var b := if a.Right() > ScreenWidth then a.WithRight(ScreenWidth) else a;
    var d := if b.top < 0 then b.WithTop(0) else b;
    if d.Bottom() > ScreenHeight then d.WithBottom(ScreenHeight) else d
  }

  /**
   * Push-back out of an obstacle: the edge of `r` that leads in the facing
   * direction is put on the opposite edge of the obstacle.
   */
  function PushBack(r: Rect, obstacle: Rect, facing: Direction): (p: Rect)
    ensures p.width == r.width && p.height == r.height
    ensures facing == Left ==> p.left == obstacle.Right() && p.top == r.top
    ensures facing == Right ==> p.Right() == obstacle.left && p.top == r.top
    ensures facing == Up ==> p.top == obstacle.Bottom() && p.left == r.left
    ensures facing == Down ==> p.Bottom() == obstacle.top && p.left == r.left
    ensures !Overlaps(p, obstacle)
    ensures Overlaps(r, obstacle) ==>
      match facing
      case Left => p.left > r.left
      case Right => p.left < r.left
      case Up => p.top > r.top
      case Down => p.top < r.top
  {
    match facing
    case Left => r.WithLeft(obstacle.Right())
    case Right => r.WithRight(obstacle.left)
    case Up => r.WithTop(obstacle.Bottom())
    case Down => r.WithBottom(obstacle.top)
  }

  /**
   * One pass over the obstacles in order, pushing back out of each one `r`
   * then overlaps. The size is kept, the result is clear of the last
   * obstacle, and a rectangle that overlaps no obstacle is not moved.
   */
  function PushAll(r: Rect, obstacles: seq<Rect>, facing: Direction): (p: Rect)
    ensures p.width == r.width && p.height == r.height
    ensures |obstacles| > 0 ==> !Overlaps(p, obstacles[|obstacles| - 1])
    ensures (forall i :: 0 <= i < |obstacles| ==> !Overlaps(r, obstacles[i])) ==> p == r
    decreases |obstacles|
  {
    if |obstacles| == 0 then r
    else
      var p := PushAll(r, obstacles[..|obstacles| - 1], facing);
      var o := obstacles[|obstacles| - 1];
      if Overlaps(p, o) then PushBack(p, o, facing) else p
  }

  /**
   * The obstacle pass moves the rectangle along the facing axis only, only
   * against the facing direction, keeps its size, and leaves it clear of the
   * last obstacle.
   */
  lemma {:induction false} PushAllAlongAxis(r: Rect, obstacles: seq<Rect>, facing: Direction)
    ensures PushAll(r, obstacles, facing).width == r.width
    ensures PushAll(r, obstacles, facing).height == r.height
    ensures facing == Left ==> PushAll(r, obstacles, facing).top == r.top && PushAll(r, obstacles, facing).left >= r.left
    ensures facing == Right ==> PushAll(r, obstacles, facing).top == r.top && PushAll(r, obstacles, facing).left <= r.left
    ensures facing == Up ==> PushAll(r, obstacles, facing).left == r.left && PushAll(r, obstacles, facing).top >= r.top
    ensures facing == Down ==> PushAll(r, obstacles, facing).left == r.left && PushAll(r, obstacles, facing).top <= r.top
    ensures |obstacles| > 0 ==> !Overlaps(PushAll(r, obstacles, facing), obstacles[|obstacles| - 1])
    decreases |obstacles|
  {
    if |obstacles| > 0 {
      PushAllAlongAxis(r, obstacles[..|obstacles| - 1], facing);
    }
  }

  /**
   * The clamp runs before the obstacle pass, so a frame can end with the
   * player outside the viewport: a player at the left border facing right
   * into an obstacle is pushed past the border.
   */
  lemma PushBackCanLeaveScreen()
    ensures var r := ClampToScreen(Rect(-3, 100, 40, 40));
            var obstacle := Rect(10, 100, 50, 50);
            InsideScreen(r) && Overlaps(r, obstacle) &&
            !InsideScreen(PushAll(r, [obstacle], Right))
  {
  }
}
