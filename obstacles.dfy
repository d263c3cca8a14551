/**
 * Static obstacles: holes in the ground and spikes standing on it. They are
 * placed once and only ever read afterwards, so they are plain values.
 */
module Obstacles {
  import opened Types

  const HOLE_WIDTH: real := 80.0
  const HOLE_DEPTH: real := 100.0
  const SPIKE_WIDTH: real := 40.0
  const SPIKE_HEIGHT: real := 20.0
  /** How far behind the camera's left edge something must be to count as off screen. */
  const OFFSCREEN_MARGIN: real := 100.0

  datatype ObstacleType = HOLE | SPIKE

  datatype Obstacle = Obstacle(position: Vector2, size: Vector2, kind: ObstacleType)

  /** A hole starts at ground level and reaches below it. */
  function NewHole(x: real, groundY: real, width: real := HOLE_WIDTH): (o: Obstacle)
    ensures o.kind == HOLE && o.position == Vector2(x, groundY)
    ensures o.size == Vector2(width, HOLE_DEPTH)
  {
    Obstacle(Vector2(x, groundY), Vector2(width, HOLE_DEPTH), HOLE)
  }

  /** A spike stands on the ground: its bottom edge is at ground level. */
  function NewSpike(x: real, groundY: real, width: real := SPIKE_WIDTH): (o: Obstacle)
    ensures o.kind == SPIKE && o.position.x == x
    ensures o.size == Vector2(width, SPIKE_HEIGHT)
    ensures GetBounds(o).Bottom() == groundY
  {
    Obstacle(Vector2(x, groundY - SPIKE_HEIGHT), Vector2(width, SPIKE_HEIGHT), SPIKE)
  }

  /** The obstacle's box is exactly its position and size. */
  function GetBounds(o: Obstacle): (r: Rectangle)
    ensures r.x == o.position.x && r.y == o.position.y
    ensures r.width == o.size.x && r.height == o.size.y
  {
    Rectangle(o.position.x, o.position.y, o.size.x, o.size.y)
  }

  /** Off screen once the right edge is more than the margin behind the camera; the width is unused. */
  function IsOffScreen(o: Obstacle, cameraX: real, canvasWidth: real): (off: bool)
    ensures off <==> GetBounds(o).Right() < cameraX - OFFSCREEN_MARGIN
  {
    o.position.x + o.size.x < cameraX - OFFSCREEN_MARGIN
  }

  /** Once off screen, an obstacle stays off screen as the camera moves right. */
  lemma OffScreenStays(o: Obstacle, cameraX: real, laterX: real, w: real, laterW: real)
    requires cameraX <= laterX
    requires IsOffScreen(o, cameraX, w)
    ensures IsOffScreen(o, laterX, laterW)
  {
  }
}
