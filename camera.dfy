/**
 * The side-scrolling camera: it keeps the player a third of the way across
 * the screen, clamped so that it never shows anything left of the stage start
 * or right of the stage end.
 */
module CameraModel {
  import opened Types
  import PlayerModel

  /** Where the camera's left edge goes for a player at `playerX`. */
  function Follow(playerX: real, canvasWidth: real, stageWidth: real): (x: real)
    ensures x >= 0.0
    ensures stageWidth >= canvasWidth ==> x <= stageWidth - canvasWidth
    ensures 0.0 <= playerX - canvasWidth / 3.0 <= stageWidth - canvasWidth ==>
              x == playerX - canvasWidth / 3.0
    ensures playerX - canvasWidth / 3.0 <= 0.0 ==> x == 0.0
    ensures stageWidth >= canvasWidth && playerX - canvasWidth / 3.0 >= stageWidth - canvasWidth ==>
              x == stageWidth - canvasWidth
  {
    var targetX := playerX - canvasWidth / 3.0;
    Max(0.0, Min(targetX, stageWidth - canvasWidth))
  }

  /** The camera never moves left while the player moves right. */
  lemma FollowMonotone(x1: real, x2: real, canvasWidth: real, stageWidth: real)
    requires x1 <= x2
    ensures Follow(x1, canvasWidth, stageWidth) <= Follow(x2, canvasWidth, stageWidth)
  {
  }

  class Camera {
    var position: Vector2
    const target: PlayerModel.Player
    const canvasWidth: real
    const stageWidth: real

    constructor (target: PlayerModel.Player, canvasWidth: real, stageWidth: real)
      ensures this.target == target && this.canvasWidth == canvasWidth && this.stageWidth == stageWidth
      ensures position == Vector2(0.0, 0.0)
    {
      this.target := target;
      this.canvasWidth := canvasWidth;
      this.stageWidth := stageWidth;
      position := Vector2(0.0, 0.0);
    }

    /** Only x follows the player; y keeps its value. */
    method Update()
      modifies this
      ensures position == Vector2(Follow(target.position.x, canvasWidth, stageWidth), old(position.y))
    {
      var targetX := target.position.x - canvasWidth / 3.0;
      position := position.(x := Max(0.0, Min(targetX, stageWidth - canvasWidth)));
    }

    function GetX(): (x: real)
      reads this
      ensures x == position.x
    {
      position.x
    }
  }
}
