/**
 * The three enemy kinds: walkers on the ground, flyers bobbing in the air and
 * diggers that burrow when the player comes near and spring up in front of
 * them. The rules are first given as functions on an `EnemyData` value; the
 * `Enemy` class below updates its fields in place and each of its methods is
 * proved to produce exactly the value the matching function describes.
 */
module Enemies {
  import opened Types
  import Collision

  const ENEMY_SIZE: real := 24.0
  const WALKER_SPEED: real := 30.0
  const FLYER_SPEED: real := 40.0
  const DIGGER_SPEED: real := 25.0
  const DETECTION_RANGE: real := 200.0
  const EMERGE_RANGE: real := 80.0
  /** How long (ms) a digger stays in the emerging state. */
  const EMERGE_TIME: real := 500.0
  const FLYER_AMPLITUDE: real := 20.0
  const FLYER_FREQUENCY: real := 3.0
  const OFFSCREEN_MARGIN: real := 100.0

  datatype EnemyType = WALKER | FLYER | DIGGER

  datatype EnemyState = MOVING | UNDERGROUND | EMERGING

  /** What distinguishes the kinds: a flyer's baseline and clock, a digger's state machine. */
  datatype Behaviour =
    | Walking
    | Flying(baseY: real, oscillationTimer: real)
    | Digging(state: EnemyState, stateTimer: real, groundY: real)

  datatype EnemyData = EnemyData(position: Vector2, velocity: Vector2, isAlive: bool, speed: real, behaviour: Behaviour)
  {
    function Type(): EnemyType
    {
      match behaviour
      case Walking => WALKER
      case Flying(_, _) => FLYER
      case Digging(_, _, _) => DIGGER
    }

    predicate IsUnderground()
    {
      behaviour.Digging? && behaviour.state == UNDERGROUND
    }
  }

  /** The shared constructor: alive, 24 by 24, moving left at `speed`. */
  function Spawn(x: real, y: real, speed: real, behaviour: Behaviour): (e: EnemyData)
  {
    EnemyData(Vector2(x, y), Vector2(-speed, 0.0), true, speed, behaviour)
  }

  function NewWalker(x: real, y: real): (e: EnemyData)
  {
    Spawn(x, y, WALKER_SPEED, Walking)
  }

  function NewFlyer(x: real, y: real): (e: EnemyData)
  {
    Spawn(x, y, FLYER_SPEED, Flying(y, 0.0))
  }

  /** A digger starts moving, standing on `groundY` whatever `y` says. */
  function NewDigger(x: real, y: real, groundY: real): (e: EnemyData)
  {
    var e := Spawn(x, y, DIGGER_SPEED, Digging(MOVING, 0.0, groundY));
    e.(position := e.position.(y := groundY - ENEMY_SIZE))
  }

  /** The horizontal step of a moving enemy. */
  function Walked(e: EnemyData, dt: real): real
  {
    e.position.x + e.velocity.x * dt
  }

  /**
   * One frame of an enemy. `sine` stands for Math.sin, which only the flyer's
   * height uses. A digger measures its distance to the player before it moves
   * but compares sides after it has moved.
   */
  function Advanced(e: EnemyData, deltaTime: real, playerPosition: Vector2, groundY: real, sine: real -> real)
    : (r: EnemyData)
    ensures r.velocity == e.velocity && r.isAlive == e.isAlive && r.speed == e.speed
    ensures r.Type() == e.Type()
    ensures e.Type() == WALKER ==>
              r.position == Vector2(Walked(e, deltaTime / 1000.0), groundY - ENEMY_SIZE)
    ensures e.Type() == FLYER ==>
              r.position.x == Walked(e, deltaTime / 1000.0) &&
              r.behaviour.baseY == e.behaviour.baseY &&
              r.behaviour.oscillationTimer == e.behaviour.oscillationTimer + deltaTime / 1000.0
    ensures e.Type() == DIGGER ==> r.position.y == e.position.y && r.behaviour.groundY == e.behaviour.groundY
  {
    var dt := deltaTime / 1000.0;
    match e.behaviour
    case Walking =>
      e.(position := Vector2(e.position.x + e.velocity.x * dt, groundY - ENEMY_SIZE))
    case Flying(baseY, timer) =>
      var t := timer + deltaTime / 1000.0;
      e.(position := Vector2(e.position.x + e.velocity.x * dt, baseY + sine(t * FLYER_FREQUENCY) * FLYER_AMPLITUDE),
         behaviour := Flying(baseY, t))
    case Digging(state, timer, ownGround) =>
      DiggerAdvanced(e, deltaTime, playerPosition, state, timer, ownGround)
  }

  /** The digger's three-state machine; see the lemmas below for each transition. */
  function DiggerAdvanced(e: EnemyData, deltaTime: real, playerPosition: Vector2,
                          state: EnemyState, timer: real, ownGround: real): (r: EnemyData)
    ensures r.velocity == e.velocity && r.isAlive == e.isAlive && r.speed == e.speed
    ensures r.position.y == e.position.y && r.behaviour.Digging? && r.behaviour.groundY == ownGround
    ensures state != UNDERGROUND ==> r.position.x == Walked(e, deltaTime / 1000.0)
    ensures state == UNDERGROUND ==> r.position == e.position
  {
    var dt := deltaTime / 1000.0;
    var distanceToPlayer := Abs(e.position.x - playerPosition.x);
    var elapsed := timer + deltaTime;
    match state
    case MOVING =>
      var moved := e.position.(x := e.position.x + e.velocity.x * dt);
      if distanceToPlayer < DETECTION_RANGE && playerPosition.x > moved.x
      then e.(position := moved, behaviour := Digging(UNDERGROUND, 0.0, ownGround))
      else e.(position := moved, behaviour := Digging(MOVING, elapsed, ownGround))
    case UNDERGROUND =>
      if distanceToPlayer < EMERGE_RANGE
      then e.(behaviour := Digging(EMERGING, 0.0, ownGround))
      else e.(behaviour := Digging(UNDERGROUND, elapsed, ownGround))
    case EMERGING =>
      var moved := e.position.(x := e.position.x + e.velocity.x * dt);
      e.(position := moved,
         behaviour := Digging(if elapsed > EMERGE_TIME then MOVING else EMERGING, elapsed, ownGround))
  }

  /** The body box; an underground digger shrinks to the point at its base. */
  function BoundsOf(e: EnemyData): (r: Rectangle)
    ensures e.IsUnderground() ==> r == Rectangle(e.position.x, e.position.y + ENEMY_SIZE, 0.0, 0.0)
    ensures !e.IsUnderground() ==> r == Rectangle(e.position.x, e.position.y, ENEMY_SIZE, ENEMY_SIZE)
  {
    if e.IsUnderground() then Rectangle(e.position.x, e.position.y + ENEMY_SIZE, 0.0, 0.0)
    else Rectangle(e.position.x, e.position.y, ENEMY_SIZE, ENEMY_SIZE)
  }

  /** Any hit kills; there is no hit-point pool. */
  function Killed(e: EnemyData): (r: EnemyData)
    ensures !r.isAlive && r == e.(isAlive := false)
  {
    e.(isAlive := false)
  }

  function OffScreen(e: EnemyData, cameraX: real, canvasWidth: real): (off: bool)
    ensures off <==> e.position.x + ENEMY_SIZE < cameraX - OFFSCREEN_MARGIN
  {
    e.position.x + ENEMY_SIZE < cameraX - OFFSCREEN_MARGIN
  }

  lemma KilledIdempotent(e: EnemyData)
    ensures Killed(Killed(e)) == Killed(e)
  {
  }

  lemma OffScreenIgnoresWidth(e: EnemyData, cameraX: real, w1: real, w2: real)
    ensures OffScreen(e, cameraX, w1) == OffScreen(e, cameraX, w2)
  {
  }

  /** Every kind starts moving left at its own speed. */
  lemma SpawnSpeeds(x: real, y: real, groundY: real)
    ensures NewWalker(x, y).velocity == Vector2(-30.0, 0.0)
    ensures NewFlyer(x, y).velocity == Vector2(-40.0, 0.0)
    ensures NewDigger(x, y, groundY).velocity == Vector2(-25.0, 0.0)
  {
  }

  /** With a leftward velocity and time running forward, no enemy ever moves right. */
  lemma NeverMovesRight(e: EnemyData, deltaTime: real, playerPosition: Vector2, groundY: real, sine: real -> real)
    requires e.velocity.x <= 0.0 && deltaTime >= 0.0
    ensures Advanced(e, deltaTime, playerPosition, groundY, sine).position.x <= e.position.x
  {
    var dt := deltaTime / 1000.0;
    assert e.velocity.x * dt <= 0.0 by {
      assert dt >= 0.0;
      assert -e.velocity.x >= 0.0;
      assert (-e.velocity.x) * dt >= 0.0;
    }
  }

  /** A walker is pinned to the ground and loses 30 * dt of x per frame. */
  lemma WalkerStep(x: real, y: real, deltaTime: real, playerPosition: Vector2, groundY: real, sine: real -> real)
    ensures var r := Advanced(NewWalker(x, y), deltaTime, playerPosition, groundY, sine);
            r.position.y == groundY - ENEMY_SIZE && r.position.x == x - WALKER_SPEED * (deltaTime / 1000.0)
  {
  }

  /**
   * A moving digger burrows exactly when the player is within 200 (measured
   * before the step) and to the right of it (after the step); burrowing resets
   * the state clock. Otherwise it keeps moving.
   */
  lemma DiggerBurrows(e: EnemyData, deltaTime: real, playerPosition: Vector2, groundY: real, sine: real -> real)
    requires e.behaviour.Digging? && e.behaviour.state == MOVING
    ensures var r := Advanced(e, deltaTime, playerPosition, groundY, sine);
            (r.behaviour.state == UNDERGROUND <==>
               Abs(e.position.x - playerPosition.x) < DETECTION_RANGE && playerPosition.x > r.position.x) &&
            (r.behaviour.state == UNDERGROUND ==> r.behaviour.stateTimer == 0.0) &&
            (r.behaviour.state != UNDERGROUND ==> r.behaviour.state == MOVING)
  {
  }

  /**
   * An underground digger stays put; its only way out is to emerge, which it
   * does exactly when the player is within 80. It never returns to moving directly.
   */
  lemma DiggerUnderground(e: EnemyData, deltaTime: real, playerPosition: Vector2, groundY: real, sine: real -> real)
    requires e.IsUnderground()
    ensures var r := Advanced(e, deltaTime, playerPosition, groundY, sine);
            r.position == e.position &&
            r.behaviour.state != MOVING &&
            (r.behaviour.state == EMERGING <==> Abs(e.position.x - playerPosition.x) < EMERGE_RANGE) &&
            (r.behaviour.state == EMERGING ==> r.behaviour.stateTimer == 0.0)
  {
  }

  /** An emerging digger keeps moving left and goes back to moving once its clock passes 500 ms. */
  lemma DiggerEmerges(e: EnemyData, deltaTime: real, playerPosition: Vector2, groundY: real, sine: real -> real)
    requires e.behaviour.Digging? && e.behaviour.state == EMERGING
    ensures var r := Advanced(e, deltaTime, playerPosition, groundY, sine);
            r.position.x == Walked(e, deltaTime / 1000.0) &&
            r.behaviour.stateTimer == e.behaviour.stateTimer + deltaTime &&
            (r.behaviour.state == MOVING <==> e.behaviour.stateTimer + deltaTime > EMERGE_TIME) &&
            (r.behaviour.state != MOVING ==> r.behaviour.state == EMERGING)
  {
  }

  /** A player to the left of a moving digger never makes it burrow. */
  lemma NoAmbushFromBehind(e: EnemyData, deltaTime: real, playerPosition: Vector2, groundY: real, sine: real -> real)
    requires e.behaviour.Digging? && e.behaviour.state == MOVING
    requires e.velocity.x <= 0.0 && deltaTime >= 0.0
    requires playerPosition.x <= Walked(e, deltaTime / 1000.0)
    ensures Advanced(e, deltaTime, playerPosition, groundY, sine).behaviour.state == MOVING
  {
    DiggerBurrows(e, deltaTime, playerPosition, groundY, sine);
  }

  /** An underground digger's bounds touch a box only if its base point lies strictly inside that box. */
  lemma UndergroundIsAPoint(e: EnemyData, r: Rectangle)
    requires e.IsUnderground()
    ensures Collision.CheckCollision(BoundsOf(e), r) <==>
            r.x < e.position.x < r.Right() && r.y < e.position.y + ENEMY_SIZE < r.Bottom()
  {
    Collision.PointCollision(e.position.x, e.position.y + ENEMY_SIZE, r);
  }

  /**
   * An enemy object. The three subclasses of the original become three named
   * constructors; the kind-specific fields live in `behaviour`.
   */
  class Enemy {
    var position: Vector2
    var velocity: Vector2
    const size: Vector2 := Vector2(ENEMY_SIZE, ENEMY_SIZE)
    var isAlive: bool
    const speed: real
    var behaviour: Behaviour

    function Data(): EnemyData
      reads this
    {
      EnemyData(position, velocity, isAlive, speed, behaviour)
    }

    constructor Walker(x: real, y: real)
      ensures Data() == NewWalker(x, y)
    {
      position, velocity := Vector2(x, y), Vector2(-WALKER_SPEED, 0.0);
      isAlive, speed, behaviour := true, WALKER_SPEED, Walking;
    }

    constructor Flyer(x: real, y: real)
      ensures Data() == NewFlyer(x, y)
    {
      position, velocity := Vector2(x, y), Vector2(-FLYER_SPEED, 0.0);
      isAlive, speed, behaviour := true, FLYER_SPEED, Flying(y, 0.0);
    }

    constructor Digger(x: real, y: real, groundY: real)
      ensures Data() == NewDigger(x, y, groundY)
    {
      position, velocity := Vector2(x, y), Vector2(-DIGGER_SPEED, 0.0);
      isAlive, speed, behaviour := true, DIGGER_SPEED, Digging(MOVING, 0.0, groundY);
      new;
      position := position.(y := groundY - size.y);
    }

    method Update(deltaTime: real, playerPosition: Vector2, groundY: real, sine: real -> real)
      modifies this
      ensures Data() == Advanced(old(Data()), deltaTime, playerPosition, groundY, sine)
    {
      var dt := deltaTime / 1000.0;
      match behaviour
      case Walking =>
        position := position.(x := position.x + velocity.x * dt);
        position := position.(y := groundY - size.y);
      case Flying(baseY, oscillationTimer) =>
        position := position.(x := position.x + velocity.x * dt);
        var timer := oscillationTimer + deltaTime / 1000.0;
        behaviour := Flying(baseY, timer);
        position := position.(y := baseY + sine(timer * FLYER_FREQUENCY) * FLYER_AMPLITUDE);
      case Digging(state, stateTimer, ownGround) =>
        var distanceToPlayer := Abs(position.x - playerPosition.x);
        var timer := stateTimer + deltaTime;
        var next := state;
        match state {
          case MOVING =>
            position := position.(x := position.x + velocity.x * dt);
            if distanceToPlayer < DETECTION_RANGE && playerPosition.x > position.x {
              next, timer := UNDERGROUND, 0.0;
            }
          case UNDERGROUND =>
            if distanceToPlayer < EMERGE_RANGE {
              next, timer := EMERGING, 0.0;
            }
          case EMERGING =>
            position := position.(x := position.x + velocity.x * dt);
            if timer > EMERGE_TIME {
              next := MOVING;
            }
        }
        behaviour := Digging(next, timer, ownGround);
    }

    function GetBounds(): (r: Rectangle)
      reads this
      ensures r == BoundsOf(Data())
    {
      if behaviour.Digging? && behaviour.state == UNDERGROUND
      then Rectangle(position.x, position.y + size.y, 0.0, 0.0)
      else Rectangle(position.x, position.y, size.x, size.y)
    }

    method TakeDamage()
      modifies this
      ensures Data() == Killed(old(Data()))
    {
      isAlive := false;
    }

    function IsOffScreen(cameraX: real, canvasWidth: real): (off: bool)
      reads this
      ensures off == OffScreen(Data(), cameraX, canvasWidth)
    {
      position.x + size.x < cameraX - OFFSCREEN_MARGIN
    }
  }
}
