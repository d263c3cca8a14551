/**
 * The rules of one Makai Runner stage as functions on values: how the stage
 * is laid out from a stream of random draws, how the ground platforms follow
 * from the holes, and what one frame of play does to the player, the enemies,
 * the obstacles, the camera, the score and the outer game state. The `Game`
 * class performs these steps in place and is proved to agree with them.
 */
module Stage {
  import opened Types
  import opened PlayerModel
  import Collision
  import Enemies
  import Obstacles
  import Input
  import CameraModel

  const CANVAS_WIDTH: real := 800.0
  const CANVAS_HEIGHT: real := 500.0
  const STAGE_WIDTH: real := 4000.0
  const GROUND_Y: real := 450.0
  const PLATFORM_HEIGHT: real := 10.0

  const ENEMY_START: real := 300.0
  const ENEMY_MIN_GAP: real := 200.0
  const ENEMY_GAP_RANGE: real := 300.0
  const FLYER_HEIGHT: real := 150.0

  const OBSTACLE_START: real := 500.0
  const OBSTACLE_END: real := STAGE_WIDTH - 200.0
  const OBSTACLE_MIN_GAP: real := 150.0
  const OBSTACLE_GAP_RANGE: real := 400.0
  const HOLE_CHANCE: real := 0.6

  const KILL_SCORE: real := 100.0
  const HP_BONUS: real := 200.0
  const GOAL_X: real := STAGE_WIDTH - 100.0
  /** Seconds of fall the landing test forgives below a platform's top. */
  const LANDING_WINDOW: real := 0.016
  const CONTACT_DAMAGE: real := 1.0

  /** A stream of `Math.random()` results, consumed in order. */
  ghost predicate RandomDraws(draw: nat -> real)
  {
    forall i: nat :: 0.0 <= draw(i) < 1.0
  }

  // ---------------------------------------------------------------- layout

  /** Where each kind of enemy is placed. */
  predicate PlacedOnStage(e: Enemies.EnemyData)
  {
    e.isAlive &&
    (e.Type() == Enemies.WALKER ==> e.position.y == GROUND_Y - Enemies.ENEMY_SIZE) &&
    (e.Type() == Enemies.FLYER ==> e.position.y == GROUND_Y - FLYER_HEIGHT) &&
    (e.Type() == Enemies.DIGGER ==>
       e.position.y == GROUND_Y - Enemies.ENEMY_SIZE && e.behaviour.groundY == GROUND_Y)
  }

  /** The enemy for spawn position `x` and type draw `t`: `Math.floor(t * 3)` picks the kind. */
  function SpawnedEnemy(x: real, t: real): Enemies.EnemyData
    requires 0.0 <= t < 1.0
  {
    var kind := (t * 3.0).Floor;
    if kind == 0 then Enemies.NewWalker(x, GROUND_Y - Enemies.ENEMY_SIZE)
    else if kind == 1 then Enemies.NewFlyer(x, GROUND_Y - FLYER_HEIGHT)
    else Enemies.NewDigger(x, GROUND_Y - Enemies.ENEMY_SIZE, GROUND_Y)
  }

  /**
   * A spawn stands at `x`, placed as its kind requires, alive and moving left;
   * each third of the draw's range picks one kind.
   */
  lemma SpawnedEnemyKind(x: real, t: real)
    requires 0.0 <= t < 1.0
    ensures var e := SpawnedEnemy(x, t);
            e.position.x == x && PlacedOnStage(e) && e.isAlive && e.velocity.x < 0.0 &&
            (e.Type() == Enemies.WALKER <==> t * 3.0 < 1.0) &&
            (e.Type() == Enemies.FLYER <==> 1.0 <= t * 3.0 < 2.0) &&
            (e.Type() == Enemies.DIGGER <==> 2.0 <= t * 3.0)
  {
  }

  /** Each spawn lies at least 200 and less than 500 right of the one before. */
  predicate Stepped(es: seq<Enemies.EnemyData>)
    decreases |es|
  {
    |es| <= 1 ||
    (es[0].position.x + ENEMY_MIN_GAP <= es[1].position.x < es[0].position.x + ENEMY_MIN_GAP + ENEMY_GAP_RANGE &&
     Stepped(es[1..]))
  }

  /**
   * The enemies spawned from position `x` on, the `k`-th spawn reading its
   * type from draw 2k and the gap after it from draw 2k+1.
   */
  function EnemyWave(x: real, k: nat, draw: nat -> real): (es: seq<Enemies.EnemyData>)
    requires RandomDraws(draw)
    decreases (STAGE_WIDTH - x).Floor
  {
    if x >= STAGE_WIDTH then []
    else
      var next := x + ENEMY_MIN_GAP + ENEMY_GAP_RANGE * draw(2 * k + 1);
      [SpawnedEnemy(x, draw(2 * k))] + EnemyWave(next, k + 1, draw)
  }

  /** One spawn step: the wave is the enemy at `x` followed by the wave from the next position, which is further right. */
  lemma {:induction false} EnemyWaveStep(x: real, k: nat, draw: nat -> real)
    requires RandomDraws(draw) && x < STAGE_WIDTH
    ensures var next := x + ENEMY_MIN_GAP + ENEMY_GAP_RANGE * draw(2 * k + 1);
            EnemyWave(x, k, draw) == [SpawnedEnemy(x, draw(2 * k))] + EnemyWave(next, k + 1, draw)
  {
  }

  /**
   * A wave starting at `x` is empty exactly when `x` is past the stage end;
   * otherwise it lies in [x, 4000), the i-th enemy's kind comes from draw
   * 2(k+i), every enemy is placed as its kind requires, and consecutive
   * spawns are 200 to 500 apart.
   */
  lemma {:induction false} EnemyWaveShape(x: real, k: nat, draw: nat -> real)
    requires RandomDraws(draw)
    ensures var es := EnemyWave(x, k, draw);
            (|es| > 0 <==> x < STAGE_WIDTH) &&
            (|es| > 0 ==> es[0].position.x == x) &&
            (forall i :: 0 <= i < |es| ==> x <= es[i].position.x < STAGE_WIDTH && PlacedOnStage(es[i])) &&
            (forall i :: 0 <= i < |es| ==> es[i] == SpawnedEnemy(es[i].position.x, draw(2 * (k + i)))) &&
            Stepped(es)
    decreases (STAGE_WIDTH - x).Floor
  {
    if x < STAGE_WIDTH {
      var next := x + ENEMY_MIN_GAP + ENEMY_GAP_RANGE * draw(2 * k + 1);
      EnemyWaveShape(next, k + 1, draw);
      EnemyWaveStep(x, k, draw);
      var es := EnemyWave(x, k, draw);
      var rest := EnemyWave(next, k + 1, draw);
      SpawnedEnemyKind(x, draw(2 * k));
      assert es[0] == SpawnedEnemy(x, draw(2 * k)) && es[1..] == rest;
      assert x + ENEMY_MIN_GAP <= next < x + ENEMY_MIN_GAP + ENEMY_GAP_RANGE;
      assert Stepped(es);
      forall i | 0 < i < |es|
        ensures es[i] == rest[i - 1]
      {
      }
      forall i | 0 <= i < |es|
        ensures x <= es[i].position.x < STAGE_WIDTH && PlacedOnStage(es[i])
      {
      }
      forall i | 0 <= i < |es|
        ensures es[i] == SpawnedEnemy(es[i].position.x, draw(2 * (k + i)))
      {
        if i > 0 {
          assert 2 * (k + i) == 2 * ((k + 1) + (i - 1));
        }
      }
    }
  }

  /** The obstacle for position `x` and type draw `t`: a hole with probability 0.6, else a spike. */
  function SpawnedObstacle(x: real, t: real): Obstacles.Obstacle
  {
    if t < HOLE_CHANCE then Obstacles.NewHole(x, GROUND_Y) else Obstacles.NewSpike(x, GROUND_Y)
  }

  /**
   * An obstacle stands at `x`; draws below 0.6 make a standard-width hole
   * at ground level, the others a spike standing on the ground.
   */
  lemma SpawnedObstacleKind(x: real, t: real)
    ensures var o := SpawnedObstacle(x, t);
            o.position.x == x &&
            (o.kind == Obstacles.HOLE <==> t < HOLE_CHANCE) &&
            (o.kind == Obstacles.HOLE ==> o.size.x == Obstacles.HOLE_WIDTH && o.position.y == GROUND_Y) &&
            (o.kind == Obstacles.SPIKE ==> Obstacles.GetBounds(o).Bottom() == GROUND_Y)
  {
  }

  /** Every obstacle in `os` is at or right of `lo`. */
  predicate AllFrom(os: seq<Obstacles.Obstacle>, lo: real)
  {
    forall i :: 0 <= i < |os| ==> lo <= os[i].position.x
  }

  /** Every obstacle lies left of the generator's end, and every hole has the standard width. */
  predicate InRow(os: seq<Obstacles.Obstacle>)
  {
    forall i :: 0 <= i < |os| ==>
      os[i].position.x < OBSTACLE_END && (os[i].kind == Obstacles.HOLE ==> os[i].size.x == Obstacles.HOLE_WIDTH)
  }

  /** Each obstacle is at least the minimum gap left of every later one. */
  predicate Spaced(os: seq<Obstacles.Obstacle>)
    decreases |os|
  {
    os == [] || (AllFrom(os[1..], os[0].position.x + OBSTACLE_MIN_GAP) && Spaced(os[1..]))
  }

  /** The obstacles placed from position `x` on, drawing type then gap as for enemies. */
  function ObstacleRow(x: real, k: nat, draw: nat -> real): (os: seq<Obstacles.Obstacle>)
    requires RandomDraws(draw)
    decreases (OBSTACLE_END - x).Floor
  {
    if x >= OBSTACLE_END then []
    else
      var next := x + OBSTACLE_MIN_GAP + OBSTACLE_GAP_RANGE * draw(2 * k + 1);
      [SpawnedObstacle(x, draw(2 * k))] + ObstacleRow(next, k + 1, draw)
  }

  /** One placement step: the row is the obstacle at `x` followed by the row from the next position, which is further right. */
  lemma {:induction false} ObstacleRowStep(x: real, k: nat, draw: nat -> real)
    requires RandomDraws(draw) && x < OBSTACLE_END
    ensures var next := x + OBSTACLE_MIN_GAP + OBSTACLE_GAP_RANGE * draw(2 * k + 1);
            ObstacleRow(x, k, draw) == [SpawnedObstacle(x, draw(2 * k))] + ObstacleRow(next, k + 1, draw)
  {
  }

  /**
   * A row starting at `x` is empty exactly when `x` is past 3800; otherwise it
   * lies in [x, 3800), the i-th obstacle's kind comes from draw 2(k+i), holes
   * have the standard width, and obstacles are at least 150 apart.
   */
  lemma {:induction false} ObstacleRowShape(x: real, k: nat, draw: nat -> real)
    requires RandomDraws(draw)
    ensures var os := ObstacleRow(x, k, draw);
            (|os| > 0 <==> x < OBSTACLE_END) &&
            (forall i :: 0 <= i < |os| ==> os[i] == SpawnedObstacle(os[i].position.x, draw(2 * (k + i)))) &&
            AllFrom(os, x) && InRow(os) && Spaced(os)
    decreases (OBSTACLE_END - x).Floor
  {
    if x < OBSTACLE_END {
      var next := x + OBSTACLE_MIN_GAP + OBSTACLE_GAP_RANGE * draw(2 * k + 1);
      ObstacleRowShape(next, k + 1, draw);
      ObstacleRowStep(x, k, draw);
      var os := ObstacleRow(x, k, draw);
      var rest := ObstacleRow(next, k + 1, draw);
      SpawnedObstacleKind(x, draw(2 * k));
      assert os[0] == SpawnedObstacle(x, draw(2 * k)) && os[1..] == rest;
      assert x + OBSTACLE_MIN_GAP <= next;
      assert Spaced(os);
      forall i | 0 < i < |os|
        ensures os[i] == rest[i - 1]
      {
      }
      assert AllFrom(os, x);
      assert InRow(os);
      forall i | 0 <= i < |os|
        ensures os[i] == SpawnedObstacle(os[i].position.x, draw(2 * (k + i)))
      {
        if i > 0 {
          assert 2 * (k + i) == 2 * ((k + 1) + (i - 1));
        }
      }
    }
  }

  /**
   * A spaced row is strictly increasing in x; sorting it by x, as the spawner
   * does next, therefore leaves it exactly as it is.
   */
  lemma {:induction false} RowIncreasing(os: seq<Obstacles.Obstacle>)
    requires Spaced(os)
    ensures forall i, j :: 0 <= i < j < |os| ==> os[i].position.x < os[j].position.x
    decreases |os|
  {
    if os != [] {
      var rest := os[1..];
      RowIncreasing(rest);
      forall i, j | 0 <= i < j < |os| ensures os[i].position.x < os[j].position.x {
        assert os[j] == rest[j - 1];
        if i > 0 {
          assert os[i] == rest[i - 1];
        }
      }
    }
  }

  /** The holes among the obstacles, in their order. */
  function Holes(os: seq<Obstacles.Obstacle>): (hs: seq<Obstacles.Obstacle>)
    ensures |hs| <= |os|
  {
    if os == [] then []
    else if os[0].kind == Obstacles.HOLE then [os[0]] + Holes(os[1..])
    else Holes(os[1..])
  }

  /** Exactly the holes are picked: every picked obstacle is a hole of the row and no hole is missed. */
  lemma {:induction false} HolesExactly(os: seq<Obstacles.Obstacle>)
    ensures forall i :: 0 <= i < |Holes(os)| ==> Holes(os)[i].kind == Obstacles.HOLE && Holes(os)[i] in os
    ensures forall o :: o in os && o.kind == Obstacles.HOLE ==> o in Holes(os)
    decreases |os|
  {
    if os != [] {
      HolesExactly(os[1..]);
      forall o | o in os[1..] ensures o in os {
      }
      assert os == [os[0]] + os[1..];
    }
  }

  /** Picking out the holes keeps the bounds, the row limits and the spacing. */
  lemma {:induction false} HolesKeep(os: seq<Obstacles.Obstacle>, lo: real)
    ensures AllFrom(os, lo) ==> AllFrom(Holes(os), lo)
    ensures InRow(os) ==> InRow(Holes(os))
    ensures Spaced(os) ==> Spaced(Holes(os))
    decreases |os|
  {
    if os != [] {
      var rest := os[1..];
      HolesKeep(rest, lo);
      HolesKeep(rest, os[0].position.x + OBSTACLE_MIN_GAP);
      assert AllFrom(os, lo) ==> AllFrom(rest, lo) by {
        if AllFrom(os, lo) {
          forall i | 0 <= i < |rest| ensures lo <= rest[i].position.x {
            assert rest[i] == os[i + 1];
          }
        }
      }
      assert InRow(os) ==> InRow(rest) by {
        if InRow(os) {
          forall i | 0 <= i < |rest|
            ensures rest[i].position.x < OBSTACLE_END &&
                    (rest[i].kind == Obstacles.HOLE ==> rest[i].size.x == Obstacles.HOLE_WIDTH)
          {
            assert rest[i] == os[i + 1];
          }
        }
      }
      if os[0].kind == Obstacles.HOLE {
        assert Holes(os) == [os[0]] + Holes(rest);
        assert Holes(os)[1..] == Holes(rest);
      }
    }
  }

  /**
   * The ground platforms left between the holes, starting at `lastX`: one
   * before each hole and one from the last hole to the end of the stage.
   */
  function PlatformsFrom(lastX: real, holes: seq<Obstacles.Obstacle>): (ps: seq<Rectangle>)
    ensures |ps| == |holes| + 1
    decreases holes
  {
    if holes == [] then [Rectangle(lastX, GROUND_Y, STAGE_WIDTH - lastX, PLATFORM_HEIGHT)]
    else
      var hole := holes[0];
      [Rectangle(lastX, GROUND_Y, hole.position.x - lastX, PLATFORM_HEIGHT)] +
      PlatformsFrom(hole.position.x + hole.size.x, holes[1..])
  }

  /**
   * The platforms run from `lastX` to the stage end: each one ends where the
   * next hole starts, the one after it starts where that hole ends, and all
   * lie on the ground with the platform height.
   */
  lemma {:induction false} PlatformsAlternate(lastX: real, holes: seq<Obstacles.Obstacle>)
    ensures var ps := PlatformsFrom(lastX, holes);
            ps[0].x == lastX && ps[|ps| - 1].Right() == STAGE_WIDTH &&
            (forall i :: 0 <= i < |holes| ==> ps[i].Right() == holes[i].position.x) &&
            (forall i :: 0 <= i < |holes| ==> ps[i + 1].x == holes[i].position.x + holes[i].size.x) &&
            (forall i :: 0 <= i < |ps| ==> ps[i].y == GROUND_Y && ps[i].height == PLATFORM_HEIGHT)
    decreases holes
  {
    var ps := PlatformsFrom(lastX, holes);
    if holes != [] {
      var hole := holes[0];
      var next := hole.position.x + hole.size.x;
      var rest := holes[1..];
      PlatformsAlternate(next, rest);
      var tail := PlatformsFrom(next, rest);
      var first := Rectangle(lastX, GROUND_Y, hole.position.x - lastX, PLATFORM_HEIGHT);
      assert ps == [first] + tail;
      assert ps[|ps| - 1] == tail[|tail| - 1];
      forall i | 0 <= i < |holes|
        ensures ps[i].Right() == holes[i].position.x
        ensures ps[i + 1].x == holes[i].position.x + holes[i].size.x
      {
        if i > 0 {
          assert ps[i] == tail[i - 1] && ps[i + 1] == tail[i] && holes[i] == rest[i - 1];
        }
      }
      forall i | 0 <= i < |ps| ensures ps[i].y == GROUND_Y && ps[i].height == PLATFORM_HEIGHT {
        if i > 0 {
          assert ps[i] == tail[i - 1];
        }
      }
    }
  }

  /** With the generator's spacing every platform has positive width. */
  lemma {:induction false} PlatformWidthsPositive(lastX: real, holes: seq<Obstacles.Obstacle>)
    requires Spaced(holes) && InRow(holes)
    requires forall i :: 0 <= i < |holes| ==> holes[i].kind == Obstacles.HOLE
    requires |holes| > 0 ==> lastX < holes[0].position.x
    requires lastX < STAGE_WIDTH
    ensures forall i :: 0 <= i < |holes| + 1 ==> PlatformsFrom(lastX, holes)[i].width > 0.0
    decreases holes
  {
    if holes != [] {
      var hole := holes[0];
      var rest := holes[1..];
      var next := hole.position.x + hole.size.x;
      assert InRow(rest) by {
        forall i | 0 <= i < |rest|
          ensures rest[i].position.x < OBSTACLE_END &&
                  (rest[i].kind == Obstacles.HOLE ==> rest[i].size.x == Obstacles.HOLE_WIDTH)
        {
          assert rest[i] == holes[i + 1];
        }
      }
      assert hole.size.x == Obstacles.HOLE_WIDTH;
      PlatformWidthsPositive(next, rest);
      var ps := PlatformsFrom(lastX, holes);
      assert ps[0].width > 0.0;
      forall i | 1 <= i < |holes| + 1 ensures ps[i].width > 0.0 {
        assert ps[i] == PlatformsFrom(next, rest)[i - 1];
      }
    }
  }

  /**
   * The stage a draw stream lays out: obstacles at least 150 apart between
   * 500 and 3800, and ground platforms of positive width that alternate with
   * the holes, from 0 to the stage end.
   */
  lemma {:induction false} StageLayout(draw: nat -> real, os: seq<Obstacles.Obstacle>, hs: seq<Obstacles.Obstacle>, ps: seq<Rectangle>)
    requires RandomDraws(draw)
    requires os == ObstacleRow(OBSTACLE_START, 0, draw)
    requires hs == Holes(os) && ps == PlatformsFrom(0.0, hs)
    ensures Spaced(os) && Spaced(hs) && AllFrom(hs, OBSTACLE_START) && InRow(hs)
    ensures |ps| == |hs| + 1 && ps[0].x == 0.0 && ps[|hs|].Right() == STAGE_WIDTH
    ensures forall i :: 0 <= i < |ps| ==> ps[i].width > 0.0
    ensures forall i :: 0 <= i < |hs| ==>
              ps[i].Right() == hs[i].position.x && hs[i].position.x + hs[i].size.x == ps[i + 1].x
    ensures forall i :: 0 <= i < |hs| ==> hs[i].size.x > 0.0
  {
    ObstacleRowShape(OBSTACLE_START, 0, draw);
    HolesKeep(os, OBSTACLE_START);
    HolesExactly(os);
    assert |hs| > 0 ==> 0.0 < hs[0].position.x;
    PlatformWidthsPositive(0.0, hs);
    PlatformsAlternate(0.0, hs);
    forall i | 0 <= i < |hs| ensures hs[i].size.x > 0.0 {
      assert hs[i].kind == Obstacles.HOLE;
    }
  }

  // ---------------------------------------------------------------- landing

  /** The player stands on `platform`: centre strictly over it, feet in the landing band, not rising. */
  predicate Catches(p: PlayerData, platform: Rectangle)
  {
    var b := BoundsOf(p);
    var bottom := b.y + b.height;
    var center := b.x + b.width / 2.0;
    center > platform.x && center < platform.x + platform.width &&
    bottom >= platform.y &&
    bottom <= platform.y + platform.height + Abs(p.velocity.y * LANDING_WINDOW) &&
    p.velocity.y >= 0.0
  }

  /** The first platform, in list order, that catches the player. */
  function FirstCatch(p: PlayerData, platforms: seq<Rectangle>): (r: Option<nat>)
    ensures r.Some? ==> r.value < |platforms| && Catches(p, platforms[r.value])
    ensures r.Some? ==> forall j :: 0 <= j < r.value ==> !Catches(p, platforms[j])
    ensures r.None? <==> forall j :: 0 <= j < |platforms| ==> !Catches(p, platforms[j])
  {
    if platforms == [] then None
    else if Catches(p, platforms[0]) then Some(0)
    else match FirstCatch(p, platforms[1..])
      case None => None
      case Some(i) => Some(i + 1)
  }

  /**
   * Platform snapping: the player is first taken off the ground, then put
   * on top of the first platform that catches it, with its fall stopped.
   */
  function Landed(p: PlayerData, platforms: seq<Rectangle>): (r: PlayerData)
    ensures r.isGrounded <==> exists j :: 0 <= j < |platforms| && Catches(p, platforms[j])
    ensures !r.isGrounded ==> r == p.(isGrounded := false)
    ensures r.isGrounded ==>
              var i := FirstCatch(p, platforms).value;
              BoundsOf(r).Bottom() == platforms[i].y && r.velocity.y == 0.0 &&
              r == p.(position := r.position, velocity := r.velocity, isGrounded := true) &&
              r.position.x == p.position.x && r.velocity.x == p.velocity.x
  {
    match FirstCatch(p, platforms)
    case None => p.(isGrounded := false)
    case Some(i) =>
      p.(isGrounded := true,
         position := p.position.(y := platforms[i].y - PLAYER_HEIGHT),
         velocity := p.velocity.(y := 0.0))
  }

  // ---------------------------------------------------------------- enemies and obstacles

  /** An enemy leaves the list when it is dead or has scrolled off the left edge. */
  predicate Removed(e: Enemies.EnemyData, cameraX: real)
  {
    !e.isAlive || Enemies.OffScreen(e, cameraX, CANVAS_WIDTH)
  }

  /** The enemies that stay, in order. */
  function Kept(es: seq<Enemies.EnemyData>, cameraX: real): (r: seq<Enemies.EnemyData>)
    ensures |r| <= |es|
  {
    if es == [] then []
    else if Removed(es[0], cameraX) then Kept(es[1..], cameraX)
    else [es[0]] + Kept(es[1..], cameraX)
  }

  /** How many enemies are dead. */
  function DeadCount(es: seq<Enemies.EnemyData>): (n: nat)
    ensures n <= |es|
  {
    if es == [] then 0 else (if es[0].isAlive then 0 else 1) + DeadCount(es[1..])
  }

  /**
   * An enemy stays exactly when it is in the list and not removed; the dead
   * ones are among those removed, so kept and dead together never exceed the list.
   */
  lemma {:induction false} KeptExactly(es: seq<Enemies.EnemyData>, cameraX: real)
    ensures forall e :: e in Kept(es, cameraX) <==> e in es && !Removed(e, cameraX)
    ensures |Kept(es, cameraX)| + DeadCount(es) <= |es|
    ensures DeadCount(es) == 0 <==> forall e :: e in es ==> e.isAlive
    decreases |es|
  {
    if es != [] {
      KeptExactly(es[1..], cameraX);
      assert es == [es[0]] + es[1..];
    }
  }

  /** The enemy list after one pass: the removed ones dropped, every other one advanced a frame. */
  function UpdatedEnemies(es: seq<Enemies.EnemyData>, cameraX: real, deltaTime: real,
                          playerPosition: Vector2, sine: real -> real): (r: seq<Enemies.EnemyData>)
    ensures |r| == |Kept(es, cameraX)|
  {
    if es == [] then []
    else
      var rest := UpdatedEnemies(es[1..], cameraX, deltaTime, playerPosition, sine);
      if Removed(es[0], cameraX) then rest
      else [Enemies.Advanced(es[0], deltaTime, playerPosition, GROUND_Y, sine)] + rest
  }

  /** Every survivor is the next kept enemy advanced one frame, and all survivors are alive. */
  lemma {:induction false} UpdatedEnemiesAdvance(es: seq<Enemies.EnemyData>, cameraX: real, deltaTime: real,
                                                 playerPosition: Vector2, sine: real -> real)
    ensures var r := UpdatedEnemies(es, cameraX, deltaTime, playerPosition, sine);
            (forall i :: 0 <= i < |r| ==>
               r[i] == Enemies.Advanced(Kept(es, cameraX)[i], deltaTime, playerPosition, GROUND_Y, sine)) &&
            (forall e :: e in r ==> e.isAlive)
    decreases |es|
  {
    if es != [] {
      UpdatedEnemiesAdvance(es[1..], cameraX, deltaTime, playerPosition, sine);
      var r := UpdatedEnemies(es, cameraX, deltaTime, playerPosition, sine);
      var rest := UpdatedEnemies(es[1..], cameraX, deltaTime, playerPosition, sine);
      if !Removed(es[0], cameraX) {
        assert r == [Enemies.Advanced(es[0], deltaTime, playerPosition, GROUND_Y, sine)] + rest;
        assert Kept(es, cameraX) == [es[0]] + Kept(es[1..], cameraX);
        forall i | 1 <= i < |r| ensures r[i] == rest[i - 1] {
        }
      }
    }
  }

  /** The obstacles that stay, in order: all but those off the left edge. */
  function PrunedObstacles(os: seq<Obstacles.Obstacle>, cameraX: real): (r: seq<Obstacles.Obstacle>)
    ensures |r| <= |os|
  {
    if os == [] then []
    else
      var rest := PrunedObstacles(os[1..], cameraX);
      if Obstacles.IsOffScreen(os[0], cameraX, CANVAS_WIDTH) then rest else [os[0]] + rest
  }

  /** An obstacle stays exactly when it is in the list and not off screen. */
  lemma {:induction false} PrunedExactly(os: seq<Obstacles.Obstacle>, cameraX: real)
    ensures forall o :: o in PrunedObstacles(os, cameraX) <==> o in os && !Obstacles.IsOffScreen(o, cameraX, CANVAS_WIDTH)
    decreases |os|
  {
    if os != [] {
      PrunedExactly(os[1..], cameraX);
      assert os == [os[0]] + os[1..];
    }
  }

  // ---------------------------------------------------------------- combat

  predicate AttackHits(attack: Option<Rectangle>, e: Enemies.EnemyData)
  {
    attack.Some? && Collision.CheckCollision(attack.value, Enemies.BoundsOf(e))
  }

  /** The player is either untouched or has taken exactly one contact hit. */
  predicate AtMostOneHit(before: PlayerData, after: PlayerData)
  {
    after == before || (!Invulnerable(before) && after == Damaged(before, CONTACT_DAMAGE).0)
  }

  /**
   * One enemy meets the player: a dead enemy is skipped; the attack box kills
   * a live enemy it touches, and then that enemy does no harm; otherwise
   * contact hurts a player who is not invulnerable.
   */
  function Encounter(p: PlayerData, pb: Rectangle, attack: Option<Rectangle>, e: Enemies.EnemyData)
    : (r: (PlayerData, Enemies.EnemyData))
    ensures r.1 == if e.isAlive && AttackHits(attack, e) then Enemies.Killed(e) else e
    ensures e.isAlive && AttackHits(attack, e) ==> r.0 == p
    ensures !e.isAlive ==> r.0 == p
    ensures r.0 != p ==> !Invulnerable(p) && Collision.CheckCollision(pb, Enemies.BoundsOf(e))
    ensures AtMostOneHit(p, r.0)
  {
    if !e.isAlive then (p, e)
    else if AttackHits(attack, e) then (p, Enemies.Killed(e))
    else if !Invulnerable(p) && Collision.CheckCollision(pb, Enemies.BoundsOf(e))
    then (Damaged(p, CONTACT_DAMAGE).0, e)
    else (p, e)
  }

  /** The enemy loop of the combat pass, as a left fold. */
  function EnemyCombat(p: PlayerData, pb: Rectangle, attack: Option<Rectangle>, es: seq<Enemies.EnemyData>)
    : (r: (PlayerData, seq<Enemies.EnemyData>))
    ensures |r.1| == |es|
    decreases |es|
  {
    if es == [] then (p, [])
    else
      var before := EnemyCombat(p, pb, attack, es[..|es| - 1]);
      var step := Encounter(before.0, pb, attack, es[|es| - 1]);
      (step.0, before.1 + [step.1])
  }

  /**
   * Which enemies die depends only on the attack box, never on the player's
   * health: exactly the live enemies the attack box touches are killed.
   */
  lemma {:induction false} EnemyCombatKills(p: PlayerData, pb: Rectangle, attack: Option<Rectangle>,
                                            es: seq<Enemies.EnemyData>)
    ensures forall i :: 0 <= i < |es| ==>
              EnemyCombat(p, pb, attack, es).1[i] ==
              if es[i].isAlive && AttackHits(attack, es[i]) then Enemies.Killed(es[i]) else es[i]
    decreases |es|
  {
    if es != [] {
      var init := es[..|es| - 1];
      EnemyCombatKills(p, pb, attack, init);
      forall i | 0 <= i < |init| ensures init[i] == es[i] {
      }
    }
  }

  /** One obstacle meets the player: only a spike hurts, and only a vulnerable player. */
  function SpikeContact(p: PlayerData, pb: Rectangle, o: Obstacles.Obstacle): (r: PlayerData)
    ensures o.kind == Obstacles.HOLE ==> r == p
    ensures r != p ==> !Invulnerable(p) && Collision.CheckCollision(pb, Obstacles.GetBounds(o))
    ensures AtMostOneHit(p, r)
  {
    if o.kind == Obstacles.SPIKE && !Invulnerable(p) && Collision.CheckCollision(pb, Obstacles.GetBounds(o))
    then Damaged(p, CONTACT_DAMAGE).0
    else p
  }

  /** The obstacle loop of the combat pass, as a left fold. */
  function SpikeCombat(p: PlayerData, pb: Rectangle, os: seq<Obstacles.Obstacle>): PlayerData
    decreases |os|
  {
    if os == [] then p
    else SpikeContact(SpikeCombat(p, pb, os[..|os| - 1]), pb, os[|os| - 1])
  }

  /** The whole combat pass; the boxes are taken once, before either loop. */
  function Combat(p: PlayerData, es: seq<Enemies.EnemyData>, os: seq<Obstacles.Obstacle>)
    : (r: (PlayerData, seq<Enemies.EnemyData>))
    ensures |r.1| == |es|
  {
    var pb := BoundsOf(p);
    var fought := EnemyCombat(p, pb, AttackBoundsOf(p), es);
    (SpikeCombat(fought.0, pb, os), fought.1)
  }

  /**
   * The pass kills exactly the live enemies that the attack box, taken at the
   * start of the pass, touches; every other enemy comes out as it went in.
   */
  lemma {:induction false} CombatKills(p: PlayerData, es: seq<Enemies.EnemyData>, os: seq<Obstacles.Obstacle>)
    ensures forall i :: 0 <= i < |es| ==>
              Combat(p, es, os).1[i] ==
              if es[i].isAlive && AttackHits(AttackBoundsOf(p), es[i]) then Enemies.Killed(es[i]) else es[i]
  {
    EnemyCombatKills(p, BoundsOf(p), AttackBoundsOf(p), es);
  }

  /** After one hit the invulnerability window shields the player from a second. */
  lemma HitsCompose(p: PlayerData, q: PlayerData, s: PlayerData)
    requires AtMostOneHit(p, q) && AtMostOneHit(q, s)
    ensures AtMostOneHit(p, s)
  {
  }

  lemma {:induction false} EnemyCombatHitsOnce(p: PlayerData, pb: Rectangle, attack: Option<Rectangle>,
                                               es: seq<Enemies.EnemyData>)
    ensures AtMostOneHit(p, EnemyCombat(p, pb, attack, es).0)
    decreases |es|
  {
    if es != [] {
      var before := EnemyCombat(p, pb, attack, es[..|es| - 1]);
      EnemyCombatHitsOnce(p, pb, attack, es[..|es| - 1]);
      HitsCompose(p, before.0, Encounter(before.0, pb, attack, es[|es| - 1]).0);
    }
  }

  lemma {:induction false} SpikeCombatHitsOnce(p: PlayerData, pb: Rectangle, os: seq<Obstacles.Obstacle>)
    ensures AtMostOneHit(p, SpikeCombat(p, pb, os))
    decreases |os|
  {
    if os != [] {
      var before := SpikeCombat(p, pb, os[..|os| - 1]);
      SpikeCombatHitsOnce(p, pb, os[..|os| - 1]);
      HitsCompose(p, before, SpikeContact(before, pb, os[|os| - 1]));
    }
  }

  /** In one combat pass hp drops by at most one, however many enemies and spikes touch the player. */
  lemma {:induction false} CombatHitsOnce(p: PlayerData, es: seq<Enemies.EnemyData>, os: seq<Obstacles.Obstacle>)
    ensures AtMostOneHit(p, Combat(p, es, os).0)
    ensures Combat(p, es, os).0.hp == p.hp || Combat(p, es, os).0.hp == p.hp - CONTACT_DAMAGE
    ensures Combat(p, es, os).0.position == p.position && Combat(p, es, os).0.velocity == p.velocity
  {
    var pb := BoundsOf(p);
    var fought := EnemyCombat(p, pb, AttackBoundsOf(p), es);
    EnemyCombatHitsOnce(p, pb, AttackBoundsOf(p), es);
    SpikeCombatHitsOnce(fought.0, pb, os);
    HitsCompose(p, fought.0, SpikeCombat(fought.0, pb, os));
  }

  /** Holes never hurt: a row without spikes leaves the player untouched. */
  lemma {:induction false} HolesNeverHurt(p: PlayerData, pb: Rectangle, os: seq<Obstacles.Obstacle>)
    requires forall i :: 0 <= i < |os| ==> os[i].kind == Obstacles.HOLE
    ensures SpikeCombat(p, pb, os) == p
    decreases |os|
  {
    if os != [] {
      HolesNeverHurt(p, pb, os[..|os| - 1]);
    }
  }

  /** A player who is invulnerable when the pass starts comes out of it unchanged. */
  lemma {:induction false} InvulnerableUnharmed(p: PlayerData, es: seq<Enemies.EnemyData>, os: seq<Obstacles.Obstacle>)
    requires Invulnerable(p)
    ensures Combat(p, es, os).0 == p
  {
    CombatHitsOnce(p, es, os);
  }

  // ---------------------------------------------------------------- one frame

  /** The whole controller state as a value. */
  datatype World = World(
    player: PlayerData,
    input: Input.InputData,
    enemies: seq<Enemies.EnemyData>,
    obstacles: seq<Obstacles.Obstacle>,
    platforms: seq<Rectangle>,
    camera: Vector2,
    score: real,
    state: GameState,
    isReady: bool)

  /** Game over for a dead player or one who has fallen below the screen. */
  predicate Lost(p: PlayerData)
  {
    Dead(p) || p.position.y > CANVAS_HEIGHT
  }

  /** The stage is cleared once the player reaches 100 short of its end. */
  predicate Cleared(p: PlayerData)
  {
    p.position.x >= GOAL_X
  }

  /**
   * One frame of the controller: sample the input, move the player, snap it
   * to the ground, update or remove the enemies and obstacles (judged against
   * the camera position of the previous frame), resolve combat, move the
   * camera, then test for defeat and, last, for the goal.
   */
  function Tick(w: World, deltaTime: real, sine: real -> real): (r: World)
    ensures !w.isReady || w.state != PLAYING ==> r == w
    ensures r.isReady == w.isReady && r.platforms == w.platforms
  {
    if !w.isReady || w.state != PLAYING then w
    else
      var input := Input.Sampled(w.input);
      var moved := Landed(Updated(w.player, deltaTime, input.currentInput), w.platforms);
      var enemies := UpdatedEnemies(w.enemies, w.camera.x, deltaTime, moved.position, sine);
      var score := w.score + KILL_SCORE * DeadCount(w.enemies) as real;
      var obstacles := PrunedObstacles(w.obstacles, w.camera.x);
      var fought := Combat(moved, enemies, obstacles);
      var p := fought.0;
      var camera := w.camera.(x := CameraModel.Follow(p.position.x, CANVAS_WIDTH, STAGE_WIDTH));
      var state := if Lost(p) then GAME_OVER else w.state;
      var next := World(p, input, fought.1, obstacles, w.platforms, camera, score, state, w.isReady);
      if Cleared(p) then next.(score := score + p.hp * HP_BONUS, state := RESULT) else next
  }

  /**
   * A frame in play samples the input, never grows the enemy or obstacle
   * lists, leaves the camera following the player, ends in exactly one of
   * result, game over or play, and adds 100 per dead enemy removed plus, at
   * the goal, 200 per remaining hit point.
   */
  lemma TickOutcome(w: World, deltaTime: real, sine: real -> real)
    requires w.isReady && w.state == PLAYING
    ensures var r := Tick(w, deltaTime, sine);
            r.input == Input.Sampled(w.input) &&
            |r.enemies| <= |w.enemies| && |r.obstacles| <= |w.obstacles| &&
            r.camera == Vector2(CameraModel.Follow(r.player.position.x, CANVAS_WIDTH, STAGE_WIDTH), w.camera.y) &&
            (r.state == RESULT <==> Cleared(r.player)) &&
            (r.state == GAME_OVER <==> !Cleared(r.player) && Lost(r.player)) &&
            (r.state == PLAYING <==> !Cleared(r.player) && !Lost(r.player)) &&
            r.score == w.score + KILL_SCORE * DeadCount(w.enemies) as real +
                       (if Cleared(r.player) then r.player.hp * HP_BONUS else 0.0)
  {
  }

  /** A frame costs at most one hit point, and only to a player who was not invulnerable after moving. */
  lemma TickHitsOnce(w: World, deltaTime: real, sine: real -> real)
    ensures var r := Tick(w, deltaTime, sine);
            r.player.hp == w.player.hp || r.player.hp == w.player.hp - CONTACT_DAMAGE
  {
    if w.isReady && w.state == PLAYING {
      var input := Input.Sampled(w.input);
      var moved := Landed(Updated(w.player, deltaTime, input.currentInput), w.platforms);
      var enemies := UpdatedEnemies(w.enemies, w.camera.x, deltaTime, moved.position, sine);
      var obstacles := PrunedObstacles(w.obstacles, w.camera.x);
      CombatHitsOnce(moved, enemies, obstacles);
    }
  }

  /** Reaching the goal wins even in the frame the player dies or falls. */
  lemma ResultOverridesGameOver(w: World, deltaTime: real, sine: real -> real)
    requires w.isReady && w.state == PLAYING
    requires Cleared(Tick(w, deltaTime, sine).player) && Lost(Tick(w, deltaTime, sine).player)
    ensures Tick(w, deltaTime, sine).state == RESULT
  {
  }
}
