/**
 * The Makai Runner controller. It owns the player, the input sampler, the
 * camera, the enemies, the obstacles and the ground platforms, and
 * advances them one frame at a time. Every method is proved to do exactly
 * what the matching rule in module `Stage` says, and `Update` as a whole to
 * perform `Stage.Tick` on the controller's value.
 */
module Runner {
  import opened Types
  import opened Stage
  import PlayerModel
  import Input
  import CameraModel
  import Enemies
  import Obstacles
  import Collision

  const START_X: real := 50.0
  const RESTART_KEY: string := "KeyR"

  /** Appending the spawn at `x` to a prefix of the wave leaves the wave from the next position to come. */
  lemma {:induction false} WaveGrows(wave: seq<Enemies.EnemyData>, x: real, k: nat, draw: nat -> real)
    requires RandomDraws(draw) && x < STAGE_WIDTH
    requires wave + EnemyWave(x, k, draw) == EnemyWave(ENEMY_START, 0, draw)
    ensures var next := x + ENEMY_MIN_GAP + ENEMY_GAP_RANGE * draw(2 * k + 1);
            (wave + [SpawnedEnemy(x, draw(2 * k))]) + EnemyWave(next, k + 1, draw) == EnemyWave(ENEMY_START, 0, draw)
  {
    var next := x + ENEMY_MIN_GAP + ENEMY_GAP_RANGE * draw(2 * k + 1);
    var e := SpawnedEnemy(x, draw(2 * k));
    var rest := EnemyWave(next, k + 1, draw);
    EnemyWaveStep(x, k, draw);
    assert EnemyWave(x, k, draw) == [e] + rest;
    AppendAssoc(wave, e, rest);
  }

  /** Appending the obstacle at `x` to a prefix of the row leaves the row from the next position to come. */
  lemma {:induction false} RowGrows(row: seq<Obstacles.Obstacle>, x: real, k: nat, draw: nat -> real)
    requires RandomDraws(draw) && x < OBSTACLE_END
    requires row + ObstacleRow(x, k, draw) == ObstacleRow(OBSTACLE_START, 0, draw)
    ensures var next := x + OBSTACLE_MIN_GAP + OBSTACLE_GAP_RANGE * draw(2 * k + 1);
            (row + [SpawnedObstacle(x, draw(2 * k))]) + ObstacleRow(next, k + 1, draw) == ObstacleRow(OBSTACLE_START, 0, draw)
  {
    var next := x + OBSTACLE_MIN_GAP + OBSTACLE_GAP_RANGE * draw(2 * k + 1);
    var o := SpawnedObstacle(x, draw(2 * k));
    var rest := ObstacleRow(next, k + 1, draw);
    ObstacleRowStep(x, k, draw);
    assert ObstacleRow(x, k, draw) == [o] + rest;
    AppendAssoc(row, o, rest);
  }

  /** One step of the spike loop of the combat pass: the fold over one more obstacle. */
  lemma {:induction false} SpikeStep(p: PlayerModel.PlayerData, pb: Rectangle, os: seq<Obstacles.Obstacle>, k: nat)
    requires k < |os|
    ensures SpikeCombat(p, pb, os[..k + 1]) == SpikeContact(SpikeCombat(p, pb, os[..k]), pb, os[k])
  {
    assert os[..k + 1][..k] == os[..k];
  }

  /** A step of at least one unit lowers the whole part of the distance left. */
  lemma FloorDrops(a: real, b: real)
    requires a + 1.0 <= b
    ensures a.Floor < b.Floor
  {
  }

  /** Moving one element across a concatenation. */
  lemma AppendAssoc<T>(a: seq<T>, b: T, c: seq<T>)
    ensures (a + [b]) + c == a + ([b] + c)
  {
  }

  /** Laying the platform up to hole `i` leaves the platforms after that hole to come. */
  lemma {:induction false} PlatformsGrow(ps: seq<Rectangle>, lastX: real, holes: seq<Obstacles.Obstacle>, i: nat)
    requires i < |holes|
    requires ps + PlatformsFrom(lastX, holes[i..]) == PlatformsFrom(0.0, holes)
    ensures var hole := holes[i];
            (ps + [Rectangle(lastX, GROUND_Y, hole.position.x - lastX, PLATFORM_HEIGHT)]) +
            PlatformsFrom(hole.position.x + hole.size.x, holes[i + 1..]) == PlatformsFrom(0.0, holes)
  {
    var hole := holes[i];
    var platform := Rectangle(lastX, GROUND_Y, hole.position.x - lastX, PLATFORM_HEIGHT);
    var rest := PlatformsFrom(hole.position.x + hole.size.x, holes[i + 1..]);
    assert holes[i..][1..] == holes[i + 1..];
    assert PlatformsFrom(lastX, holes[i..]) == [platform] + rest;
    assert (ps + [platform]) + rest == ps + ([platform] + rest);
  }

  /** The enemy loop of the spawner: one enemy per position, left to right. */
  method SpawnWave(draw: nat -> real) returns (wave: seq<Enemies.EnemyData>)
    requires RandomDraws(draw)
    ensures wave == EnemyWave(ENEMY_START, 0, draw)
  {
    wave := [];
    var x := ENEMY_START;
    var k: nat := 0;
    while x < STAGE_WIDTH
      invariant wave + EnemyWave(x, k, draw) == EnemyWave(ENEMY_START, 0, draw)
      decreases (STAGE_WIDTH - x).Floor
    {
      var enemy := SpawnedEnemy(x, draw(2 * k));
      var next := x + ENEMY_MIN_GAP + ENEMY_GAP_RANGE * draw(2 * k + 1);
      WaveGrows(wave, x, k, draw);
      FloorDrops(STAGE_WIDTH - next, STAGE_WIDTH - x);
      wave := wave + [enemy];
      x, k := next, k + 1;
    }
    assert wave + EnemyWave(x, k, draw) == wave;
  }

  /** The obstacle loop of the spawner: a hole or a spike per position, left to right. */
  method PlaceObstacles(draw: nat -> real) returns (row: seq<Obstacles.Obstacle>)
    requires RandomDraws(draw)
    ensures row == ObstacleRow(OBSTACLE_START, 0, draw)
  {
    row := [];
    var x := OBSTACLE_START;
    var k: nat := 0;
    while x < OBSTACLE_END
      invariant row + ObstacleRow(x, k, draw) == ObstacleRow(OBSTACLE_START, 0, draw)
      decreases (OBSTACLE_END - x).Floor
    {
      var obstacle := SpawnedObstacle(x, draw(2 * k));
      var next := x + OBSTACLE_MIN_GAP + OBSTACLE_GAP_RANGE * draw(2 * k + 1);
      RowGrows(row, x, k, draw);
      FloorDrops(OBSTACLE_END - next, OBSTACLE_END - x);
      row := row + [obstacle];
      x, k := next, k + 1;
    }
    assert row + ObstacleRow(x, k, draw) == row;
  }

  /** The platform loop of the spawner: ground up to each hole, then from the last hole to the end. */
  method LayPlatforms(holes: seq<Obstacles.Obstacle>) returns (ps: seq<Rectangle>)
    ensures ps == PlatformsFrom(0.0, holes)
  {
    ps := [];
    var lastX := 0.0;
    var i := 0;
    assert holes[0..] == holes;
    while i < |holes|
      invariant 0 <= i <= |holes|
      invariant ps + PlatformsFrom(lastX, holes[i..]) == PlatformsFrom(0.0, holes)
    {
      var hole := holes[i];
      PlatformsGrow(ps, lastX, holes, i);
      ps := ps + [Rectangle(lastX, GROUND_Y, hole.position.x - lastX, PLATFORM_HEIGHT)];
      lastX := hole.position.x + hole.size.x;
      i := i + 1;
    }
    assert holes[i..] == [];
    ps := ps + [Rectangle(lastX, GROUND_Y, STAGE_WIDTH - lastX, PLATFORM_HEIGHT)];
  }

  /** One step of the backward sweep over `e0` at index `i`, whatever the enemy there turns out to be. */
  lemma {:induction false} SweepStep(e0: seq<Enemies.EnemyData>, s: seq<Enemies.EnemyData>, i: nat, cameraX: real,
                  deltaTime: real, playerPosition: Vector2, sine: real -> real)
    requires i < |e0|
    requires s == e0[..i + 1] + UpdatedEnemies(e0[i + 1..], cameraX, deltaTime, playerPosition, sine)
    ensures i < |s| && s[i] == e0[i]
    ensures Removed(e0[i], cameraX) ==>
              s[..i] + s[i + 1..] == e0[..i] + UpdatedEnemies(e0[i..], cameraX, deltaTime, playerPosition, sine)
    ensures !Removed(e0[i], cameraX) ==>
              s[i := Enemies.Advanced(e0[i], deltaTime, playerPosition, GROUND_Y, sine)] ==
              e0[..i] + UpdatedEnemies(e0[i..], cameraX, deltaTime, playerPosition, sine)
    ensures DeadCount(e0[i..]) == DeadCount(e0[i + 1..]) + (if e0[i].isAlive then 0 else 1)
  {
    assert e0[i..][1..] == e0[i + 1..];
    assert e0[..i + 1] == e0[..i] + [e0[i]];
  }

  /**
   * The loop of `updateEnemies`, from the last enemy to the first: a dead
   * enemy adds its kill score and leaves the list, one past the left edge
   * leaves it, any other moves one frame.
   */
  method SweepEnemies(e0: seq<Enemies.EnemyData>, score: real, cameraX: real, deltaTime: real,
                      target: Vector2, sine: real -> real)
    returns (list: seq<Enemies.EnemyData>, total: real)
    ensures list == UpdatedEnemies(e0, cameraX, deltaTime, target, sine)
    ensures total == score + KILL_SCORE * DeadCount(e0) as real
  {
    list := e0;
    total := score;
    var i := |list| - 1;
    while i >= 0
      invariant -1 <= i < |e0|
      invariant list == e0[..i + 1] + UpdatedEnemies(e0[i + 1..], cameraX, deltaTime, target, sine)
      invariant total == score + KILL_SCORE * DeadCount(e0[i + 1..]) as real
      decreases i
    {
      SweepStep(e0, list, i, cameraX, deltaTime, target, sine);
      var enemy := list[i];
      if !enemy.isAlive || Enemies.OffScreen(enemy, cameraX, CANVAS_WIDTH) {
        if !enemy.isAlive {
          total := total + KILL_SCORE;
        }
        list := list[..i] + list[i + 1..];
      } else {
        list := list[i := Enemies.Advanced(enemy, deltaTime, target, GROUND_Y, sine)];
      }
      i := i - 1;
    }
    assert e0[0..] == e0;
  }

  /** One step of the enemy loop of the combat pass: the fold over one more enemy. */
  lemma {:induction false} CombatStep(p: PlayerModel.PlayerData, pb: Rectangle, attack: Option<Rectangle>, e0: seq<Enemies.EnemyData>, i: nat)
    requires i < |e0|
    ensures var before := EnemyCombat(p, pb, attack, e0[..i]);
            var step := Encounter(before.0, pb, attack, e0[i]);
            EnemyCombat(p, pb, attack, e0[..i + 1]) == (step.0, before.1 + [step.1])
  {
    assert e0[..i + 1][..i] == e0[..i];
  }

  /** Replacing, or keeping, the first cell after `done` in `done + rest`. */
  lemma Splice<T>(done: seq<T>, rest: seq<T>)
    requires |rest| > 0
    ensures (done + rest)[|done|] == rest[0]
    ensures forall x :: (done + rest)[|done| := x] == done + [x] + rest[1..]
    ensures done + rest == done + [rest[0]] + rest[1..]
  {
    forall x
      ensures (done + rest)[|done| := x] == done + [x] + rest[1..]
    {
      assert (done + rest)[|done| := x] == (done + [x]) + rest[1..];
    }
  }

  class Game {
    var player: PlayerModel.Player
    const inputManager: Input.InputManager
    var camera: CameraModel.Camera
    var enemies: seq<Enemies.EnemyData>
    var obstacles: seq<Obstacles.Obstacle>
    var platforms: seq<Rectangle>
    var gameState: GameState
    const config: GameConfig
    var score: real
    var isReady: bool

    /** The camera follows this game's player over an 800-wide view of the 4000-wide stage. */
    ghost predicate Valid()
      reads this, camera
    {
      camera.target == player && camera.canvasWidth == CANVAS_WIDTH && camera.stageWidth == STAGE_WIDTH
    }

    /** The controller's whole state as a value. */
    ghost function View(): Stage.World
      reads this, player, inputManager, camera
    {
      Stage.World(player.Data(), inputManager.Data(), enemies, obstacles, platforms,
                  camera.position, score, gameState, isReady)
    }

    /** A fresh game at the start of stage 1 on normal difficulty; the stage is still empty. */
    constructor ()
      ensures Valid() && fresh(player) && fresh(inputManager) && fresh(camera)
      ensures config == GameConfig(NORMAL, 1, 3.0)
      ensures View() == Stage.World(PlayerModel.Spawned(START_X, GROUND_Y - PlayerModel.PLAYER_HEIGHT, 3.0),
                                    Input.Idle, [], [], [], Vector2(0.0, 0.0), 0.0, PLAYING, false)
    {
      var cfg := GameConfig(NORMAL, 1, 3.0);
      var p := new PlayerModel.Player(START_X, GROUND_Y - PlayerModel.PLAYER_HEIGHT, cfg.hp);
      config := cfg;
      player := p;
      inputManager := new Input.InputManager();
      camera := new CameraModel.Camera(p, CANVAS_WIDTH, STAGE_WIDTH);
      enemies, obstacles, platforms := [], [], [];
      gameState, score, isReady := PLAYING, 0.0, false;
    }

    /**
     * What happens once loading has finished: the stage is populated from two
     * streams of random draws and play may begin.
     */
    method InitializeGame(enemyDraw: nat -> real, obstacleDraw: nat -> real)
      requires Valid() && RandomDraws(enemyDraw) && RandomDraws(obstacleDraw)
      modifies this
      ensures Valid() && player == old(player) && camera == old(camera)
      ensures View() == old(View()).(enemies := EnemyWave(ENEMY_START, 0, enemyDraw),
                                     obstacles := ObstacleRow(OBSTACLE_START, 0, obstacleDraw),
                                     platforms := PlatformsFrom(0.0, Holes(ObstacleRow(OBSTACLE_START, 0, obstacleDraw))),
                                     isReady := true)
    {
      SpawnEnemies(enemyDraw);
      SpawnObstacles(obstacleDraw);
      isReady := true;
    }

    /** One enemy per position, left to right; each third of the type draw picks a kind. */
    method SpawnEnemies(draw: nat -> real)
      requires RandomDraws(draw)
      modifies this
      ensures View() == old(View()).(enemies := EnemyWave(ENEMY_START, 0, draw))
      ensures player == old(player) && camera == old(camera)
    {
      enemies := SpawnWave(draw);
    }

    /**
     * A hole or a spike per position, left to right, then the ground cut at
     * every hole: a platform up to each hole and one from the last hole to the
     * end of the stage.
     */
    method SpawnObstacles(draw: nat -> real)
      requires RandomDraws(draw)
      modifies this
      ensures View() == old(View()).(obstacles := ObstacleRow(OBSTACLE_START, 0, draw),
                                     platforms := PlatformsFrom(0.0, Holes(ObstacleRow(OBSTACLE_START, 0, draw))))
      ensures player == old(player) && camera == old(camera)
    {
      var row := PlaceObstacles(draw);
      // The row is already strictly increasing in x (RowIncreasing), so sorting it by x changes nothing.
      var ps := LayPlatforms(Holes(row));
      obstacles, platforms := row, ps;
    }

    method HandlePlatformCollisions()
      modifies player
      ensures View() == old(View()).(player := Landed(old(player.Data()), platforms))
    {
      player.isGrounded := false;
      var playerBounds := player.GetBounds();
      var i := 0;
      while i < |platforms|
        invariant 0 <= i <= |platforms|
        invariant player.Data() == old(player.Data()).(isGrounded := false)
        invariant forall j :: 0 <= j < i ==> !Catches(old(player.Data()), platforms[j])
      {
        var platform := platforms[i];
        var playerBottom := playerBounds.y + playerBounds.height;
        var playerCenter := playerBounds.x + playerBounds.width / 2.0;
        if playerCenter > platform.x && playerCenter < platform.x + platform.width &&
           playerBottom >= platform.y &&
           playerBottom <= platform.y + platform.height + Abs(player.velocity.y * LANDING_WINDOW)
        {
          if player.velocity.y >= 0.0 {
            assert Catches(old(player.Data()), platform);
            player.isGrounded := true;
            player.position := player.position.(y := platform.y - playerBounds.height);
            player.velocity := player.velocity.(y := 0.0);
            return;
          }
        }
        i := i + 1;
      }
    }

    /** Walks the list from the back, dropping dead and passed enemies and moving the rest. */
    method UpdateEnemies(deltaTime: real, sine: real -> real)
      modifies this
      ensures View() == old(View()).(
                enemies := UpdatedEnemies(old(enemies), camera.position.x, deltaTime, player.position, sine),
                score := old(score) + KILL_SCORE * DeadCount(old(enemies)) as real)
      ensures player == old(player) && camera == old(camera)
    {
      var cameraX := camera.GetX();
      var list, total := SweepEnemies(enemies, score, cameraX, deltaTime, player.position, sine);
      enemies, score := list, total;
    }

    /** Drops, from the back, every obstacle that has scrolled off the left edge. */
    method UpdateObstacles()
      modifies this
      ensures View() == old(View()).(obstacles := PrunedObstacles(old(obstacles), camera.position.x))
      ensures player == old(player) && camera == old(camera)
    {
      var list := obstacles;
      var i := |list| - 1;
      while i >= 0
        invariant -1 <= i < |obstacles|
        invariant list == obstacles[..i + 1] + PrunedObstacles(obstacles[i + 1..], camera.position.x)
        modifies {}
        decreases i
      {
        assert obstacles[i..][1..] == obstacles[i + 1..];
        assert obstacles[..i + 1] == obstacles[..i] + [obstacles[i]];
        if Obstacles.IsOffScreen(list[i], camera.GetX(), CANVAS_WIDTH) {
          list := list[..i] + list[i + 1..];
        }
        i := i - 1;
      }
      assert obstacles[0..] == obstacles;
      obstacles := list;
    }

    /** The combat pass: enemies first, then spikes. */
    method CheckCollisions()
      modifies this, player
      ensures View() == old(View()).(player := Combat(old(player.Data()), old(enemies), obstacles).0,
                                     enemies := Combat(old(player.Data()), old(enemies), obstacles).1)
      ensures player == old(player) && camera == old(camera)
    {
      var playerBounds := player.GetBounds();
      var attackBounds := player.GetAttackBounds();
      var fought := FightEnemies(playerBounds, attackBounds);
      TouchSpikes(playerBounds);
      enemies := fought;
    }

    /** The enemy loop of the combat pass: a hit with the attack box kills, a touch hurts. */
    method FightEnemies(playerBounds: Rectangle, attackBounds: Option<Rectangle>)
      returns (fought: seq<Enemies.EnemyData>)
      modifies player
      ensures player.Data() == EnemyCombat(old(player.Data()), playerBounds, attackBounds, enemies).0
      ensures fought == EnemyCombat(old(player.Data()), playerBounds, attackBounds, enemies).1
    {
      ghost var p0 := player.Data();
      fought := enemies;
      var i := 0;
      while i < |enemies|
        invariant 0 <= i <= |enemies|
        invariant player.Data() == EnemyCombat(p0, playerBounds, attackBounds, enemies[..i]).0
        invariant fought == EnemyCombat(p0, playerBounds, attackBounds, enemies[..i]).1 + enemies[i..]
        modifies player
      {
        CombatStep(p0, playerBounds, attackBounds, enemies, i);
        ghost var done := EnemyCombat(p0, playerBounds, attackBounds, enemies[..i]).1;
        Splice(done, enemies[i..]);
        assert enemies[i..][1..] == enemies[i + 1..];
        var enemy := fought[i];
        ghost var step := Encounter(player.Data(), playerBounds, attackBounds, enemy);
        if enemy.isAlive {
          var enemyBounds := Enemies.BoundsOf(enemy);
          if attackBounds.Some? && Collision.CheckCollision(attackBounds.value, enemyBounds) {
            fought := fought[i := Enemies.Killed(enemy)];
          } else if !player.IsInvulnerable() && Collision.CheckCollision(playerBounds, enemyBounds) {
            var applied := player.TakeDamage(CONTACT_DAMAGE);
          }
        }
        assert player.Data() == step.0 && fought == done + [step.1] + enemies[i + 1..];
        i := i + 1;
      }
      assert enemies[..|enemies|] == enemies;
      assert fought == fought + [];
    }

    /** The spike loop of the combat pass: touching a spike hurts unless invulnerable. */
    method TouchSpikes(playerBounds: Rectangle)
      modifies player
      ensures player.Data() == SpikeCombat(old(player.Data()), playerBounds, obstacles)
    {
      ghost var p1 := player.Data();
      var k := 0;
      while k < |obstacles|
        invariant 0 <= k <= |obstacles|
        invariant player.Data() == SpikeCombat(p1, playerBounds, obstacles[..k])
        modifies player
      {
        SpikeStep(p1, playerBounds, obstacles, k);
        var obstacle := obstacles[k];
        ghost var hit := SpikeContact(player.Data(), playerBounds, obstacle);
        if obstacle.kind == Obstacles.SPIKE {
          var obstacleBounds := Obstacles.GetBounds(obstacle);
          if !player.IsInvulnerable() && Collision.CheckCollision(playerBounds, obstacleBounds) {
            var applied := player.TakeDamage(CONTACT_DAMAGE);
          }
        }
        assert player.Data() == hit;
        k := k + 1;
      }
      assert obstacles[..|obstacles|] == obstacles;
    }

    method CheckGameOver()
      modifies this
      ensures View() == old(View()).(state := if Lost(player.Data()) then GAME_OVER else old(gameState))
      ensures player == old(player) && camera == old(camera)
    {
      if player.IsDead() || player.position.y > CANVAS_HEIGHT {
        gameState := GAME_OVER;
      }
    }

    method CheckStageComplete()
      modifies this
      ensures View() == if Cleared(player.Data())
                        then old(View()).(score := old(score) + player.hp * HP_BONUS, state := RESULT)
                        else old(View())
      ensures player == old(player) && camera == old(camera)
    {
      if player.position.x >= STAGE_WIDTH - 100.0 {
        score := score + player.hp * HP_BONUS;
        gameState := RESULT;
      }
    }

    /** One frame; nothing happens before loading has finished or outside play. */
    method Update(deltaTime: real, sine: real -> real)
      requires Valid()
      modifies this, player, inputManager, camera
      ensures Valid() && player == old(player) && camera == old(camera)
      ensures View() == Tick(old(View()), deltaTime, sine)
    {
      if !isReady || gameState != PLAYING {
        return;
      }
      ghost var w := View();
      inputManager.Update();
      var input := inputManager.GetInput();
      player.Update(deltaTime, input);
      assert View() == w.(input := Input.Sampled(w.input), player := PlayerModel.Updated(w.player, deltaTime, input));
      HandlePlatformCollisions();
      UpdateEnemies(deltaTime, sine);
      UpdateObstacles();
      CheckCollisions();
      ghost var fought := View();
      camera.Update();
      assert View() == fought.(camera := fought.camera.(x := CameraModel.Follow(player.position.x, CANVAS_WIDTH, STAGE_WIDTH)));
      CheckGameOver();
      CheckStageComplete();
    }

    /** Back to the start of the stage: a fresh player and camera, no score, loading again. */
    method Restart()
      requires Valid()
      modifies this
      ensures Valid() && fresh(player) && fresh(camera)
      ensures player.Data() == PlayerModel.Spawned(START_X, GROUND_Y - PlayerModel.PLAYER_HEIGHT, config.hp)
      ensures camera.position == Vector2(0.0, 0.0)
      ensures score == 0.0 && gameState == PLAYING && !isReady
      ensures enemies == old(enemies) && obstacles == old(obstacles) && platforms == old(platforms)
    {
      isReady := false;
      player := new PlayerModel.Player(START_X, GROUND_Y - PlayerModel.PLAYER_HEIGHT, config.hp);
      camera := new CameraModel.Camera(player, CANVAS_WIDTH, STAGE_WIDTH);
      score := 0.0;
      gameState := PLAYING;
    }

    /** While the game-over or result screen is shown, a held R key restarts the game. */
    method PollRestart()
      requires Valid()
      modifies this
      ensures Valid()
      ensures enemies == old(enemies) && obstacles == old(obstacles) && platforms == old(platforms)
      ensures old(isReady && (gameState == GAME_OVER || gameState == RESULT) && RESTART_KEY in inputManager.keys) ==>
                fresh(player) && fresh(camera) &&
                player.Data() == PlayerModel.Spawned(START_X, GROUND_Y - PlayerModel.PLAYER_HEIGHT, config.hp) &&
                camera.position == Vector2(0.0, 0.0) && camera.target == player &&
                score == 0.0 && gameState == PLAYING && !isReady
      ensures !old(isReady && (gameState == GAME_OVER || gameState == RESULT) && RESTART_KEY in inputManager.keys) ==>
                player == old(player) && camera == old(camera) && View() == old(View())
    {
      if isReady && (gameState == GAME_OVER || gameState == RESULT) && inputManager.IsKeyPressed(RESTART_KEY) {
        Restart();
      }
    }
  }
}
