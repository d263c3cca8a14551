# Browser games: verified Dafny models of three game cores

This project models three parts of the browser_games repository in Dafny and proves properties of each.

- **Makai Runner.** This is a side-scrolling action game. The model covers:
  - the rectangle collision test;
  - the player, with its timers, action flags, physics and damage window;
  - the three enemy kinds, including the digger's ambush state machine;
  - the hole and spike obstacles;
  - the edge-triggered keyboard sampler;
  - the follow camera;
  - the `Game` controller, which lays out a stage from random draws, snaps the player to the ground, prunes and scores enemies, resolves combat and moves between playing, game over and result.
- **Othello rules,** in both copies of the repository:
  - `app/othello/gameLogic.ts`, which returns new boards;
  - `lib/othello.ts`, which changes a board in place.

  A shared rules module states legality, the flip set, move application, counting and the initial position. Both copies are proved to compute exactly those rules, so they agree with each other.
- **The calculator's input state machine** (`app/calculator/hooks/useCalculator.ts`). This covers the display text, the stored operand, the pending operator and the "waiting for the second operand" flag.

How state is modelled:

- Objects whose fields the game updates in place are Dafny classes:
  - `Player`, `InputManager`, `Camera`, `Enemy` and `Game`;
  - the calculator hook, `Calculator`;
  - the in-place Othello board, an `array2<int>`.
- Each class has a pure specification function on a value snapshot: `Data()` or `View()`. Every method that advances the game or the board is proved to take that snapshot to the specification function's result. Runner.Game.Restart and Runner.Game.PollRestart create a new player and camera, so they state the new state field by field: the respawned player, the camera at the origin, the reset score and state, and the unchanged stage lists.
- The properties are stated as lemmas about those functions.
- Numbers in Makai Runner are exact reals.
- Othello cells are integers: 0 is empty, 1 is black, 2 is white.
- The calculator's number type and its parsing, printing and arithmetic are left abstract, as a `Numerics` bundle of functions.

Files:

- `types.dfy`, `collision.dfy`, `input.dfy`, `player.dfy`, `enemies.dfy`, `obstacles.dfy`, `camera.dfy`: one module per Makai Runner entity.
- `stage.dfy`: the rules of a stage and of one frame, on values.
- `game.dfy`: the `Game` controller.
- `othello_rules.dfy`: the Othello rules.
- `othello_logic.dfy`: the copying implementation.
- `othello_inplace.dfy`: the in-place implementation.
- `calculator.dfy`: the calculator hook.

## Model

| member | source | states |
|---|---|---|
| Collision.CheckCollision | makai_runner/src/collision.ts:4-9 | a hit means the boxes overlap strictly on both axes, and at least one of them has positive width and positive height |
| Collision.GetOverlap | makai_runner/src/collision.ts:11-27 | absent exactly when the boxes do not collide; when present it lies inside both boxes, and it has positive size when both boxes do |
| Collision.CollisionSymmetric | makai_runner/src/collision.ts:4-9 | the collision test does not depend on argument order |
| Collision.SharedEdgeIsNoCollision | makai_runner/src/collision.ts:5-8 | boxes that only touch along an edge do not collide |
| Collision.SelfCollision | makai_runner/src/collision.ts:4-9 | a box collides with itself exactly when its width and height are both positive |
| Collision.PointCollision | makai_runner/src/collision.ts:4-9 | a zero-size box collides with r exactly when its corner lies strictly inside r |
| Collision.OverlapSymmetric | makai_runner/src/collision.ts:11-27 | the overlap does not depend on argument order |
| Input.Snapshot | makai_runner/src/input.ts:30-33 | jump, attack and dodge are set exactly when Space, KeyJ and KeyK were pressed this frame |
| Input.KeyPressed | makai_runner/src/input.ts:17-23 | the key is held afterwards; it counts as pressed this frame only when it was not already held |
| Input.KeyReleased | makai_runner/src/input.ts:25-27 | only the held set loses the key; presses this frame and the snapshot stay |
| Input.Sampled | makai_runner/src/input.ts:30-36 | the snapshot is taken from this frame's presses, and then the presses are emptied |
| Input.RepeatDoesNotRetrigger | makai_runner/src/input.ts:17-23 | an auto-repeated key-down for a held key registers no new press |
| Input.TapBetweenFramesRegisters | makai_runner/src/input.ts:17-36 | a press released before the next frame still triggers a jump |
| Input.SecondSampleIsEmpty | makai_runner/src/input.ts:30-36 | two samples with only key-ups between them make the second snapshot all false |
| Input.ReleaseAll | makai_runner/src/input.ts:25-27 | releasing keys only shrinks the held set |
| Input.ReleaseAllKeepsPresses | makai_runner/src/input.ts:25-27 | key-ups leave this frame's presses and the snapshot unchanged |
| Input.InputManager.constructor | makai_runner/src/input.ts:4-14 | starts with nothing held, nothing pressed and an all-false snapshot |
| Input.InputManager.KeyDown | makai_runner/src/input.ts:17-23 | updates the sets as KeyPressed says |
| Input.InputManager.KeyUp | makai_runner/src/input.ts:25-27 | updates the held set as KeyReleased says |
| Input.InputManager.Update | makai_runner/src/input.ts:30-36 | samples and clears as Sampled says |
| Input.InputManager.GetInput | makai_runner/src/input.ts:38-40 | returns the current snapshot |
| Input.InputManager.IsKeyPressed | makai_runner/src/input.ts:42-44 | true exactly when the key is held |
| PlayerModel.Spawned | makai_runner/src/player.ts:24-30 | a new player is at rest at (x, y) with the given hp, not grounded, idle, with no action and no invulnerability |
| PlayerModel.TimersTicked | makai_runner/src/player.ts:41-59 | positive timers run down; an action ends only when its timer does; the flag–timer agreement and action exclusivity are kept |
| PlayerModel.InputHandled | makai_runner/src/player.ts:61-78 | a jump only from the ground and not while dodging; an attack only when neither acting nor dodging; a dodge sets both timers to 200 and moves x by 100; with attack and dodge together only the attack starts |
| PlayerModel.PhysicsApplied | makai_runner/src/player.ts:80-88 | vx is 150, or 300 while dodging; vy grows by 1200·dt; nothing else changes |
| PlayerModel.PositionIntegrated | makai_runner/src/player.ts:90-93 | the position advances by velocity·dt; nothing else changes |
| PlayerModel.StateFor | app/makai-runner/game/player.ts:74-88 | the display state by precedence: HURT exactly when the invulnerability timer is above 300, then DODGING, ATTACKING, JUMPING, then RUNNING for a grounded player faster than 50, else IDLE |
| PlayerModel.StateUpdated | app/makai-runner/game/player.ts:74-88 | only the display state changes, to the classification |
| PlayerModel.Advanced | makai_runner/src/player.ts:32-39 | timers, input, physics and position run in that order; vx is the run or dodge speed; the flag–timer agreement and exclusivity are kept |
| PlayerModel.Updated | app/makai-runner/game/player.ts:63-71 | one frame followed by the state update; the state is never IDLE afterwards |
| PlayerModel.Damaged | makai_runner/src/player.ts:115-121 | damage lands exactly when the invulnerability timer is not positive; it then lowers hp by the amount and sets the timer to 500; otherwise nothing changes |
| PlayerModel.BoundsOf | makai_runner/src/player.ts:95-102 | the 32×48 box at the position |
| PlayerModel.AttackBoundsOf | makai_runner/src/player.ts:104-113 | absent exactly when not attacking; otherwise the 40-wide box just right of the player |
| PlayerModel.DamageLandsOnce | makai_runner/src/player.ts:115-121 | two hits in a row lower hp at most once |
| PlayerModel.DamageGrantsInvulnerability | makai_runner/src/player.ts:115-125 | after a hit the player is invulnerable |
| PlayerModel.FreshDodgeShowsDodging | app/makai-runner/game/player.ts:121-126 | a dodge started this frame shows DODGING, not HURT, with the timer at exactly 200 |
| PlayerModel.DodgeOverridesInvulnerability | makai_runner/src/player.ts:72-77 | a new dodge overwrites any longer invulnerability with 200 |
| PlayerModel.AttackWinsOverDodge | makai_runner/src/player.ts:67-77 | attack and dodge in one frame start only the attack |
| PlayerModel.Player.constructor | makai_runner/src/player.ts:24-30 | the fields are those of Spawned |
| PlayerModel.Player.Update | app/makai-runner/game/player.ts:63-71 | the new state is Updated of the old |
| PlayerModel.Player.Advance | makai_runner/src/player.ts:32-39 | the new state is Advanced of the old |
| PlayerModel.Player.UpdateState | app/makai-runner/game/player.ts:74-88 | the new state is StateUpdated of the old |
| PlayerModel.Player.UpdateTimers | makai_runner/src/player.ts:41-59 | the new state is TimersTicked of the old |
| PlayerModel.Player.HandleInput | makai_runner/src/player.ts:61-78 | the new state is InputHandled of the old |
| PlayerModel.Player.UpdatePhysics | makai_runner/src/player.ts:80-88 | the new state is PhysicsApplied of the old |
| PlayerModel.Player.UpdatePosition | makai_runner/src/player.ts:90-93 | the new state is PositionIntegrated of the old |
| PlayerModel.Player.GetBounds | makai_runner/src/player.ts:95-102 | the body box |
| PlayerModel.Player.GetAttackBounds | makai_runner/src/player.ts:104-113 | the attack box, present only while attacking |
| PlayerModel.Player.TakeDamage | makai_runner/src/player.ts:115-121 | the new state and the result are those of Damaged |
| PlayerModel.Player.IsInvulnerable | makai_runner/src/player.ts:123-125 | true exactly when the timer is positive or the player is dodging |
| PlayerModel.Player.IsDead | makai_runner/src/player.ts:127-129 | true exactly when hp is at most 0 |
| Enemies.Advanced | makai_runner/src/enemy.ts:57-153 | a walker moves left by speed·dt and is pinned to groundY−24; a flyer moves left by speed·dt, keeps its baseline and advances its clock by dt; a digger keeps its y and its ground; velocity, life, speed and kind never change |
| Enemies.DiggerAdvanced | makai_runner/src/enemy.ts:123-153 | an underground digger does not move; in the other states it moves left by speed·dt; its y never changes |
| Enemies.BoundsOf | makai_runner/src/enemy.ts:177-187 | the zero-size box at the base while underground; otherwise the 24×24 box |
| Enemies.Killed | makai_runner/src/enemy.ts:43-45 | only the alive flag changes, to false |
| Enemies.OffScreen | makai_runner/src/enemy.ts:47-49 | true exactly when the right edge is more than 100 left of the camera |
| Enemies.KilledIdempotent | makai_runner/src/enemy.ts:43-45 | killing twice is killing once |
| Enemies.OffScreenIgnoresWidth | makai_runner/src/enemy.ts:47-49 | the canvas width does not matter |
| Enemies.SpawnSpeeds | makai_runner/src/enemy.ts:23-28 | walkers start at −30, flyers at −40 and diggers at −25 horizontal speed |
| Enemies.NeverMovesRight | makai_runner/src/enemy.ts:57-153 | with time running forward no enemy's x grows |
| Enemies.WalkerStep | makai_runner/src/enemy.ts:57-62 | a walker loses 30·dt of x per frame and stands on the ground |
| Enemies.DiggerBurrows | makai_runner/src/enemy.ts:130-137 | a moving digger goes underground exactly when the player is ahead of it and nearer than 200, and its clock restarts |
| Enemies.DiggerUnderground | makai_runner/src/enemy.ts:139-144 | an underground digger stays put; its only exit is emerging, taken when the player is nearer than 80 |
| Enemies.DiggerEmerges | makai_runner/src/enemy.ts:146-151 | an emerging digger keeps moving left and moves again once its clock passes 500 |
| Enemies.NoAmbushFromBehind | makai_runner/src/enemy.ts:133 | a player behind a moving digger never makes it burrow |
| Enemies.UndergroundIsAPoint | makai_runner/src/enemy.ts:177-185 | an underground digger touches a box only when its base point lies strictly inside the box |
| Enemies.Enemy.Walker | makai_runner/src/enemy.ts:52-55 | the fields are those of a new walker |
| Enemies.Enemy.Flyer | makai_runner/src/enemy.ts:80-83 | the fields are those of a new flyer |
| Enemies.Enemy.Digger | makai_runner/src/enemy.ts:117-121 | the fields are those of a new digger, standing on its ground |
| Enemies.Enemy.Update | makai_runner/src/enemy.ts:57-153 | the new state is Advanced of the old |
| Enemies.Enemy.GetBounds | makai_runner/src/enemy.ts:34-41 | the box of BoundsOf |
| Enemies.Enemy.TakeDamage | makai_runner/src/enemy.ts:43-45 | the new state is Killed of the old |
| Enemies.Enemy.IsOffScreen | makai_runner/src/enemy.ts:47-49 | agrees with OffScreen |
| Obstacles.NewHole | makai_runner/src/obstacles.ts:35-38 | a hole is at (x, groundY), 80 wide by default and 100 deep |
| Obstacles.NewSpike | makai_runner/src/obstacles.ts:53-56 | a spike is 40 wide by default and 20 high, and its bottom edge is at groundY |
| Obstacles.GetBounds | makai_runner/src/obstacles.ts:21-28 | exactly the position and size |
| Obstacles.IsOffScreen | makai_runner/src/obstacles.ts:30-32 | true exactly when the right edge is more than 100 left of the camera |
| Obstacles.OffScreenStays | makai_runner/src/obstacles.ts:30-32 | once off screen, an obstacle stays off screen as the camera advances |
| CameraModel.Follow | app/makai-runner/game/camera.ts:17-21 | never negative; never past the stage end when the stage is wider than the view; exactly player.x − width/3 inside the clamp range; 0 and the stage end at the two clamps |
| CameraModel.FollowMonotone | app/makai-runner/game/camera.ts:17-21 | the camera position is monotone in the player's x |
| CameraModel.Camera.constructor | app/makai-runner/game/camera.ts:10-15 | starts at the origin following its target |
| CameraModel.Camera.Update | app/makai-runner/game/camera.ts:17-21 | x becomes Follow of the target's x; y is unchanged |
| CameraModel.Camera.GetX | app/makai-runner/game/camera.ts:23-25 | returns x |
| Stage.SpawnedEnemyKind | app/makai-runner/game/game.ts:82-93 | a type draw in [0,1) picks a walker at y 426, a flyer at 300 or a digger at 426 |
| Stage.EnemyWaveStep | app/makai-runner/game/game.ts:81 | the wave from x is the enemy at x followed by the wave from x plus a gap in [200, 500) |
| Stage.EnemyWaveShape | app/makai-runner/game/game.ts:81-94 | every spawn lies between the start and 4000, is placed for its kind, follows the one before by 200 to 500, and is the enemy its draw picks |
| Stage.SpawnedObstacleKind | app/makai-runner/game/game.ts:103-112 | a draw below 0.6 gives a hole at ground level, any other draw a spike |
| Stage.ObstacleRowStep | app/makai-runner/game/game.ts:102 | the row from x is the obstacle at x followed by the row from x plus a gap in [150, 550) |
| Stage.ObstacleRowShape | app/makai-runner/game/game.ts:102-113 | every obstacle lies between the start and 3800, holes are 80 wide, spacing is at least 150, and each is the obstacle its draw picks |
| Stage.RowIncreasing | app/makai-runner/game/game.ts:115 | a spaced row is already sorted by x, so the sort keeps it as it is |
| Stage.Holes | app/makai-runner/game/game.ts:118 | picking holes never lengthens the list |
| Stage.HolesExactly | app/makai-runner/game/game.ts:118 | exactly the holes of the row are picked |
| Stage.HolesKeep | app/makai-runner/game/game.ts:118 | picking holes keeps the lower bound, the row limits and the spacing |
| Stage.PlatformsFrom | app/makai-runner/game/game.ts:117-125 | one more platform than holes |
| Stage.PlatformsAlternate | app/makai-runner/game/game.ts:117-125 | each platform ends at the next hole's left edge, the next one starts at that hole's right edge, and the last ends at 4000 |
| Stage.PlatformWidthsPositive | app/makai-runner/game/game.ts:117-125 | with the generator's spacing every platform has positive width |
| Stage.StageLayout | app/makai-runner/game/game.ts:98-125 | the generated stage: platforms from 0 to 4000 alternating with the holes, all of positive width |
| Stage.FirstCatch | app/makai-runner/game/game.ts:177-191 | the first platform in list order that catches the player, or none when no platform does |
| Stage.Landed | app/makai-runner/game/game.ts:173-192 | grounded exactly when some platform catches the player; then y is the platform top minus 48 and vy is 0; otherwise only the grounded flag is cleared |
| Stage.Kept | app/makai-runner/game/game.ts:194-207 | the kept enemies are never more than before |
| Stage.DeadCount | app/makai-runner/game/game.ts:199-201 | at most the number of enemies |
| Stage.KeptExactly | app/makai-runner/game/game.ts:194-207 | an enemy stays exactly when it is alive and on screen; no dead ones means all are alive |
| Stage.UpdatedEnemies | app/makai-runner/game/game.ts:194-207 | as many enemies as are kept |
| Stage.UpdatedEnemiesAdvance | app/makai-runner/game/game.ts:194-207 | each survivor is the matching kept enemy advanced one frame, in order |
| Stage.PrunedObstacles | app/makai-runner/game/game.ts:210-218 | never more obstacles than before |
| Stage.PrunedExactly | app/makai-runner/game/game.ts:210-218 | an obstacle stays exactly when it is not off screen |
| Stage.Encounter | app/makai-runner/game/game.ts:224-237 | an enemy hit by the attack box dies and does no damage; a dead one does nothing; any damage needs a vulnerable player touching the enemy; at most one hit |
| Stage.EnemyCombat | app/makai-runner/game/game.ts:224-237 | the enemy list keeps its length |
| Stage.EnemyCombatKills | app/makai-runner/game/game.ts:224-237 | each enemy is killed exactly when it was alive and the attack box hits it |
| Stage.SpikeContact | app/makai-runner/game/game.ts:239-246 | holes never hurt; a spike hurts only a vulnerable player touching it; at most one hit |
| Stage.Combat | app/makai-runner/game/game.ts:220-247 | the enemy list keeps its length |
| Stage.CombatKills | app/makai-runner/game/game.ts:220-247 | the enemies killed in a pass are exactly those the attack box hits |
| Stage.HitsCompose | makai_runner/src/player.ts:115-121 | one hit followed by another is still at most one hit |
| Stage.EnemyCombatHitsOnce | app/makai-runner/game/game.ts:224-237 | the enemy loop costs at most one hit |
| Stage.SpikeCombatHitsOnce | app/makai-runner/game/game.ts:239-246 | the spike loop costs at most one hit |
| Stage.CombatHitsOnce | app/makai-runner/game/game.ts:220-247 | in one pass hp drops by 0 or exactly 1, and position and velocity are untouched |
| Stage.HolesNeverHurt | app/makai-runner/game/game.ts:240 | obstacles without spikes leave the player unchanged |
| Stage.InvulnerableUnharmed | app/makai-runner/game/game.ts:220-247 | a player invulnerable at the start of the pass comes out unchanged |
| Stage.Tick | app/makai-runner/game/game.ts:154-171 | nothing changes unless loading has finished and play is on; readiness and platforms never change |
| Stage.TickOutcome | app/makai-runner/game/game.ts:154-171 | a frame in play samples the input and never grows the lists; the camera follows the player; it ends in RESULT exactly at the goal, in GAME_OVER exactly when lost short of the goal, else still playing; the score gains 100 per dead enemy plus hp·200 at the goal |
| Stage.TickHitsOnce | app/makai-runner/game/game.ts:154-171 | a frame costs at most one hit point |
| Stage.ResultOverridesGameOver | app/makai-runner/game/game.ts:168-169 | reaching the goal wins even in the frame the player dies or falls |
| Runner.SpawnWave | app/makai-runner/game/game.ts:81-95 | the loop builds exactly EnemyWave from 300 |
| Runner.PlaceObstacles | app/makai-runner/game/game.ts:102-113 | the loop builds exactly ObstacleRow from 500 |
| Runner.LayPlatforms | app/makai-runner/game/game.ts:117-125 | the loop builds exactly PlatformsFrom(0, holes) |
| Runner.SweepEnemies | app/makai-runner/game/game.ts:195-207 | the backward sweep leaves exactly UpdatedEnemies of the list and adds 100 to the score per dead enemy |
| Runner.Game.constructor | app/makai-runner/game/game.ts:30-45 | stage 1 on normal difficulty: a fresh player at (50, 402) with hp 3, idle input, a camera at the origin on that player, an empty stage, score 0, playing, not ready |
| Runner.Game.InitializeGame | app/makai-runner/game/game.ts:47-55 | the stage is spawned from the draws and play may begin |
| Runner.Game.SpawnEnemies | app/makai-runner/game/game.ts:78-96 | the enemy list becomes the wave from 300; nothing else changes |
| Runner.Game.SpawnObstacles | app/makai-runner/game/game.ts:98-126 | the obstacles become the row from 500 and the platforms the ground cut at its holes |
| Runner.Game.HandlePlatformCollisions | app/makai-runner/game/game.ts:173-192 | the player becomes Landed on the platforms |
| Runner.Game.UpdateEnemies | app/makai-runner/game/game.ts:194-208 | the enemy list becomes UpdatedEnemies and the score grows by 100 per dead enemy |
| Runner.Game.UpdateObstacles | app/makai-runner/game/game.ts:210-218 | the obstacle list becomes PrunedObstacles |
| Runner.Game.CheckCollisions | app/makai-runner/game/game.ts:220-247 | player and enemies become those of Combat |
| Runner.Game.FightEnemies | app/makai-runner/game/game.ts:224-237 | the player and the enemy list become those of EnemyCombat; the enemy list keeps its length |
| Runner.Game.TouchSpikes | app/makai-runner/game/game.ts:239-246 | the player becomes SpikeCombat over the obstacles |
| Runner.Game.CheckGameOver | app/makai-runner/game/game.ts:249-253 | the state becomes GAME_OVER exactly when the player is lost |
| Runner.Game.CheckStageComplete | app/makai-runner/game/game.ts:255-260 | at x ≥ 3900 the score gains hp·200 and the state becomes RESULT |
| Runner.Game.Update | app/makai-runner/game/game.ts:154-171 | the new state is Tick of the old |
| Runner.Game.Restart | app/makai-runner/game/game.ts:384-392 | a fresh player at (50, 402) with the configured hp, a new camera, score 0, playing, not ready |
| Runner.Game.PollRestart | app/makai-runner/game/game.ts:342-344 | on the game-over or result screen a held R restarts; otherwise nothing changes |
| OthelloRules.InitialBoard | app/othello/gameLogic.ts:21-28 | 8×8 with white at (3,3) and (4,4), black at (3,4) and (4,3), empty elsewhere |
| OthelloRules.InitialCounts | app/othello/gameLogic.ts:21-28 | two black, two white and sixty empty cells |
| OthelloRules.RayFacts | app/othello/gameLogic.ts:98-107 | a scanned run holds only in-range opponent cells along its heading, without repeats |
| OthelloRules.FlipsNonEmpty | app/othello/gameLogic.ts:98-112 | pieces were collected exactly when some direction examined so far flanks |
| OthelloRules.FlipSetFacts | app/othello/gameLogic.ts:89-114 | the pieces to flip are on the board, each holds the opponent, and none is listed twice |
| OthelloRules.ValidIffFlips | app/othello/gameLogic.ts:59-114 | a move is legal exactly when the cell is on the board, empty and would flip something |
| OthelloRules.PlayCells | app/othello/gameLogic.ts:36-47 | an illegal move leaves the board equal; a legal one makes the target and exactly the flipped cells the mover's and leaves every other cell alone |
| OthelloRules.PlayCounts | app/othello/gameLogic.ts:36-47 | a legal move flipping k pieces raises the mover's count by 1+k and lowers the opponent's by k |
| OthelloRules.PlayAllAppend | app/othello/gameLogic.ts:50-56 | applying two move lists one after the other is applying their concatenation |
| OthelloRules.Legal | app/othello/gameLogic.ts:124-134 | the legal cells are all on the board |
| OthelloRules.MovesStep | app/othello/gameLogic.ts:127-131 | examining one more cell keeps the list exactly the legal cells so far, in row-major order |
| OthelloRules.MovesDone | app/othello/gameLogic.ts:124-134 | after the last cell the list holds exactly the legal cells, in row-major order |
| OthelloLogic.SkipRun | app/othello/gameLogic.ts:71-79 | the walk stops on the first cell after the opponent run from the start cell, and reports whether that run was non-empty |
| OthelloLogic.IsValidMove | app/othello/gameLogic.ts:59-86 | the scan answers ValidMove: false off the board or on an occupied cell, else true exactly when some direction has opponents closed by the mover's piece |
| OthelloLogic.CollectRun | app/othello/gameLogic.ts:99-107 | the collected line is exactly the opponent run from the start cell, and the walk stops on the first cell after it |
| OthelloLogic.GetPiecesToFlip | app/othello/gameLogic.ts:89-114 | the scan returns exactly the flip set, direction by direction |
| OthelloLogic.FlipPieces | app/othello/gameLogic.ts:117-121 | the loop writes the mover into each listed cell in order |
| OthelloLogic.ApplyMove | app/othello/gameLogic.ts:36-47 | the result is Play of the argument, and the argument is a value so it is not changed |
| OthelloLogic.ApplyMoves | app/othello/gameLogic.ts:50-56 | the result is the left fold of Play over the moves |
| OthelloLogic.GetValidMoves | app/othello/gameLogic.ts:124-134 | exactly the legal cells, in strictly increasing row-major order |
| OthelloLogic.CountPieces | app/othello/gameLogic.ts:137-147 | the numbers of cells holding 1 and holding 2 |
| OthelloLogic.IsGameOver | app/othello/gameLogic.ts:150-154 | true exactly when neither colour has a legal move anywhere |
| OthelloLogic.GetWinner | app/othello/gameLogic.ts:157-162 | 1 exactly when black has more pieces, 2 exactly when white has, 0 exactly on a tie |
| OthelloInPlace.Cells | lib/othello.ts:10-17 | the board array read as a well-formed 8×8 value, cell by cell |
| OthelloInPlace.CreateInitialBoard | lib/othello.ts:10-17 | a new array holding the standard initial position |
| OthelloInPlace.SkipRun | lib/othello.ts:30-38 | the walk past the opponent's run stops where the run ends and reports whether it was non-empty |
| OthelloInPlace.IsValidMove | lib/othello.ts:19-45 | for a row on the board, the answer is ValidMove of the array's cells, false for an off-board column |
| OthelloInPlace.CollectRun | lib/othello.ts:57-65 | the collected line is exactly the opponent run of the array's cells from the start cell, and the walk stops on the first cell after it |
| OthelloInPlace.GetPiecesToFlip | lib/othello.ts:47-72 | exactly the flip set of the array's cells |
| OthelloInPlace.FlipPieces | lib/othello.ts:74-78 | each listed cell holds the mover afterwards and every other cell is unchanged |
| OthelloInPlace.PlayMove | lib/othello.ts:82-87 | the array afterwards holds Play of its old cells |
| OthelloInPlace.ApplyMoves | lib/othello.ts:80-89 | the array afterwards holds the copying fold over the moves, so both copies agree |
| OthelloInPlace.GetValidMoves | lib/othello.ts:91-101 | exactly the legal cells of the array, in strictly increasing row-major order |
| CalculatorHook.Calculate | app/calculator/hooks/useCalculator.ts:57-65 | with no operator the second operand is the result |
| CalculatorHook.Initial | app/calculator/hooks/useCalculator.ts:7-10 | the display is "0", nothing is stored, nothing is pending and no operand is awaited |
| CalculatorHook.AfterOperation | app/calculator/hooks/useCalculator.ts:40-55 | always ends waiting with the new operator pending; with nothing stored it stores the parsed display and keeps the display; with nothing pending it keeps display and operand |
| CalculatorHook.AfterEquals | app/calculator/hooks/useCalculator.ts:67-77 | does nothing without both an operator and an operand; otherwise shows the formatted result, clears both and waits |
| CalculatorHook.DotCountZero | app/calculator/hooks/useCalculator.ts:28 | a display has no decimal point exactly when its count of points is 0 |
| CalculatorHook.DotCountAppend | app/calculator/hooks/useCalculator.ts:17 | the points of a concatenation add up |
| CalculatorHook.DigitKeepsDots | app/calculator/hooks/useCalculator.ts:12-19 | a digit without a point never adds a decimal point, and it ends the wait |
| CalculatorHook.DecimalOneDot | app/calculator/hooks/useCalculator.ts:21-31 | after the decimal key the display holds exactly one point, so it never creates a second |
| CalculatorHook.ClearResets | app/calculator/hooks/useCalculator.ts:33-38 | clear returns every cell to its starting value |
| CalculatorHook.StepKeepsInv | app/calculator/hooks/useCalculator.ts:12-77 | every key keeps at most one point on the display and never leaves an operator pending without an operand |
| CalculatorHook.RunKeepsInv | app/calculator/hooks/useCalculator.ts:12-77 | any sequence of keypad presses keeps that invariant |
| CalculatorHook.ReachableOneDot | app/calculator/hooks/useCalculator.ts:21-31 | from the start, no sequence of keypad presses shows two decimal points |
| CalculatorHook.EqualsIdleIffNoOperator | app/calculator/hooks/useCalculator.ts:68 | in a reachable state equals does nothing exactly when no operator is pending |
| CalculatorHook.RunAppend | app/calculator/hooks/useCalculator.ts:12-77 | pressing two key sequences one after the other is pressing their concatenation |
| CalculatorHook.Calculator.constructor | app/calculator/hooks/useCalculator.ts:7-10 | the four cells start as Initial |
| CalculatorHook.Calculator.InputDigit | app/calculator/hooks/useCalculator.ts:12-19 | while waiting the display becomes the digit and the wait ends; a display of "0" is replaced; otherwise the digit is appended |
| CalculatorHook.Calculator.InputDecimal | app/calculator/hooks/useCalculator.ts:21-31 | while waiting the display becomes "0." and the wait ends; otherwise a point is appended only if none is present |
| CalculatorHook.Calculator.Clear | app/calculator/hooks/useCalculator.ts:33-38 | all four cells return to Initial |
| CalculatorHook.Calculator.PerformOperation | app/calculator/hooks/useCalculator.ts:40-55 | the cells become AfterOperation of the old ones |
| CalculatorHook.Calculator.HandleEquals | app/calculator/hooks/useCalculator.ts:67-77 | the cells become AfterEquals of the old ones |

## Left out

- Canvas drawing is not modelled: every `draw*` method, `render`, `SpriteRenderer` and the sprite tables. Only the `PlayerState` enumeration is kept.
- Sprite loading, `await`, readiness polling and the `requestAnimationFrame` loop are concurrency and I/O. `isReady` is a flag that `InitializeGame` sets.
- The source's constructor (app/makai-runner/game/game.ts:44) and `restart()` (app/makai-runner/game/game.ts:391) end by starting the asynchronous `initializeGame()`. In the model the environment calls Runner.Game.InitializeGame afterwards, so the empty stage that Runner.Game.constructor and Runner.Game.Restart leave is not the steady state.
- The DOM text updates of `updateUI` are left out, and so is the `console.log` in the key-down handler.
- Registering the keyboard event listeners is left out. `KeyDown` and `KeyUp` are the bodies of the two listeners.
- `Math.random` is not modelled. The spawners take a stream `draw: nat -> real` of values in [0, 1): draw(2i) is the i-th type draw and draw(2i+1) the i-th gap draw, in the order the loops consume them. The source draws from one shared `Math.random()` sequence: the enemy loop of `initializeGame` consumes it first (app/makai-runner/game/game.ts:81-82), then the obstacle loop (app/makai-runner/game/game.ts:102-103). Runner.Game.InitializeGame takes one stream per spawner, `enemyDraw` and `obstacleDraw`. Any single sequence splits into these two, so no behaviour is lost.
- `Math.sin` in the flyer's vertical motion is a parameter `sine`. Nothing is proved about its values.
- IEEE double rounding is not modelled. Makai Runner uses exact reals.
- Runner.Game: the enemy list holds values (`EnemyData`), not references to `Enemy` objects. Aliasing between list entries is not modelled. Proving it absent, with a frame per enemy, was beyond the verifier's resource limit. The game owns each enemy alone, so no behaviour is lost.
- The game states MENU, DIFFICULTY_SELECT and STAGE_SELECT are declared but never entered by the code.
- `copyBoard` in `app/othello/gameLogic.ts` is a value copy, since boards in OthelloLogic are values. The in-place `flipPieces` of that file is modelled on a value that `FlipPieces` returns.
- In both Othello copies, the inner scan loops of `isValidMove` and `getPiecesToFlip` are separate methods: `SkipRun` and `CollectRun` in OthelloLogic and in OthelloInPlace. The body of the in-place `applyMoves` loop is OthelloInPlace.PlayMove. All of them keep the statements of the source.
- In `game.ts`, the loop of `updateEnemies` is Runner.SweepEnemies, working on the list and the score as values. The two loops of `checkCollisions` are Runner.Game.FightEnemies and Runner.Game.TouchSpikes.
- OthelloInPlace.IsValidMove requires the row to be on the board, because the source crashes when indexing a missing row. An off-board column is answered `false`, as the source's `undefined !== 0` test does.
- OthelloInPlace.ApplyMoves requires every move's row to be on the board, for the same reason.
- OthelloLogic.FlipPieces, OthelloInPlace.FlipPieces: require every listed cell to be on the board (`AllInRange`). The source's `flipPieces` accepts any list; an off-board column would write a stray property on the row. Every caller passes the output of `getPiecesToFlip`, which OthelloRules.FlipSetFacts proves is on the board.
- The Othello page, `script.js`, `server.js`, `server.ts` and the HTTP route are out of scope: UI, WebSocket, IndexedDB, timers and random move choice. Their board rules repeat `lib/othello.ts` line for line.
- The calculator's `parseFloat`, `String(number)`, the truthiness of a number, and + − × ÷ are uninterpreted functions in `Numerics`. Nothing is assumed about them except, for the decimal-point invariant, that `String(number)` writes at most one point (`PlainFormat`).
- CalculatorHook.RunKeepsInv: keypad presses are assumed to send digits without a decimal point (`DigitKeys`). `inputDigit` itself accepts any text.
- The calculator's sound effects and React components are UI.
- The memory game, the soccer game, the Tetris page, and the pages and configuration files hold no separable logic.
