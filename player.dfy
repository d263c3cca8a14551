/**
 * The runner's player: run/jump physics, the attack and dodge windows, the
 * invulnerability timer and the display-state classification.
 *
 * The state transitions are given first as functions on a `PlayerData` value;
 * the `Player` class below performs them in place, field by field, and each of
 * its methods is proved to produce exactly the value the matching function
 * describes. Timers count milliseconds; `update` receives the frame time in
 * milliseconds and integrates in seconds.
 */
module PlayerModel {
  import opened Types

  const MOVE_SPEED: real := 150.0
  const JUMP_FORCE: real := -400.0
  const GRAVITY: real := 1200.0
  const ATTACK_DURATION: real := 300.0
  const DODGE_DURATION: real := 200.0
  const DODGE_DISTANCE: real := 100.0
  const INVULNERABLE_DURATION: real := 500.0

  const PLAYER_WIDTH: real := 32.0
  const PLAYER_HEIGHT: real := 48.0
  const ATTACK_WIDTH: real := 40.0
  /** Above this much remaining invulnerability the player is drawn as hurt. */
  const HURT_THRESHOLD: real := INVULNERABLE_DURATION - 200.0
  /** Above this horizontal speed a grounded player is drawn as running. */
  const RUN_THRESHOLD: real := 50.0

  /** The sprite the player is drawn with. */
  datatype PlayerState = IDLE | RUNNING | JUMPING | ATTACKING | DODGING | HURT

  /** Everything about the player that changes during play. */
  datatype PlayerData = PlayerData(
    position: Vector2,
    velocity: Vector2,
    hp: real,
    isGrounded: bool,
    isAttacking: bool,
    isDodging: bool,
    attackTimer: real,
    dodgeTimer: real,
    invulnerableTimer: real,
    currentState: PlayerState)

  /** Each action flag is set exactly while its timer is positive. */
  predicate TimersAgree(p: PlayerData)
  {
    (p.isAttacking <==> p.attackTimer > 0.0) && (p.isDodging <==> p.dodgeTimer > 0.0)
  }

  /** The player never attacks and dodges at once. */
  predicate ActionsExclusive(p: PlayerData)
  {
    !(p.isAttacking && p.isDodging)
  }

  function Spawned(x: real, y: real, hp: real): (p: PlayerData)
    ensures p.position == Vector2(x, y) && p.velocity == Vector2(0.0, 0.0) && p.hp == hp
    ensures !p.isGrounded && p.currentState == IDLE
    ensures TimersAgree(p) && ActionsExclusive(p) && !p.isAttacking && !p.isDodging
    ensures p.invulnerableTimer == 0.0
  {
    PlayerData(Vector2(x, y), Vector2(0.0, 0.0), hp, false, false, false, 0.0, 0.0, 0.0, IDLE)
  }

  /** Step 1 of a frame: every positive timer runs down; an action ends when its timer does. */
  function TimersTicked(p: PlayerData, deltaTime: real): (r: PlayerData)
    ensures r.position == p.position && r.velocity == p.velocity && r.hp == p.hp
    ensures r.isGrounded == p.isGrounded && r.currentState == p.currentState
    ensures (r.isAttacking ==> p.isAttacking) && (r.isDodging ==> p.isDodging)
    ensures TimersAgree(p) ==> TimersAgree(r)
    ensures ActionsExclusive(p) ==> ActionsExclusive(r)
    ensures p.attackTimer <= 0.0 ==> r.attackTimer == p.attackTimer
    ensures p.dodgeTimer <= 0.0 ==> r.dodgeTimer == p.dodgeTimer
    ensures p.invulnerableTimer <= 0.0 ==> r.invulnerableTimer == p.invulnerableTimer
    ensures deltaTime >= 0.0 ==>
              r.attackTimer <= p.attackTimer && r.dodgeTimer <= p.dodgeTimer &&
              r.invulnerableTimer <= p.invulnerableTimer
  {
    var attack := if p.attackTimer > 0.0 then p.attackTimer - deltaTime else p.attackTimer;
    var dodge := if p.dodgeTimer > 0.0 then p.dodgeTimer - deltaTime else p.dodgeTimer;
    var invulnerable :=
      if p.invulnerableTimer > 0.0 then p.invulnerableTimer - deltaTime else p.invulnerableTimer;
    p.(attackTimer := attack,
       isAttacking := if p.attackTimer > 0.0 && attack <= 0.0 then false else p.isAttacking,
       dodgeTimer := dodge,
       isDodging := if p.dodgeTimer > 0.0 && dodge <= 0.0 then false else p.isDodging,
       invulnerableTimer := invulnerable)
  }

  predicate JumpFires(p: PlayerData, input: InputState)
  {
    input.jump && p.isGrounded && !p.isDodging
  }

  predicate AttackStarts(p: PlayerData, input: InputState)
  {
    input.attack && !p.isAttacking && !p.isDodging
  }

  /** The dodge is checked after the attack, so an attack started this frame blocks it. */
  predicate DodgeStarts(p: PlayerData, input: InputState)
  {
    input.dodge && !p.isDodging && !p.isAttacking && !AttackStarts(p, input)
  }

  /** Step 2 of a frame: jump, then attack, then dodge. */
  function InputHandled(p: PlayerData, input: InputState): (r: PlayerData)
    ensures JumpFires(p, input) ==> r.velocity.y == JUMP_FORCE && !r.isGrounded
    ensures !JumpFires(p, input) ==> r.velocity.y == p.velocity.y && r.isGrounded == p.isGrounded
    ensures r.velocity.x == p.velocity.x
    ensures AttackStarts(p, input) ==> r.isAttacking && r.attackTimer == ATTACK_DURATION
    ensures !AttackStarts(p, input) ==> r.isAttacking == p.isAttacking && r.attackTimer == p.attackTimer
    ensures DodgeStarts(p, input) ==>
              r.isDodging && r.dodgeTimer == DODGE_DURATION &&
              r.invulnerableTimer == DODGE_DURATION &&
              r.position == p.position.(x := p.position.x + DODGE_DISTANCE)
    ensures !DodgeStarts(p, input) ==>
              r.isDodging == p.isDodging && r.dodgeTimer == p.dodgeTimer &&
              r.invulnerableTimer == p.invulnerableTimer && r.position == p.position
    ensures input.attack && input.dodge && !p.isAttacking && !p.isDodging ==>
              r.isAttacking && !r.isDodging
    ensures ActionsExclusive(p) ==> ActionsExclusive(r)
    ensures TimersAgree(p) ==> TimersAgree(r)
    ensures r.hp == p.hp && r.currentState == p.currentState
  {
    var jumped :=
      if input.jump && p.isGrounded && !p.isDodging
      then p.(velocity := p.velocity.(y := JUMP_FORCE), isGrounded := false)
      else p;
    var attacked :=
      if input.attack && !jumped.isAttacking && !jumped.isDodging
      then jumped.(isAttacking := true, attackTimer := ATTACK_DURATION)
      else jumped;
    if input.dodge && !attacked.isDodging && !attacked.isAttacking
    then attacked.(isDodging := true, dodgeTimer := DODGE_DURATION,
                   invulnerableTimer := DODGE_DURATION,
                   position := attacked.position.(x := attacked.position.x + DODGE_DISTANCE))
    else attacked
  }

  /** Step 3 of a frame: the run speed is forced, gravity accumulates without a cap. */
  function PhysicsApplied(p: PlayerData, dt: real): (r: PlayerData)
    ensures r.velocity.x == if p.isDodging then 2.0 * MOVE_SPEED else MOVE_SPEED
    ensures r.velocity.x > RUN_THRESHOLD
    ensures r.velocity.y == p.velocity.y + GRAVITY * dt
    ensures r == p.(velocity := r.velocity)
  {
    var vx := if !p.isDodging then MOVE_SPEED else MOVE_SPEED * 2.0;
    p.(velocity := Vector2(vx, p.velocity.y + GRAVITY * dt))
  }

  /** Step 4 of a frame: the position moves by velocity times the elapsed seconds. */
  function PositionIntegrated(p: PlayerData, dt: real): (r: PlayerData)
    ensures r.position.x - p.position.x == p.velocity.x * dt
    ensures r.position.y - p.position.y == p.velocity.y * dt
    ensures r == p.(position := r.position)
  {
    p.(position := Vector2(p.position.x + p.velocity.x * dt, p.position.y + p.velocity.y * dt))
  }

  /** The display state, by precedence: hurt, dodging, attacking, jumping, running, idle. */
  function StateFor(p: PlayerData): (s: PlayerState)
    ensures s == HURT <==> p.invulnerableTimer > HURT_THRESHOLD
    ensures s == DODGING <==> p.invulnerableTimer <= HURT_THRESHOLD && p.isDodging
    ensures s == ATTACKING <==> p.invulnerableTimer <= HURT_THRESHOLD && !p.isDodging && p.isAttacking
    ensures s == JUMPING <==>
              p.invulnerableTimer <= HURT_THRESHOLD && !p.isDodging && !p.isAttacking && !p.isGrounded
    ensures s == RUNNING <==>
              p.invulnerableTimer <= HURT_THRESHOLD && !p.isDodging && !p.isAttacking && p.isGrounded &&
              Abs(p.velocity.x) > RUN_THRESHOLD
  {
    if p.invulnerableTimer > 0.0 && p.invulnerableTimer > INVULNERABLE_DURATION - 200.0 then HURT
    else if p.isDodging then DODGING
    else if p.isAttacking then ATTACKING
    else if !p.isGrounded then JUMPING
    else if p.isGrounded && Abs(p.velocity.x) > RUN_THRESHOLD then RUNNING
    else IDLE
  }

  function StateUpdated(p: PlayerData): (r: PlayerData)
    ensures r == p.(currentState := StateFor(p))
  {
    p.(currentState := StateFor(p))
  }

  /**
   * One frame of makai_runner/src/player.ts: timers, input, physics, position.
   * Afterwards the player runs at exactly 150 (300 while dodging), has gained
   * 1200 * dt of downward speed, and the timer/flag correspondence still holds.
   */
  function Advanced(p: PlayerData, deltaTime: real, input: InputState): (r: PlayerData)
    ensures var q := TimersTicked(p, deltaTime);
            r.velocity.y == (if JumpFires(q, input) then JUMP_FORCE else p.velocity.y) +
                            GRAVITY * (deltaTime / 1000.0)
    ensures r.velocity.x == if r.isDodging then 2.0 * MOVE_SPEED else MOVE_SPEED
    ensures var q := TimersTicked(p, deltaTime);
            r.position.x == p.position.x + (if DodgeStarts(q, input) then DODGE_DISTANCE else 0.0) +
                            r.velocity.x * (deltaTime / 1000.0)
    ensures r.position.y == p.position.y + r.velocity.y * (deltaTime / 1000.0)
    ensures TimersAgree(p) ==> TimersAgree(r)
    ensures ActionsExclusive(p) ==> ActionsExclusive(r)
    ensures r.hp == p.hp && r.currentState == p.currentState
  {
    var dt := deltaTime / 1000.0;
    PositionIntegrated(PhysicsApplied(InputHandled(TimersTicked(p, deltaTime), input), dt), dt)
  }

  /** One frame of app/makai-runner/game/player.ts: the four steps, then the display state. */
  function Updated(p: PlayerData, deltaTime: real, input: InputState): (r: PlayerData)
    ensures r == StateUpdated(Advanced(p, deltaTime, input))
    ensures r.currentState != IDLE
    ensures TimersAgree(p) ==> TimersAgree(r)
    ensures ActionsExclusive(p) ==> ActionsExclusive(r)
  {
    StateUpdated(Advanced(p, deltaTime, input))
  }

  /** Damage is refused while the invulnerability timer runs; otherwise it lands and restarts it. */
  function Damaged(p: PlayerData, amount: real): (r: (PlayerData, bool))
    ensures r.1 <==> p.invulnerableTimer <= 0.0
    ensures !r.1 ==> r.0 == p
    ensures r.1 ==> r.0 == p.(hp := p.hp - amount, invulnerableTimer := INVULNERABLE_DURATION)
    ensures r.0.invulnerableTimer > 0.0
  {
    if p.invulnerableTimer > 0.0 then (p, false)
    else (p.(hp := p.hp - amount, invulnerableTimer := INVULNERABLE_DURATION), true)
  }

  function BoundsOf(p: PlayerData): (r: Rectangle)
    ensures r.x == p.position.x && r.y == p.position.y
    ensures r.width == PLAYER_WIDTH && r.height == PLAYER_HEIGHT
  {
    Rectangle(p.position.x, p.position.y, PLAYER_WIDTH, PLAYER_HEIGHT)
  }

  /** The hit box in front of the player, present exactly while attacking. */
  function AttackBoundsOf(p: PlayerData): (r: Option<Rectangle>)
    ensures r.None? <==> !p.isAttacking
    ensures r.Some? ==> r.value == Rectangle(BoundsOf(p).Right(), p.position.y, ATTACK_WIDTH, PLAYER_HEIGHT)
  {
    if !p.isAttacking then None
    else Some(Rectangle(p.position.x + PLAYER_WIDTH, p.position.y, ATTACK_WIDTH, PLAYER_HEIGHT))
  }

  /** Dodging grants invulnerability on top of the timer. */
  predicate Invulnerable(p: PlayerData)
  {
    p.invulnerableTimer > 0.0 || p.isDodging
  }

  predicate Dead(p: PlayerData)
  {
    p.hp <= 0.0
  }

  /** Two hits in a row lower hp at most once: the first one starts the invulnerability window. */
  lemma DamageLandsOnce(p: PlayerData, first: real, second: real)
    ensures var q := Damaged(Damaged(p, first).0, second);
            !q.1 && q.0.hp == if p.invulnerableTimer <= 0.0 then p.hp - first else p.hp
  {
  }

  /** A hit that lands leaves the player invulnerable. */
  lemma DamageGrantsInvulnerability(p: PlayerData, amount: real)
    ensures Invulnerable(Damaged(p, amount).0)
  {
  }

  /**
   * A dodge started this frame shows as DODGING, never HURT, because it sets
   * the invulnerability timer to 200, which is not above 300, and it makes the
   * player invulnerable.
   */
  lemma FreshDodgeShowsDodging(p: PlayerData, deltaTime: real, input: InputState)
    requires DodgeStarts(TimersTicked(p, deltaTime), input)
    ensures Updated(p, deltaTime, input).currentState == DODGING
    ensures Invulnerable(Updated(p, deltaTime, input))
    ensures Updated(p, deltaTime, input).invulnerableTimer == DODGE_DURATION
  {
    var q := InputHandled(TimersTicked(p, deltaTime), input);
    assert q.isDodging && q.invulnerableTimer == DODGE_DURATION;
  }

  /** A dodge started this frame overrides any longer invulnerability with 200. */
  lemma DodgeOverridesInvulnerability(p: PlayerData, deltaTime: real, input: InputState)
    requires DodgeStarts(TimersTicked(p, deltaTime), input)
    ensures Advanced(p, deltaTime, input).invulnerableTimer == DODGE_DURATION
    ensures Advanced(p, deltaTime, input).dodgeTimer == DODGE_DURATION
  {
  }

  /** When attack and dodge arrive together on an idle player, only the attack starts. */
  lemma AttackWinsOverDodge(p: PlayerData, deltaTime: real, input: InputState)
    requires input.attack && input.dodge
    requires !TimersTicked(p, deltaTime).isAttacking && !TimersTicked(p, deltaTime).isDodging
    ensures Updated(p, deltaTime, input).isAttacking && !Updated(p, deltaTime, input).isDodging
    ensures Updated(p, deltaTime, input).attackTimer == ATTACK_DURATION
  {
  }

  class Player {
    var position: Vector2
    var velocity: Vector2
    const size: Vector2 := Vector2(PLAYER_WIDTH, PLAYER_HEIGHT)
    var hp: real
    const maxHp: real
    var isGrounded: bool
    var isAttacking: bool
    var isDodging: bool
    var attackTimer: real
    var dodgeTimer: real
    var invulnerableTimer: real
    var currentState: PlayerState

    function Data(): PlayerData
      reads this
    {
      PlayerData(position, velocity, hp, isGrounded, isAttacking, isDodging,
                 attackTimer, dodgeTimer, invulnerableTimer, currentState)
    }

    constructor (x: real, y: real, hp: real)
      ensures Data() == Spawned(x, y, hp) && maxHp == hp
    {
      position := Vector2(x, y);
      velocity := Vector2(0.0, 0.0);
      this.hp := hp;
      maxHp := hp;
      isGrounded, isAttacking, isDodging := false, false, false;
      attackTimer, dodgeTimer, invulnerableTimer := 0.0, 0.0, 0.0;
      currentState := IDLE;
    }

    /** The frame update of app/makai-runner/game/player.ts. */
    method Update(deltaTime: real, input: InputState)
      modifies this
      ensures Data() == Updated(old(Data()), deltaTime, input)
    {
      Advance(deltaTime, input);
      UpdateState();
    }

    /** The frame update of makai_runner/src/player.ts (no display state). */
    method Advance(deltaTime: real, input: InputState)
      modifies this
      ensures Data() == Advanced(old(Data()), deltaTime, input)
    {
      var dt := deltaTime / 1000.0;
      UpdateTimers(deltaTime);
      HandleInput(input);
      UpdatePhysics(dt);
      UpdatePosition(dt);
    }

    method UpdateState()
      modifies this
      ensures Data() == StateUpdated(old(Data()))
    {
      if invulnerableTimer > 0.0 && invulnerableTimer > INVULNERABLE_DURATION - 200.0 {
        currentState := HURT;
      } else if isDodging {
        currentState := DODGING;
      } else if isAttacking {
        currentState := ATTACKING;
      } else if !isGrounded {
        currentState := JUMPING;
      } else if isGrounded && Abs(velocity.x) > RUN_THRESHOLD {
        currentState := RUNNING;
      } else {
        currentState := IDLE;
      }
    }

    method UpdateTimers(deltaTime: real)
      modifies this
      ensures Data() == TimersTicked(old(Data()), deltaTime)
    {
      if attackTimer > 0.0 {
        attackTimer := attackTimer - deltaTime;
        if attackTimer <= 0.0 {
          isAttacking := false;
        }
      }
      if dodgeTimer > 0.0 {
        dodgeTimer := dodgeTimer - deltaTime;
        if dodgeTimer <= 0.0 {
          isDodging := false;
        }
      }
      if invulnerableTimer > 0.0 {
        invulnerableTimer := invulnerableTimer - deltaTime;
      }
    }

    method HandleInput(input: InputState)
      modifies this
      ensures Data() == InputHandled(old(Data()), input)
    {
      if input.jump && isGrounded && !isDodging {
        velocity := velocity.(y := JUMP_FORCE);
        isGrounded := false;
      }
      if input.attack && !isAttacking && !isDodging {
        isAttacking := true;
        attackTimer := ATTACK_DURATION;
      }
      if input.dodge && !isDodging && !isAttacking {
        isDodging := true;
        dodgeTimer := DODGE_DURATION;
        invulnerableTimer := DODGE_DURATION;
        position := position.(x := position.x + DODGE_DISTANCE);
      }
    }

    method UpdatePhysics(dt: real)
      modifies this
      ensures Data() == PhysicsApplied(old(Data()), dt)
    {
      if !isDodging {
        velocity := velocity.(x := MOVE_SPEED);
      } else {
        velocity := velocity.(x := MOVE_SPEED * 2.0);
      }
      velocity := velocity.(y := velocity.y + GRAVITY * dt);
    }

    method UpdatePosition(dt: real)
      modifies this
      ensures Data() == PositionIntegrated(old(Data()), dt)
    {
      position := Vector2(position.x + velocity.x * dt, position.y + velocity.y * dt);
    }

    function GetBounds(): (r: Rectangle)
      reads this
      ensures r == BoundsOf(Data())
    {
      Rectangle(position.x, position.y, size.x, size.y)
    }

    function GetAttackBounds(): (r: Option<Rectangle>)
      reads this
      ensures r == AttackBoundsOf(Data())
    {
      if !isAttacking then None
      else Some(Rectangle(position.x + size.x, position.y, ATTACK_WIDTH, size.y))
    }

    method TakeDamage(amount: real) returns (applied: bool)
      modifies this
      ensures (Data(), applied) == Damaged(old(Data()), amount)
    {
      if invulnerableTimer > 0.0 {
        return false;
      }
      hp := hp - amount;
      invulnerableTimer := INVULNERABLE_DURATION;
      return true;
    }

    function IsInvulnerable(): (r: bool)
      reads this
      ensures r == Invulnerable(Data())
    {
      invulnerableTimer > 0.0 || isDodging
    }

    function IsDead(): (r: bool)
      reads this
      ensures r == Dead(Data())
    {
      hp <= 0.0
    }
  }
}
