/**
 * Shared value types of the Makai Runner engine: vectors, axis-aligned
 * rectangles, the per-frame input snapshot and the outer game states.
 * All numbers are exact reals standing for JavaScript doubles.
 */
module Types {

  /** The conventional optional value, used where the source returns `T | null`. */
  datatype Option<+T> = None | Some(value: T)

  datatype Vector2 = Vector2(x: real, y: real)

  /** An axis-aligned box; its corner is (x, y) and y grows downwards. */
  datatype Rectangle = Rectangle(x: real, y: real, width: real, height: real)
  {
    function Right(): real { x + width }
    function Bottom(): real { y + height }
  }

  /** One frame's edge-triggered actions. */
  datatype InputState = InputState(jump: bool, attack: bool, dodge: bool)

  const NoInput := InputState(false, false, false)

  datatype GameState = MENU | DIFFICULTY_SELECT | STAGE_SELECT | PLAYING | GAME_OVER | RESULT

  datatype Difficulty = EASY | NORMAL | HARD

  datatype GameConfig = GameConfig(difficulty: Difficulty, stage: int, hp: real)

  function Abs(x: real): real { if x < 0.0 then -x else x }

  function Max(a: real, b: real): real { if a < b then b else a }

  function Min(a: real, b: real): real { if a < b then a else b }
}
