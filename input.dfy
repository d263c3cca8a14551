/**
 * The edge-triggered keyboard sampler. Key events add codes to the set of
 * held keys and, on a fresh press, to the set of keys pressed since the last
 * frame; once per frame `Update` turns the latter into an input snapshot and
 * empties it.
 */
module Input {
  import opened Types

  const JUMP_KEY: string := "Space"
  const ATTACK_KEY: string := "KeyJ"
  const DODGE_KEY: string := "KeyK"

  /** The sampler's whole state as a value. */
  datatype InputData = InputData(keys: set<string>, pressedThisFrame: set<string>, currentInput: InputState)

  const Idle := InputData({}, {}, NoInput)

  /** The snapshot built from the keys pressed since the last frame. */
  function Snapshot(pressed: set<string>): (s: InputState)
    ensures s.jump <==> JUMP_KEY in pressed
    ensures s.attack <==> ATTACK_KEY in pressed
    ensures s.dodge <==> DODGE_KEY in pressed
    ensures pressed == {} ==> s == NoInput
  {
    InputState(JUMP_KEY in pressed, ATTACK_KEY in pressed, DODGE_KEY in pressed)
  }

  /** A key-down event: only a key that was not already held counts as pressed this frame. */
  function KeyPressed(d: InputData, code: string): (r: InputData)
    ensures r.keys == d.keys + {code}
    ensures code in d.keys ==> r.pressedThisFrame == d.pressedThisFrame
    ensures code !in d.keys ==> r.pressedThisFrame == d.pressedThisFrame + {code}
    ensures r.currentInput == d.currentInput
  {
    d.(pressedThisFrame := if code in d.keys then d.pressedThisFrame else d.pressedThisFrame + {code},
       keys := d.keys + {code})
  }

  /** A key-up event forgets the held key but not a press already recorded for this frame. */
  function KeyReleased(d: InputData, code: string): (r: InputData)
    ensures r.keys == d.keys - {code} && code !in r.keys
    ensures r.pressedThisFrame == d.pressedThisFrame && r.currentInput == d.currentInput
  {
    d.(keys := d.keys - {code})
  }

  /** The per-frame sample: the snapshot of this frame's presses, which are then forgotten. */
  function Sampled(d: InputData): (r: InputData)
    ensures r.currentInput == Snapshot(d.pressedThisFrame)
    ensures r.pressedThisFrame == {} && r.keys == d.keys
  {
    InputData(d.keys, {}, Snapshot(d.pressedThisFrame))
  }

  /** Holding a key down (auto-repeat) does not press it again. */
  lemma RepeatDoesNotRetrigger(d: InputData, code: string)
    ensures Sampled(KeyPressed(Sampled(KeyPressed(d, code)), code)).pressedThisFrame == {}
    ensures KeyPressed(Sampled(KeyPressed(d, code)), code).pressedThisFrame == {}
  {
  }

  /** A press and a release between two frames still reach the next snapshot. */
  lemma TapBetweenFramesRegisters(d: InputData)
    requires JUMP_KEY !in d.keys
    ensures Sampled(KeyReleased(KeyPressed(d, JUMP_KEY), JUMP_KEY)).currentInput.jump
  {
  }

  /** Two samples with no key-down between them: the second snapshot is empty. */
  lemma SecondSampleIsEmpty(d: InputData, released: seq<string>)
    ensures Sampled(ReleaseAll(Sampled(d), released)).currentInput == NoInput
  {
    ReleaseAllKeepsPresses(Sampled(d), released);
  }

  /** Releasing a series of keys, one key-up event after another. */
  function ReleaseAll(d: InputData, codes: seq<string>): (r: InputData)
    ensures r.keys <= d.keys
    decreases codes
  {
    if codes == [] then d else ReleaseAll(KeyReleased(d, codes[0]), codes[1..])
  }

  lemma {:induction false} ReleaseAllKeepsPresses(d: InputData, codes: seq<string>)
    ensures ReleaseAll(d, codes).pressedThisFrame == d.pressedThisFrame
    ensures ReleaseAll(d, codes).currentInput == d.currentInput
    decreases codes
  {
    if codes != [] {
      ReleaseAllKeepsPresses(KeyReleased(d, codes[0]), codes[1..]);
    }
  }

  class InputManager {
    var keys: set<string>
    var pressedThisFrame: set<string>
    var currentInput: InputState

    function Data(): InputData
      reads this
    {
      InputData(keys, pressedThisFrame, currentInput)
    }

    constructor ()
      ensures Data() == Idle
    {
      keys, pressedThisFrame, currentInput := {}, {}, NoInput;
    }

    /** The key-down handler. */
    method KeyDown(code: string)
      modifies this
      ensures Data() == KeyPressed(old(Data()), code)
    {
      if code !in keys {
        pressedThisFrame := pressedThisFrame + {code};
      }
      keys := keys + {code};
    }

    /** The key-up handler. */
    method KeyUp(code: string)
      modifies this
      ensures Data() == KeyReleased(old(Data()), code)
    {
      keys := keys - {code};
    }

    method Update()
      modifies this
      ensures Data() == Sampled(old(Data()))
    {
      currentInput := InputState(JUMP_KEY in pressedThisFrame, ATTACK_KEY in pressedThisFrame,
                                 DODGE_KEY in pressedThisFrame);
      pressedThisFrame := {};
    }

    /** A copy of the current snapshot. */
    function GetInput(): (s: InputState)
      reads this
      ensures s == Data().currentInput
    {
      currentInput
    }

    /** Level-triggered: whether the key is held right now. */
    function IsKeyPressed(key: string): (held: bool)
      reads this
      ensures held <==> key in Data().keys
    {
      key in keys
    }
  }
}
