// Keyboard state: which keys are held, and the press and release edges
// seen since the last frame.

module Input {
  /** The key code the name-entry field lets through. */
  const ENTER: string := "Enter"

  /** `!!m[code]`: a code never seen reads as false. */
  function Flag(m: map<string, bool>, code: string): (b: bool)
    ensures b <==> code in m && m[code]
    ensures code !in m ==> !b
  {
    code in m && m[code]
  }

  class InputState {
    var keys: map<string, bool>
    var justPressed: map<string, bool>
    var justReleased: map<string, bool>

    constructor ()
      ensures keys == map[] && justPressed == map[] && justReleased == map[]
    {
      keys, justPressed, justReleased := map[], map[], map[];
    }

    /**
     * A key going down: it becomes held, and it is a fresh press only if it
     * was not held already. While the name-entry field has focus, every key
     * but Enter is ignored.
     */
    method KeyDown(code: string, nameInputFocused: bool)
      modifies this`keys, this`justPressed
      ensures nameInputFocused && code != ENTER ==> keys == old(keys) && justPressed == old(justPressed)
      ensures !nameInputFocused || code == ENTER ==>
        keys == old(keys)[code := true] &&
        justPressed == (if Flag(old(keys), code) then old(justPressed) else old(justPressed)[code := true])
    {
      if nameInputFocused && code != ENTER {
        return;
      }
      if !Flag(keys, code) {
        justPressed := justPressed[code := true];
      }
      keys := keys[code := true];
    }

    /** A key going up: released now, and a release edge for this frame (focus does not matter). */
    method KeyUp(code: string)
      modifies this`keys, this`justReleased
      ensures keys == old(keys)[code := false]
      ensures justReleased == old(justReleased)[code := true]
    {
      keys := keys[code := false];
      justReleased := justReleased[code := true];
    }

    function IsDown(code: string): (b: bool)
      reads this
      ensures b ==> code in keys
    {
      Flag(keys, code)
    }

    function WasPressed(code: string): (b: bool)
      reads this
      ensures b ==> code in justPressed
    {
      Flag(justPressed, code)
    }

    function WasReleased(code: string): (b: bool)
      reads this
      ensures b ==> code in justReleased
    {
      Flag(justReleased, code)
    }

    /** End of frame: both edge maps are emptied; the held keys stay. */
    method Update()
      modifies this`justPressed, this`justReleased
      ensures justPressed == map[] && justReleased == map[]
      ensures forall c :: !WasPressed(c) && !WasReleased(c)
    {
      justPressed := map[];
      justReleased := map[];
    }
  }
}
