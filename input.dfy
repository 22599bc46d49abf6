/**
 * Keyboard edge detection and mouse-offset tracking of the input manager.
 * The windowing library's key query becomes a value giving, for each key the
 * manager polls, whether it is pressed right now.
 */
module Input {

  /** What the key query reports for one key. */
  datatype KeyAction = Release | Press

  /** The flags one poll hands to the rest of the frame. */
  datatype InputState = InputState(
    shouldInteract: bool,
    toggleGravity: bool,
    resetPosition: bool,
    saveState: bool,
    exitApp: bool)

  const DefaultInputState: InputState := InputState(false, false, false, false, false)

  /**
   * The keys `process` queries: E (interact), Escape (exit), X (save),
   * G (gravity toggle) and R (position reset).
   */
  datatype KeyPoll = KeyPoll(e: KeyAction, escape: KeyAction, x: KeyAction, g: KeyAction, r: KeyAction)

  /** A trigger fires when the key is down now and was up at the previous poll. */
  predicate Edge(now: KeyAction, last: KeyAction)
  {
    now == Press && last == Release
  }

  class InputManager {
    var state: InputState
    var lastX: real
    var lastY: real
    var firstMouse: bool
    var lastGKeyState: KeyAction
    var lastRKeyState: KeyAction
    var lastSKeyState: KeyAction
    var lastEscKeyState: KeyAction

    /** Callback registration and cursor capture are not modelled. */
    constructor ()
      ensures state == DefaultInputState
      ensures lastX == 400.0 && lastY == 300.0 && firstMouse
      ensures lastGKeyState == Release && lastRKeyState == Release
      ensures lastSKeyState == Release && lastEscKeyState == Release
    {
      state := DefaultInputState;
      lastX := 400.0;
      lastY := 300.0;
      firstMouse := true;
      lastGKeyState := Release;
      lastRKeyState := Release;
      lastSKeyState := Release;
      lastEscKeyState := Release;
    }

    /**
     * One poll: interaction is level-triggered, the other four flags fire on
     * a release-to-press edge, and each remembered key state becomes the
     * current one. The save flag is driven by the X key.
     */
    method Process(keys: KeyPoll)
      modifies this
      ensures state.shouldInteract == (keys.e == Press)
      ensures state.exitApp == Edge(keys.escape, old(lastEscKeyState))
      ensures state.saveState == Edge(keys.x, old(lastSKeyState))
      ensures state.toggleGravity == Edge(keys.g, old(lastGKeyState))
      ensures state.resetPosition == Edge(keys.r, old(lastRKeyState))
      ensures lastEscKeyState == keys.escape && lastSKeyState == keys.x
      ensures lastGKeyState == keys.g && lastRKeyState == keys.r
      ensures lastX == old(lastX) && lastY == old(lastY) && firstMouse == old(firstMouse)
    {
      var shouldInteract := keys.e == Press;

      var escKeyState := keys.escape;
      var exitApp := escKeyState == Press && lastEscKeyState == Release;
      lastEscKeyState := escKeyState;

      var sKeyState := keys.x;
      var saveState := sKeyState == Press && lastSKeyState == Release;
      lastSKeyState := sKeyState;

      var gKeyState := keys.g;
      var toggleGravity := gKeyState == Press && lastGKeyState == Release;
      lastGKeyState := gKeyState;

      var rKeyState := keys.r;
      var resetPosition := rKeyState == Press && lastRKeyState == Release;
      lastRKeyState := rKeyState;

      state := InputState(shouldInteract, toggleGravity, resetPosition, saveState, exitApp);
    }

    /**
     * Cursor movement: returns the offsets handed to the camera. The first
     * event after start-up reports no movement; the y offset is reversed.
     */
    method MouseCallback(xpos: real, ypos: real) returns (xoffset: real, yoffset: real)
      modifies this
      ensures old(firstMouse) ==> xoffset == 0.0 && yoffset == 0.0
      ensures !old(firstMouse) ==> xoffset == xpos - old(lastX) && yoffset == old(lastY) - ypos
      ensures lastX == xpos && lastY == ypos && !firstMouse
      ensures state == old(state)
      ensures lastGKeyState == old(lastGKeyState) && lastRKeyState == old(lastRKeyState)
      ensures lastSKeyState == old(lastSKeyState) && lastEscKeyState == old(lastEscKeyState)
    {
      if firstMouse {
        lastX := xpos;
        lastY := ypos;
        firstMouse := false;
      }
      xoffset := xpos - lastX;
      yoffset := lastY - ypos;
      lastX := xpos;
      lastY := ypos;
    }

    /** Read-only access to the flags of the last poll. */
    method GetState() returns (s: InputState)
      ensures s == state
    {
      s := state;
    }
  }

  /** A key held down at start-up fires its trigger on the very first poll. */
  method FirstPoll(keys: KeyPoll) returns (s: InputState)
    ensures s.toggleGravity == (keys.g == Press)
    ensures s.resetPosition == (keys.r == Press)
    ensures s.saveState == (keys.x == Press)
    ensures s.exitApp == (keys.escape == Press)
    ensures s.shouldInteract == (keys.e == Press)
  {
    var manager := new InputManager();
    manager.Process(keys);
    s := manager.GetState();
  }

  /** The trigger values one key produces over successive polls, starting from `last`. */
  function Triggers(last: KeyAction, polls: seq<KeyAction>): (fired: seq<bool>)
    ensures |fired| == |polls|
    decreases |polls|
  {
    if |polls| == 0 then [] else [Edge(polls[0], last)] + Triggers(polls[0], polls[1..])
  }

  /** A key held through `n` polls fires on the first of them only, and only if it was up before. */
  lemma {:induction false} HeldKeyFiresOnce(last: KeyAction, polls: seq<KeyAction>)
    requires forall i :: 0 <= i < |polls| ==> polls[i] == Press
    ensures forall i :: 0 <= i < |polls| ==> (Triggers(last, polls)[i] <==> i == 0 && last == Release)
    decreases |polls|
  {
    if |polls| > 0 {
      HeldKeyFiresOnce(Press, polls[1..]);
      var rest := Triggers(Press, polls[1..]);
      assert Triggers(last, polls) == [Edge(Press, last)] + rest;
    }
  }

  /** Two triggers of one key are always separated by a poll in which it was up. */
  lemma {:induction false} TriggersNeedRelease(last: KeyAction, polls: seq<KeyAction>, i: nat)
    requires 0 < i < |polls| && Triggers(last, polls)[i]
    ensures polls[i - 1] == Release
    decreases |polls|
  {
    var rest := Triggers(polls[0], polls[1..]);
    assert Triggers(last, polls) == [Edge(polls[0], last)] + rest;
    if i > 1 {
      TriggersNeedRelease(polls[0], polls[1..], i - 1);
    }
  }
}
