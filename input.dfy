/** The keyboard state machine of src/engine/input.ts: eight flags that key-down events set,
    key-up events clear and a window blur resets. The flags are the Controls record that
    the aircraft integrator reads. */
module Input {
  import opened Aircraft

  /** One of the eight flags of the input record. */
  datatype Flag = Forward | Backward | Left | Right | RollLeft | RollRight | ThrottleUp | ThrottleDown

  datatype Option<T> = None | Some(value: T)

  /** The flag that the case for `code` writes, in the key-down and in the key-up switch
      alike; None for a code that matches no case (neither switch has a default). */
  function Binding(code: string): Option<Flag> {
    if code in KeyMap then Some(KeyMap[code]) else None
  }

  const KeyMap: map<string, Flag> := map[
    "KeyW" := Forward, "ArrowUp" := Forward,
    "KeyS" := Backward, "ArrowDown" := Backward,
    "KeyA" := Left, "ArrowLeft" := Left,
    "KeyD" := Right, "ArrowRight" := Right,
    "KeyQ" := RollRight,
    "KeyE" := RollLeft,
    "ShiftLeft" := ThrottleUp, "ShiftRight" := ThrottleUp,
    "ControlLeft" := ThrottleDown, "ControlRight" := ThrottleDown]

  /** The key codes that drive each flag, listed flag by flag: an independent statement of
      the key map that Binding must agree with. Note that Q is bound to rollRight and E to
      rollLeft. */
  function Codes(f: Flag): set<string> {
    match f
    case Forward => {"KeyW", "ArrowUp"}
    case Backward => {"KeyS", "ArrowDown"}
    case Left => {"KeyA", "ArrowLeft"}
    case Right => {"KeyD", "ArrowRight"}
    case RollLeft => {"KeyE"}
    case RollRight => {"KeyQ"}
    case ThrottleUp => {"ShiftLeft", "ShiftRight"}
    case ThrottleDown => {"ControlLeft", "ControlRight"}
  }

  function Get(c: Controls, f: Flag): bool {
    match f
    case Forward => c.forward
    case Backward => c.backward
    case Left => c.left
    case Right => c.right
    case RollLeft => c.rollLeft
    case RollRight => c.rollRight
    case ThrottleUp => c.throttleUp
    case ThrottleDown => c.throttleDown
  }

  /** The record with flag f set to v and the seven others as in c. */
  function Set(c: Controls, f: Flag, v: bool): Controls {
    Controls(
      if f == Forward then v else c.forward,
      if f == Backward then v else c.backward,
      if f == Left then v else c.left,
      if f == Right then v else c.right,
      if f == RollLeft then v else c.rollLeft,
      if f == RollRight then v else c.rollRight,
      if f == ThrottleUp then v else c.throttleUp,
      if f == ThrottleDown then v else c.throttleDown)
  }

  /** The flags after a key event: a bound code writes `down` into its flag. */
  function AfterKey(c: Controls, code: string, down: bool): Controls {
    match Binding(code)
    case None => c
    case Some(f) => Set(c, f, down)
  }

  function AfterKeyDown(c: Controls, code: string): Controls {
    AfterKey(c, code, true)
  }

  function AfterKeyUp(c: Controls, code: string): Controls {
    AfterKey(c, code, false)
  }

  /** createInputState: every flag false. Blur returns to it. */
  const Released: Controls := Controls(false, false, false, false, false, false, false, false)

  /** The shared input record that the window handlers mutate and the game loop reads. */
  class InputState {
    var forward: bool
    var backward: bool
    var left: bool
    var right: bool
    var rollLeft: bool
    var rollRight: bool
    var throttleUp: bool
    var throttleDown: bool

    function Snapshot(): Controls
      reads this
    {
      Controls(forward, backward, left, right, rollLeft, rollRight, throttleUp, throttleDown)
    }

    /** createInputState. */
    constructor ()
      ensures Snapshot() == Released
    {
      forward, backward, left, right := false, false, false, false;
      rollLeft, rollRight, throttleUp, throttleDown := false, false, false, false;
    }

    /** handleKeyDown: the switch on the event's code, whose case labels Binding lists. */
    method HandleKeyDown(code: string)
      modifies this
      ensures Snapshot() == AfterKeyDown(old(Snapshot()), code)
    {
      match Binding(code)
      case None =>
      case Some(f) => Write(f, true);
    }

    /** handleKeyUp: the same switch, writing false. */
    method HandleKeyUp(code: string)
      modifies this
      ensures Snapshot() == AfterKeyUp(old(Snapshot()), code)
    {
      match Binding(code)
      case None =>
      case Some(f) => Write(f, false);
    }

    /** The assignment in one case of either switch: flag f := v. The seven other fields
        are stored back with the values they already hold. */
    method Write(f: Flag, v: bool)
      modifies this
      ensures Snapshot() == Set(old(Snapshot()), f, v)
    {
      var next := Set(Snapshot(), f, v);
      forward, backward, left, right := next.forward, next.backward, next.left, next.right;
      rollLeft, rollRight, throttleUp, throttleDown :=
        next.rollLeft, next.rollRight, next.throttleUp, next.throttleDown;
    }

    /** handleBlur: every flag false. */
    method HandleBlur()
      modifies this
      ensures Snapshot() == Released
    {
      forward, backward, left, right := false, false, false, false;
      rollLeft, rollRight, throttleUp, throttleDown := false, false, false, false;
    }
  }

  // ---------------------------------------------------------------- properties

  /** The switch agrees with the key map in both directions: a code is bound to f exactly
      when it is one of f's codes, and it is unbound exactly when it is nobody's code. */
  lemma BindingMatchesCodes(code: string, f: Flag)
    ensures Binding(code) == Some(f) <==> code in Codes(f)
    ensures Binding(code) == None <==> forall g :: code !in Codes(g)
  {
    if Binding(code) == None {
      forall g ensures code !in Codes(g) {
        match g
        case Forward =>
        case Backward =>
        case Left =>
        case Right =>
        case RollLeft =>
        case RollRight =>
        case ThrottleUp =>
        case ThrottleDown =>
      }
    } else {
      var h := Binding(code).value;
      assert code in Codes(h);
    }
  }

  /** Released has no flag set, and it is the only such record. */
  lemma ReleasedIsAllClear(c: Controls)
    ensures (forall f :: !Get(c, f)) <==> c == Released
  {
    if forall f :: !Get(c, f) {
      assert !Get(c, Forward) && !Get(c, Backward) && !Get(c, Left) && !Get(c, Right);
      assert !Get(c, RollLeft) && !Get(c, RollRight) && !Get(c, ThrottleUp) && !Get(c, ThrottleDown);
    }
  }

  /** A key-down of a bound code sets exactly its flag and leaves the seven others. */
  lemma KeyDownSetsExactly(c: Controls, code: string, f: Flag)
    requires code in Codes(f)
    ensures Get(AfterKeyDown(c, code), f)
    ensures forall g :: g != f ==> Get(AfterKeyDown(c, code), g) == Get(c, g)
  {
    BindingMatchesCodes(code, f);
    forall g | g != f ensures Get(AfterKeyDown(c, code), g) == Get(c, g) {
      GetSet(c, f, true, g);
    }
  }

  /** A key-up of any code bound to the same flag as an earlier key-down (an alias such as
      ArrowUp for KeyW included) clears that flag and restores the seven others, so the pair
      leaves the record as it was except that the flag is now off. */
  lemma KeyUpUndoesKeyDown(c: Controls, down: string, up: string, f: Flag)
    requires down in Codes(f) && up in Codes(f)
    ensures AfterKeyUp(AfterKeyDown(c, down), up) == Set(c, f, false)
    ensures !Get(AfterKeyUp(AfterKeyDown(c, down), up), f)
    ensures !Get(c, f) ==> AfterKeyUp(AfterKeyDown(c, down), up) == c
  {
    BindingMatchesCodes(down, f);
    BindingMatchesCodes(up, f);
    SetSet(c, f, true, false);
    if !Get(c, f) {
      SetUnchanged(c, f);
    }
  }

  /** A key event changes the record exactly when its code is bound to a flag that does not
      already hold the written value; in particular an unbound code changes nothing. */
  lemma KeyEventChangesIff(c: Controls, code: string, down: bool)
    ensures AfterKey(c, code, down) != c <==> Binding(code).Some? && Get(c, Binding(code).value) != down
  {
    if Binding(code).Some? {
      var f := Binding(code).value;
      if Get(c, f) == down {
        SetUnchanged(c, f);
      } else {
        GetSet(c, f, down, f);
      }
    }
  }

  /** Pressing the same key twice is the same as pressing it once; likewise for release. */
  lemma KeyEventIdempotent(c: Controls, code: string, down: bool)
    ensures AfterKey(AfterKey(c, code, down), code, down) == AfterKey(c, code, down)
  {
    if Binding(code).Some? {
      SetSet(c, Binding(code).value, down, down);
    }
  }

  /** Events on two different flags commute, so the record depends only on the last event of
      each flag. */
  lemma KeyEventsOnDifferentFlagsCommute(c: Controls, a: string, da: bool, b: string, db: bool)
    requires Binding(a) != Binding(b)
    ensures AfterKey(AfterKey(c, a, da), b, db) == AfterKey(AfterKey(c, b, db), a, da)
  {
    if Binding(a).Some? && Binding(b).Some? {
      SetsCommute(c, Binding(a).value, da, Binding(b).value, db);
    }
  }

  // ---------------------------------------------------------------- helpers

  /** Reading a flag back after Set. */
  lemma GetSet(c: Controls, f: Flag, v: bool, g: Flag)
    ensures Get(Set(c, f, v), g) == if g == f then v else Get(c, g)
  {
  }

  lemma SetSet(c: Controls, f: Flag, v: bool, w: bool)
    ensures Set(Set(c, f, v), f, w) == Set(c, f, w)
  {
  }

  lemma SetsCommute(c: Controls, f: Flag, v: bool, g: Flag, w: bool)
    requires f != g
    ensures Set(Set(c, f, v), g, w) == Set(Set(c, g, w), f, v)
  {
  }

  lemma SetUnchanged(c: Controls, f: Flag)
    ensures Set(c, f, Get(c, f)) == c
  {
  }
}
