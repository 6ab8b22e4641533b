/**
 * The first-person demo's InputController: a key-state table and a
 * current / previous mouse snapshot from which mouse deltas are derived.
 *
 * The pure part (InputState and its transition functions) is the
 * specification; the class InputController updates its fields in place
 * and each of its methods is proved to perform the matching transition.
 */
module InputControl {

  import opened Wrappers

  /** The `current_` / `previous_` record: buttons, last delta and the centred mouse position. */
  datatype Mouse = Mouse(
    leftButton: bool,
    rightButton: bool,
    mouseXDelta: real,
    mouseYDelta: real,
    mouseX: real,
    mouseY: real)

  /** `previous_` is `null` (None) until the first mouse event. */
  datatype InputState = InputState(current: Mouse, previous: Option<Mouse>, keys: map<int, bool>)

  const InitialMouse := Mouse(false, false, 0.0, 0.0, 0.0, 0.0)

  /** `key(keyCode)`: `!!keys_[keyCode]`, so a code never seen reads as false. */
  predicate KeyHeld(s: InputState, keyCode: int)
  {
    keyCode in s.keys && s.keys[keyCode]
  }

  /** `isReady()`: a previous snapshot exists. */
  predicate Ready(s: InputState)
  {
    s.previous.Some?
  }

  /** The state `initialize_` sets up. */
  function Initial(): (s: InputState)
    ensures !Ready(s)
    ensures forall keyCode :: !KeyHeld(s, keyCode)
    ensures s.current.mouseXDelta == 0.0 && s.current.mouseYDelta == 0.0
  {
    InputState(InitialMouse, None, map[])
  }

  /**
   * `onMouseMove_` with the centred position (x, y): the first event
   * copies the current snapshot into `previous_`; the deltas are measured
   * against `previous_`.
   */
  function Moved(s: InputState, x: real, y: real): (r: InputState)
    ensures Ready(r)
    ensures r.current.mouseX == x && r.current.mouseY == y
    ensures r.current.leftButton == s.current.leftButton && r.current.rightButton == s.current.rightButton
    ensures r.keys == s.keys
    ensures !Ready(s) ==> r.current.mouseXDelta == 0.0 && r.current.mouseYDelta == 0.0
    ensures Ready(s) ==> r.previous == s.previous
    ensures r.current.mouseXDelta == x - r.previous.value.mouseX
    ensures r.current.mouseYDelta == y - r.previous.value.mouseY
  {
    var moved := s.current.(mouseX := x, mouseY := y);
    var previous := if s.previous.None? then moved else s.previous.value;
    InputState(
      moved.(mouseXDelta := moved.mouseX - previous.mouseX, mouseYDelta := moved.mouseY - previous.mouseY),
      Some(previous),
      s.keys)
  }

  /** `onMouseDown_`: a move, then button 0 presses left, button 2 presses right. */
  function Pressed(s: InputState, x: real, y: real, button: int): (r: InputState)
    ensures var m := Moved(s, x, y);
      && r.previous == m.previous && r.keys == m.keys
      && r.current.(leftButton := m.current.leftButton, rightButton := m.current.rightButton) == m.current
    ensures button == 0 ==> r.current.leftButton && r.current.rightButton == s.current.rightButton
    ensures button == 2 ==> r.current.rightButton && r.current.leftButton == s.current.leftButton
    ensures button != 0 && button != 2 ==> r == Moved(s, x, y)
  {
    var m := Moved(s, x, y);
    if button == 0 then m.(current := m.current.(leftButton := true))
    else if button == 2 then m.(current := m.current.(rightButton := true))
    else m
  }

  /** `onMouseUp_`: a move, then button 0 releases left, button 2 releases right. */
  function Released(s: InputState, x: real, y: real, button: int): (r: InputState)
    ensures var m := Moved(s, x, y);
      && r.previous == m.previous && r.keys == m.keys
      && r.current.(leftButton := m.current.leftButton, rightButton := m.current.rightButton) == m.current
    ensures button == 0 ==> !r.current.leftButton && r.current.rightButton == s.current.rightButton
    ensures button == 2 ==> !r.current.rightButton && r.current.leftButton == s.current.leftButton
    ensures button != 0 && button != 2 ==> r == Moved(s, x, y)
  {
    var m := Moved(s, x, y);
    if button == 0 then m.(current := m.current.(leftButton := false))
    else if button == 2 then m.(current := m.current.(rightButton := false))
    else m
  }

  /** `onKeyDown_`: the key reads as held; no other key changes. */
  function KeyPressed(s: InputState, keyCode: int): (r: InputState)
    ensures KeyHeld(r, keyCode)
    ensures forall other :: other != keyCode ==> KeyHeld(r, other) == KeyHeld(s, other)
    ensures r.current == s.current && r.previous == s.previous
  {
    s.(keys := s.keys[keyCode := true])
  }

  /** `onKeyUp_`: the key reads as released; no other key changes. */
  function KeyReleased(s: InputState, keyCode: int): (r: InputState)
    ensures !KeyHeld(r, keyCode)
    ensures forall other :: other != keyCode ==> KeyHeld(r, other) == KeyHeld(s, other)
    ensures r.current == s.current && r.previous == s.previous
  {
    s.(keys := s.keys[keyCode := false])
  }

  /**
   * `update()`: when ready, the deltas are recomputed against the
   * previous snapshot and then the snapshot is taken; otherwise nothing.
   */
  function Updated(s: InputState): (r: InputState)
    ensures !Ready(s) ==> r == s
    ensures Ready(s) ==> r.previous == Some(r.current)
    ensures Ready(s) ==> r.current.mouseXDelta == s.current.mouseX - s.previous.value.mouseX
    ensures Ready(s) ==> r.current.mouseYDelta == s.current.mouseY - s.previous.value.mouseY
    ensures r.current.(mouseXDelta := s.current.mouseXDelta, mouseYDelta := s.current.mouseYDelta) == s.current
    ensures r.keys == s.keys
  {
    if s.previous.None? then s
    else
      var current := s.current.(
        mouseXDelta := s.current.mouseX - s.previous.value.mouseX,
        mouseYDelta := s.current.mouseY - s.previous.value.mouseY);
      InputState(current, Some(current), s.keys)
  }

  /** The events the controller listens to, plus the per-frame `update` (Tick). */
  datatype InputEvent =
    | MouseMove(x: real, y: real)
    | MouseDown(x: real, y: real, button: int)
    | MouseUp(x: real, y: real, button: int)
    | KeyDown(keyCode: int)
    | KeyUp(keyCode: int)
    | Tick

  function Apply(s: InputState, e: InputEvent): InputState
  {
    match e
    case MouseMove(x, y) => Moved(s, x, y)
    case MouseDown(x, y, button) => Pressed(s, x, y, button)
    case MouseUp(x, y, button) => Released(s, x, y, button)
    case KeyDown(keyCode) => KeyPressed(s, keyCode)
    case KeyUp(keyCode) => KeyReleased(s, keyCode)
    case Tick => Updated(s)
  }

  function Run(s: InputState, events: seq<InputEvent>): InputState
    decreases |events|
  {
    if events == [] then s else Run(Apply(s, events[0]), events[1..])
  }

  /** Once ready, the controller stays ready whatever happens next. */
  lemma {:induction false} ReadyIsSticky(s: InputState, events: seq<InputEvent>)
    requires Ready(s)
    ensures Ready(Run(s, events))
    decreases |events|
  {
    if events != [] {
      ReadyIsSticky(Apply(s, events[0]), events[1..]);
    }
  }

  /** Any mouse event makes the controller ready. */
  lemma MouseEventMakesReady(s: InputState, e: InputEvent)
    requires e.MouseMove? || e.MouseDown? || e.MouseUp?
    ensures Ready(Apply(s, e))
  {
  }

  /** A key that is up stays up while no keydown for it arrives. */
  lemma {:induction false} UnpressedKeyStaysUp(s: InputState, events: seq<InputEvent>, keyCode: int)
    requires !KeyHeld(s, keyCode)
    requires forall i :: 0 <= i < |events| ==> events[i] != KeyDown(keyCode)
    ensures !KeyHeld(Run(s, events), keyCode)
    decreases |events|
  {
    if events != [] {
      UnpressedKeyStaysUp(Apply(s, events[0]), events[1..], keyCode);
    }
  }

  /** From the initial state, a key never pressed reads as released. */
  lemma NeverPressedKeyReadsFalse(events: seq<InputEvent>, keyCode: int)
    requires forall i :: 0 <= i < |events| ==> events[i] != KeyDown(keyCode)
    ensures !KeyHeld(Run(Initial(), events), keyCode)
  {
    UnpressedKeyStaysUp(Initial(), events, keyCode);
  }

  /** Between two updates the snapshot does not move: events other than Tick keep `previous_`. */
  lemma {:induction false} SnapshotKeptBetweenUpdates(s: InputState, events: seq<InputEvent>)
    requires Ready(s)
    requires forall i :: 0 <= i < |events| ==> events[i] != Tick
    ensures Run(s, events).previous == s.previous
    decreases |events|
  {
    if events != [] {
      SnapshotKeptBetweenUpdates(Apply(s, events[0]), events[1..]);
    }
  }

  /**
   * Deltas after a burst of mouse events are measured against the last
   * update's snapshot, not against the previous event.
   */
  lemma DeltaMeasuredFromSnapshot(s: InputState, events: seq<InputEvent>, x: real, y: real)
    requires Ready(s)
    requires forall i :: 0 <= i < |events| ==> events[i] != Tick
    ensures var r := Run(s, events + [MouseMove(x, y)]);
      r.current.mouseXDelta == x - s.previous.value.mouseX
      && r.current.mouseYDelta == y - s.previous.value.mouseY
  {
    RunAppend(s, events, MouseMove(x, y));
    SnapshotKeptBetweenUpdates(s, events);
    ReadyIsSticky(s, events);
  }

  lemma {:induction false} RunAppend(s: InputState, events: seq<InputEvent>, e: InputEvent)
    ensures Run(s, events + [e]) == Apply(Run(s, events), e)
    decreases |events|
  {
    if events == [] {
      assert events + [e] == [e];
    } else {
      assert (events + [e])[1..] == events[1..] + [e];
      RunAppend(Apply(s, events[0]), events[1..], e);
    }
  }

  /**
   * A move's delta survives the update that follows it (update recomputes
   * the same delta before taking the snapshot) and is cleared only by the
   * update after that; a reader that samples the delta before each update
   * sees one move on two frames.
   */
  lemma MoveDeltaSpansTwoUpdates(s: InputState, x: real, y: real)
    requires Ready(s)
    ensures var moved := Moved(s, x, y);
      && Updated(moved).current.mouseXDelta == moved.current.mouseXDelta
      && Updated(moved).current.mouseYDelta == moved.current.mouseYDelta
      && Updated(Updated(moved)).current.mouseXDelta == 0.0
      && Updated(Updated(moved)).current.mouseYDelta == 0.0
  {
  }

  /** The mutable controller. `current_` and `previous_` never alias (`{...current_}` copies). */
  class InputController {
    var current: Mouse
    var previous: Option<Mouse>
    var keys: map<int, bool>

    function State(): InputState
      reads this
    {
      InputState(current, previous, keys)
    }

    constructor ()
      ensures State() == Initial()
    {
      current := InitialMouse;
      previous := None;
      keys := map[];
    }

    /** `key(keyCode)`: true only for a code whose table entry is true; an unseen code reads false. */
    function Key(keyCode: int): (held: bool)
      reads this
      ensures held <==> keyCode in keys && keys[keyCode]
      ensures keyCode !in keys ==> !held
      ensures held == KeyHeld(State(), keyCode)
    {
      KeyHeld(State(), keyCode)
    }

    /** `isReady()`: a snapshot has been taken, i.e. `previous_` is no longer null. */
    function IsReady(): (ready: bool)
      reads this
      ensures ready <==> previous != None
      ensures ready == Ready(State())
    {
      Ready(State())
    }

    /** `onMouseMove_`: the position is centred on the window. */
    method OnMouseMove(pageX: real, pageY: real, innerWidth: real, innerHeight: real)
      modifies this
      ensures State() == Moved(old(State()), pageX - innerWidth / 2.0, pageY - innerHeight / 2.0)
    {
      current := current.(mouseX := pageX - innerWidth / 2.0, mouseY := pageY - innerHeight / 2.0);
      if previous.None? {
        previous := Some(current);
      }
      current := current.(
        mouseXDelta := current.mouseX - previous.value.mouseX,
        mouseYDelta := current.mouseY - previous.value.mouseY);
    }

    method OnMouseDown(pageX: real, pageY: real, innerWidth: real, innerHeight: real, button: int)
      modifies this
      ensures State() == Pressed(old(State()), pageX - innerWidth / 2.0, pageY - innerHeight / 2.0, button)
    {
      OnMouseMove(pageX, pageY, innerWidth, innerHeight);
      if button == 0 {
        current := current.(leftButton := true);
      } else if button == 2 {
        current := current.(rightButton := true);
      }
    }

    method OnMouseUp(pageX: real, pageY: real, innerWidth: real, innerHeight: real, button: int)
      modifies this
      ensures State() == Released(old(State()), pageX - innerWidth / 2.0, pageY - innerHeight / 2.0, button)
    {
      OnMouseMove(pageX, pageY, innerWidth, innerHeight);
      if button == 0 {
        current := current.(leftButton := false);
      } else if button == 2 {
        current := current.(rightButton := false);
      }
    }

    method OnKeyDown(keyCode: int)
      modifies this
      ensures State() == KeyPressed(old(State()), keyCode)
    {
      keys := keys[keyCode := true];
    }

    method OnKeyUp(keyCode: int)
      modifies this
      ensures State() == KeyReleased(old(State()), keyCode)
    {
      keys := keys[keyCode := false];
    }

    method Update()
      modifies this
      ensures State() == Updated(old(State()))
    {
      if previous.Some? {
        current := current.(
          mouseXDelta := current.mouseX - previous.value.mouseX,
          mouseYDelta := current.mouseY - previous.value.mouseY);
        previous := Some(current);
      }
    }
  }
}
