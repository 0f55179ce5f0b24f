/**
 * The momentary button of the C++ looper (source/alo.cpp, class
 * MomentaryButton): an edge detector over a control-port level that reports
 * presses and releases, the time since the previous change, and double clicks.
 *
 * The std::function callback of the source is replaced by the event that
 * `Run` returns; the pointed-to control level is a parameter of `Run`.
 */
module Button {
  import opened Wrappers

  /** What the callback receives: pressed or released, the time since the
      previous change, and whether this press came within a second of the
      previous press. */
  datatype ButtonEvent = ButtonEvent(pressed: bool, interval: real, doubleClick: bool)

  /** The fields of a button; `connected` stands for a non-null input pointer. */
  datatype ButtonState = ButtonState(
    connected: bool,
    lastState: bool,
    lastChangeTime: real,
    lastClickTime: real)

  /** The state a button has before it is connected. */
  const Initial := ButtonState(false, false, 0.0, 0.0)

  /** One poll of the button at time `now`, with the control port reading `level`. */
  function Step(b: ButtonState, now: real, level: real): (r: (ButtonState, Option<ButtonEvent>))
    // Nothing is reported and nothing changes without a connected input and an edge.
    ensures r.1.None? <==> !b.connected || (level > 0.0) == b.lastState
    ensures r.1.None? ==> r.0 == b
    // An edge flips the remembered level and reports it with the interval since the last change.
    ensures r.1.Some? ==> r.1.value.pressed == (level > 0.0) && r.0.lastState == !b.lastState
    ensures r.1.Some? ==> r.0.lastState == r.1.value.pressed
    ensures r.1.Some? ==> r.1.value.interval == now - b.lastChangeTime && r.0.lastChangeTime == now
    // A double click is a press less than a second after the previous press.
    ensures r.1.Some? ==> (r.1.value.doubleClick <==> r.1.value.pressed && now - b.lastClickTime < 1.0)
    // The click time moves only on presses.
    ensures r.0.lastClickTime == (if r.1.Some? && r.1.value.pressed then now else b.lastClickTime)
    ensures r.0.connected == b.connected
  {
    if !b.connected then (b, None)
    else
      var state := level > 0.0;
      if state == b.lastState then (b, None)
      else
        var doubleClick := state && now - b.lastClickTime < 1.0;
        var clickTime := if state then now else b.lastClickTime;
        (ButtonState(true, state, now, clickTime),
         Some(ButtonEvent(state, now - b.lastChangeTime, doubleClick)))
  }

  /** Polling again at the same level reports nothing: one callback per edge. */
  lemma SameLevelIsQuiet(b: ButtonState, now: real, later: real, level: real)
    ensures Step(Step(b, now, level).0, later, level).1 == None
  {
  }

  /** A release is never a double click and never moves the click time. */
  lemma ReleaseIsNeverDoubleClick(b: ButtonState, now: real, level: real)
    requires level <= 0.0
    ensures Step(b, now, level).1.Some? ==> !Step(b, now, level).1.value.doubleClick
    ensures Step(b, now, level).0.lastClickTime == b.lastClickTime
  {
  }

  class MomentaryButton {
    var connected: bool
    var lastState: bool
    var lastChangeTime: real
    var lastClickTime: real

    function State(): ButtonState
      reads this
    {
      ButtonState(connected, lastState, lastChangeTime, lastClickTime)
    }

    constructor ()
      ensures State() == Initial
    {
      connected, lastState := false, false;
      lastChangeTime, lastClickTime := 0.0, 0.0;
    }

    /** Connects the button to an input port. */
    method Connect()
      modifies this
      ensures State() == old(State()).(connected := true)
    {
      connected := true;
    }

    /** Polls the button; the returned event is what the source passes to its callback. */
    method Run(now: real, level: real) returns (event: Option<ButtonEvent>)
      modifies this
      ensures (State(), event) == Step(old(State()), now, level)
    {
      if !connected {
        return None;
      }
      var state := level > 0.0;
      if state == lastState {
        return None;
      }
      lastState := state;
      var doubleClick := false;
      if state {
        if now - lastClickTime < 1.0 {
          doubleClick := true;
        }
        lastClickTime := now;
      }
      event := Some(ButtonEvent(state, now - lastChangeTime, doubleClick));
      lastChangeTime := now;
    }
  }
}
