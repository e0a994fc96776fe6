/**
 * The double-tap Control detector (HotkeyManager): a state machine over the
 * Control flag of the last modifier event, whether a first tap is waiting for
 * its partner, and when that first tap happened.  Times are whole
 * milliseconds; the clock reading of each event is a parameter.
 */
module Hotkey {

  /** `doubleTapThreshold`: 0.4 s. */
  const Threshold: int := 400

  /** `lastCtrlPressTime`'s initial and reset value: -999 s. */
  const NeverPressed: int := -999000

  /** The three fields `handleEvent` reads and writes. */
  datatype TapState = TapState(pressed: bool, waiting: bool, lastPress: int)

  const Initial: TapState := TapState(false, false, NeverPressed)

  /** The state after an event, and whether `onDoubleTap` was called. */
  datatype Reaction = Reaction(next: TapState, fired: bool)

  predicate RisingEdge(s: TapState, ctrl: bool) { ctrl && !s.pressed }

  /** `handleEvent` for an event with Control flag `ctrl` observed at time `now`. */
  function React(s: TapState, ctrl: bool, now: int): Reaction {
    if RisingEdge(s, ctrl) then
      if s.waiting && now - s.lastPress < Threshold then
        Reaction(TapState(ctrl, false, NeverPressed), true)
      else
        Reaction(TapState(ctrl, true, now), false)
    else
      Reaction(s.(pressed := ctrl), false)
  }

  /** The callback the `asyncAfter` block runs: it clears the waiting flag only. */
  function DelayedReset(s: TapState): TapState {
    s.(waiting := false)
  }

  /** Holding Control, releasing it or any other modifier change never fires. */
  lemma FiresOnlyOnRisingEdge(s: TapState, ctrl: bool, now: int)
    ensures React(s, ctrl, now).fired ==> ctrl && !s.pressed
    ensures !RisingEdge(s, ctrl) ==> React(s, ctrl, now).next == s.(pressed := ctrl)
  {
  }

  /** On a rising edge the detector fires exactly when a first tap is waiting and is recent enough. */
  lemma FiresIff(s: TapState, ctrl: bool, now: int)
    requires RisingEdge(s, ctrl)
    ensures React(s, ctrl, now).fired <==> s.waiting && now - s.lastPress < Threshold
  {
  }

  /** A rising edge that does not fire becomes the first tap of a new pair, stamped now. */
  lemma FirstTapRecorded(s: TapState, ctrl: bool, now: int)
    requires RisingEdge(s, ctrl) && !React(s, ctrl, now).fired
    ensures React(s, ctrl, now).next == TapState(true, true, now)
  {
  }

  /** From the initial state the first press never fires. */
  lemma FirstPressNeverFires(ctrl: bool, now: int)
    ensures !React(Initial, ctrl, now).fired
    ensures ctrl ==> React(Initial, ctrl, now).next == TapState(true, true, now)
  {
  }

  /** After any event the pressed flag is that event's Control flag; the delayed reset leaves it alone. */
  lemma PressedTracksFlag(s: TapState, ctrl: bool, now: int)
    ensures React(s, ctrl, now).next.pressed == ctrl
    ensures DelayedReset(s).pressed == s.pressed && DelayedReset(s).lastPress == s.lastPress
    ensures !DelayedReset(s).waiting
  {
  }

  /** What reaches the detector: modifier-flag events, and the delayed resets they schedule. */
  datatype Event = Flags(ctrl: bool, time: int) | Reset

  datatype Replayed = Replayed(state: TapState, fires: nat, risingEdges: nat)

  /** The state, the number of callbacks and the number of Control rising edges after a trace. */
  function Replay(s: TapState, events: seq<Event>): Replayed
    decreases |events|
  {
    if events == [] then Replayed(s, 0, 0)
    else
      match events[0]
      case Reset => Replay(DelayedReset(s), events[1..])
      case Flags(ctrl, now) =>
        var r := React(s, ctrl, now);
        var rest := Replay(r.next, events[1..]);
        Replayed(rest.state,
                 rest.fires + (if r.fired then 1 else 0),
                 rest.risingEdges + (if RisingEdge(s, ctrl) then 1 else 0))
  }

  /**
   * Without a rising edge nothing starts waiting: releases, repeats of the
   * current flag and delayed resets keep an idle detector idle.
   */
  lemma {:induction false} IdleWithoutRisingEdge(s: TapState, events: seq<Event>)
    requires !s.waiting && Replay(s, events).risingEdges == 0
    ensures !Replay(s, events).state.waiting
    decreases |events|
  {
    if events != [] {
      match events[0]
      case Reset => IdleWithoutRisingEdge(DelayedReset(s), events[1..]);
      case Flags(ctrl, now) =>
        IdleWithoutRisingEdge(React(s, ctrl, now).next, events[1..]);
    }
  }

  /**
   * Firing clears the pair: waiting is off and the last press is forgotten, so
   * the next rising edge, however soon and whatever releases or delayed resets
   * come before it, is a first tap and does not fire.
   */
  lemma FiringStartsNewPair(s: TapState, ctrl: bool, now: int, events: seq<Event>, ctrl2: bool, later: int)
    requires React(s, ctrl, now).fired
    ensures React(s, ctrl, now).next == TapState(true, false, NeverPressed)
    ensures var r := Replay(React(s, ctrl, now).next, events);
            r.risingEdges == 0 ==> !React(r.state, ctrl2, later).fired
  {
    var r := Replay(React(s, ctrl, now).next, events);
    if r.risingEdges == 0 {
      IdleWithoutRisingEdge(React(s, ctrl, now).next, events);
    }
  }

  /**
   * Every callback needs two Control taps of its own: over any trace, twice the
   * number of callbacks, plus one while a first tap waits, never exceeds the
   * number of rising edges.
   */
  lemma {:induction false} TwoTapsPerCallback(s: TapState, events: seq<Event>, credit: nat)
    requires credit == (if s.waiting then 1 else 0)
    ensures var r := Replay(s, events);
            2 * r.fires + (if r.state.waiting then 1 else 0) <= r.risingEdges + credit
    decreases |events|
  {
    if events != [] {
      match events[0]
      case Reset =>
        TwoTapsPerCallback(DelayedReset(s), events[1..], 0);
      case Flags(ctrl, now) =>
        var r := React(s, ctrl, now);
        TwoTapsPerCallback(r.next, events[1..], if r.next.waiting then 1 else 0);
    }
  }

  /** From the initial state, a trace fires at most once per two Control presses. */
  lemma AtMostHalfTheTapsFire(events: seq<Event>)
    ensures 2 * Replay(Initial, events).fires <= Replay(Initial, events).risingEdges
  {
    TwoTapsPerCallback(Initial, events, 0);
  }

  /** The detector: the fields `handleEvent` updates in place. */
  class HotkeyManager {
    var lastCtrlPressTime: int
    var ctrlIsPressed: bool
    var waitingForSecondTap: bool

    function State(): TapState
      reads this
    {
      TapState(ctrlIsPressed, waitingForSecondTap, lastCtrlPressTime)
    }

    constructor ()
      ensures State() == Initial
    {
      lastCtrlPressTime := NeverPressed;
      ctrlIsPressed := false;
      waitingForSecondTap := false;
    }

    /** `handleEvent`: returns whether `onDoubleTap` was called. */
    method HandleEvent(ctrlPressed: bool, currentTime: int) returns (fired: bool)
      modifies this
      ensures Reaction(State(), fired) == React(old(State()), ctrlPressed, currentTime)
    {
      fired := false;
      if ctrlPressed && !ctrlIsPressed {
        var timeSinceLastPress := currentTime - lastCtrlPressTime;
        if waitingForSecondTap && timeSinceLastPress < Threshold {
          fired := true;
          waitingForSecondTap := false;
          lastCtrlPressTime := NeverPressed;
        } else {
          waitingForSecondTap := true;
          lastCtrlPressTime := currentTime;
        }
      }
      ctrlIsPressed := ctrlPressed;
    }

    /** The block scheduled `doubleTapThreshold` after a first tap. */
    method ResetWaiting()
      modifies this
      ensures State() == DelayedReset(old(State()))
    {
      waitingForSecondTap := false;
    }
  }
}
