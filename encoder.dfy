/** The rotary encoder and its push button (src/EncoderManager.cpp,
    include/EncoderManager.h). Each call samples the pins, which arrive here as
    parameters together with the millis() reading, and reports at most one event. */
module Encoder {
  import opened Basics

  datatype EncoderEvent = NONE | CLOCKWISE | COUNTER_CLOCKWISE | BUTTON_PRESS | BUTTON_RELEASE | BUTTON_LONG_PRESS

  const BUTTON_DEBOUNCE_TIME: nat := 50
  const LONG_PRESS_TIME: nat := 1000

  /** The fields of an EncoderManager that the event logic reads and writes. */
  datatype EncoderState = EncoderState(
    lastA: bool,
    lastB: bool,
    currentA: bool,
    currentB: bool,
    lastButtonState: bool,
    currentButtonState: bool,
    lastRawButtonState: bool,
    buttonPressed: bool,
    buttonPressTime: Millis,
    lastButtonDebounce: Millis)

  /** checkRotation(a, b): an event only when A changed; clockwise when the new
      A equals B. Both last levels always follow the samples. */
  function Rotation(st: EncoderState, a: bool, b: bool): (EncoderEvent, EncoderState)
  {
    var st' := st.(currentA := a, currentB := b, lastA := a, lastB := b);
    if a != st.lastA then (if a == b then CLOCKWISE else COUNTER_CLOCKWISE, st') else (NONE, st')
  }

  /** The long-press test at the end of checkButton(). */
  function LongPressCheck(st: EncoderState, now: Millis): (EncoderEvent, EncoderState)
  {
    if st.currentButtonState == LOW && st.buttonPressed && Elapsed(now, st.buttonPressTime) >= LONG_PRESS_TIME
    then (BUTTON_LONG_PRESS, st.(buttonPressed := false))
    else (NONE, st)
  }

  /** checkButton(raw, now). A raw change restarts the debounce timer; a level
      that has been stable for more than 50 ms and differs from the accepted one
      is a press (to LOW) or a release (to HIGH). Two boolean levels that differ
      are one of these two cases, so the source's fall-through after both tests
      cannot be reached. */
  function Button(st: EncoderState, raw: bool, now: Millis): (EncoderEvent, EncoderState)
  {
    var st1 := if raw != st.lastRawButtonState then st.(lastButtonDebounce := now, lastRawButtonState := raw) else st;
    if Elapsed(now, st1.lastButtonDebounce) > BUTTON_DEBOUNCE_TIME then
      if raw != st1.lastButtonState then
        if raw == LOW then
          (BUTTON_PRESS, st1.(currentButtonState := raw, buttonPressed := true, buttonPressTime := now,
                              lastButtonState := raw))
        else
          (BUTTON_RELEASE, st1.(currentButtonState := raw, buttonPressed := false, lastButtonState := raw))
      else LongPressCheck(st1.(currentButtonState := raw), now)
    else LongPressCheck(st1, now)
  }

  /** update(a, b, raw, now): a rotation event wins; the button is sampled only
      when there is none. */
  function UpdateSpec(st: EncoderState, a: bool, b: bool, raw: bool, now: Millis): (EncoderEvent, EncoderState)
  {
    var (rot, st1) := Rotation(st, a, b);
    if rot != NONE then (rot, st1) else Button(st1, raw, now)
  }

  /** getEventString() */
  function EventName(e: EncoderEvent): string
  {
    match e
    case NONE => "NONE"
    case CLOCKWISE => "CLOCKWISE"
    case COUNTER_CLOCKWISE => "COUNTER_CLOCKWISE"
    case BUTTON_PRESS => "BUTTON_PRESS"
    case BUTTON_RELEASE => "BUTTON_RELEASE"
    case BUTTON_LONG_PRESS => "BUTTON_LONG_PRESS"
  }

  predicate IsButtonEvent(e: EncoderEvent)
  {
    e == NONE || e == BUTTON_PRESS || e == BUTTON_RELEASE || e == BUTTON_LONG_PRESS
  }

  // ---------------------------------------------------------------------------
  // Properties

  /** checkRotation() reports exactly the A edges, with the direction given by B,
      and leaves the last levels equal to the samples on every path. */
  lemma RotationEvents(st: EncoderState, a: bool, b: bool)
    ensures var (e, st') := Rotation(st, a, b);
      (e != NONE <==> a != st.lastA) &&
      (e == CLOCKWISE <==> a != st.lastA && a == b) &&
      (e == COUNTER_CLOCKWISE <==> a != st.lastA && a != b) &&
      st'.lastA == a && st'.lastB == b &&
      st'.(lastA := st.lastA, lastB := st.lastB, currentA := st.currentA, currentB := st.currentB) == st
  {
  }

  /** update() returns the rotation event when there is one, and then leaves
      the button state alone; otherwise it returns the button's event. */
  lemma UpdatePrefersRotation(st: EncoderState, a: bool, b: bool, raw: bool, now: Millis)
    ensures var (e, st') := UpdateSpec(st, a, b, raw, now);
      var (rot, st1) := Rotation(st, a, b);
      (rot != NONE ==> e == rot && st' == st1) &&
      (rot == NONE ==> (e, st') == Button(st1, raw, now) && IsButtonEvent(e))
  {
    ButtonEventsOnly(Rotation(st, a, b).1, raw, now);
  }

  lemma ButtonEventsOnly(st: EncoderState, raw: bool, now: Millis)
    ensures IsButtonEvent(Button(st, raw, now).0)
    ensures Button(st, raw, now).1.lastA == st.lastA && Button(st, raw, now).1.lastB == st.lastB
  {
  }

  /** A raw change restarts the debounce timer, and then no press or release is
      accepted on that call; more generally none is accepted until the raw level
      has been stable for more than 50 ms. */
  lemma DebounceGuards(st: EncoderState, raw: bool, now: Millis)
    ensures raw != st.lastRawButtonState ==>
      Button(st, raw, now).1.lastButtonDebounce == now && Button(st, raw, now).1.lastRawButtonState == raw
    ensures var (e, st') := Button(st, raw, now);
      Elapsed(now, st'.lastButtonDebounce) <= BUTTON_DEBOUNCE_TIME ==>
        e != BUTTON_PRESS && e != BUTTON_RELEASE && st'.lastButtonState == st.lastButtonState
    ensures raw != st.lastRawButtonState ==>
      var (e, st') := Button(st, raw, now);
      e != BUTTON_PRESS && e != BUTTON_RELEASE && st'.lastButtonState == st.lastButtonState
  {
  }

  /** A stable HIGH-to-LOW change is a press that arms the long-press timer; a
      stable LOW-to-HIGH change is a release that disarms it. */
  lemma PressAndRelease(st: EncoderState, raw: bool, now: Millis)
    requires raw == st.lastRawButtonState && Elapsed(now, st.lastButtonDebounce) > BUTTON_DEBOUNCE_TIME
    ensures var (e, st') := Button(st, raw, now);
      (raw == LOW && st.lastButtonState == HIGH ==>
         e == BUTTON_PRESS && st'.buttonPressed && st'.buttonPressTime == now && st'.lastButtonState == LOW) &&
      (raw == HIGH && st.lastButtonState == LOW ==>
         e == BUTTON_RELEASE && !st'.buttonPressed && st'.lastButtonState == HIGH)
    ensures var (e, st') := Button(st, raw, now);
      e == BUTTON_PRESS || e == BUTTON_RELEASE <==> raw != st.lastButtonState
  {
  }

  /** A long press needs an armed press, the button LOW and at least a second
      since the press, and it disarms the press: it fires at most once. */
  lemma LongPressOnce(st: EncoderState, raw: bool, now: Millis)
    ensures var (e, st') := Button(st, raw, now);
      e == BUTTON_LONG_PRESS ==>
        st.buttonPressed && !st'.buttonPressed && st'.currentButtonState == LOW &&
        Elapsed(now, st.buttonPressTime) >= LONG_PRESS_TIME
    ensures var (e, st') := Button(st, raw, now);
      !st.buttonPressed ==> e != BUTTON_LONG_PRESS && (st'.buttonPressed ==> e == BUTTON_PRESS)
  {
  }

  /** After a long press, the next call cannot report another one. */
  lemma {:induction false} NoSecondLongPress(st: EncoderState, raw1: bool, t1: Millis, raw2: bool, t2: Millis)
    requires Button(st, raw1, t1).0 == BUTTON_LONG_PRESS
    ensures Button(Button(st, raw1, t1).1, raw2, t2).0 != BUTTON_LONG_PRESS
  {
    LongPressOnce(st, raw1, t1);
    LongPressOnce(Button(st, raw1, t1).1, raw2, t2);
  }

  /** Different events have different names. */
  lemma EventNamesDistinct(e1: EncoderEvent, e2: EncoderEvent)
    ensures EventName(e1) == EventName(e2) <==> e1 == e2
  {
    if e1 != e2 {
      var n1, n2 := EventName(e1), EventName(e2);
      assert |n1| != |n2| || n1[0] != n2[0];
    }
  }

  // ---------------------------------------------------------------------------
  // The object

  class EncoderManager {
    var lastA: bool
    var lastB: bool
    var currentA: bool
    var currentB: bool
    var lastButtonState: bool
    var currentButtonState: bool
    var lastRawButtonState: bool
    var buttonPressed: bool
    var buttonPressTime: Millis
    var lastButtonDebounce: Millis

    function Snap(): EncoderState
      reads this
    {
      EncoderState(lastA, lastB, currentA, currentB, lastButtonState, currentButtonState,
                   lastRawButtonState, buttonPressed, buttonPressTime, lastButtonDebounce)
    }

    /** EncoderManager() followed by initialize(), given the pin levels read then. */
    constructor (a: bool, b: bool, button: bool)
      ensures Snap() == EncoderState(a, b, false, false, button, button, button, false, 0, 0)
    {
      lastA := a;
      lastB := b;
      currentA := false;
      currentB := false;
      lastButtonState := button;
      currentButtonState := button;
      lastRawButtonState := button;
      buttonPressed := false;
      buttonPressTime := 0;
      lastButtonDebounce := 0;
    }

    function GetButtonState(): bool
      reads this
    {
      currentButtonState
    }

    method Update(a: bool, b: bool, raw: bool, now: Millis) returns (e: EncoderEvent)
      modifies this
      ensures (e, Snap()) == UpdateSpec(old(Snap()), a, b, raw, now)
    {
      var rotationEvent := CheckRotation(a, b);
      if rotationEvent != NONE {
        return rotationEvent;
      }
      e := CheckButton(raw, now);
    }

    method CheckRotation(a: bool, b: bool) returns (e: EncoderEvent)
      modifies this
      ensures (e, Snap()) == Rotation(old(Snap()), a, b)
    {
      currentA := a;
      currentB := b;
      if currentA != lastA {
        if currentA == currentB {
          lastA := currentA;
          lastB := currentB;
          return CLOCKWISE;
        } else {
          lastA := currentA;
          lastB := currentB;
          return COUNTER_CLOCKWISE;
        }
      }
      lastA := currentA;
      lastB := currentB;
      return NONE;
    }

    method CheckButton(raw: bool, now: Millis) returns (e: EncoderEvent)
      modifies this
      ensures (e, Snap()) == Button(old(Snap()), raw, now)
    {
      if raw != lastRawButtonState {
        lastButtonDebounce := now;
        lastRawButtonState := raw;
      }
      if Elapsed(now, lastButtonDebounce) > BUTTON_DEBOUNCE_TIME {
        var newState := raw;
        if newState != lastButtonState {
          currentButtonState := newState;
          if newState == LOW {
            buttonPressed := true;
            buttonPressTime := now;
            lastButtonState := newState;
            return BUTTON_PRESS;
          } else {
            buttonPressed := false;
            lastButtonState := newState;
            return BUTTON_RELEASE;
          }
        } else {
          currentButtonState := raw;
        }
      }
      if currentButtonState == LOW && buttonPressed {
        if Elapsed(now, buttonPressTime) >= LONG_PRESS_TIME {
          buttonPressed := false;
          return BUTTON_LONG_PRESS;
        }
      }
      return NONE;
    }
  }
}
