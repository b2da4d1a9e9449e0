/** The sketch's top level (src/main.cpp): the debounced pause button that
    toggles the whole system, and the loop that steps the fleet only while it
    runs. The button sample and the millis() reading arrive as parameters. */
module Pause {
  import opened Basics
  import opened Ringer
  import opened Manager
  import opened Display

  const DEBOUNCE_DELAY: nat := 50

  /** The sketch's globals for the pause button. */
  datatype PauseState = PauseState(
    systemPaused: bool,
    lastPauseButtonState: bool,
    pauseButtonPressed: bool,
    lastPauseDebounce: Millis)

  /** What a checkPauseButton() call does besides updating its globals. */
  datatype Toggle = NoToggle | Paused | Resumed

  /** checkPauseButton(): a changed sample restarts the debounce timer and
      forgets the press; a LOW that has been stable for more than 50 ms and
      was not yet handled toggles the pause; a debounced HIGH forgets the press;
      the sample becomes the last level. */
  function CheckPause(st: PauseState, sample: bool, now: Millis): (PauseState, Toggle)
  {
    var st1 := if sample != st.lastPauseButtonState
               then st.(lastPauseDebounce := now, pauseButtonPressed := false) else st;
    if Elapsed(now, st1.lastPauseDebounce) > DEBOUNCE_DELAY then
      var (st2, t) :=
        if sample == LOW && !st1.pauseButtonPressed then
          (st1.(pauseButtonPressed := true, systemPaused := !st1.systemPaused),
           if st1.systemPaused then Resumed else Paused)
        else (st1, NoToggle);
      var st3 := if sample == HIGH then st2.(pauseButtonPressed := false) else st2;
      (st3.(lastPauseButtonState := sample), t)
    else (st1.(lastPauseButtonState := sample), NoToggle)
  }

  // ---------------------------------------------------------------------------
  // Properties

  /** A toggle happens exactly when a LOW sample equal to the last one has
      been stable for more than 50 ms and is not yet handled; it flips the
      pause and marks the press handled. Paused and Resumed name the new state. */
  lemma ToggleCondition(st: PauseState, sample: bool, now: Millis)
    ensures var (st', t) := CheckPause(st, sample, now);
      (t != NoToggle <==>
         sample == LOW && sample == st.lastPauseButtonState && !st.pauseButtonPressed &&
         Elapsed(now, st.lastPauseDebounce) > DEBOUNCE_DELAY) &&
      (t != NoToggle ==> st'.systemPaused == !st.systemPaused && st'.pauseButtonPressed) &&
      (t == Paused <==> t != NoToggle && st'.systemPaused) &&
      (t == NoToggle ==> st'.systemPaused == st.systemPaused)
  {
  }

  /** Any change in the sample restarts the timer and forgets the press; the
      last level always ends equal to the sample. */
  lemma ChangeRestartsDebounce(st: PauseState, sample: bool, now: Millis)
    ensures var (st', t) := CheckPause(st, sample, now);
      st'.lastPauseButtonState == sample &&
      (sample != st.lastPauseButtonState ==>
         st'.lastPauseDebounce == now && !st'.pauseButtonPressed && t == NoToggle)
  {
  }

  /** A debounced HIGH forgets the press, so the next stable LOW toggles again. */
  lemma DebouncedHighReleases(st: PauseState, now: Millis)
    requires HIGH == st.lastPauseButtonState && Elapsed(now, st.lastPauseDebounce) > DEBOUNCE_DELAY
    ensures !CheckPause(st, HIGH, now).0.pauseButtonPressed
  {
  }

  /** Holding the button down toggles once: after a toggle, no later call
      with the button still LOW toggles again. */
  lemma HeldButtonTogglesOnce(st: PauseState, now: Millis, times: seq<Millis>)
    requires CheckPause(st, LOW, now).1 != NoToggle
    ensures var after := HoldLow(CheckPause(st, LOW, now).0, times);
      after.pauseButtonPressed && after.systemPaused == !st.systemPaused
  {
    ToggleCondition(st, LOW, now);
    HeldLowStaysHandled(CheckPause(st, LOW, now).0, times);
  }

  /** The state after further calls that all sample LOW, at the given times. */
  function HoldLow(st: PauseState, times: seq<Millis>): PauseState
  {
    if times == [] then st else CheckPause(HoldLow(st, times[..|times| - 1]), LOW, times[|times| - 1]).0
  }

  lemma {:induction false} HeldLowStaysHandled(st: PauseState, times: seq<Millis>)
    requires st.pauseButtonPressed && st.lastPauseButtonState == LOW
    ensures var after := HoldLow(st, times);
      after.pauseButtonPressed && after.lastPauseButtonState == LOW && after.systemPaused == st.systemPaused
  {
    if times != [] {
      HeldLowStaysHandled(st, times[..|times| - 1]);
    }
  }

  // ---------------------------------------------------------------------------
  // The sketch

  /** The sketch's globals and the two managers it drives. */
  class Sketch {
    var systemPaused: bool
    var lastPauseButtonState: bool
    var pauseButtonPressed: bool
    var lastPauseDebounce: Millis
    const ringerManager: RingerManager
    const displayManager: DisplayManager

    function Snap(): PauseState
      reads this
    {
      PauseState(systemPaused, lastPauseButtonState, pauseButtonPressed, lastPauseDebounce)
    }

    ghost predicate Valid()
      reads this, ringerManager, ringerManager.ringers, ringerManager.Repr
    {
      ringerManager.Valid()
    }

    /** The globals' initial values, with the managers setup() prepared. */
    constructor (ringerManager: RingerManager, displayManager: DisplayManager)
      requires ringerManager.Valid()
      ensures Valid() && this.ringerManager == ringerManager && this.displayManager == displayManager
      ensures Snap() == PauseState(false, HIGH, false, 0)
    {
      systemPaused := false;
      lastPauseButtonState := HIGH;
      pauseButtonPressed := false;
      lastPauseDebounce := 0;
      this.ringerManager := ringerManager;
      this.displayManager := displayManager;
    }

    /** checkPauseButton(): pausing stops every call, which leaves every relay
        off; resuming asks the display for a redraw. */
    method CheckPauseButton(sample: bool, now: Millis, maxCallDelaySetting: nat) returns (t: Toggle, ghost waits: seq<nat>)
      requires Valid()
      modifies this, ringerManager.Repr, displayManager
      ensures Valid()
      ensures (Snap(), t) == CheckPause(old(Snap()), sample, now)
      ensures |waits| == ringerManager.ringers.Length
      ensures t == Paused ==> forall j :: 0 <= j < |waits| ==> IsWaitTime(waits[j], maxCallDelaySetting)
      ensures ringerManager.Lines() ==
        if t == Paused then StopFrom(old(ringerManager.Lines()), 0, now, waits) else old(ringerManager.Lines())
      ensures ringerManager.Callbacks() == old(ringerManager.Callbacks())
      ensures displayManager.Snap() ==
        if t == Resumed then old(displayManager.Snap()).(displayNeedsUpdate := true) else old(displayManager.Snap())
    {
      var currentButtonState := sample;
      t := NoToggle;
      waits := seq(ringerManager.ringers.Length, j => 0);
      if currentButtonState != lastPauseButtonState {
        lastPauseDebounce := now;
        pauseButtonPressed := false;
      }
      if Elapsed(now, lastPauseDebounce) > DEBOUNCE_DELAY {
        if currentButtonState == LOW && !pauseButtonPressed {
          t, waits := TogglePause(now, maxCallDelaySetting);
        }
        if currentButtonState == HIGH {
          pauseButtonPressed := false;
        }
      }
      lastPauseButtonState := currentButtonState;
    }

    /** The handled press: flip the pause, then stop every call or ask for a redraw. */
    method TogglePause(now: Millis, maxCallDelaySetting: nat) returns (t: Toggle, ghost waits: seq<nat>)
      requires Valid()
      modifies this, ringerManager.Repr, displayManager
      ensures Valid()
      ensures Snap() == old(Snap()).(pauseButtonPressed := true, systemPaused := !old(systemPaused))
      ensures t == if old(systemPaused) then Resumed else Paused
      ensures |waits| == ringerManager.ringers.Length
      ensures t == Paused ==> forall j :: 0 <= j < |waits| ==> IsWaitTime(waits[j], maxCallDelaySetting)
      ensures ringerManager.Lines() ==
        if t == Paused then StopFrom(old(ringerManager.Lines()), 0, now, waits) else old(ringerManager.Lines())
      ensures ringerManager.Callbacks() == old(ringerManager.Callbacks())
      ensures displayManager.Snap() ==
        if t == Resumed then old(displayManager.Snap()).(displayNeedsUpdate := true) else old(displayManager.Snap())
    {
      pauseButtonPressed := true;
      systemPaused := !systemPaused;
      if systemPaused {
        waits := ringerManager.StopAllCalls(now, maxCallDelaySetting);
        t := Paused;
      } else {
        waits := seq(ringerManager.ringers.Length, j => 0);
        displayManager.ShowResumeMessage();
        t := Resumed;
      }
    }

    /** loop(): check the button, step the fleet unless paused, refresh the display. */
    method Loop(sample: bool, now: Millis, maxCallDelaySetting: nat, rnd: seq<Draws>) returns (screen: Screen, ghost waits: seq<nat>)
      requires Valid() && |rnd| == ringerManager.ringers.Length
      modifies this, ringerManager.Repr, displayManager
      ensures Valid()
      ensures Snap() == CheckPause(old(Snap()), sample, now).0
      ensures |waits| == ringerManager.ringers.Length
      ensures systemPaused && !old(systemPaused) ==>
        forall j :: 0 <= j < |waits| ==> IsWaitTime(waits[j], maxCallDelaySetting)
      ensures systemPaused ==>
        ringerManager.Lines() ==
          if old(systemPaused) then old(ringerManager.Lines()) else StopFrom(old(ringerManager.Lines()), 0, now, waits)
      ensures !systemPaused ==>
        ringerManager.Lines() ==
          StepUpTo(old(ringerManager.Lines()), old(ringerManager.Callbacks()),
                   Min(ringerManager.activeRelayCount, ringerManager.ringers.Length), now, rnd)
      ensures (screen, displayManager.Snap()) ==
        Refresh(if old(systemPaused) && !systemPaused then old(displayManager.Snap()).(displayNeedsUpdate := true)
                else old(displayManager.Snap()), now, systemPaused)
    {
      ghost var before := Snap();
      var t;
      t, waits := CheckPauseButton(sample, now, maxCallDelaySetting);
      ToggleCondition(before, sample, now);
      StepUnlessPaused(now, rnd);
      screen := displayManager.Update(now, systemPaused);
    }

    /** The gate in loop(): the fleet is stepped only while the system runs. */
    method StepUnlessPaused(now: Millis, rnd: seq<Draws>)
      requires Valid() && |rnd| == ringerManager.ringers.Length
      modifies ringerManager.Repr
      ensures Valid()
      ensures ringerManager.Lines() ==
        if systemPaused then old(ringerManager.Lines())
        else StepUpTo(old(ringerManager.Lines()), old(ringerManager.Callbacks()),
                      Min(ringerManager.activeRelayCount, ringerManager.ringers.Length), now, rnd)
    {
      if !systemPaused {
        ringerManager.Step(now, rnd);
      }
    }
  }

  /** A pause leaves every line idle with its relay off, whatever waits the
      stopped lines drew. */
  lemma PauseStopsEveryLine(lines: seq<Line>, now: Millis, waits: seq<nat>)
    requires |waits| == |lines| && AllInv(lines)
    ensures forall j :: 0 <= j < |lines| ==>
      StopFrom(lines, 0, now, waits)[j].state == Idle && !StopFrom(lines, 0, now, waits)[j].relayOn
  {
    StopFromStopsTail(lines, 0, now, waits);
  }
}
