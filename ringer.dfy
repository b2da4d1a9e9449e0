/** The ring state machine of one telephone line, current version
    (src/TelephoneRinger.cpp).

    A line cycles Idle -> RingOn <-> RingOff -> CallAnswered -> Waiting -> Idle.
    An optional admission callback gates every call the line starts on its own;
    the wait before the next call, the number of rings, whether the last ring is
    cut short, and how short it is, are random.

    Every call to Arduino's random(a, b) is a value handed in through a `Draws`
    record; the transition function `Next` is defined for every value, and the
    lemmas that depend on the ranges random() guarantees ask for `ValidDraws`.
    A property proved for all valid draws is a property of every run. */
module Ringer {
  import opened Basics

  /** What the admission callback looks at: isActive() of every line of the fleet,
      in index order. (The C callback takes no arguments and reads fleet globals;
      here what it reads is passed explicitly.) */
  type FleetView = seq<bool>

  /** canStartCallCallback: a side-effect-free yes/no question about the fleet. */
  type Admission = FleetView -> bool

  const DefaultRingOn: nat := 2000
  const DefaultRingOff: nat := 4000
  /** Pause in CallAnswered before the line starts waiting. */
  const AnsweredPause: nat := 1000
  /** The fixed floor of the random wait. */
  const MinDelay: nat := 5000

  /** The values random() returns during one operation: a wait time
      (getRandomWaitTime), a ring count (random(1, 9)), the cut-short coin
      (random(100)) and the cut-short percentage (random(25, 76)). */
  datatype Draws = Draws(wait: nat, rings: int, roll: int, cutPercent: int)

  /** The upper end of the wait range: maxCallDelaySetting seconds in milliseconds. */
  function MaxDelay(maxCallDelaySetting: nat): nat { maxCallDelaySetting * 1000 }

  /** The wait times getRandomWaitTime can return for a given setting. */
  predicate IsWaitTime(w: nat, maxCallDelaySetting: nat)
  {
    var m := MaxDelay(maxCallDelaySetting);
    if MinDelay < m then MinDelay <= w <= m else m / 2 <= w <= m
  }

  predicate ValidDraws(d: Draws, maxCallDelaySetting: nat)
  {
    IsWaitTime(d.wait, maxCallDelaySetting) &&
    1 <= d.rings <= 8 &&
    0 <= d.roll < 100 &&
    25 <= d.cutPercent <= 75
  }

  /** getRandomWaitTime: a uniform draw between a floor of 5 s and the configured
      maximum; when the floor would not lie below the maximum it drops to half of it. */
  method GetRandomWaitTime(maxCallDelaySetting: nat) returns (w: nat)
    ensures MaxDelay(maxCallDelaySetting) > MinDelay ==>
              MinDelay <= w <= MaxDelay(maxCallDelaySetting)
    ensures MaxDelay(maxCallDelaySetting) <= MinDelay ==>
              MaxDelay(maxCallDelaySetting) / 2 <= w <= MaxDelay(maxCallDelaySetting)
    ensures IsWaitTime(w, maxCallDelaySetting)
  {
    var minDelay := MinDelay;
    var maxDelay := maxCallDelaySetting * 1000;
    if minDelay >= maxDelay {
      minDelay := maxDelay / 2;
    }
    // random(minDelay, maxDelay + 1)
    w :| minDelay <= w <= maxDelay;
  }

  /** The fields of a TelephoneRinger that the state machine reads and writes. */
  datatype Line = Line(
    state: RingerState,
    relayPin: int,
    relayOn: bool,
    lastStateChange: Millis,
    currentRingCount: int,
    totalRingsToMake: int,
    finalRingCutShort: bool,
    useUKRingStyle: bool,
    waitDuration: nat,
    ringOnDuration: nat,
    ringOffDuration: nat)
  {
    predicate IsRinging() { state == RingOn }

    predicate IsActive() { state != Idle && state != Waiting }

    /** setRelayState: only a line wired to a pin (relayPin >= 0) drives a relay. */
    function WithRelay(active: bool): Line
    {
      if relayPin >= 0 then this.(relayOn := active) else this
    }

    /** What every reachable line satisfies: the relay is on exactly in RingOn
        (for a wired line), the ring timing is the fixed 2 s / 4 s, and the ring
        counter stays between 1 and the number of rings of the call. */
    predicate Inv()
    {
      (relayPin >= 0 ==> (relayOn <==> state == RingOn)) &&
      (relayPin < 0 ==> !relayOn) &&
      ringOnDuration == DefaultRingOn && ringOffDuration == DefaultRingOff &&
      (state == RingOn ==> 1 <= currentRingCount <= Max(totalRingsToMake, 1)) &&
      (state == RingOff ==> 1 <= currentRingCount < totalRingsToMake)
    }
  }

  /** The callback test of the Idle state: no callback means yes. */
  function Admits(callback: Option<Admission>, view: FleetView): bool
  {
    callback.None? || callback.value(view)
  }

  /** A line after the constructor and initialize(pin, ...): idle, relay off,
      waiting a first random delay from `now`. */
  function Initialized(pin: int, now: Millis, wait: nat): Line
  {
    Line(Idle, pin, false, now, 0, 0, false, false, wait, DefaultRingOn, DefaultRingOff)
  }

  /** startCall(): 1..8 rings, and a 50% coin for a cut-short last ring that is
      tossed whatever the ring count. Ring timing and ring style are kept. */
  function StartRandom(l: Line, now: Millis, d: Draws): Line
  {
    l.(totalRingsToMake := d.rings, currentRingCount := 1, finalRingCutShort := d.roll < 50)
     .WithRelay(true)
     .(state := RingOn, lastStateChange := now)
  }

  /** startCall(ringCount, cutShort, useUKStyle): a call with given parameters
      and the default 2 s / 4 s ring timing. */
  function StartWith(l: Line, ringCount: int, cutShort: bool, useUKStyle: bool, now: Millis): Line
  {
    l.(totalRingsToMake := ringCount, currentRingCount := 1, finalRingCutShort := cutShort,
       useUKRingStyle := useUKStyle, ringOnDuration := DefaultRingOn, ringOffDuration := DefaultRingOff)
     .WithRelay(true)
     .(state := RingOn, lastStateChange := now)
  }

  /** stopCall(): relay off, back to Idle with a fresh wait from `now`. */
  function Stopped(l: Line, now: Millis, wait: nat): Line
  {
    l.WithRelay(false).(state := Idle, waitDuration := wait, lastStateChange := now)
  }

  /** currentRingOnDuration * random(25, 76) / 100 in unsigned long arithmetic. */
  function CutShortDuration(onDuration: nat, percent: int): nat
  {
    ((onDuration * percent) % TwoTo32) / 100
  }

  /** How long the current ring stays on; the percentage is drawn anew on every tick. */
  function RingDuration(l: Line, d: Draws): nat
  {
    if l.currentRingCount == l.totalRingsToMake && l.finalRingCutShort
    then CutShortDuration(l.ringOnDuration, d.cutPercent)
    else l.ringOnDuration
  }

  /** step(now): one tick of the state machine. `admitted` is the answer of the
      admission test, which the source evaluates only in Idle once the wait is over. */
  function Next(l: Line, now: Millis, admitted: bool, d: Draws): Line
  {
    var elapsed := Elapsed(now, l.lastStateChange);
    match l.state
    case Idle =>
      if elapsed < l.waitDuration then l
      else if admitted then StartRandom(l, now, d)
      else l.(waitDuration := d.wait / 4, lastStateChange := now)
    case RingOn =>
      if elapsed < RingDuration(l, d) then l
      else l.WithRelay(false).(state := if l.currentRingCount >= l.totalRingsToMake then CallAnswered else RingOff,
                               lastStateChange := now)
    case RingOff =>
      if elapsed < l.ringOffDuration then l
      else l.(currentRingCount := l.currentRingCount + 1).WithRelay(true).(state := RingOn, lastStateChange := now)
    case CallAnswered =>
      if elapsed < AnsweredPause then l
      else l.(state := Waiting, waitDuration := d.wait, lastStateChange := now)
    case Waiting =>
      if elapsed < l.waitDuration then l
      else l.(state := Idle, waitDuration := d.wait, lastStateChange := now)
  }

  // ---------------------------------------------------------------------------
  // Properties of the state machine

  /** The invariant holds of a freshly initialised line and is kept by every
      operation, whatever the random draws and the callback's answer. */
  lemma InvInitiallyAndPreserved(l: Line, now: Millis, admitted: bool, d: Draws,
                                 ringCount: int, cutShort: bool, uk: bool, wait: nat, pin: int)
    requires l.Inv()
    ensures Initialized(pin, now, wait).Inv()
    ensures Next(l, now, admitted, d).Inv()
    ensures StartRandom(l, now, d).Inv()
    ensures StartWith(l, ringCount, cutShort, uk, now).Inv()
    ensures Stopped(l, now, wait).Inv()
  {
  }

  /** The relay of a wired line is on exactly while the line rings; ringing implies active. */
  lemma RelayMatchesRinging(l: Line)
    requires l.Inv()
    ensures l.relayPin >= 0 ==> (l.relayOn <==> l.IsRinging())
    ensures !l.IsActive() ==> !l.relayOn
    ensures l.IsRinging() ==> l.IsActive()
  {
  }

  /** Idle: nothing happens before the wait is over; then a call starts iff the
      admission test passes, otherwise the line retries after a quarter of a
      fresh random wait. */
  lemma IdleTransitions(l: Line, now: Millis, admitted: bool, d: Draws)
    requires l.state == Idle
    ensures Elapsed(now, l.lastStateChange) < l.waitDuration ==> Next(l, now, admitted, d) == l
    ensures Elapsed(now, l.lastStateChange) >= l.waitDuration ==>
      var n := Next(l, now, admitted, d);
      (n.state == RingOn <==> admitted) &&
      (admitted ==> n.currentRingCount == 1 && n.totalRingsToMake == d.rings && n.lastStateChange == now) &&
      (!admitted ==> n == l.(waitDuration := d.wait / 4, lastStateChange := now))
  {
  }

  /** RingOn ends into CallAnswered iff the last ring has been made, otherwise
      into RingOff; either way the relay goes off and the time is stamped. */
  lemma RingOnTransitions(l: Line, now: Millis, admitted: bool, d: Draws)
    requires l.Inv() && l.state == RingOn
    ensures var n := Next(l, now, admitted, d);
      n.state != RingOn ==>
        (n.state == CallAnswered <==> l.currentRingCount >= l.totalRingsToMake) &&
        (n.state == RingOff <==> l.currentRingCount < l.totalRingsToMake) &&
        n.lastStateChange == now && !n.relayOn &&
        Elapsed(now, l.lastStateChange) >= RingDuration(l, d)
    ensures var n := Next(l, now, admitted, d);
      n.state == RingOn ==> n == l
    ensures Elapsed(now, l.lastStateChange) >= RingDuration(l, d) <==> Next(l, now, admitted, d).state != RingOn
  {
  }

  /** RingOff turns into the next ring only after the off time, adding exactly one ring. */
  lemma RingOffTransitions(l: Line, now: Millis, admitted: bool, d: Draws)
    requires l.Inv() && l.state == RingOff
    ensures var n := Next(l, now, admitted, d);
      (n.state == RingOn <==> Elapsed(now, l.lastStateChange) >= l.ringOffDuration) &&
      (n.state == RingOn ==> n.currentRingCount == l.currentRingCount + 1 && n.lastStateChange == now &&
                             n.currentRingCount <= n.totalRingsToMake) &&
      (n.state != RingOn ==> n == l)
  {
  }

  /** A call started with at least one ring keeps its ring counter in [1, rings]. */
  lemma RingCountInRange(l: Line)
    requires l.Inv() && (l.state == RingOn || l.state == RingOff) && l.totalRingsToMake >= 1
    ensures 1 <= l.currentRingCount <= l.totalRingsToMake
  {
  }

  /** A cut-short last ring never ends before a quarter of the on time and
      always ends once three quarters of it have passed. */
  lemma CutShortWindow(l: Line, now: Millis, admitted: bool, d: Draws)
    requires l.Inv() && l.state == RingOn
    requires l.currentRingCount == l.totalRingsToMake && l.finalRingCutShort
    requires 25 <= d.cutPercent <= 75
    ensures Elapsed(now, l.lastStateChange) < l.ringOnDuration * 25 / 100 ==>
              Next(l, now, admitted, d).state == RingOn
    ensures Elapsed(now, l.lastStateChange) >= l.ringOnDuration * 75 / 100 ==>
              Next(l, now, admitted, d).state != RingOn
  {
    assert RingDuration(l, d) == 20 * d.cutPercent;
  }

  /** The cut-short threshold is drawn again on each tick: at the same elapsed
      time the ring may end on one tick's draw and go on under another's. */
  lemma CutShortThresholdRedrawn()
    ensures var l := Line(RingOn, 5, true, 0, 3, 3, true, false, 10000, DefaultRingOn, DefaultRingOff);
      l.Inv() &&
      Next(l, 1000, true, Draws(10000, 1, 0, 25)).state == CallAnswered &&
      Next(l, 1000, true, Draws(10000, 1, 0, 75)).state == RingOn
  {
    var l := Line(RingOn, 5, true, 0, 3, 3, true, false, 10000, DefaultRingOn, DefaultRingOff);
    assert RingDuration(l, Draws(10000, 1, 0, 25)) == 500;
    assert RingDuration(l, Draws(10000, 1, 0, 75)) == 1500;
  }

  /** startCall() tosses the cut-short coin even for a one-ring call. */
  lemma CutShortEvenForOneRing(l: Line, now: Millis)
    ensures var n := StartRandom(l, now, Draws(MinDelay, 1, 0, 25));
      n.totalRingsToMake == 1 && n.finalRingCutShort
  {
  }

  /** CallAnswered lasts 1 s and Waiting lasts the wait; each exit draws a new wait. */
  lemma AnsweredAndWaitingTransitions(l: Line, now: Millis, admitted: bool, d: Draws)
    requires l.state == CallAnswered || l.state == Waiting
    ensures var n := Next(l, now, admitted, d);
      var due := if l.state == CallAnswered then AnsweredPause else l.waitDuration;
      (Elapsed(now, l.lastStateChange) < due ==> n == l) &&
      (Elapsed(now, l.lastStateChange) >= due ==>
         n.state == (if l.state == CallAnswered then Waiting else Idle) &&
         n.waitDuration == d.wait && n.lastStateChange == now)
  {
  }

  /** A tick makes an inactive line active only by an admitted start from Idle;
      it is the one way the number of active lines can grow. */
  lemma OnlyAdmittedStartActivates(l: Line, now: Millis, admitted: bool, d: Draws)
    ensures Next(l, now, admitted, d).IsActive() && !l.IsActive() ==> l.state == Idle && admitted
    ensures !admitted && !l.IsActive() ==> !Next(l, now, admitted, d).IsActive()
  {
  }

  /** With valid draws every wait a line stores lies in the range of
      getRandomWaitTime, or a quarter of it after a refused admission. */
  lemma WaitsComeFromTheRange(l: Line, now: Millis, admitted: bool, d: Draws, setting: nat)
    requires ValidDraws(d, setting)
    ensures var n := Next(l, now, admitted, d);
      n.waitDuration != l.waitDuration ==>
        (IsWaitTime(n.waitDuration, setting) || (l.state == Idle && n.waitDuration == d.wait / 4))
    ensures var n := Next(l, now, admitted, d);
      n.state == RingOn && l.state == Idle ==> 1 <= n.totalRingsToMake <= 8
  {
  }

  /** stopCall() from any state leaves the line idle with its relay off, and a
      second stopCall() only redraws the wait and the timestamp. */
  lemma StopIsIdempotent(l: Line, t1: Millis, w1: nat, t2: Millis, w2: nat)
    requires l.Inv()
    ensures Stopped(l, t1, w1).state == Idle && !Stopped(l, t1, w1).relayOn
    ensures Stopped(Stopped(l, t1, w1), t2, w2) == Stopped(l, t2, w2)
    ensures Stopped(Stopped(l, t1, w1), t2, w2) == Stopped(l, t1, w1).(waitDuration := w2, lastStateChange := t2)
  {
  }

  // ---------------------------------------------------------------------------
  // The object

  /** One telephone line driving one relay. */
  class TelephoneRinger {
    var state: RingerState
    var relayPin: int
    /** The level last written to the relay: true = ringing. */
    var relayOn: bool
    var lastStateChange: Millis
    var currentRingCount: int
    var totalRingsToMake: int
    var finalRingCutShort: bool
    var useUKRingStyle: bool
    var waitDuration: nat
    var currentRingOnDuration: nat
    var currentRingOffDuration: nat
    var canStartCallCallback: Option<Admission>

    function Snap(): Line
      reads this
    {
      Line(state, relayPin, relayOn, lastStateChange, currentRingCount, totalRingsToMake,
           finalRingCutShort, useUKRingStyle, waitDuration, currentRingOnDuration, currentRingOffDuration)
    }

    ghost predicate Valid()
      reads this
    {
      Snap().Inv()
    }

    /** TelephoneRinger() followed by initialize(pin, config, serial): the
        first wait is drawn by getRandomWaitTime(). */
    constructor (pin: int, now: Millis, maxCallDelaySetting: nat)
      ensures Valid()
      ensures Snap() == Initialized(pin, now, waitDuration)
      ensures IsWaitTime(waitDuration, maxCallDelaySetting)
      ensures canStartCallCallback == None
    {
      state := Idle;
      relayPin := pin;
      relayOn := false;
      lastStateChange := now;
      currentRingCount := 0;
      totalRingsToMake := 0;
      finalRingCutShort := false;
      useUKRingStyle := false;
      currentRingOnDuration := DefaultRingOn;
      currentRingOffDuration := DefaultRingOff;
      canStartCallCallback := None;
      new;
      waitDuration := GetRandomWaitTime(maxCallDelaySetting);
    }

    method SetCanStartCallCallback(callback: Option<Admission>)
      modifies this
      ensures canStartCallCallback == callback
      ensures Snap() == old(Snap())
    {
      canStartCallCallback := callback;
    }

    method SetRelayState(active: bool)
      modifies this
      ensures Snap() == old(Snap()).WithRelay(active)
      ensures canStartCallCallback == old(canStartCallCallback)
    {
      if relayPin >= 0 {
        relayOn := active;
      }
    }

    function IsRinging(): (r: bool)
      reads this
      requires Valid()
      ensures r <==> Snap().IsRinging()
      ensures r ==> IsActive()
      ensures relayPin >= 0 ==> (r <==> relayOn)
    {
      state == RingOn
    }

    function IsActive(): (r: bool)
      reads this
      requires Valid()
      ensures r <==> Snap().IsActive()
      ensures !r ==> !relayOn
    {
      state != Idle && state != Waiting
    }

    /** startCall() */
    method StartCall(now: Millis, d: Draws)
      requires Valid()
      modifies this
      ensures Valid()
      ensures Snap() == StartRandom(old(Snap()), now, d)
      ensures canStartCallCallback == old(canStartCallCallback)
    {
      totalRingsToMake := d.rings;
      currentRingCount := 1;
      finalRingCutShort := d.roll < 50;
      SetRelayState(true);
      state := RingOn;
      lastStateChange := now;
    }

    /** startCall(ringCount, cutShort, useUKStyle) */
    method StartCallWith(ringCount: int, cutShort: bool, useUKStyle: bool, now: Millis)
      requires Valid()
      modifies this
      ensures Valid()
      ensures Snap() == StartWith(old(Snap()), ringCount, cutShort, useUKStyle, now)
      ensures canStartCallCallback == old(canStartCallCallback)
    {
      SetCallParameters(ringCount, cutShort, useUKStyle);
      SetRelayState(true);
      state := RingOn;
      lastStateChange := now;
    }

    /** The assignments startCall(ringCount, cutShort, useUKStyle) makes before the relay. */
    method SetCallParameters(ringCount: int, cutShort: bool, useUKStyle: bool)
      modifies this
      ensures Snap() == old(Snap()).(totalRingsToMake := ringCount, currentRingCount := 1,
                                     finalRingCutShort := cutShort, useUKRingStyle := useUKStyle,
                                     ringOnDuration := DefaultRingOn, ringOffDuration := DefaultRingOff)
      ensures canStartCallCallback == old(canStartCallCallback)
    {
      totalRingsToMake := ringCount;
      currentRingCount := 1;
      finalRingCutShort := cutShort;
      useUKRingStyle := useUKStyle;
      currentRingOnDuration := DefaultRingOn;
      currentRingOffDuration := DefaultRingOff;
    }

    /** stopCall(): the new wait is drawn by getRandomWaitTime(). */
    method StopCall(now: Millis, maxCallDelaySetting: nat)
      requires Valid()
      modifies this
      ensures Valid()
      ensures Snap() == Stopped(old(Snap()), now, waitDuration)
      ensures IsWaitTime(waitDuration, maxCallDelaySetting)
      ensures canStartCallCallback == old(canStartCallCallback)
    {
      SetRelayState(false);
      state := Idle;
      waitDuration := GetRandomWaitTime(maxCallDelaySetting);
      lastStateChange := now;
    }

    /** step(now): the admission callback is asked about `view`. */
    method Step(now: Millis, view: FleetView, d: Draws)
      requires Valid()
      modifies this
      ensures Valid()
      ensures Snap() == Next(old(Snap()), now, Admits(old(canStartCallCallback), view), d)
      ensures canStartCallCallback == old(canStartCallCallback)
    {
      ghost var before := Snap();
      ghost var admitted := Admits(canStartCallCallback, view);
      var elapsed := Elapsed(now, lastStateChange);
      match state {
        case Idle => StepIdle(now, elapsed, view, d);
        case RingOn => StepRingOn(now, elapsed, d);
        case RingOff => StepRingOff(now, elapsed, d);
        case CallAnswered =>
          if elapsed >= AnsweredPause {
            state := Waiting;
            waitDuration := d.wait;
            lastStateChange := now;
          }
        case Waiting =>
          if elapsed >= waitDuration {
            state := Idle;
            waitDuration := d.wait;
            lastStateChange := now;
          }
      }
      InvInitiallyAndPreserved(before, now, admitted, d, 0, false, false, 0, 0);
    }

    /** The Idle case of step: start a call if the callback allows it,
        otherwise retry after a quarter of a fresh wait. */
    method StepIdle(now: Millis, elapsed: Millis, view: FleetView, d: Draws)
      requires Valid() && state == Idle && elapsed == Elapsed(now, lastStateChange)
      modifies this
      ensures Snap() == Next(old(Snap()), now, Admits(old(canStartCallCallback), view), d)
      ensures canStartCallCallback == old(canStartCallCallback)
    {
      if elapsed >= waitDuration {
        if canStartCallCallback.None? || canStartCallCallback.value(view) {
          StartCall(now, d);
        } else {
          waitDuration := d.wait / 4;
          lastStateChange := now;
        }
      }
    }

    /** The RingOff case of step. */
    method StepRingOff(now: Millis, elapsed: Millis, d: Draws)
      requires Valid() && state == RingOff && elapsed == Elapsed(now, lastStateChange)
      modifies this
      ensures forall admitted: bool {:trigger Next(old(Snap()), now, admitted, d)} ::
                Snap() == Next(old(Snap()), now, admitted, d)
      ensures canStartCallCallback == old(canStartCallCallback)
    {
      if elapsed >= currentRingOffDuration {
        currentRingCount := currentRingCount + 1;
        SetRelayState(true);
        state := RingOn;
        lastStateChange := now;
      }
    }

    /** The RingOn case of step. */
    method StepRingOn(now: Millis, elapsed: Millis, d: Draws)
      requires Valid() && state == RingOn && elapsed == Elapsed(now, lastStateChange)
      modifies this
      ensures forall admitted: bool {:trigger Next(old(Snap()), now, admitted, d)} ::
                Snap() == Next(old(Snap()), now, admitted, d)
      ensures canStartCallCallback == old(canStartCallCallback)
    {
      var ringDuration := currentRingOnDuration;
      if currentRingCount == totalRingsToMake && finalRingCutShort {
        ringDuration := ((currentRingOnDuration * d.cutPercent) % TwoTo32) / 100;
      }
      assert ringDuration == RingDuration(Snap(), d);
      if elapsed >= ringDuration {
        SetRelayState(false);
        if currentRingCount >= totalRingsToMake {
          state := CallAnswered;
        } else {
          state := RingOff;
        }
        lastStateChange := now;
      }
    }
  }
}
