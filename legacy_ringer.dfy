/** The ring state machine of one telephone line, legacy version
    (TelephoneRinger.cpp at the top of the repository).

    The same five states as the current version, but with fixed timing
    constants, no admission callback, a 70% cut-short chance that applies only
    to calls of more than one ring, and a fixed 300 ms cut-short ring. The
    random draws of one operation arrive as a `LegacyDraws` record. */
module LegacyRinger {
  import opened Basics

  const RingOnDuration: nat := 2000
  const RingOffDuration: nat := 4000
  const MinWaitTime: nat := 5000
  const MaxWaitTime: nat := 30000
  const ShortRingDuration: nat := 300
  const AnsweredPause: nat := 1000

  /** The values random() returns during one operation: getRandomWaitTime
      (random(5000, 30001)), getRandomRingCount (random(1, 9)) and the
      cut-short roll (random(100)). */
  datatype LegacyDraws = LegacyDraws(wait: nat, rings: int, roll: int)

  predicate ValidDraws(d: LegacyDraws)
  {
    MinWaitTime <= d.wait <= MaxWaitTime && 1 <= d.rings <= 8 && 0 <= d.roll < 100
  }

  /** getRandomWaitTime: between 5 s and 30 s. */
  method GetRandomWaitTime() returns (w: nat)
    ensures MinWaitTime <= w <= MaxWaitTime
  {
    // random(MIN_WAIT_TIME, MAX_WAIT_TIME + 1)
    w :| MinWaitTime <= w <= MaxWaitTime;
  }

  /** getRandomRingCount: 1 to 8 rings. */
  method GetRandomRingCount() returns (n: int)
    ensures 1 <= n <= 8
  {
    // random(1, 9)
    n :| 1 <= n <= 8;
  }

  /** shouldCutShortFinalRing: a one-ring call is never cut short; otherwise a
      roll below 70 of 100 cuts it. The roll is taken only for longer calls. */
  method ShouldCutShortFinalRing(totalRingsToMake: int) returns (cut: bool)
    ensures cut ==> totalRingsToMake > 1
    ensures exists roll :: 0 <= roll < 100 && cut == CutShort(totalRingsToMake, roll)
  {
    if totalRingsToMake > 1 {
      var roll: int :| 0 <= roll < 100;
      cut := roll < 70;
      assert cut == CutShort(totalRingsToMake, roll);
    } else {
      cut := false;
      assert cut == CutShort(totalRingsToMake, 0);
    }
  }

  /** The cut-short decision for a given roll. */
  function CutShort(totalRingsToMake: int, roll: int): bool
  {
    totalRingsToMake > 1 && roll < 70
  }

  /** The fields of a legacy TelephoneRinger. */
  datatype Line = Line(
    state: RingerState,
    relayPin: int,
    relayOn: bool,
    lastStateChange: Millis,
    currentRingCount: int,
    totalRingsToMake: int,
    finalRingCutShort: bool,
    waitDuration: nat)
  {
    predicate IsRinging() { state == RingOn }

    predicate IsActive() { state != Idle && state != Waiting }

    /** setRelayState: HIGH while ringing, written only for a wired line. */
    function WithRelay(active: bool): Line
    {
      if relayPin >= 0 then this.(relayOn := active) else this
    }

    /** What every reachable line satisfies: relay on exactly in RingOn for a
        wired line, a cut-short call has more than one ring, and the ring
        counter lies between 1 and the number of rings. */
    predicate Inv()
    {
      (relayPin >= 0 ==> (relayOn <==> state == RingOn)) &&
      (relayPin < 0 ==> !relayOn) &&
      (finalRingCutShort ==> totalRingsToMake > 1) &&
      (state == RingOn ==> 1 <= currentRingCount <= Max(totalRingsToMake, 1)) &&
      (state == RingOff ==> 1 <= currentRingCount < totalRingsToMake)
    }
  }

  /** TelephoneRinger() followed by initialize(pin). */
  function Initialized(pin: int, now: Millis, wait: nat): Line
  {
    Line(Idle, pin, false, now, 0, 0, false, wait)
  }

  /** startCall(): draws the call, turns the relay on and enters RingOn, but
      leaves lastStateChange as it was. */
  function Started(l: Line, d: LegacyDraws): Line
  {
    l.(totalRingsToMake := d.rings, currentRingCount := 1, finalRingCutShort := CutShort(d.rings, d.roll))
     .WithRelay(true)
     .(state := RingOn)
  }

  /** stopCall(): relay off, Idle, a fresh wait from `now`. */
  function Stopped(l: Line, now: Millis, wait: nat): Line
  {
    l.WithRelay(false).(state := Idle, waitDuration := wait, lastStateChange := now)
  }

  /** The exit test of RingOn: a cut-short call may only end on its last ring,
      after 300 ms; any other call ends its ring after 2 s. */
  predicate RingOnDone(l: Line, elapsed: nat)
  {
    (l.finalRingCutShort && l.currentRingCount == l.totalRingsToMake && elapsed >= ShortRingDuration) ||
    (!l.finalRingCutShort && elapsed >= RingOnDuration)
  }

  /** step(now): one tick of the legacy state machine. */
  function Next(l: Line, now: Millis, d: LegacyDraws): Line
  {
    var elapsed := Elapsed(now, l.lastStateChange);
    match l.state
    case Idle =>
      if elapsed >= l.waitDuration then Started(l, d).(lastStateChange := now) else l
    case RingOn =>
      if RingOnDone(l, elapsed)
      then l.WithRelay(false).(state := if l.currentRingCount >= l.totalRingsToMake then CallAnswered else RingOff,
                               lastStateChange := now)
      else l
    case RingOff =>
      if elapsed >= RingOffDuration
      then l.(currentRingCount := l.currentRingCount + 1).WithRelay(true).(state := RingOn, lastStateChange := now)
      else l
    case CallAnswered =>
      if elapsed >= AnsweredPause then l.(state := Waiting, waitDuration := d.wait, lastStateChange := now) else l
    case Waiting =>
      if elapsed >= l.waitDuration then l.(state := Idle, waitDuration := d.wait, lastStateChange := now) else l
  }

  /** The line after a sequence of ticks, each with its own time and draws. */
  function Run(l: Line, ticks: seq<(Millis, LegacyDraws)>): Line
    decreases |ticks|
  {
    if ticks == [] then l else Run(Next(l, ticks[0].0, ticks[0].1), ticks[1..])
  }

  // ---------------------------------------------------------------------------
  // Properties of the legacy state machine

  /** The invariant holds after initialize and is kept by every operation, for
      any draws. */
  lemma InvInitiallyAndPreserved(l: Line, now: Millis, d: LegacyDraws, wait: nat, pin: int)
    requires l.Inv()
    ensures Initialized(pin, now, wait).Inv()
    ensures Next(l, now, d).Inv()
    ensures Started(l, d).Inv()
    ensures Stopped(l, now, wait).Inv()
  {
  }

  /** The relay of a wired line is on exactly while it rings; ringing implies active. */
  lemma RelayMatchesRinging(l: Line)
    requires l.Inv()
    ensures l.relayPin >= 0 ==> (l.relayOn <==> l.IsRinging())
    ensures !l.IsActive() ==> !l.relayOn
    ensures l.IsRinging() ==> l.IsActive()
  {
  }

  /** Idle starts a call as soon as the wait is over, with no admission test,
      and stamps the time; before that nothing changes. */
  lemma IdleStartsUnconditionally(l: Line, now: Millis, d: LegacyDraws)
    requires l.state == Idle
    ensures Elapsed(now, l.lastStateChange) < l.waitDuration ==> Next(l, now, d) == l
    ensures Elapsed(now, l.lastStateChange) >= l.waitDuration ==>
      Next(l, now, d) == Started(l, d).(lastStateChange := now)
  {
  }

  /** startCall() makes 1..8 rings, starts at ring 1 in RingOn with the relay
      on, and cuts short only a call of more than one ring. */
  lemma StartedCall(l: Line, d: LegacyDraws)
    requires ValidDraws(d)
    ensures var n := Started(l, d);
      1 <= n.totalRingsToMake <= 8 && n.currentRingCount == 1 && n.state == RingOn &&
      (l.relayPin >= 0 ==> n.relayOn) &&
      (n.finalRingCutShort ==> n.totalRingsToMake > 1) &&
      (n.finalRingCutShort <==> d.rings > 1 && d.roll < 70) &&
      n.lastStateChange == l.lastStateChange
  {
  }

  /** RingOn ends exactly when the exit test holds, into CallAnswered iff the
      last ring has been made, with the relay off and the time stamped. */
  lemma RingOnTransitions(l: Line, now: Millis, d: LegacyDraws)
    requires l.Inv() && l.state == RingOn
    ensures var n := Next(l, now, d);
      (n.state != RingOn <==> RingOnDone(l, Elapsed(now, l.lastStateChange))) &&
      (n.state != RingOn ==>
        (n.state == CallAnswered <==> l.currentRingCount >= l.totalRingsToMake) &&
        n.lastStateChange == now && !n.relayOn) &&
      (n.state == RingOn ==> n == l)
  {
  }

  /** A ring of a cut-short call that is not its last never ends: the line is
      left exactly as it is by every tick. */
  lemma CutShortEarlyRingIsStuck(l: Line, now: Millis, d: LegacyDraws)
    requires l.state == RingOn && l.finalRingCutShort && l.currentRingCount != l.totalRingsToMake
    ensures Next(l, now, d) == l
  {
  }

  /** Hence a call that startCall() decides to cut short never leaves its
      first ring, whatever ticks follow. */
  lemma {:induction false} CutShortCallNeverLeavesFirstRing(l: Line, d: LegacyDraws,
                                                             ticks: seq<(Millis, LegacyDraws)>)
    requires Started(l, d).finalRingCutShort
    ensures Run(Started(l, d), ticks) == Started(l, d)
    decreases |ticks|
  {
    if ticks != [] {
      CutShortEarlyRingIsStuck(Started(l, d), ticks[0].0, ticks[0].1);
      CutShortCallNeverLeavesFirstRing(l, d, ticks[1..]);
    }
  }

  /** RingOff turns into the next ring after exactly 4 s, one ring further, relay on. */
  lemma RingOffTransitions(l: Line, now: Millis, d: LegacyDraws)
    requires l.Inv() && l.state == RingOff
    ensures var n := Next(l, now, d);
      (n.state == RingOn <==> Elapsed(now, l.lastStateChange) >= RingOffDuration) &&
      (n.state == RingOn ==> n.currentRingCount == l.currentRingCount + 1 && n.lastStateChange == now &&
                             (l.relayPin >= 0 ==> n.relayOn)) &&
      (n.state != RingOn ==> n == l)
  {
  }

  /** With valid draws every wait a line stores is one getRandomWaitTime can return. */
  lemma WaitsInRange(l: Line, now: Millis, d: LegacyDraws)
    requires ValidDraws(d) && MinWaitTime <= l.waitDuration <= MaxWaitTime
    ensures MinWaitTime <= Next(l, now, d).waitDuration <= MaxWaitTime
  {
  }

  /** startCall() called from outside (through the manager) keeps the old
      timestamp, so a call started long after the last state change ends its
      first full ring on the next tick. */
  lemma ManualStartKeepsOldTimestamp(l: Line, d: LegacyDraws, now: Millis, d2: LegacyDraws)
    requires l.Inv() && l.state == Idle && !CutShort(d.rings, d.roll) && d.rings > 1
    requires Elapsed(now, l.lastStateChange) >= RingOnDuration
    ensures Next(Started(l, d), now, d2).state == RingOff
  {
  }

  /** stopCall() from any state gives Idle with the relay off; a second call
      only redraws the wait and the timestamp. */
  lemma StopIsIdempotent(l: Line, t1: Millis, w1: nat, t2: Millis, w2: nat)
    requires l.Inv()
    ensures Stopped(l, t1, w1).state == Idle && !Stopped(l, t1, w1).relayOn
    ensures Stopped(Stopped(l, t1, w1), t2, w2) == Stopped(l, t2, w2)
  {
  }

  // ---------------------------------------------------------------------------
  // The object

  class LegacyTelephoneRinger {
    var state: RingerState
    var relayPin: int
    /** The level last written to the relay: true = HIGH = ringing. */
    var relayOn: bool
    var lastStateChange: Millis
    var currentRingCount: int
    var totalRingsToMake: int
    var finalRingCutShort: bool
    var waitDuration: nat

    function Snap(): Line
      reads this
    {
      Line(state, relayPin, relayOn, lastStateChange, currentRingCount, totalRingsToMake,
           finalRingCutShort, waitDuration)
    }

    ghost predicate Valid()
      reads this
    {
      Snap().Inv()
    }

    /** TelephoneRinger() followed by initialize(pin). */
    constructor (pin: int, now: Millis)
      ensures Valid()
      ensures MinWaitTime <= waitDuration <= MaxWaitTime
      ensures Snap() == Initialized(pin, now, waitDuration)
    {
      state := Idle;
      relayPin := pin;
      relayOn := false;
      lastStateChange := now;
      currentRingCount := 0;
      totalRingsToMake := 0;
      finalRingCutShort := false;
      new;
      waitDuration := GetRandomWaitTime();
    }

    method SetRelayState(active: bool)
      modifies this
      ensures Snap() == old(Snap()).WithRelay(active)
    {
      if relayPin >= 0 {
        relayOn := active;
      }
    }

    function IsRinging(): (r: bool)
      reads this
      requires Valid()
      ensures r <==> Snap().IsRinging()
      ensures r ==> IsActive()
      ensures relayPin >= 0 ==> (r <==> relayOn)
    {
      state == RingOn
    }

    function IsActive(): (r: bool)
      reads this
      requires Valid()
      ensures r <==> Snap().IsActive()
      ensures !r ==> !relayOn
    {
      state != Idle && state != Waiting
    }

    /** startCall(): `d.rings` stands for getRandomRingCount() and
        `CutShort(d.rings, d.roll)` for shouldCutShortFinalRing(). */
    method StartCall(d: LegacyDraws)
      requires Valid()
      modifies this
      ensures Valid()
      ensures Snap() == Started(old(Snap()), d)
    {
      totalRingsToMake := d.rings;
      currentRingCount := 1;
      finalRingCutShort := CutShort(totalRingsToMake, d.roll);
      SetRelayState(true);
      state := RingOn;
    }

    /** stopCall(): the new wait is drawn by getRandomWaitTime(). */
    method StopCall(now: Millis)
      requires Valid()
      modifies this
      ensures Valid()
      ensures Snap() == Stopped(old(Snap()), now, waitDuration)
      ensures MinWaitTime <= waitDuration <= MaxWaitTime
    {
      SetRelayState(false);
      state := Idle;
      waitDuration := GetRandomWaitTime();
      lastStateChange := now;
    }

    /** step(now) */
    method Step(now: Millis, d: LegacyDraws)
      requires Valid()
      modifies this
      ensures Valid()
      ensures Snap() == Next(old(Snap()), now, d)
    {
      ghost var before := Snap();
      var elapsed := Elapsed(now, lastStateChange);
      match state {
        case Idle =>
          if elapsed >= waitDuration {
            StartCall(d);
            lastStateChange := now;
          }
        case RingOn => StepRingOn(now, elapsed, d);
        case RingOff =>
          if elapsed >= RingOffDuration {
            currentRingCount := currentRingCount + 1;
            SetRelayState(true);
            state := RingOn;
            lastStateChange := now;
          }
        case CallAnswered =>
          if elapsed >= AnsweredPause {
            state := Waiting;
            waitDuration := d.wait;
            lastStateChange := now;
          }
        case Waiting =>
          if elapsed >= waitDuration {
            state := Idle;
            waitDuration := d.wait;
            lastStateChange := now;
          }
      }
      InvInitiallyAndPreserved(before, now, d, 0, 0);
    }

    /** The RingOn case of step. */
    method StepRingOn(now: Millis, elapsed: Millis, d: LegacyDraws)
      requires Valid() && state == RingOn && elapsed == Elapsed(now, lastStateChange)
      modifies this
      ensures Snap() == Next(old(Snap()), now, d)
    {
      if (finalRingCutShort && currentRingCount == totalRingsToMake && elapsed >= ShortRingDuration) ||
         (!finalRingCutShort && elapsed >= RingOnDuration) {
        SetRelayState(false);
        if currentRingCount >= totalRingsToMake {
          state := CallAnswered;
        } else {
          state := RingOff;
        }
        lastStateChange := now;
      }
    }
  }
}
