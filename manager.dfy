/** The fleet coordinator, current version (src/RingerManager.cpp).

    It owns an array of ringers, steps the first `activeRelayCount` of them in
    index order on every tick, forwards start/stop commands to single lines,
    stops lines that get disabled and counts active and ringing lines. */
module Manager {
  import opened Basics
  import opened Ringer

  /** isActive() of each line: what the admission callback is shown. */
  function ActiveFlags(lines: seq<Line>): (v: FleetView)
    ensures |v| == |lines|
    ensures forall i :: 0 <= i < |lines| ==> v[i] == lines[i].IsActive()
  {
    seq(|lines|, i requires 0 <= i < |lines| => lines[i].IsActive())
  }

  /** isRinging() of each line. */
  function RingingFlags(lines: seq<Line>): (v: seq<bool>)
    ensures |v| == |lines|
    ensures forall i :: 0 <= i < |lines| ==> v[i] == lines[i].IsRinging()
  {
    seq(|lines|, i requires 0 <= i < |lines| => lines[i].IsRinging())
  }

  function CountActive(lines: seq<Line>): nat { CountTrue(ActiveFlags(lines)) }

  function CountRinging(lines: seq<Line>): nat { CountTrue(RingingFlags(lines)) }

  predicate AllInv(lines: seq<Line>)
  {
    forall i :: 0 <= i < |lines| ==> lines[i].Inv()
  }

  /** The fleet after step(now) has stepped lines 0 .. k-1, in that order. Line
      i's admission callback is shown the fleet as lines 0 .. i-1 left it, so a
      call started by one line counts against the next line's admission. */
  function StepUpTo(lines: seq<Line>, callbacks: seq<Option<Admission>>, k: nat,
                    now: Millis, rnd: seq<Draws>): (r: seq<Line>)
    requires k <= |lines| && |callbacks| == |lines| && |rnd| == |lines|
    ensures |r| == |lines|
    ensures forall j :: k <= j < |lines| ==> r[j] == lines[j]
    decreases k
  {
    if k == 0 then lines
    else
      var prev := StepUpTo(lines, callbacks, k - 1, now, rnd);
      prev[k - 1 := Next(prev[k - 1], now, Admits(callbacks[k - 1], ActiveFlags(prev)), rnd[k - 1])]
  }

  /** The fleet after stopCall() on every line from index `lo` on. */
  function StopFrom(lines: seq<Line>, lo: int, now: Millis, waits: seq<nat>): (r: seq<Line>)
    requires |waits| == |lines|
    ensures |r| == |lines|
  {
    seq(|lines|, j requires 0 <= j < |lines| => if j >= lo then Stopped(lines[j], now, waits[j]) else lines[j])
  }

  /** The callback only lets a line start while fewer than `cap` lines are active. */
  ghost predicate AdmitsOnlyBelow(callback: Option<Admission>, cap: nat)
  {
    callback.Some? && forall v: FleetView :: callback.value(v) ==> CountTrue(v) < cap
  }

  // ---------------------------------------------------------------------------
  // Counting lemmas

  lemma {:induction false} CountTrueUpdate(v: seq<bool>, i: nat, b: bool)
    requires i < |v|
    ensures CountTrue(v[i := b]) == CountTrue(v) - (if v[i] then 1 else 0) + (if b then 1 else 0)
    decreases |v|
  {
    var n := |v| - 1;
    if i < n {
      assert v[i := b][..n] == v[..n][i := b];
      CountTrueUpdate(v[..n], i, b);
    } else {
      assert v[i := b][..n] == v[..n];
    }
  }

  /** getActiveCallCount() <= phoneCount and getRingingPhoneCount() <= getActiveCallCount(). */
  lemma CountsAreOrdered(lines: seq<Line>)
    ensures CountRinging(lines) <= CountActive(lines) <= |lines|
  {
    CountTrueMonotone(RingingFlags(lines), ActiveFlags(lines));
  }

  // ---------------------------------------------------------------------------
  // Lemmas about a fleet step

  /** Line j < k is stepped exactly once, from its state before the tick, and
      sees the fleet as lines 0 .. j-1 left it; lines from k on are untouched. */
  lemma {:induction false} StepUpToEachLineOnce(lines: seq<Line>, callbacks: seq<Option<Admission>>, k: nat,
                                                now: Millis, rnd: seq<Draws>, j: nat)
    requires k <= |lines| && |callbacks| == |lines| && |rnd| == |lines|
    requires j < k
    ensures StepUpTo(lines, callbacks, k, now, rnd)[j] ==
              Next(lines[j], now, Admits(callbacks[j], ActiveFlags(StepUpTo(lines, callbacks, j, now, rnd))), rnd[j])
    decreases k
  {
    if j < k - 1 {
      StepUpToEachLineOnce(lines, callbacks, k - 1, now, rnd, j);
    }
  }

  /** Stepping keeps every line's invariant (relay on exactly while ringing, ...). */
  lemma {:induction false} StepUpToKeepsInv(lines: seq<Line>, callbacks: seq<Option<Admission>>, k: nat,
                                            now: Millis, rnd: seq<Draws>)
    requires k <= |lines| && |callbacks| == |lines| && |rnd| == |lines|
    requires AllInv(lines)
    ensures AllInv(StepUpTo(lines, callbacks, k, now, rnd))
    decreases k
  {
    if k > 0 {
      var prev := StepUpTo(lines, callbacks, k - 1, now, rnd);
      StepUpToKeepsInv(lines, callbacks, k - 1, now, rnd);
      InvInitiallyAndPreserved(prev[k - 1], now, Admits(callbacks[k - 1], ActiveFlags(prev)), rnd[k - 1],
                               0, false, false, 0, 0);
    }
  }

  /** One line's step raises the active count by at most one, and only when
      its callback admitted the start. */
  lemma OneStepRespectsCap(prev: seq<Line>, i: nat, now: Millis, callback: Option<Admission>,
                           d: Draws, cap: nat)
    requires i < |prev| && AdmitsOnlyBelow(callback, cap)
    ensures var next := prev[i := Next(prev[i], now, Admits(callback, ActiveFlags(prev)), d)];
      CountActive(next) <= Max(CountActive(prev), cap)
  {
    var admitted := Admits(callback, ActiveFlags(prev));
    var line' := Next(prev[i], now, admitted, d);
    var next := prev[i := line'];
    assert ActiveFlags(next) == ActiveFlags(prev)[i := line'.IsActive()];
    CountTrueUpdate(ActiveFlags(prev), i, line'.IsActive());
    OnlyAdmittedStartActivates(prev[i], now, admitted, d);
  }

  /** If every callback admits a start only while fewer than `cap` lines are
      active, a tick never lifts the active count above `cap` (it may stay above
      a cap that was already exceeded: the cap only gates new starts). */
  lemma {:induction false} StepRespectsCap(lines: seq<Line>, callbacks: seq<Option<Admission>>, k: nat,
                                           now: Millis, rnd: seq<Draws>, cap: nat)
    requires k <= |lines| && |callbacks| == |lines| && |rnd| == |lines|
    requires forall i :: 0 <= i < |callbacks| ==> AdmitsOnlyBelow(callbacks[i], cap)
    ensures CountActive(StepUpTo(lines, callbacks, k, now, rnd)) <= Max(CountActive(lines), cap)
    decreases k
  {
    if k > 0 {
      var prev := StepUpTo(lines, callbacks, k - 1, now, rnd);
      StepRespectsCap(lines, callbacks, k - 1, now, rnd, cap);
      assert AdmitsOnlyBelow(callbacks[k - 1], cap);
      OneStepRespectsCap(prev, k - 1, now, callbacks[k - 1], rnd[k - 1], cap);
      assert StepUpTo(lines, callbacks, k, now, rnd) ==
        prev[k - 1 := Next(prev[k - 1], now, Admits(callbacks[k - 1], ActiveFlags(prev)), rnd[k - 1])];
    }
  }

  /** stopCall() on the lines from `lo` on leaves each of them idle with its
      relay off and changes no other line. */
  lemma StopFromStopsTail(lines: seq<Line>, lo: int, now: Millis, waits: seq<nat>)
    requires |waits| == |lines| && AllInv(lines)
    ensures var r := StopFrom(lines, lo, now, waits);
      AllInv(r) &&
      (forall j :: 0 <= j < |lines| && j >= lo ==> r[j].state == Idle && !r[j].relayOn) &&
      (forall j :: 0 <= j < |lines| && j < lo ==> r[j] == lines[j])
  {
    var r := StopFrom(lines, lo, now, waits);
    forall j | 0 <= j < |lines|
      ensures r[j].Inv()
      ensures j >= lo ==> r[j].state == Idle && !r[j].relayOn
    {
      if j >= lo {
        StopIsIdempotent(lines[j], now, waits[j], now, waits[j]);
        InvInitiallyAndPreserved(lines[j], now, false, Draws(0, 0, 0, 0), 0, false, false, waits[j], 0);
      }
    }
  }

  // ---------------------------------------------------------------------------
  // The object

  /** The ringer objects initialize() creates, one per pin, in pin order,
      each with its own first wait drawn by getRandomWaitTime(). */
  method MakeRingers(relayPins: seq<int>, now: Millis, maxCallDelaySetting: nat) returns (made: seq<TelephoneRinger>)
    ensures |made| == |relayPins|
    ensures forall i :: 0 <= i < |made| ==> fresh(made[i])
    ensures forall i, j :: 0 <= i < j < |made| ==> made[i] != made[j]
    ensures forall i :: 0 <= i < |made| ==>
      made[i].Valid() && made[i].Snap() == Initialized(relayPins[i], now, made[i].waitDuration) &&
      IsWaitTime(made[i].waitDuration, maxCallDelaySetting) && made[i].canStartCallCallback == None
  {
    made := [];
    while |made| < |relayPins|
      invariant |made| <= |relayPins|
      invariant forall i :: 0 <= i < |made| ==> fresh(made[i])
      invariant forall i, j :: 0 <= i < j < |made| ==> made[i] != made[j]
      invariant forall i :: 0 <= i < |made| ==>
        made[i].Valid() && made[i].Snap() == Initialized(relayPins[i], now, made[i].waitDuration) &&
        IsWaitTime(made[i].waitDuration, maxCallDelaySetting) && made[i].canStartCallCallback == None
    {
      var r := new TelephoneRinger(relayPins[|made|], now, maxCallDelaySetting);
      made := made + [r];
    }
  }

  class RingerManager {
    const ringers: array<TelephoneRinger>
    /** How many relays (lines 0 .. activeRelayCount-1) take part in step(). */
    var activeRelayCount: nat

    /** The ringer objects the manager owns: its frame. */
    ghost const Repr: set<TelephoneRinger>

    ghost predicate Owns()
      reads ringers
    {
      forall i :: 0 <= i < ringers.Length ==> ringers[i] in Repr
    }

    ghost predicate Valid()
      reads this, ringers, Repr
    {
      Owns() &&
      (forall i, j :: 0 <= i < j < ringers.Length ==> ringers[i] != ringers[j]) &&
      (forall i :: 0 <= i < ringers.Length ==> ringers[i].Valid())
    }

    function Lines(): (r: seq<Line>)
      reads ringers, Repr
      requires Owns()
      ensures |r| == ringers.Length
      ensures forall i :: 0 <= i < ringers.Length ==> r[i] == ringers[i].Snap()
    {
      seq(ringers.Length, i requires 0 <= i < ringers.Length && ringers[i] in Repr reads ringers, Repr => ringers[i].Snap())
    }

    ghost function Callbacks(): (r: seq<Option<Admission>>)
      reads ringers, Repr
      requires Owns()
      ensures |r| == ringers.Length
      ensures forall i :: 0 <= i < ringers.Length ==> r[i] == ringers[i].canStartCallCallback
    {
      seq(ringers.Length, i requires 0 <= i < ringers.Length && ringers[i] in Repr reads ringers, Repr =>
        ringers[i].canStartCallCallback)
    }

    /** RingerManager() followed by initialize(relayPins, numPhones, ...): one
        freshly initialised ringer per pin; activeRelayCount keeps the
        constructor's 8 whatever the number of phones. */
    constructor (relayPins: seq<int>, now: Millis, maxCallDelaySetting: nat)
      ensures Valid() && fresh(ringers) && fresh(Repr)
      ensures ringers.Length == |relayPins|
      ensures forall i :: 0 <= i < |relayPins| ==>
        Lines()[i] == Initialized(relayPins[i], now, Lines()[i].waitDuration) &&
        IsWaitTime(Lines()[i].waitDuration, maxCallDelaySetting)
      ensures forall i :: 0 <= i < |relayPins| ==> Callbacks()[i] == None
      ensures activeRelayCount == 8
    {
      var made := MakeRingers(relayPins, now, maxCallDelaySetting);
      ringers := new TelephoneRinger[|made|](i requires 0 <= i < |made| => made[i]);
      activeRelayCount := 8;
      Repr := set r | r in made;
      new;
      assert ringers[..] == made;
    }

    function GetTotalPhoneCount(): (n: nat)
      ensures n == ringers.Length
    {
      ringers.Length
    }

    function GetActivePhoneCount(): (n: nat)
      reads this
      ensures n == activeRelayCount
    {
      activeRelayCount
    }

    /** step(now): the first min(activeRelayCount, phoneCount) ringers, in index order. */
    method Step(now: Millis, rnd: seq<Draws>)
      requires Valid() && |rnd| == ringers.Length
      modifies Repr
      ensures Valid()
      ensures Lines() == StepUpTo(old(Lines()), old(Callbacks()), Min(activeRelayCount, ringers.Length), now, rnd)
      ensures Callbacks() == old(Callbacks())
    {
      var activeCount := Min(activeRelayCount, ringers.Length);
      ghost var lines0, callbacks0 := Lines(), Callbacks();
      var i := 0;
      while i < activeCount
        invariant 0 <= i <= activeCount
        invariant Valid()
        invariant Lines() == StepUpTo(lines0, callbacks0, i, now, rnd)
        invariant Callbacks() == callbacks0
      {
        StepOne(i, now, rnd, lines0, callbacks0);
        i := i + 1;
      }
    }

    /** One iteration of step()'s loop: ringer i steps, its callback seeing the
        fleet as lines 0 .. i-1 left it. */
    method StepOne(i: nat, now: Millis, rnd: seq<Draws>, ghost lines0: seq<Line>, ghost callbacks0: seq<Option<Admission>>)
      requires Valid() && i < ringers.Length == |lines0| == |callbacks0| == |rnd|
      requires Lines() == StepUpTo(lines0, callbacks0, i, now, rnd) && Callbacks() == callbacks0
      modifies ringers[i]
      ensures Valid()
      ensures Lines() == StepUpTo(lines0, callbacks0, i + 1, now, rnd)
      ensures Callbacks() == callbacks0
    {
      var view := ActiveFlags(Lines());
      ringers[i].Step(now, view, rnd[i]);
    }

    /** startCall(phoneIndex): a random call on one line; out of range does nothing. */
    method StartCall(phoneIndex: int, now: Millis, d: Draws)
      requires Valid()
      modifies Repr
      ensures Valid()
      ensures Lines() == if 0 <= phoneIndex < ringers.Length
                         then old(Lines())[phoneIndex := StartRandom(old(Lines())[phoneIndex], now, d)]
                         else old(Lines())
      ensures Callbacks() == old(Callbacks())
    {
      if 0 <= phoneIndex < ringers.Length {
        ringers[phoneIndex].StartCall(now, d);
      }
    }

    /** startCall(phoneIndex, ringCount, cutShort, useUKStyle); out of range does nothing. */
    method StartCallWith(phoneIndex: int, ringCount: int, cutShort: bool, useUKStyle: bool, now: Millis)
      requires Valid()
      modifies Repr
      ensures Valid()
      ensures Lines() == if 0 <= phoneIndex < ringers.Length
                         then old(Lines())[phoneIndex := StartWith(old(Lines())[phoneIndex], ringCount, cutShort, useUKStyle, now)]
                         else old(Lines())
      ensures Callbacks() == old(Callbacks())
    {
      if 0 <= phoneIndex < ringers.Length {
        ringers[phoneIndex].StartCallWith(ringCount, cutShort, useUKStyle, now);
      }
    }

    /** stopCall(phoneIndex); out of range does nothing. The stopped line
        draws a fresh wait. */
    method StopCall(phoneIndex: int, now: Millis, maxCallDelaySetting: nat)
      requires Valid()
      modifies Repr
      ensures Valid()
      ensures Lines() == if 0 <= phoneIndex < ringers.Length
                         then old(Lines())[phoneIndex := Stopped(old(Lines())[phoneIndex], now, Lines()[phoneIndex].waitDuration)]
                         else old(Lines())
      ensures 0 <= phoneIndex < ringers.Length ==> IsWaitTime(Lines()[phoneIndex].waitDuration, maxCallDelaySetting)
      ensures Callbacks() == old(Callbacks())
    {
      if 0 <= phoneIndex < ringers.Length {
        StopOne(phoneIndex, now, maxCallDelaySetting);
      }
    }

    /** Calls stopCall() on lines lo .. phoneCount-1; `waits` holds the waits
        they draw (entries below lo are unused). */
    method StopRange(lo: nat, now: Millis, maxCallDelaySetting: nat) returns (ghost waits: seq<nat>)
      requires Valid()
      modifies Repr
      ensures Valid()
      ensures |waits| == ringers.Length
      ensures forall j :: lo <= j < |waits| ==> IsWaitTime(waits[j], maxCallDelaySetting)
      ensures Lines() == StopFrom(old(Lines()), lo, now, waits)
      ensures Callbacks() == old(Callbacks())
    {
      waits := seq(ringers.Length, j => 0);
      var i := lo;
      while i < ringers.Length
        invariant lo <= i
        invariant Valid()
        invariant |waits| == ringers.Length
        invariant forall j :: lo <= j < i && j < |waits| ==> IsWaitTime(waits[j], maxCallDelaySetting)
        invariant forall j :: 0 <= j < ringers.Length ==>
          Lines()[j] == if lo <= j < i then Stopped(old(Lines())[j], now, waits[j]) else old(Lines())[j]
        invariant Callbacks() == old(Callbacks())
      {
        StopOne(i, now, maxCallDelaySetting);
        waits := waits[i := Lines()[i].waitDuration];
        i := i + 1;
      }
      assert Lines() == StopFrom(old(Lines()), lo, now, waits);
    }

    /** One iteration of the stopping loops: stopCall() on ringer i. */
    method StopOne(i: nat, now: Millis, maxCallDelaySetting: nat)
      requires Valid() && i < ringers.Length
      modifies ringers[i]
      ensures Valid()
      ensures Lines() == old(Lines())[i := Stopped(old(Lines())[i], now, Lines()[i].waitDuration)]
      ensures IsWaitTime(Lines()[i].waitDuration, maxCallDelaySetting)
      ensures Callbacks() == old(Callbacks())
    {
      ringers[i].StopCall(now, maxCallDelaySetting);
    }

    /** stopAllCalls(): every line, whatever activeRelayCount says. */
    method StopAllCalls(now: Millis, maxCallDelaySetting: nat) returns (ghost waits: seq<nat>)
      requires Valid()
      modifies Repr
      ensures Valid()
      ensures |waits| == ringers.Length
      ensures forall j :: 0 <= j < |waits| ==> IsWaitTime(waits[j], maxCallDelaySetting)
      ensures Lines() == StopFrom(old(Lines()), 0, now, waits)
      ensures Callbacks() == old(Callbacks())
      ensures activeRelayCount == old(activeRelayCount)
    {
      waits := StopRange(0, now, maxCallDelaySetting);
    }

    /** setCanStartCallCallback(): reserved for the manager itself; changes nothing. */
    method SetCanStartCallCallback(callback: Option<Admission>)
    {
    }

    /** setCanStartCallCallbackForAllPhones(callback): the same callback in every ringer. */
    method SetCanStartCallCallbackForAllPhones(callback: Option<Admission>)
      requires Valid()
      modifies Repr
      ensures Valid()
      ensures forall i :: 0 <= i < ringers.Length ==> Callbacks()[i] == callback
      ensures Lines() == old(Lines())
    {
      var i := 0;
      while i < ringers.Length
        invariant 0 <= i <= ringers.Length
        invariant Valid()
        invariant forall j :: 0 <= j < i ==> ringers[j].canStartCallCallback == callback
        invariant Lines() == old(Lines())
      {
        ringers[i].SetCanStartCallCallback(callback);
        i := i + 1;
      }
    }

    /** setActiveRelayCount(count): clamp to [0, phoneCount], then stop every line
        that is no longer stepped. */
    method SetActiveRelayCount(count: int, now: Millis, maxCallDelaySetting: nat) returns (ghost waits: seq<nat>)
      requires Valid()
      modifies this, Repr
      ensures Valid()
      ensures activeRelayCount == Max(0, Min(count, ringers.Length))
      ensures |waits| == ringers.Length
      ensures forall j :: activeRelayCount <= j < |waits| ==> IsWaitTime(waits[j], maxCallDelaySetting)
      ensures Lines() == StopFrom(old(Lines()), activeRelayCount, now, waits)
      ensures Callbacks() == old(Callbacks())
    {
      activeRelayCount := Max(0, Min(count, ringers.Length));
      waits := StopRange(activeRelayCount, now, maxCallDelaySetting);
    }

    /** getActiveCallCount(): active lines among all phoneCount, enabled or not. */
    method GetActiveCallCount() returns (count: nat)
      requires Valid()
      ensures count == CountActive(Lines())
      ensures count <= ringers.Length
    {
      count := 0;
      var i := 0;
      while i < ringers.Length
        invariant 0 <= i <= ringers.Length
        invariant count == CountTrue(ActiveFlags(Lines())[..i])
      {
        assert ActiveFlags(Lines())[..i + 1][..i] == ActiveFlags(Lines())[..i];
        if ringers[i].IsActive() {
          count := count + 1;
        }
        i := i + 1;
      }
      assert ActiveFlags(Lines())[..i] == ActiveFlags(Lines());
    }

    /** getRingingPhoneCount(): ringing lines among all phoneCount. */
    method GetRingingPhoneCount() returns (count: nat)
      requires Valid()
      ensures count == CountRinging(Lines())
      ensures count <= CountActive(Lines())
    {
      count := 0;
      var i := 0;
      while i < ringers.Length
        invariant 0 <= i <= ringers.Length
        invariant count == CountTrue(RingingFlags(Lines())[..i])
      {
        assert RingingFlags(Lines())[..i + 1][..i] == RingingFlags(Lines())[..i];
        if ringers[i].IsRinging() {
          count := count + 1;
        }
        i := i + 1;
      }
      assert RingingFlags(Lines())[..i] == RingingFlags(Lines());
      CountsAreOrdered(Lines());
    }

    function IsPhoneRinging(phoneIndex: int): (r: bool)
      reads this, ringers, Repr
      requires Valid()
      ensures r <==> 0 <= phoneIndex < ringers.Length && Lines()[phoneIndex].IsRinging()
    {
      if 0 <= phoneIndex < ringers.Length then ringers[phoneIndex].IsRinging() else false
    }

    function IsPhoneActive(phoneIndex: int): (r: bool)
      reads this, ringers, Repr
      requires Valid()
      ensures r <==> 0 <= phoneIndex < ringers.Length && Lines()[phoneIndex].IsActive()
    {
      if 0 <= phoneIndex < ringers.Length then ringers[phoneIndex].IsActive() else false
    }
  }
}
