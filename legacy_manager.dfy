/** The fleet coordinator, legacy version (RingerManager.cpp at the top of the
    repository): every ringer is stepped on every tick, there is no enabled-relay
    count and no admission callback, so the lines evolve independently. */
module LegacyManager {
  import opened Basics
  import opened LegacyRinger

  function ActiveFlags(lines: seq<Line>): (v: seq<bool>)
    ensures |v| == |lines|
    ensures forall i :: 0 <= i < |lines| ==> v[i] == lines[i].IsActive()
  {
    seq(|lines|, i requires 0 <= i < |lines| => lines[i].IsActive())
  }

  function RingingFlags(lines: seq<Line>): (v: seq<bool>)
    ensures |v| == |lines|
    ensures forall i :: 0 <= i < |lines| ==> v[i] == lines[i].IsRinging()
  {
    seq(|lines|, i requires 0 <= i < |lines| => lines[i].IsRinging())
  }

  function CountActive(lines: seq<Line>): nat { CountTrue(ActiveFlags(lines)) }

  function CountRinging(lines: seq<Line>): nat { CountTrue(RingingFlags(lines)) }

  predicate AllInv(lines: seq<Line>)
  {
    forall i :: 0 <= i < |lines| ==> lines[i].Inv()
  }

  /** The fleet after step(now): every line stepped with the same time. */
  function StepAll(lines: seq<Line>, now: Millis, rnd: seq<LegacyDraws>): (r: seq<Line>)
    requires |rnd| == |lines|
    ensures |r| == |lines|
  {
    seq(|lines|, i requires 0 <= i < |lines| => Next(lines[i], now, rnd[i]))
  }

  /** The fleet after stopAllCalls(). */
  function StopAll(lines: seq<Line>, now: Millis, waits: seq<nat>): (r: seq<Line>)
    requires |waits| == |lines|
    ensures |r| == |lines|
  {
    seq(|lines|, i requires 0 <= i < |lines| => Stopped(lines[i], now, waits[i]))
  }

  /** A tick keeps every line's invariant. */
  lemma StepAllKeepsInv(lines: seq<Line>, now: Millis, rnd: seq<LegacyDraws>)
    requires |rnd| == |lines| && AllInv(lines)
    ensures AllInv(StepAll(lines, now, rnd))
  {
    forall i | 0 <= i < |lines|
      ensures StepAll(lines, now, rnd)[i].Inv()
    {
      InvInitiallyAndPreserved(lines[i], now, rnd[i], 0, 0);
    }
  }

  /** stopAllCalls() leaves every line idle with its relay off and no line active. */
  lemma StopAllStopsEveryLine(lines: seq<Line>, now: Millis, waits: seq<nat>)
    requires |waits| == |lines| && AllInv(lines)
    ensures var r := StopAll(lines, now, waits);
      AllInv(r) && (forall i :: 0 <= i < |r| ==> r[i].state == Idle && !r[i].relayOn) &&
      CountActive(r) == 0
  {
    var r := StopAll(lines, now, waits);
    forall i | 0 <= i < |lines|
      ensures r[i].Inv()
    {
      InvInitiallyAndPreserved(lines[i], now, LegacyDraws(0, 0, 0), waits[i], 0);
    }
    CountTrueMonotone(ActiveFlags(r), seq(|r|, i => false));
    NoneTrue(|r|);
  }

  lemma {:induction false} NoneTrue(n: nat)
    ensures CountTrue(seq(n, i => false)) == 0
  {
    if n > 0 {
      assert seq(n, i => false)[..n - 1] == seq(n - 1, i => false);
      NoneTrue(n - 1);
    }
  }

  /** The ringing count never exceeds the active count, nor that the number of phones. */
  lemma CountsAreOrdered(lines: seq<Line>)
    ensures CountRinging(lines) <= CountActive(lines) <= |lines|
  {
    CountTrueMonotone(RingingFlags(lines), ActiveFlags(lines));
  }

  class LegacyRingerManager {
    const ringers: array<LegacyTelephoneRinger>
    /** The ringer objects the manager owns: its frame. */
    ghost const Repr: set<LegacyTelephoneRinger>

    ghost predicate Owns()
      reads ringers
    {
      forall i :: 0 <= i < ringers.Length ==> ringers[i] in Repr
    }

    ghost predicate Valid()
      reads ringers, Repr
    {
      Owns() &&
      (forall i, j :: 0 <= i < j < ringers.Length ==> ringers[i] != ringers[j]) &&
      (forall i :: 0 <= i < ringers.Length ==> ringers[i].Valid())
    }

    function Lines(): (r: seq<Line>)
      reads ringers, Repr
      requires Owns()
      ensures |r| == ringers.Length
      ensures forall i :: 0 <= i < ringers.Length ==> r[i] == ringers[i].Snap()
    {
      seq(ringers.Length, i requires 0 <= i < ringers.Length && ringers[i] in Repr reads ringers, Repr =>
        ringers[i].Snap())
    }

    /** RingerManager() followed by initialize(relayPins, numPhones): one
        initialised ringer per pin, each waiting its own random 5..30 s. */
    constructor (relayPins: seq<int>, now: Millis)
      ensures Valid() && fresh(ringers) && fresh(Repr)
      ensures ringers.Length == |relayPins|
      ensures forall i :: 0 <= i < |relayPins| ==>
        Lines()[i] == Initialized(relayPins[i], now, Lines()[i].waitDuration) &&
        MinWaitTime <= Lines()[i].waitDuration <= MaxWaitTime
    {
      var made: seq<LegacyTelephoneRinger> := [];
      while |made| < |relayPins|
        invariant |made| <= |relayPins|
        invariant forall i :: 0 <= i < |made| ==> fresh(made[i])
        invariant forall i, j :: 0 <= i < j < |made| ==> made[i] != made[j]
        invariant forall i :: 0 <= i < |made| ==>
          made[i].Valid() && made[i].Snap() == Initialized(relayPins[i], now, made[i].waitDuration) &&
          MinWaitTime <= made[i].waitDuration <= MaxWaitTime
      {
        var r := new LegacyTelephoneRinger(relayPins[|made|], now);
        made := made + [r];
      }
      ringers := new LegacyTelephoneRinger[|made|](i requires 0 <= i < |made| => made[i]);
      Repr := set r | r in made;
      new;
      assert ringers[..] == made;
    }

    /** getTotalPhoneCount(): the numPhones given to initialize. */
    function GetTotalPhoneCount(): (n: nat)
      ensures n == ringers.Length
    {
      ringers.Length
    }

    /** step(now): every ringer, in index order, with the same time. */
    method Step(now: Millis, rnd: seq<LegacyDraws>)
      requires Valid() && |rnd| == ringers.Length
      modifies Repr
      ensures Valid()
      ensures Lines() == StepAll(old(Lines()), now, rnd)
    {
      ghost var lines0 := Lines();
      var i := 0;
      while i < ringers.Length
        invariant 0 <= i <= ringers.Length
        invariant Valid()
        invariant forall j :: 0 <= j < ringers.Length ==>
          Lines()[j] == if j < i then Next(lines0[j], now, rnd[j]) else lines0[j]
      {
        StepOne(i, now, rnd[i]);
        i := i + 1;
      }
      assert Lines() == StepAll(lines0, now, rnd);
    }

    method StepOne(i: nat, now: Millis, d: LegacyDraws)
      requires Valid() && i < ringers.Length
      modifies ringers[i]
      ensures Valid()
      ensures Lines() == old(Lines())[i := Next(old(Lines())[i], now, d)]
    {
      ringers[i].Step(now, d);
    }

    /** startCall(phoneIndex); out of range does nothing. */
    method StartCall(phoneIndex: int, d: LegacyDraws)
      requires Valid()
      modifies Repr
      ensures Valid()
      ensures Lines() == if 0 <= phoneIndex < ringers.Length
                         then old(Lines())[phoneIndex := Started(old(Lines())[phoneIndex], d)]
                         else old(Lines())
    {
      if 0 <= phoneIndex < ringers.Length {
        ringers[phoneIndex].StartCall(d);
      }
    }

    /** stopCall(phoneIndex); out of range does nothing. The stopped line
        draws a fresh wait of 5..30 s. */
    method StopCall(phoneIndex: int, now: Millis)
      requires Valid()
      modifies Repr
      ensures Valid()
      ensures Lines() == if 0 <= phoneIndex < ringers.Length
                         then old(Lines())[phoneIndex := Stopped(old(Lines())[phoneIndex], now, Lines()[phoneIndex].waitDuration)]
                         else old(Lines())
      ensures 0 <= phoneIndex < ringers.Length ==>
        MinWaitTime <= Lines()[phoneIndex].waitDuration <= MaxWaitTime
    {
      if 0 <= phoneIndex < ringers.Length {
        StopOne(phoneIndex, now);
      }
    }

    method StopOne(i: nat, now: Millis)
      requires Valid() && i < ringers.Length
      modifies ringers[i]
      ensures Valid()
      ensures Lines() == old(Lines())[i := Stopped(old(Lines())[i], now, Lines()[i].waitDuration)]
      ensures MinWaitTime <= Lines()[i].waitDuration <= MaxWaitTime
    {
      ringers[i].StopCall(now);
    }

    /** stopAllCalls(): stopCall() on every ringer; `waits` are the waits drawn. */
    method StopAllCalls(now: Millis) returns (ghost waits: seq<nat>)
      requires Valid()
      modifies Repr
      ensures Valid()
      ensures |waits| == ringers.Length
      ensures forall j :: 0 <= j < |waits| ==> MinWaitTime <= waits[j] <= MaxWaitTime
      ensures Lines() == StopAll(old(Lines()), now, waits)
    {
      ghost var lines0 := Lines();
      waits := seq(ringers.Length, j => MinWaitTime);
      var i := 0;
      while i < ringers.Length
        invariant 0 <= i <= ringers.Length
        invariant Valid()
        invariant |waits| == ringers.Length
        invariant forall j :: 0 <= j < |waits| ==> MinWaitTime <= waits[j] <= MaxWaitTime
        invariant forall j :: 0 <= j < ringers.Length ==>
          Lines()[j] == if j < i then Stopped(lines0[j], now, waits[j]) else lines0[j]
      {
        StopOne(i, now);
        waits := waits[i := Lines()[i].waitDuration];
        i := i + 1;
      }
      assert Lines() == StopAll(lines0, now, waits);
    }

    /** getActiveCallCount() */
    method GetActiveCallCount() returns (count: nat)
      requires Valid()
      ensures count == CountActive(Lines())
      ensures count <= ringers.Length
    {
      count := 0;
      var i := 0;
      while i < ringers.Length
        invariant 0 <= i <= ringers.Length
        invariant count == CountTrue(ActiveFlags(Lines())[..i])
      {
        assert ActiveFlags(Lines())[..i + 1][..i] == ActiveFlags(Lines())[..i];
        if ringers[i].IsActive() {
          count := count + 1;
        }
        i := i + 1;
      }
      assert ActiveFlags(Lines())[..i] == ActiveFlags(Lines());
    }

    /** getRingingPhoneCount() */
    method GetRingingPhoneCount() returns (count: nat)
      requires Valid()
      ensures count == CountRinging(Lines())
      ensures count <= CountActive(Lines())
    {
      count := 0;
      var i := 0;
      while i < ringers.Length
        invariant 0 <= i <= ringers.Length
        invariant count == CountTrue(RingingFlags(Lines())[..i])
      {
        assert RingingFlags(Lines())[..i + 1][..i] == RingingFlags(Lines())[..i];
        if ringers[i].IsRinging() {
          count := count + 1;
        }
        i := i + 1;
      }
      assert RingingFlags(Lines())[..i] == RingingFlags(Lines());
      CountsAreOrdered(Lines());
    }
  }
}
