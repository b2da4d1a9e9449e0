/** The text the 20x4 LCD shows and when it is redrawn (src/DisplayManager.cpp,
    include/DisplayManager.h). The LCD driver calls themselves are not modelled;
    what is modelled is the strings handed to it and the refresh throttle. */
module Display {
  import opened Basics
  import opened Ringer
  import opened Manager

  // ---------------------------------------------------------------------------
  // Decimal numerals, as Arduino's String(unsigned long) writes them

  predicate IsDigit(c: char) { '0' <= c <= '9' }

  predicate AllDigits(s: string) { forall i :: 0 <= i < |s| ==> IsDigit(s[i]) }

  function DigitChar(d: nat): (c: char)
    requires d < 10
    ensures IsDigit(c) && c as int - '0' as int == d
  {
    ('0' as int + d) as char
  }

  /** The value of a string of decimal digits, read most significant first. */
  function ValueOf(s: string): nat
    requires AllDigits(s)
  {
    if s == [] then 0 else ValueOf(s[..|s| - 1]) * 10 + (s[|s| - 1] as int - '0' as int)
  }

  /** String(n): the shortest decimal numeral of n. */
  function Decimal(n: nat): (s: string)
    ensures AllDigits(s) && |s| >= 1
  {
    if n < 10 then [DigitChar(n)] else Decimal(n / 10) + [DigitChar(n % 10)]
  }

  /** Decimal() reads back as the number it was made from, with no leading zero. */
  lemma {:induction false} DecimalReadsBack(n: nat)
    ensures ValueOf(Decimal(n)) == n
    ensures |Decimal(n)| == 1 || Decimal(n)[0] != '0'
    ensures n < 10 <==> |Decimal(n)| == 1
    ensures 10 <= n < 100 ==> |Decimal(n)| == 2
  {
    if n >= 10 {
      DecimalReadsBack(n / 10);
      var s := Decimal(n);
      assert s[..|s| - 1] == Decimal(n / 10);
    }
  }

  /** A leading zero does not change the value of a numeral. */
  lemma {:induction false} LeadingZero(s: string)
    requires AllDigits(s)
    ensures AllDigits("0" + s) && ValueOf("0" + s) == ValueOf(s)
  {
    if s != [] {
      LeadingZero(s[..|s| - 1]);
      assert ("0" + s)[..|"0" + s| - 1] == "0" + s[..|s| - 1];
    }
  }

  /** The two-or-more digit field formatTime() builds: a "0" in front of a single digit. */
  function TwoDigits(n: nat): string
  {
    (if n < 10 then "0" else "") + Decimal(n)
  }

  lemma TwoDigitsReadsBack(n: nat)
    ensures AllDigits(TwoDigits(n)) && ValueOf(TwoDigits(n)) == n
    ensures |TwoDigits(n)| >= 2
    ensures n < 100 ==> |TwoDigits(n)| == 2
  {
    DecimalReadsBack(n);
    if n < 10 {
      LeadingZero(Decimal(n));
      assert TwoDigits(n) == "0" + Decimal(n);
    } else {
      assert TwoDigits(n) == Decimal(n);
    }
  }

  // ---------------------------------------------------------------------------
  // formatTime

  /** formatTime(ms): whole minutes, a colon, and the seconds within the minute. */
  function FormatTime(ms: Millis): string
  {
    var seconds := ms / 1000;
    var minutes := seconds / 60;
    TwoDigits(minutes) + ":" + TwoDigits(seconds % 60)
  }

  lemma MinutesOfMillis(ms: nat)
    ensures ms / 1000 / 60 == ms / 60000
  {
    var q, r := ms / 60000, ms % 60000;
    assert ms == q * 60000 + r;
    assert ms / 1000 == q * 60 + r / 1000;
  }

  /** The text splits at its third-to-last character into a minutes field of at
      least two digits worth ms / 60000 and a seconds field of exactly two digits
      worth (ms / 1000) mod 60. */
  lemma FormatTimeReadsBack(ms: Millis)
    ensures var r := FormatTime(ms); var k := |r| - 3;
      k >= 2 && r[k] == ':' &&
      AllDigits(r[..k]) && ValueOf(r[..k]) == ms / 60000 &&
      AllDigits(r[k + 1..]) && ValueOf(r[k + 1..]) == (ms / 1000) % 60
  {
    var r := FormatTime(ms);
    var m, s := TwoDigits(ms / 1000 / 60), TwoDigits((ms / 1000) % 60);
    TwoDigitsReadsBack(ms / 1000 / 60);
    TwoDigitsReadsBack((ms / 1000) % 60);
    MinutesOfMillis(ms);
    assert r == m + ":" + s;
    var k := |r| - 3;
    assert k == |m|;
    assert r[..k] == m && r[k + 1..] == s;
  }

  // ---------------------------------------------------------------------------
  // padString

  /** Padding is idempotent, and a string of the right length is kept as it is. */
  lemma PaddedIsStable(s: string, n: nat)
    ensures Padded(Padded(s, n), n) == Padded(s, n)
    ensures |s| == n ==> Padded(s, n) == s
  {
  }

  /** padString(str, length): appends spaces one at a time, then cuts to length. */
  method PadString(str: string, length: nat) returns (r: string)
    ensures r == Padded(str, length)
  {
    r := str;
    while |r| < length
      invariant |str| <= |r| <= Max(|str|, length)
      invariant r == str + Spaces(|r| - |str|)
      decreases length - |r|
    {
      r := r + " ";
    }
    r := r[..length];
  }

  // ---------------------------------------------------------------------------
  // formatPhoneStatus

  function StatusChar(l: Line): char
  {
    if l.IsRinging() then 'R' else if l.IsActive() then 'A' else '.'
  }

  /** One status letter per line, in order. */
  function StatusLetters(lines: seq<Line>): (r: string)
    ensures |r| == |lines| && forall i :: 0 <= i < |lines| ==> r[i] == StatusChar(lines[i])
  {
    if lines == [] then [] else StatusLetters(lines[..|lines| - 1]) + [StatusChar(lines[|lines| - 1])]
  }

  const PositionLabels: string := " [12345678]"

  /** formatPhoneStatus(): one letter for each of the first eight phones, then
      the position labels whenever that leaves the text under 20 characters,
      which it always does. */
  function PhoneStatus(lines: seq<Line>): (r: string)
    ensures |r| == Min(8, |lines|) + |PositionLabels|
    ensures r[Min(8, |lines|)..] == PositionLabels
    ensures forall i :: 0 <= i < Min(8, |lines|) ==>
      (r[i] == 'R' <==> lines[i].IsRinging()) &&
      (r[i] == 'A' <==> lines[i].IsActive() && !lines[i].IsRinging()) &&
      (r[i] == '.' <==> !lines[i].IsActive())
  {
    var prefix := StatusLetters(lines[..Min(8, |lines|)]);
    if |prefix| < 20 then prefix + PositionLabels else prefix
  }

  /** formatPhoneStatus(ringerManager), asking the manager phone by phone. */
  method FormatPhoneStatus(m: RingerManager) returns (status: string)
    requires m.Valid()
    ensures status == PhoneStatus(m.Lines())
  {
    status := "";
    var maxPhones := Min(8, m.GetTotalPhoneCount());
    var i := 0;
    while i < maxPhones
      invariant 0 <= i <= maxPhones
      invariant |status| == i
      invariant forall j :: 0 <= j < i ==> status[j] == StatusChar(m.Lines()[j])
    {
      if m.IsPhoneRinging(i) {
        status := status + "R";
      } else if m.IsPhoneActive(i) {
        status := status + "A";
      } else {
        status := status + ".";
      }
      i := i + 1;
    }
    if |status| < 20 {
      status := status + PositionLabels;
    }
  }

  // ---------------------------------------------------------------------------
  // The refresh throttle of update()

  const NORMAL_UPDATE_INTERVAL: nat := 500
  const FAST_UPDATE_INTERVAL: nat := 100

  /** What update() draws: nothing, the pause screen or the status screen. */
  datatype Screen = Unchanged | PauseScreen | StatusScreen

  datatype DisplayState = DisplayState(lcdAvailable: bool, lastUpdate: Millis, displayNeedsUpdate: bool)

  function UpdateInterval(paused: bool): nat
  {
    if paused then NORMAL_UPDATE_INTERVAL else FAST_UPDATE_INTERVAL
  }

  /** update(now, paused, ...): with an LCD present, redraw once the interval
      for the current mode has passed or a redraw was requested. */
  function Refresh(st: DisplayState, now: Millis, paused: bool): (Screen, DisplayState)
  {
    if !st.lcdAvailable then (Unchanged, st)
    else if Elapsed(now, st.lastUpdate) >= UpdateInterval(paused) || st.displayNeedsUpdate then
      (if paused then PauseScreen else StatusScreen, st.(lastUpdate := now, displayNeedsUpdate := false))
    else (Unchanged, st)
  }

  /** The display redraws exactly when the LCD is present and either the
      interval has passed or a redraw is pending; a redraw stamps the time and
      clears the request, and no redraw changes nothing. */
  lemma RefreshThrottles(st: DisplayState, now: Millis, paused: bool)
    ensures var (screen, st') := Refresh(st, now, paused);
      (screen != Unchanged <==>
         st.lcdAvailable && (Elapsed(now, st.lastUpdate) >= UpdateInterval(paused) || st.displayNeedsUpdate)) &&
      (screen != Unchanged ==>
         (screen == PauseScreen <==> paused) && st'.lastUpdate == now && !st'.displayNeedsUpdate &&
         st'.lcdAvailable == st.lcdAvailable) &&
      (screen == Unchanged ==> st' == st)
  {
  }

  /** After a redraw, nothing is redrawn again until the interval has passed,
      unless a redraw is requested in between. */
  lemma {:induction false} NoRedrawWithinInterval(st: DisplayState, t1: Millis, p1: bool, t2: Millis, p2: bool)
    requires Refresh(st, t1, p1).0 != Unchanged
    requires Elapsed(t2, t1) < UpdateInterval(p2)
    ensures Refresh(Refresh(st, t1, p1).1, t2, p2).0 == Unchanged
  {
    RefreshThrottles(st, t1, p1);
  }

  class DisplayManager {
    var lcdAvailable: bool
    var lastUpdate: Millis
    var currentScreen: nat
    var displayNeedsUpdate: bool

    function Snap(): DisplayState
      reads this
    {
      DisplayState(lcdAvailable, lastUpdate, displayNeedsUpdate)
    }

    /** DisplayManager() followed by initialize(), whose I2C probe outcome is
        the parameter. */
    constructor (lcdFound: bool)
      ensures Snap() == DisplayState(lcdFound, 0, true) && currentScreen == 0
    {
      lastUpdate := 0;
      currentScreen := 0;
      displayNeedsUpdate := true;
      lcdAvailable := lcdFound;
    }

    method Update(now: Millis, systemPaused: bool) returns (screen: Screen)
      modifies this
      ensures (screen, Snap()) == Refresh(old(Snap()), now, systemPaused)
      ensures currentScreen == old(currentScreen)
    {
      if !lcdAvailable {
        return Unchanged;
      }
      var updateInterval := if systemPaused then NORMAL_UPDATE_INTERVAL else FAST_UPDATE_INTERVAL;
      screen := Unchanged;
      if Elapsed(now, lastUpdate) >= updateInterval || displayNeedsUpdate {
        screen := if systemPaused then PauseScreen else StatusScreen;
        lastUpdate := now;
        displayNeedsUpdate := false;
      }
    }

    /** showResumeMessage(): after the message, the next update() redraws. */
    method ShowResumeMessage()
      modifies this
      ensures Snap() == old(Snap()).(displayNeedsUpdate := true)
      ensures currentScreen == old(currentScreen)
    {
      displayNeedsUpdate := true;
    }
  }

  /** A pending request makes the next update() redraw whenever an LCD is present. */
  lemma RequestForcesRedraw(st: DisplayState, now: Millis, paused: bool)
    requires st.lcdAvailable
    ensures Refresh(st.(displayNeedsUpdate := true), now, paused).0 != Unchanged
  {
  }
}
