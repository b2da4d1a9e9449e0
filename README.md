# PhoneRinger call-centre simulator: a Dafny model of its core

PhoneRinger is Arduino firmware that rings up to eight telephones through a relay
board, so that a room full of phones sounds like a busy call centre. This
project models its core and proves properties of that model:

- **The ring state machine of one line.** The current version lives in
  `src/TelephoneRinger.cpp`; the legacy version is the `TelephoneRinger.cpp` at
  the top of the repository. A line cycles Idle → RingOn ⇄ RingOff →
  CallAnswered → Waiting → Idle. Both versions are a class `TelephoneRinger`
  (`LegacyTelephoneRinger`) whose fields are those of the C++ object. Every
  method is proved against a pure transition function (`Next`, `StartRandom`,
  `StartWith`, `Stopped`, `Started`) on a `Line` value that copies those fields.
- **The fleet coordinator.** `src/RingerManager.cpp` and the legacy
  `RingerManager.cpp` own an array of ringers. The current version steps only
  the first `activeRelayCount` lines, in index order. Each line's admission
  callback sees the fleet as the lines stepped before it left it. The legacy
  version steps every line with no admission test.
- **The configuration.** `src/Config.cpp` provides range-checked setters, the
  validity test, the clamping pass that runs before every save, the ring timing
  chosen by the ring style, and load/save through a store that holds a magic
  number and a record.
- **The settings record.** `src/SettingsManager.cpp` covers validation, the XOR
  checksum, the defaults, and load/save through a store that holds a version
  byte and a record.
- **Input debouncers.** These are the encoder's quadrature and push-button
  logic in `src/EncoderManager.cpp`, and the pause button and the pause gate of
  `loop()` in `src/main.cpp`.
- **Formatting helpers.** These are `formatTime`, `padString`,
  `formatPhoneStatus` and the refresh throttle of `update` in
  `src/DisplayManager.cpp`, and the fixed 21-character buffer pad in
  `src/StringUtils.cpp`.

**Modelling choices:**

- **Time.** `millis()` is a `Millis` value below 2^32. Elapsed time
  (`Basics.Elapsed`) is the unsigned 32-bit difference, wrap-around included.
  Every `millis()` read inside an operation is an explicit `now` parameter.
- **Random numbers.** Each value Arduino's `random(a, b)` returns during one
  operation is a field of a `Draws` (`LegacyDraws`) parameter. The transition
  functions are defined for every draw. Lemmas that need the ranges `random`
  guarantees ask for `ValidDraws`. The `getRandom…` helpers are methods that
  choose a value nondeterministically within the range. The constructors and
  `stopCall` of both ringers call `GetRandomWaitTime` themselves, as the source
  does, so the wait they store is proved to lie in its range. The manager
  methods that stop several lines return the drawn waits as ghost results.
- **The relay.** The relay is the boolean field `relayOn`, which is written only
  when `relayPin >= 0`, as `setRelayState` does.
- **The admission callback.** `canStartCallCallback` is an optional function
  from the fleet's `isActive()` flags to a yes/no answer.
- **`maxCallDelaySetting`.** This global (include/TelephoneRinger.h:10) is a
  parameter.
- **Stores.** The EEPROM areas are small store objects with one slot per
  field written.
- **Pin levels.** They are booleans, `HIGH` = true.

**Behaviours kept as written rather than fixed.** Each is proved, by a lemma
or (the last) by an empty `modifies` frame:

- **The cut-short threshold is redrawn every tick.** In the current version a
  cut-short last ring is compared on every tick with a freshly drawn 25–75 %
  of its on time (`Ringer.CutShortThresholdRedrawn`, `Ringer.CutShortWindow`).
- **The no-argument `startCall` can cut short a one-ring call.** It tosses the
  cut-short coin whatever the ring count (`Ringer.CutShortEvenForOneRing`).
- **A legacy cut-short call never leaves its first ring.** The legacy RingOn
  exit test can only end the last ring of a cut-short call. Such a call
  therefore rings until `stopCall`
  (`LegacyRinger.CutShortCallNeverLeavesFirstRing`).
- **`setActiveRelayCount` can leave the configuration invalid.** It never
  lowers `maxSimultaneousRings` with it (`Config.RelayCountCanInvalidate`,
  `Config.ActiveRelayCountValidity`).
- **The settings checksum ignores `ringerHangTime`.** It also confuses some call
  delays: 257 and 514 have the same checksum (`Settings.HangTimeUnprotected`,
  `Settings.ChecksumMissesSomeDelayChanges`).
- **Pausing resets every line.** `checkPauseButton()` calls `stopAllCalls()`,
  so each line restarts from Idle with a fresh wait (`Pause.PauseStopsEveryLine`,
  `Pause.Sketch.CheckPauseButton`).
- **`setCanStartCallCallback` on the manager changes nothing.** It is modelled
  as `Manager.RingerManager.SetCanStartCallCallback`, which has no `modifies`
  clause and so provably changes no state.

## Model

| member | source | states |
|---|---|---|
| Basics.Elapsed | src/TelephoneRinger.cpp:43 | `currentTime - lastStateChange` in unsigned long: the plain difference when time has not wrapped, the difference plus 2^32 when it has |
| Basics.CountTrue | src/RingerManager.cpp:101-109 | the counter the count loops build never exceeds the number of lines |
| Basics.CountTrueMonotone | src/RingerManager.cpp:101-119 | if every line counted by one loop is counted by the other, the first count is not larger |
| Basics.Padded | src/DisplayManager.cpp:236-241 | the padded text has exactly n characters: the first min(len, n) of the input, then spaces |
| Ringer.GetRandomWaitTime | src/TelephoneRinger.cpp:238-250 | the wait lies in [5000, M] when M = maxCallDelaySetting·1000 exceeds 5000, and in [M/2, M] otherwise (IsWaitTime); the constructor and stopCall store such a draw |
| Ringer.InvInitiallyAndPreserved | src/TelephoneRinger.cpp:20-36 | a freshly initialised line satisfies the line invariant, and step, both startCall overloads and stopCall keep it, whatever the draws and the callback's answer. The invariant: relay on exactly in RingOn, fixed ring timing, ring counter in range |
| Ringer.RelayMatchesRinging | src/TelephoneRinger.cpp:217-223 | on a wired line the relay is on iff the line rings; an inactive line has its relay off; ringing implies active |
| Ringer.IdleTransitions | src/TelephoneRinger.cpp:46-58 | Idle changes nothing before the wait is over; afterwards a call starts iff the callback is absent or says yes, otherwise the line waits a quarter of a fresh wait from now |
| Ringer.RingOnTransitions | src/TelephoneRinger.cpp:60-105 | RingOn ends iff the ring duration (the cut-short threshold for a cut-short last ring) is reached; it ends into CallAnswered iff the last ring was made, else into RingOff, with the relay off and the time stamped; otherwise nothing changes |
| Ringer.RingOffTransitions | src/TelephoneRinger.cpp:107-123 | RingOff becomes RingOn iff the off time has passed, with exactly one more ring, never beyond the total; otherwise nothing changes |
| Ringer.RingCountInRange | src/TelephoneRinger.cpp:159-160 | in RingOn or RingOff a call of at least one ring has its counter in [1, total] |
| Ringer.CutShortWindow | src/TelephoneRinger.cpp:63-78 | a cut-short last ring never ends before 25 % of the on time and always ends once 75 % has passed |
| Ringer.CutShortThresholdRedrawn | src/TelephoneRinger.cpp:66-68 | at the same elapsed time, one tick's draw ends the ring and another's keeps it going |
| Ringer.CutShortEvenForOneRing | src/TelephoneRinger.cpp:157-180 | startCall() can make a one-ring call with a cut-short last ring |
| Ringer.AnsweredAndWaitingTransitions | src/TelephoneRinger.cpp:125-153 | CallAnswered lasts 1 s and Waiting lasts the wait; each exit draws a new wait and stamps the time, and before that nothing changes |
| Ringer.OnlyAdmittedStartActivates | src/TelephoneRinger.cpp:46-58 | a tick makes an inactive line active only by an admitted start from Idle |
| Ringer.WaitsComeFromTheRange | src/TelephoneRinger.cpp:238-250 | with valid draws every wait a tick stores is one getRandomWaitTime can return, or a quarter of one after a refusal in Idle; a call started from Idle has 1..8 rings |
| Ringer.StopIsIdempotent | src/TelephoneRinger.cpp:210-215 | stopCall gives Idle with the relay off from any state; a second stopCall changes only the wait and the timestamp |
| Ringer.TelephoneRinger.constructor | src/TelephoneRinger.cpp:4-36 | a new line is Idle, relay off, stamped now, with no callback, waiting a first wait drawn by getRandomWaitTime and so in its range |
| Ringer.TelephoneRinger.SetCanStartCallCallback | src/TelephoneRinger.cpp:38-40 | installs the callback and changes no line field |
| Ringer.TelephoneRinger.SetRelayState | src/TelephoneRinger.cpp:225-236 | writes the relay only on a wired line |
| Ringer.TelephoneRinger.IsRinging | src/TelephoneRinger.cpp:217-219 | true iff RingOn, iff the relay is on for a wired line; implies IsActive |
| Ringer.TelephoneRinger.IsActive | src/TelephoneRinger.cpp:221-223 | true iff neither Idle nor Waiting; false implies relay off |
| Ringer.TelephoneRinger.StartCall | src/TelephoneRinger.cpp:157-180 | the object's new state is StartRandom of the old one: drawn ring count, count 1, coin-toss cut-short, relay on, RingOn, time stamped; keeps the invariant |
| Ringer.TelephoneRinger.StartCallWith | src/TelephoneRinger.cpp:182-208 | the new state is StartWith of the old one: the given ring count, cut-short flag and UK style, default timing, relay on, RingOn |
| Ringer.TelephoneRinger.StopCall | src/TelephoneRinger.cpp:210-215 | the new state is Stopped of the old one with a wait drawn by getRandomWaitTime, in its range; the invariant holds |
| Ringer.TelephoneRinger.Step | src/TelephoneRinger.cpp:42-155 | the new state is Next of the old one, with the callback asked about the given fleet view; the invariant is kept |
| LegacyRinger.GetRandomWaitTime | TelephoneRinger.cpp:122-124 | the wait lies in [5000, 30000] |
| LegacyRinger.GetRandomRingCount | TelephoneRinger.cpp:126-128 | the ring count lies in [1, 8] |
| LegacyRinger.ShouldCutShortFinalRing | TelephoneRinger.cpp:130-133 | the answer is the cut-short rule CutShort(total, roll) for some roll in 0..99, so a call of one ring or fewer is never cut short |
| LegacyRinger.InvInitiallyAndPreserved | TelephoneRinger.cpp:13-19 | the legacy invariant holds after initialize and is kept by step, startCall and stopCall for any draws. It includes: relay on exactly in RingOn, cut-short only with more than one ring |
| LegacyRinger.RelayMatchesRinging | TelephoneRinger.cpp:108-120 | on a wired line the relay is on iff the line rings; ringing implies active |
| LegacyRinger.IdleStartsUnconditionally | TelephoneRinger.cpp:25-31 | Idle starts a call as soon as the wait is over, with no admission test, and stamps the time; before that nothing changes |
| LegacyRinger.StartedCall | TelephoneRinger.cpp:81-99 | startCall makes 1..8 rings, count 1, RingOn, relay on, cut short iff more than one ring and a roll below 70, and keeps the old timestamp |
| LegacyRinger.RingOnTransitions | TelephoneRinger.cpp:33-49 | RingOn ends exactly when the exit test holds, into CallAnswered iff the last ring was made, with the relay off and the time stamped |
| LegacyRinger.CutShortEarlyRingIsStuck | TelephoneRinger.cpp:35-36 | a ring of a cut-short call that is not its last is left unchanged by every tick |
| LegacyRinger.CutShortCallNeverLeavesFirstRing | TelephoneRinger.cpp:35-36 | a call that startCall cuts short stays in its first ring through any sequence of ticks |
| LegacyRinger.RingOffTransitions | TelephoneRinger.cpp:51-59 | RingOff becomes RingOn iff 4 s have passed, with one more ring and the relay on; otherwise nothing changes |
| LegacyRinger.WaitsInRange | TelephoneRinger.cpp:61-77 | with valid draws a line's wait stays in [5000, 30000] |
| LegacyRinger.ManualStartKeepsOldTimestamp | TelephoneRinger.cpp:81-99 | a call started from outside keeps the old timestamp, so its first full ring ends on the next tick |
| LegacyRinger.StopIsIdempotent | TelephoneRinger.cpp:101-106 | stopCall gives Idle with the relay off; twice is the same as once with the later time and wait |
| LegacyRinger.LegacyTelephoneRinger.constructor | TelephoneRinger.cpp:3-19 | a new line is Idle, relay off, waiting a first wait in [5000, 30000] |
| LegacyRinger.LegacyTelephoneRinger.SetRelayState | TelephoneRinger.cpp:116-120 | writes the relay only on a wired line |
| LegacyRinger.LegacyTelephoneRinger.IsRinging | TelephoneRinger.cpp:108-110 | true iff RingOn, iff the relay is on for a wired line; implies IsActive |
| LegacyRinger.LegacyTelephoneRinger.IsActive | TelephoneRinger.cpp:112-114 | true iff neither Idle nor Waiting; false implies relay off |
| LegacyRinger.LegacyTelephoneRinger.StartCall | TelephoneRinger.cpp:81-99 | the new state is Started of the old one and the invariant holds |
| LegacyRinger.LegacyTelephoneRinger.StopCall | TelephoneRinger.cpp:101-106 | the new state is Stopped of the old one with a fresh wait in [5000, 30000]; the invariant holds |
| LegacyRinger.LegacyTelephoneRinger.Step | TelephoneRinger.cpp:21-79 | the new state is Next of the old one and the invariant holds |
| Manager.StepUpTo | src/RingerManager.cpp:43-55 | stepping the first k lines leaves every line from k on as it was |
| Manager.StopFrom | src/RingerManager.cpp:92-99 | stopping the lines from lo on keeps the number of lines |
| Manager.CountTrueUpdate | src/RingerManager.cpp:101-109 | changing one line's flag changes the count by exactly the difference of that flag |
| Manager.CountsAreOrdered | src/RingerManager.cpp:101-119 | ringing count ≤ active count ≤ number of phones |
| Manager.StepUpToEachLineOnce | src/RingerManager.cpp:45-48 | each stepped line is advanced exactly once, with the callback asked about the fleet as the lines before it left it |
| Manager.StepUpToKeepsInv | src/RingerManager.cpp:43-55 | a fleet step keeps every line's invariant |
| Manager.OneStepRespectsCap | src/TelephoneRinger.cpp:46-58 | stepping one line whose callback admits only below a cap leaves the active count at most max(old count, cap) |
| Manager.StepRespectsCap | src/RingerManager.cpp:45-48 | if every callback admits only while fewer than c lines are active, a fleet step never raises the active count above max(old count, c) |
| Manager.StopFromStopsTail | src/RingerManager.cpp:92-99 | every line from lo on ends Idle with its relay off, the lines before lo are unchanged, and all invariants hold |
| Manager.MakeRingers | src/RingerManager.cpp:29-32 | one fresh, distinct, initialised ringer per pin, in pin order, with no callback and its own first wait in getRandomWaitTime's range |
| Manager.RingerManager.constructor | src/RingerManager.cpp:4-41 | one initialised ringer per pin, each with a first wait in getRandomWaitTime's range, no callbacks, activeRelayCount 8 |
| Manager.RingerManager.GetTotalPhoneCount | src/RingerManager.cpp:121-123 | the number of phones given to initialize |
| Manager.RingerManager.GetActivePhoneCount | src/RingerManager.cpp:125-128 | the activeRelayCount field |
| Manager.RingerManager.Step | src/RingerManager.cpp:43-55 | the lines become StepUpTo over the first min(activeRelayCount, phoneCount) lines, in index order; the callbacks are unchanged |
| Manager.RingerManager.StartCall | src/RingerManager.cpp:63-67 | an index in range starts that line as startCall() does; any other index changes nothing |
| Manager.RingerManager.StartCallWith | src/RingerManager.cpp:57-61 | an index in range starts that line with the given parameters; any other index changes nothing |
| Manager.RingerManager.StopCall | src/RingerManager.cpp:69-73 | an index in range stops that line with a fresh wait in range; any other index changes nothing |
| Manager.RingerManager.StopAllCalls | src/RingerManager.cpp:75-79 | every line is stopped, enabled or not, each with a fresh wait in range, and activeRelayCount is unchanged |
| Manager.RingerManager.SetCanStartCallCallbackForAllPhones | src/RingerManager.cpp:86-90 | every ringer gets the same callback and no line changes |
| Manager.RingerManager.SetActiveRelayCount | src/RingerManager.cpp:92-99 | activeRelayCount becomes the count clamped to [0, phoneCount], and exactly the lines from there on are stopped, with fresh waits in range |
| Manager.RingerManager.GetActiveCallCount | src/RingerManager.cpp:101-109 | the number of active lines among all phones, at most the number of phones |
| Manager.RingerManager.GetRingingPhoneCount | src/RingerManager.cpp:111-119 | the number of ringing lines, at most the active count |
| Manager.RingerManager.IsPhoneRinging | src/RingerManager.cpp:130-135 | true iff the index is in range and that line rings |
| Manager.RingerManager.IsPhoneActive | src/RingerManager.cpp:137-142 | true iff the index is in range and that line is active |
| LegacyManager.StepAll | RingerManager.cpp:36-47 | a tick keeps the number of lines |
| LegacyManager.StepAllKeepsInv | RingerManager.cpp:36-47 | a tick keeps every line's invariant |
| LegacyManager.StopAllStopsEveryLine | RingerManager.cpp:61-65 | after stopAllCalls every line is Idle with its relay off and no line is active |
| LegacyManager.NoneTrue | RingerManager.cpp:67-75 | a fleet with no active line counts zero |
| LegacyManager.CountsAreOrdered | RingerManager.cpp:67-85 | ringing count ≤ active count ≤ number of phones |
| LegacyManager.LegacyRingerManager.constructor | RingerManager.cpp:15-34 | one initialised ringer per pin, each waiting its own 5–30 s |
| LegacyManager.LegacyRingerManager.GetTotalPhoneCount | RingerManager.cpp:87-89 | the numPhones given to initialize |
| LegacyManager.LegacyRingerManager.Step | RingerManager.cpp:36-47 | every line is stepped with the same time |
| LegacyManager.LegacyRingerManager.StartCall | RingerManager.cpp:49-53 | an index in range starts that line; any other index changes nothing |
| LegacyManager.LegacyRingerManager.StopCall | RingerManager.cpp:55-59 | an index in range stops that line with a fresh wait in [5000, 30000]; any other index changes nothing |
| LegacyManager.LegacyRingerManager.StopAllCalls | RingerManager.cpp:61-65 | every line is stopped, each with a fresh wait in [5000, 30000] |
| LegacyManager.LegacyRingerManager.GetActiveCallCount | RingerManager.cpp:67-75 | the number of active lines, at most the number of phones |
| LegacyManager.LegacyRingerManager.GetRingingPhoneCount | RingerManager.cpp:77-85 | the number of ringing lines, at most the active count |
| Config.Constrained | src/Config.cpp:149-161 | after clamping every clamped field is in range, including 1 ≤ maxSimultaneousRings ≤ activeRelayCount ≤ 8 and minWaitTime ≤ maxWaitTime; the unclamped fields are unchanged |
| Config.DefaultIsValidAndClamped | src/Config.cpp:5-32 | the defaults are valid and constrainValues leaves them unchanged |
| Config.ClampedIsFixpoint | src/Config.cpp:149-161 | a configuration already in range is left as it is |
| Config.ConstrainIdempotent | src/Config.cpp:149-161 | clamping twice is clamping once |
| Config.ConstrainedValidity | src/Config.cpp:138-161 | a clamped configuration is valid iff its ring style and pattern mode are in range |
| Config.ConstrainKeepsValidFields | src/Config.cpp:138-161 | clamping a valid configuration changes none of the fields the validity test checks |
| Config.SettersKeepValidity | src/Config.cpp:91-136 | every setter except setActiveRelayCount keeps a valid configuration valid |
| Config.ActiveRelayCountValidity | src/Config.cpp:84-89 | setActiveRelayCount keeps validity iff it rejects the count or the count is at least maxSimultaneousRings |
| Config.RelayCountCanInvalidate | src/Config.cpp:84-89 | the defaults with two relays are accepted by the setter and invalid |
| Config.RingTimingChoice | src/Config.cpp:163-194 | UK timing (400, 2000) for the UK style and for mixed asked for UK, the configured timing otherwise, bounded when valid |
| Config.LoadedIsValidAndStable | src/Config.cpp:38-61 | loading always ends with a valid configuration; loading again what was kept gives it back; a wrong magic number gives the defaults |
| Config.SaveThenLoad | src/Config.cpp:38-75 | a saved configuration with style and pattern in range loads back clamped; any other loads as the defaults |
| Config.ConfigStore.constructor | include/Config.h:93 | a store holding the given magic number and record |
| Config.ConfigManager.constructor | src/Config.cpp:34-36 | the defaults, not marked changed |
| Config.ConfigManager.LoadConfig | src/Config.cpp:38-61 | the configuration becomes LoadedConfig of the store; the store is rewritten with the magic number and the defaults exactly when the stored one is rejected; not marked changed |
| Config.ConfigManager.SaveConfig | src/Config.cpp:63-75 | clamps, then stores the magic number and the clamped record; not marked changed |
| Config.ConfigManager.ResetToDefaults | src/Config.cpp:77-82 | the defaults, stored with the magic number |
| Config.ConfigManager.ConstrainValues | src/Config.cpp:149-161 | the configuration becomes its clamped version |
| Config.ConfigManager.IsValid | src/Config.cpp:138-147 | isConfigValid, which implies 1 ≤ maxSimultaneousRings ≤ activeRelayCount ≤ 8 |
| Config.ConfigManager.GetRingTiming | src/Config.cpp:163-194 | UK timing for the UK style; within 100..10000 / 100..20000 ms for a valid configuration |
| Config.ConfigManager.SetActiveRelayCount | src/Config.cpp:84-89 | a count in 1..8 is stored and marks the configuration changed; any other leaves both alone |
| Config.ConfigManager.SetMaxSimultaneousRings | src/Config.cpp:91-96 | only 1..activeRelayCount is accepted |
| Config.ConfigManager.SetMaxRingsPerCall | src/Config.cpp:98-103 | only 1..15 is accepted |
| Config.ConfigManager.SetRingStyle | src/Config.cpp:105-110 | only a style up to CUSTOM is accepted |
| Config.ConfigManager.SetPatternMode | src/Config.cpp:112-117 | only a mode up to CUSTOM is accepted |
| Config.ConfigManager.SetAnswerProbability | src/Config.cpp:119-124 | only 0..100 is accepted |
| Config.ConfigManager.SetDisplayBrightness | src/Config.cpp:126-131 | only 0..15 is accepted |
| Config.ConfigManager.SetDebugOutput | src/Config.cpp:133-136 | always stored and marked changed |
| Settings.GetDefaultSettings | src/SettingsManager.cpp:60-69 | version 2, 4 concurrent, 8 relays, 30 s delay, checksum 0, valid; the hang time is arbitrary |
| Settings.Stamped | src/SettingsManager.cpp:46-57 | the saved copy has version 2 and a matching checksum and agrees with the input elsewhere |
| Settings.ChecksumIgnoresHangTime | src/SettingsManager.cpp:90-100 | the checksum depends on neither the hang time nor the checksum field |
| Settings.HangTimeUnprotected | src/SettingsManager.cpp:8-38 | a loadable record with any other hang time still loads |
| Settings.XorKeepsDifference | src/SettingsManager.cpp:90-100 | XOR with the same other bytes keeps two different bytes different |
| Settings.ChecksumSeesMaxConcurrent | src/SettingsManager.cpp:90-100 | changing maxConcurrent alone changes the checksum |
| Settings.ChecksumSeesActiveRelays | src/SettingsManager.cpp:90-100 | changing activeRelays alone changes the checksum |
| Settings.ChecksumSeesVersion | src/SettingsManager.cpp:90-100 | changing the version alone changes the checksum |
| Settings.ChecksumDetectsOneByteField | src/SettingsManager.cpp:90-100 | changing any one of the one-byte checksummed fields changes the checksum |
| Settings.ChecksumMissesSomeDelayChanges | src/SettingsManager.cpp:90-100 | call delays 257 and 514 give the same checksum in every record, their validity agrees, and both are valid in a valid record |
| Settings.LoadedIsSound | src/SettingsManager.cpp:8-38 | a record is accepted iff the version is 2, the checksum matches and it validates, and then it is returned as stored |
| Settings.SaveThenLoad | src/SettingsManager.cpp:8-57 | a saved valid record loads back with the same fields, version 2 and the recomputed checksum |
| Settings.SettingsStore.constructor | src/SettingsManager.cpp:8-58 | a store holding the given version byte and record |
| Settings.LoadSettings | src/SettingsManager.cpp:8-38 | true iff the store passes the version, checksum and validation tests, with the stored record; otherwise false with the defaults; the result always validates |
| Settings.SaveSettings | src/SettingsManager.cpp:40-58 | false and no write for an invalid record; otherwise true, version 2 and the stamped copy stored |
| Encoder.RotationEvents | src/EncoderManager.cpp:59-86 | an event iff A changed; clockwise iff the new A equals B; lastA/lastB equal the samples on every path and nothing else but currentA/B changes |
| Encoder.UpdatePrefersRotation | src/EncoderManager.cpp:48-57 | a rotation event is returned and the button is not sampled; otherwise the button's event is returned |
| Encoder.ButtonEventsOnly | src/EncoderManager.cpp:88-190 | checkButton returns only button events and leaves the rotation fields alone |
| Encoder.DebounceGuards | src/EncoderManager.cpp:119-127 | a raw change restarts the debounce timer, and no press or release is accepted until the level has been stable more than 50 ms |
| Encoder.PressAndRelease | src/EncoderManager.cpp:132-159 | a stable HIGH→LOW change is a press that arms the long press; a stable LOW→HIGH change is a release that disarms it; these happen iff the level differs from the accepted one |
| Encoder.LongPressOnce | src/EncoderManager.cpp:180-187 | a long press needs an armed press, the button LOW and 1 s since the press, and disarms it; an unarmed button only arms by a press |
| Encoder.NoSecondLongPress | src/EncoderManager.cpp:180-187 | after a long press the next call cannot report another |
| Encoder.EventNamesDistinct | src/EncoderManager.cpp:208-218 | two events have the same name iff they are the same event |
| Encoder.EncoderManager.constructor | src/EncoderManager.cpp:3-46 | the last levels are the initial samples; nothing is pressed |
| Encoder.EncoderManager.Update | src/EncoderManager.cpp:48-57 | the event and the new state are UpdateSpec of the old state |
| Encoder.EncoderManager.CheckRotation | src/EncoderManager.cpp:59-86 | the event and the new state are Rotation of the old state |
| Encoder.EncoderManager.CheckButton | src/EncoderManager.cpp:88-190 | the event and the new state are Button of the old state |
| Pause.ToggleCondition | src/main.cpp:127-147 | the pause toggles iff a LOW equal to the last sample has been stable more than 50 ms and is unhandled; the toggle flips the pause and marks the press handled |
| Pause.ChangeRestartsDebounce | src/main.cpp:117-124 | a changed sample restarts the timer, forgets the press and toggles nothing; the last level always ends equal to the sample |
| Pause.DebouncedHighReleases | src/main.cpp:151-153 | a debounced HIGH forgets the press |
| Pause.HeldButtonTogglesOnce | src/main.cpp:129-134 | after a toggle, any number of further LOW samples leaves the press handled and the pause unchanged |
| Pause.HeldLowStaysHandled | src/main.cpp:115-157 | a handled press stays handled and the pause unchanged while the button stays LOW |
| Pause.Sketch.constructor | src/main.cpp:17-20 | the globals' initial values: running, last level HIGH, no press |
| Pause.Sketch.CheckPauseButton | src/main.cpp:103-158 | the globals follow CheckPause; pausing stops every call with fresh waits in range; resuming requests a display redraw; nothing else changes |
| Pause.Sketch.TogglePause | src/main.cpp:129-147 | flips the pause and marks the press handled; stops every call when pausing, requests a redraw when resuming |
| Pause.Sketch.Loop | src/main.cpp:85-101 | while paused the lines are only what the pause check left; while running they are stepped as RingerManager.step does; the display is refreshed with the new pause state |
| Pause.Sketch.StepUnlessPaused | src/main.cpp:92-94 | the fleet is stepped iff the system is not paused |
| Pause.PauseStopsEveryLine | src/main.cpp:136-143 | after the pause stops all calls, every line is Idle with its relay off |
| Display.DigitChar | src/DisplayManager.cpp:190 | a single digit character with the given value |
| Display.Decimal | src/DisplayManager.cpp:190 | String(n) is a non-empty string of digits |
| Display.DecimalReadsBack | src/DisplayManager.cpp:190-192 | String(n) reads back as n, has no leading zero, and has one digit iff n < 10 and two when 10 ≤ n < 100 |
| Display.LeadingZero | src/DisplayManager.cpp:189-191 | a leading "0" does not change a numeral's value |
| Display.TwoDigitsReadsBack | src/DisplayManager.cpp:189-192 | the zero-padded field reads back as its number and has at least two digits, exactly two below 100 |
| Display.FormatTimeReadsBack | src/DisplayManager.cpp:183-195 | formatTime(ms) is M:S with M of at least two digits worth ms/60000 and S of exactly two digits worth (ms/1000) mod 60 |
| Display.PaddedIsStable | src/DisplayManager.cpp:236-241 | padding twice is padding once; a string of the right length is unchanged |
| Display.PadString | src/DisplayManager.cpp:236-241 | returns exactly the padded text: n characters, the input's first ones then spaces |
| Display.StatusLetters | src/DisplayManager.cpp:205-213 | one letter per line, each the line's status letter |
| Display.PhoneStatus | src/DisplayManager.cpp:197-221 | min(8, phones) letters, R iff ringing, A iff active but not ringing, . iff inactive, always followed by " [12345678]" |
| Display.FormatPhoneStatus | src/DisplayManager.cpp:197-221 | the text is PhoneStatus of the manager's lines |
| Display.RefreshThrottles | src/DisplayManager.cpp:63-79 | a redraw happens iff the LCD is present and the 500 ms (paused) or 100 ms (running) interval has passed or a redraw is pending; it stamps the time and clears the request; otherwise nothing changes |
| Display.NoRedrawWithinInterval | src/DisplayManager.cpp:69-77 | after a redraw, nothing is redrawn again within the interval |
| Display.RequestForcesRedraw | src/DisplayManager.cpp:174-181 | after showResumeMessage the next update redraws whenever an LCD is present |
| Display.DisplayManager.constructor | src/DisplayManager.cpp:8-61 | last update 0, a redraw pending, the LCD present as probed |
| Display.DisplayManager.Update | src/DisplayManager.cpp:63-79 | the screen drawn and the new state are Refresh of the old state |
| Display.DisplayManager.ShowResumeMessage | src/DisplayManager.cpp:174-181 | requests a redraw and changes nothing else |
| StringUtils.CString | src/StringUtils.cpp:20-21 | the characters of a buffer before its first NUL |
| StringUtils.PadStringToGlobalBuffer | src/StringUtils.cpp:8-22 | for a NUL-free string and length 0..20 the buffer's first length characters are the padded text, the next is NUL, and nothing beyond it is written |
| StringUtils.PaddedCString | src/StringUtils.cpp:8-22 | for a string without NUL the buffer then holds a C string of exactly `length` characters, the padded text |
| StringUtils.PaddedTail | src/StringUtils.cpp:12-18 | padding splits into the first character and the padding of the rest |
| StringUtils.ExactLengthIsKept | src/StringUtils.cpp:12-21 | a string of exactly `length` characters is copied unchanged |

## Left out

- **Hardware I/O is not modelled.** This covers `digitalRead`, `digitalWrite`,
  `analogRead` and `pinMode`, the relay self-test of `setup()`, and `delay()`.
  That includes the 10 ms delay in `loop()` and the 1 s delay in
  `showResumeMessage()`. Pin levels and `millis()` readings are parameters.
- **Direct relay-pin writes on pause are not modelled.** `checkPauseButton()`
  writes HIGH to every relay pin after pausing. The model keeps only the
  ringers' own relay fields, which `stopAllCalls()` turns off.
- **The relay's electrical polarity is not modelled.** The active-LOW wiring
  noted in `setup()` is left out: `relayOn` is the value `setRelayState` writes.
- **Serial output and status text are not modelled.** This covers every
  `Serial.print`, `printStatus` (including the legacy `lastStatusPrint`
  stamp), `debugPrint`, `getStatusLine1/2` and `getPhoneStatus`. They are
  logging only.
- **LCD driver calls are not modelled.** This covers `initialize`'s I2C probe,
  `showMessage`, `showStatus`, `showStartupMessage`, `showPauseMessage`,
  `setBrightness`, `clear` and `centerText`. The probe's outcome is the
  `DisplayManager` constructor's parameter. `update` returns which screen it
  would draw.
- **The EEPROM byte layout and the EEPROM library are not modelled.** The
  stores are objects with one slot per value. The configuration and settings
  areas may overlap in the real EEPROM; that is not represented.
- **The pseudo-random generator and its seeding are not modelled.** Draws are
  parameters or nondeterministic choices within their documented ranges.
- **The pattern engine and the UI menu are not modelled.** They exist only as
  declarations (include/PatternManager.h, include/UIManager.h). So does
  `centerStringToGlobalBuffer` (include/StringUtils.h:12), which is declared
  but never defined.
- **Heap allocation in `initialize` is not modelled.** The manager's ringers
  are an array fixed at construction.
- **Header mismatches are resolved by following the `.cpp` files.**
  include/RingerManager.h lacks `setActiveRelayCount` and `activeRelayCount`.
  `getEventString` is declared with a different return type. The model
  follows the `.cpp` files.
- **One `millis()` read in step is treated as the step's time.** The read
  inside `startCall()` during an Idle step is taken equal to the step's
  `currentTime`.
- **Ringer.GetRandomWaitTime: 32-bit overflow is not modelled.** It does not
  model the overflow of `maxCallDelaySetting * 1000`, nor a negative setting.
  The setting is a natural number here.
- **Config.ConfigManager.SetRingStyle: negative enum values are not modelled.**
  Neither this nor `Config.ConfigManager.SetPatternMode` models a negative enum
  value converted into the 8-bit field. Their parameter is a natural number.
- **Display.PadString: negative lengths are not modelled.** It takes a
  natural length, so length 0 is covered and every caller passes 20. With a
  negative `int` length, the source's `str.length() < length` compares it as a
  huge unsigned value, so the padding loop would never end.
- **Display.FormatPhoneStatus: the out-of-range padding path is not modelled.**
  The `" [12345678]"` suffix is proved always appended, because the prefix has
  at most 8 characters.
- **Encoder.Button: an unreachable fall-through is omitted.** The branch of
  `checkButton()` after the press and release tests cannot be reached, because
  two different boolean levels are always one of those two cases. It is
  therefore omitted.
- **StringUtils.PadStringToGlobalBuffer: lengths outside 0..20 and embedded
  NULs are not modelled.** A length outside 0..20 would write past the
  21-character buffer, and the source does not check it. `str` is the text
  before its terminator, which `strlen` would stop at, so it may not hold a NUL.
- **Pause.Sketch.CheckPauseButton: the periodic debug print is not modelled.**
  This is the once-a-second button-state print. The several `millis()` reads
  in one call are taken as one `now`.
- **Manager.RingerManager.SetCanStartCallCallback has no row.** It has no
  `ensures` because it changes nothing, which its empty `modifies` frame
  states.
