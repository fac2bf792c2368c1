# BeamNG OutGauge → Logitech G29 LED bridge, modelled in Dafny

The bridge listens for BeamNG.drive OutGauge datagrams, reads the engine RPM
at byte offset 16, and lights the LED ring of a Logitech G29 wheel in
proportion to how close the RPM is to a ceiling (`maxRpm`). Until the first
datagram arrives the bridge is in *test mode*, where the pedals drive the
LEDs and console progress bars directly.

This project models the translation from telemetry to LED commands:

- `Binary32`, `Utils` (src/utils.js): the RPM field decoded from four bytes
  (a missing byte of a short datagram reads as 0, and the host byte order is
  a parameter), the fraction `rpm / maxRpm` with JavaScript's NaN and
  infinities (`JsNumber`), and the `[0, 1]` validity check.
- `TestUtils` (src/testUtils.js): the datagram encoder of the tests, and the
  round trip through the decoder.
- `App` (src/app.js): the current bridge. The three-tier mapper
  (proportional, solid below redline, square-wave blink at and above
  redline, 0 for negative fractions, nothing for NaN), the operator command
  dispatcher, the configuration override of `runApp`, and the module's state
  as a class `AppState` whose handlers are proved against a state machine
  (`Startup`, `MessageStep`, `PedalStep`, `TestModeStep`, `Run`).
- `LegacyApp` (app.js): the earlier bridge, whose socket handler really does
  raise its ceiling to an overshooting reading, with no blink tier and no
  way back to test mode.
- `FrontendState` (src/frontend/state.js): the desktop front end's record
  store with its shallow-merge update, and the test-mode toggle of
  src/frontend/app.js as one such update.
- `Config`, `Wheel`, `Wrappers`: the configuration defaults, the output
  logs' element types, and `Option`.

Outputs are logs: `leds` is every intensity handed to the wheel driver's
`leds` call, in order, and `bars` every progress-bar update. `Date.now()` is
the parameter `now`. The model assumes the wheel driver's `on` has Node
`EventEmitter` semantics, adding a listener each time it is called (the
driver package is not part of this model), so in the current bridge every
call of handleTestMode registers the pedal callbacks once more and each pedal event is then handled once per
registration (`pedalListeners`).

Behaviour of the code that the model reproduces as written:

- The overshoot branch of `parseUDPMessage` computes the ceiling rounded up
  to the next thousand but assigns it only to its own parameter
  (src/app.js:116), so the ceiling used for the next datagram never changes
  (`App.CeilingNeverChanges`, `App.OvershootNotRecalibrated`).
- A datagram shorter than 20 bytes does not decode to a NaN sentinel: the
  missing bytes read as 0, and a datagram of at most 16 bytes decodes to 0.
- A NaN fraction sends no LED command at all (only an error is logged).
- handleTestMode returns to test mode but never re-arms the first-message
  latch, so once it has run after the first datagram, later datagrams are
  ignored for good (`App.TestModeIsFinal`, `App.MessageIgnoredInTestMode`).
  In the model the event `TestCommand` stands for a call of handleTestMode.
- handleUserInput *returns* the ceiling parsed from a typed number whenever
  `Number(input)` is not NaN (including 0, negative numbers and Infinity),
  but the readline bridge discards that value (src/app.js:161) and
  `currentMaxRpm` (src/app.js:154) is never reassigned, so a typed number
  never changes the ceiling the bridge maps against (`App.CeilingNeverChanges`).
- The readline bridge passes only the typed line to handleUserInput
  (src/app.js:161), so its other parameters (`cleanupAndExit`,
  `handleTestMode`, `logInfo`, `logWarning`) are undefined there and every
  typed line would throw a TypeError when the callback is reached; no typed
  line reaches handleTestMode after startup. `App.HandleUserInput` models the
  function as written, called with its parameters supplied.

## Model

| member | source | states |
|---|---|---|
| JsNumber.Div | src/utils.js:21 | JavaScript division: a finite non-zero divisor gives the exact quotient (quotient times divisor is the dividend); 0/0, Infinity/Infinity and NaN operands give NaN; a non-zero value over 0 gives an infinity of its sign; an infinity over a finite divisor is an infinity whose sign is the product of the signs (a zero divisor counting as positive); finite over infinite gives 0 |
| Binary32.Value | src/utils.js:14-17 | the IEEE 754 binary32 value of a bit pattern: NaN exactly for an all-ones exponent with non-zero fraction, finite exactly below the all-ones exponent, sign bit matching the value's sign |
| Utils.ParseRpmFromMessage | src/utils.js:1-18 | the binary32 value of bytes 16..19 in host byte order, a missing byte read as 0; it never fails, and a datagram of 16 bytes or fewer reads as 0 |
| Utils.OnlyRpmBytesMatter | src/utils.js:6-17 | two datagrams that agree at bytes 16..19 (missing bytes read as 0) decode to the same RPM |
| Utils.OtherBytesIgnored | src/utils.js:6 | overwriting any byte outside 16..19 leaves the decoded RPM unchanged |
| Utils.ShortMessageIsZero | src/utils.js:6-9 | a datagram of 16 bytes or fewer decodes to 0.0 on either host, without failing |
| Utils.TruncatedMessagePadsWithZeros | src/utils.js:6-9 | a datagram cut short inside the RPM field decodes as if padded with zero bytes |
| Utils.HostOrderSwapsBytes | src/utils.js:14 | a big-endian host reads the byte-reversed pattern of a little-endian host |
| Utils.CalculateRpmFraction | src/utils.js:20-22 | for a finite non-zero ceiling the fraction is the exact quotient; 0 over 0 is NaN |
| Utils.FractionScalesBack | src/utils.js:21 | the fraction times the ceiling is the reading again |
| Utils.IsValidRpmFraction | src/utils.js:24-26 | valid exactly for finite fractions in the closed interval [0, 1]; NaN and both infinities are invalid |
| Utils.ValidExactlyWithinCeiling | src/utils.js:20-26 | with a positive finite ceiling the fraction is valid exactly when 0 <= rpm <= maxRpm |
| Utils.FractionAboveOne | src/app.js:111 | with a positive finite ceiling the fraction exceeds 1 exactly when the reading exceeds the ceiling |
| TestUtils.LittleEndianBytes | src/testUtils.js:2-3 | four bytes that, assembled little-endian, give back the pattern |
| TestUtils.CreateMockMessage | src/testUtils.js:1-7 | the message is 20 bytes long, bytes 0..15 are zero, bytes 16..19 are the little-endian binary32 of the rounded rpm |
| TestUtils.RoundTrip | src/testUtils.js:1-7 | on a little-endian host the decoder reads exactly the bit pattern the encoder wrote, so decodes its binary32 value |
| TestUtils.RepresentableRoundTrip | src/testUtils.test.js:11-16 | a value binary32 can represent survives encoding and decoding unchanged |
| TestUtils.SevenThousandRoundTrip | src/testUtils.test.js:11-16 | 7000 is encoded and read back as 7000 |
| App.FlashState | src/app.js:94 | the flash state is 0 or 1, and 0 when the interval is 0 (the remainder is NaN) |
| App.FlashToggles | src/app.js:94 | half a period later the flash state is the other one |
| App.FlashPeriodic | src/app.js:94 | the flash state repeats with period 2 * flashInterval |
| App.FlashHalves | src/app.js:94 | within each period the state is 1 for the first flashInterval milliseconds and 0 for the rest |
| App.LedCommand | src/app.js:96-122 | no command exactly for NaN; 0 <= f < threshold (and f < 1) gives f; threshold <= f < 1 gives 1; f >= 1 including +Infinity gives the flash state; f < 0 including -Infinity gives 0; every command is in [0, 1] |
| App.CeilToThousand | src/app.js:116 | a finite reading is rounded up to a whole number of thousands, less than 1000 above it |
| App.CeilToThousandExample | src/app.js:116 | 7350 RPM rounds up to 8000 |
| App.HandleUserInput | src/app.js:126-150 | exactly "exit", "quit", "q" call cleanupAndExit and "test" calls handleTestMode, both keeping the ceiling; otherwise a non-NaN `Number(input)` becomes the ceiling (logged) and anything else keeps it (warned) |
| App.EffectiveFlashInterval | src/app.js:209-211 | a configured interval replaces the default 100 only when non-zero; the result is never 0 |
| App.EffectiveBlinkThreshold | src/app.js:212-214 | a configured threshold replaces the default 0.9 only when non-zero |
| App.FirstMessageEntersGameMode | src/app.js:163-175 | the first datagram leaves test mode, spends the latch and is itself mapped |
| App.LatchNeverReArmed | src/app.js:153-171 | once spent, the latch stays spent after any sequence of events |
| App.MessageIgnoredInTestMode | src/app.js:163-175 | with the latch spent and test mode on, a datagram changes nothing at all |
| App.TestModeIsFinal | src/app.js:73-76 | after the latch is spent, test mode persists and the latch stays spent through any sequence of events, pedals included |
| App.NoLedsWithoutGas | src/app.js:54-59 | after the latch is spent in test mode, event sequences without gas-pedal events send no LED command, whatever datagrams arrive |
| App.CeilingNeverChanges | src/app.js:154 | no sequence of events changes the ceiling datagrams are mapped against, nor the flash interval or blink threshold |
| App.PedalsIgnoredInGameMode | src/app.js:54-71 | outside test mode a pedal event changes nothing |
| App.GasForwardedInTestMode | src/app.js:54-59 | in test mode the gas value goes to the LEDs unchanged and, times 100, to its bar, once per registration of the handler |
| App.OvershootFlashes | src/app.js:111-117 | a reading above a positive finite ceiling sends the flash state |
| App.OvershootNotRecalibrated | src/app.js:111-117 | the same overshooting reading flashes on two datagrams in a row, although the rounded-up ceiling would have made its fraction valid |
| App.AppState.RunApp | src/app.js:200-227 | the state after runApp: test mode, latch armed, ceiling as given, configuration overridden only by truthy values, pedal handlers registered once, logs empty |
| App.AppState.HandleTestMode | src/app.js:73-89 | test mode on and the pedal handlers registered once more; the latch untouched |
| App.AppState.ParseUdpMessage | src/app.js:91-124 | appends exactly the command `LedCommand` gives for the decoded reading over the parameter ceiling; nothing else changes |
| App.AppState.HandleMessage | src/app.js:163-176 | the first-message latch, then mapping against the closure's ceiling only in game mode |
| App.AppState.HandleGasPedalValue | src/app.js:54-59 | the gas callback follows `PedalStep` |
| App.AppState.HandleBrakePedalValue | src/app.js:61-65 | the brake callback updates only its bar, in test mode |
| App.AppState.HandleClutchPedalValue | src/app.js:67-71 | the clutch callback updates only its bar, in test mode |
| LegacyApp.MapReading | app.js:105-131 | a valid fraction is sent as it is with the ceiling kept; a fraction above 1 makes the reading the ceiling and sends 1; a negative or NaN fraction sends nothing; every command is in [0, 1] |
| LegacyApp.CeilingMonotone | app.js:120-125 | one datagram never lowers a positive ceiling and keeps it positive |
| LegacyApp.RepeatedOvershootIsFull | app.js:107-125 | after a finite overshoot, the same reading gives fraction exactly 1, sent as 1, with the ceiling kept |
| LegacyApp.StepOneWay | app.js:95-103 | no event returns to test mode, and a datagram always leaves the bridge in game mode with the latch spent |
| LegacyApp.GameModeAfterFirstMessage | app.js:93-105 | after any sequence of events that contains a datagram the bridge is in game mode, and game mode is never left |
| LegacyApp.StartupConsistent | app.js:160-170 | the bridge starts in test mode with the latch armed |
| LegacyApp.CeilingNeverDecreases | app.js:89-133 | from a positive ceiling, no sequence of events lowers it |
| LegacyApp.PedalsIgnoredInGameMode | app.js:56-73 | outside test mode pedal events change nothing |
| LegacyApp.AppState.RunApp | app.js:160-170 | the state after runApp follows `Startup` |
| LegacyApp.AppState.HandleMessage | app.js:93-133 | the socket callback follows `MessageStep`: the latch, then `MapReading` with the ceiling persisted |
| LegacyApp.AppState.HandleGasPedalValue | app.js:56-61 | the gas callback follows `PedalStep` |
| LegacyApp.AppState.HandleBrakePedalValue | app.js:63-67 | the brake callback follows `PedalStep` |
| LegacyApp.AppState.HandleClutchPedalValue | app.js:69-73 | the clutch callback follows `PedalStep` |
| FrontendState.InitialState | src/frontend/state.js:3-16 | the initial record has exactly the nine keys of the store |
| FrontendState.InitialStateValues | src/config.js:6-11 | initially in test mode, nothing connected or received, RPM 0, ceiling 7000, flash interval 100, threshold 0.9 |
| FrontendState.Merge | src/frontend/state.js:18-23 | the merged record has the keys of both; the update's keys take the update's values, all other keys keep their old values |
| FrontendState.MergeEmpty | src/frontend/state.js:18-23 | the empty update changes nothing |
| FrontendState.MergeIdempotent | src/frontend/state.js:18-23 | the same update twice equals it once |
| FrontendState.MergeCompose | src/frontend/state.js:18-23 | two updates in a row equal one update in which the second's keys win |
| FrontendState.ToggleTestMode | src/frontend/app.js:73-77 | the toggle's update holds only `inTestMode`, the negation of the current value's truthiness |
| FrontendState.ToggleTwice | src/frontend/app.js:73-77 | toggling flips the mode and nothing else, and toggling twice restores the record |
| FrontendState.Store.UpdateState | src/frontend/state.js:18-23 | the store's record becomes the merge of the old record and the update |
| FrontendState.Store.GetState | src/frontend/state.js:25-27 | returns the most recently assigned record |

## Left out

- JsNumber.Div: finite quotients are exact reals; binary64 rounding, overflow to an infinity, underflow and the sign of zero are not modelled, so tier boundaries are decided on exact quotients.
- TestUtils.CreateMockMessage: the rounding of a JavaScript number to binary32 by `writeFloatLE` is the parameter `toBinary32`; that `Number.MAX_VALUE` becomes Infinity and `Number.MIN_VALUE` becomes 0 is not stated.
- App.HandleUserInput: `Number(input)` (JavaScript's string-to-number grammar) is the parameter `numberInput`; the log and warning texts are not modelled.
- App.HandleUserInput: the readline wiring of handleGameMode (src/app.js:161) passes only the typed line and discards the result, so as wired every typed line throws before any effect; the model states the function's decision table with its parameters supplied, and `App.AppState.HandleTestMode` is a direct call of handleTestMode, not an operator command.
- App.EffectiveBlinkThreshold: a configured NaN (falsy, so the default is kept) cannot be written as a configured value here.
- Pedal percentages (`val * 100`) and pedal values are exact reals; binary64 rounding is not modelled.
- The logitech-g29 driver package is not part of this model: that its `on` adds a listener per call, as a Node `EventEmitter` does, is an assumption behind `pedalListeners` in `App.PedalStep`.
- Logging (info, warnings, errors, the verbose RPM line) is not modelled; only LED commands and progress-bar updates are logged.
- UDP socket creation, binding and error handling, the wheel driver's connect and disconnect, `isConnectedToWheel`, `cleanupAndExit` and the signal handlers: I/O and process control.
- The console UI (src/userInterface.js), the command line of main.js, and the Electron front end apart from the toggle: presentation and IPC.
- FrontendState.Store.GetState: returns the record as a value; that a caller mutating the returned JavaScript object would change the store is not modelled.
