/**
 * The earlier bridge (app.js, at the repository root). Same first-message
 * latch, but no blink tier and no way back to test mode, and the ceiling is
 * real persistent state of the socket handler: an overshooting reading
 * becomes the new ceiling for every later datagram.
 */
module LegacyApp {
  import opened Wrappers
  import opened JsNumber
  import opened Utils
  import opened Wheel

  /** What one datagram in game mode does: the ceiling afterwards and the LED command, if any. */
  datatype Outcome = Outcome(maxRpm: Num, led: Option<real>)

  /**
   * A valid fraction goes to the LEDs as it is; a fraction above 1 makes the
   * reading the new ceiling and lights the LEDs fully; anything else (a
   * negative fraction, NaN) only logs an error.
   */
  function MapReading(currentRpm: Num, maxRpm: Num): (o: Outcome)
    ensures var f := CalculateRpmFraction(currentRpm, maxRpm);
            IsValidRpmFraction(f) ==> o == Outcome(maxRpm, Some(f.value))
    ensures var f := CalculateRpmFraction(currentRpm, maxRpm);
            Above(f, 1.0) ==> o == Outcome(currentRpm, Some(1.0))
    ensures var f := CalculateRpmFraction(currentRpm, maxRpm);
            f.NaN? || Below(f, 0.0) ==> o == Outcome(maxRpm, None)
    ensures o.led.Some? ==> 0.0 <= o.led.value <= 1.0
  {
    var rpmFraction := CalculateRpmFraction(currentRpm, maxRpm);
    if IsValidRpmFraction(rpmFraction) then Outcome(maxRpm, Some(rpmFraction.value))
    else if Above(rpmFraction, 1.0) then Outcome(currentRpm, Some(1.0))
    else Outcome(maxRpm, None)
  }

  /** A positive ceiling never decreases and stays positive. */
  lemma CeilingMonotone(currentRpm: Num, maxRpm: Num)
    requires Positive(maxRpm)
    ensures Positive(MapReading(currentRpm, maxRpm).maxRpm)
    ensures LessEq(maxRpm, MapReading(currentRpm, maxRpm).maxRpm)
  {
    var f := CalculateRpmFraction(currentRpm, maxRpm);
    if Above(f, 1.0) && currentRpm.Fin? && maxRpm.Fin? {
      FractionAboveOne(currentRpm.value, maxRpm.value);
    }
  }

  /**
   * After an overshoot by a finite reading, the same reading gives fraction
   * exactly 1: a valid fraction, sent to the LEDs as 1, with the ceiling kept.
   */
  lemma RepeatedOvershootIsFull(currentRpm: real, maxRpm: real)
    requires 0.0 < maxRpm < currentRpm
    ensures MapReading(Fin(currentRpm), Fin(maxRpm)) == Outcome(Fin(currentRpm), Some(1.0))
    ensures MapReading(Fin(currentRpm), Fin(currentRpm)) == Outcome(Fin(currentRpm), Some(1.0))
  {
    FractionAboveOne(currentRpm, maxRpm);
    DivSelf(currentRpm);
  }

  // ---------------------------------------------------------------------
  // The state machine

  /** Module-level mode, the socket handler's closure (latch and ceiling), and the output logs. */
  datatype State = State(
    inTestMode: bool,
    isInitialMessage: bool,
    maxRpm: Num,
    leds: seq<real>,
    bars: seq<BarUpdate>)

  datatype Event =
    | Message(msg: seq<Byte>, host: Endianness)
    | PedalValue(pedal: Pedal, val: real)

  /** runApp: test mode, the pedal handlers registered once, the message handler armed. */
  function Startup(maxRpm: Num): State {
    State(true, true, maxRpm, [], [])
  }

  /** handleMessage's socket callback. */
  function MessageStep(s: State, msg: seq<Byte>, host: Endianness): State {
    var s1 := if s.isInitialMessage then s.(inTestMode := false, isInitialMessage := false) else s;
    if !s1.inTestMode then
      var o := MapReading(ParseRpmFromMessage(msg, host), s1.maxRpm);
      s1.(maxRpm := o.maxRpm, leds := s1.leds + ToSeq(o.led))
    else s1
  }

  /** The pedal callbacks: the gas value to the LEDs and every value to its bar, in test mode only. */
  function PedalStep(s: State, pedal: Pedal, val: real): State {
    if s.inTestMode then
      s.(leds := if pedal == Gas then s.leds + [val] else s.leds,
         bars := s.bars + [BarUpdate(pedal, val * 100.0)])
    else s
  }

  function Step(s: State, e: Event): State {
    match e
    case Message(msg, host) => MessageStep(s, msg, host)
    case PedalValue(pedal, val) => PedalStep(s, pedal, val)
  }

  function Run(s: State, events: seq<Event>): State
    decreases |events|
  {
    if events == [] then s else Run(Step(s, events[0]), events[1..])
  }

  /** Reachable states: test mode is only ever the state before the first datagram. */
  predicate LatchConsistent(s: State) {
    s.inTestMode ==> s.isInitialMessage
  }

  /** No step returns to test mode, and every step keeps the latch consistent. */
  lemma StepOneWay(s: State, e: Event)
    requires LatchConsistent(s)
    ensures LatchConsistent(Step(s, e))
    ensures !s.inTestMode ==> !Step(s, e).inTestMode
    ensures e.Message? ==> !Step(s, e).inTestMode && !Step(s, e).isInitialMessage
  {
  }

  /** After any sequence containing a datagram the bridge is in game mode, and stays there. */
  lemma {:induction false} GameModeAfterFirstMessage(s: State, events: seq<Event>)
    requires LatchConsistent(s)
    ensures LatchConsistent(Run(s, events))
    ensures !s.inTestMode ==> !Run(s, events).inTestMode
    ensures (exists i :: 0 <= i < |events| && events[i].Message?) ==> !Run(s, events).inTestMode
    decreases |events|
  {
    if events != [] {
      StepOneWay(s, events[0]);
      GameModeAfterFirstMessage(Step(s, events[0]), events[1..]);
      if exists i :: 0 <= i < |events| && events[i].Message? {
        var i :| 0 <= i < |events| && events[i].Message?;
        if i > 0 {
          assert events[1..][i - 1].Message?;
        }
      }
    }
  }

  /** The start state is consistent, so every run from it obeys the lemma above. */
  lemma StartupConsistent(maxRpm: Num)
    ensures LatchConsistent(Startup(maxRpm)) && Startup(maxRpm).inTestMode
  {
  }

  /** Starting from a positive ceiling, no sequence of events lowers it. */
  lemma {:induction false} CeilingNeverDecreases(s: State, events: seq<Event>)
    requires Positive(s.maxRpm)
    ensures Positive(Run(s, events).maxRpm)
    ensures LessEq(s.maxRpm, Run(s, events).maxRpm)
    decreases |events|
  {
    if events != [] {
      var s1 := Step(s, events[0]);
      if events[0].Message? {
        CeilingMonotone(ParseRpmFromMessage(events[0].msg, events[0].host), s.maxRpm);
      }
      assert Positive(s1.maxRpm) && LessEq(s.maxRpm, s1.maxRpm);
      CeilingNeverDecreases(s1, events[1..]);
      LessEqTransitive(s.maxRpm, s1.maxRpm, Run(s1, events[1..]).maxRpm);
    }
  }

  lemma LessEqTransitive(x: Num, y: Num, z: Num)
    requires LessEq(x, y) && LessEq(y, z)
    ensures LessEq(x, z)
  {
  }

  /** In game mode the pedals do nothing. */
  lemma PedalsIgnoredInGameMode(s: State, pedal: Pedal, val: real)
    requires !s.inTestMode
    ensures PedalStep(s, pedal, val) == s
  {
  }

  // ---------------------------------------------------------------------
  // The module's mutable state

  class AppState {
    var inTestMode: bool
    var isInitialMessage: bool
    var maxRpm: Num
    var leds: seq<real>
    var bars: seq<BarUpdate>

    ghost function Snapshot(): State
      reads this
    {
      State(inTestMode, isInitialMessage, maxRpm, leds, bars)
    }

    /** runApp (socket, UI and wheel connection left out). */
    constructor RunApp(maxRpm: Num)
      ensures Snapshot() == Startup(maxRpm)
    {
      inTestMode := true;
      isInitialMessage := true;
      this.maxRpm := maxRpm;
      leds, bars := [], [];
    }

    /** The "message" callback installed by handleMessage. */
    method HandleMessage(msg: seq<Byte>, host: Endianness)
      modifies this`inTestMode, this`isInitialMessage, this`maxRpm, this`leds
      ensures Snapshot() == MessageStep(old(Snapshot()), msg, host)
    {
      if isInitialMessage {
        inTestMode := false;
        isInitialMessage := false;
      }
      if !inTestMode {
        var currentRpm := ParseRpmFromMessage(msg, host);
        var rpmFraction := CalculateRpmFraction(currentRpm, maxRpm);
        if IsValidRpmFraction(rpmFraction) {
          leds := leds + [rpmFraction.value];
        } else if Above(rpmFraction, 1.0) {
          maxRpm := currentRpm;
          leds := leds + [1.0];
        }
      }
    }

    method HandleGasPedalValue(val: real)
      modifies this`leds, this`bars
      ensures Snapshot() == PedalStep(old(Snapshot()), Gas, val)
    {
      if inTestMode {
        leds := leds + [val];
        bars := bars + [BarUpdate(Gas, val * 100.0)];
      }
    }

    method HandleBrakePedalValue(val: real)
      modifies this`bars
      ensures Snapshot() == PedalStep(old(Snapshot()), Brake, val)
    {
      if inTestMode {
        bars := bars + [BarUpdate(Brake, val * 100.0)];
      }
    }

    method HandleClutchPedalValue(val: real)
      modifies this`bars
      ensures Snapshot() == PedalStep(old(Snapshot()), Clutch, val)
    {
      if inTestMode {
        bars := bars + [BarUpdate(Clutch, val * 100.0)];
      }
    }
  }
}
