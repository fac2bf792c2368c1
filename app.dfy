/**
 * The current bridge (src/app.js): the module-level mode and configuration,
 * the first-message latch of the game-mode socket handler, the three-tier
 * RPM-to-LED mapper and the operator command dispatcher.
 *
 * The pure part (the flash state, the tier decision, the dispatcher's result)
 * is given as functions; the module's mutable state is the class `AppState`,
 * whose handlers are proved against the state-machine functions `Startup`,
 * `MessageStep`, `PedalStep` and `TestModeStep`.
 */
module App {
  import opened Wrappers
  import opened JsNumber
  import opened Utils
  import opened Wheel
  import Config

  // ---------------------------------------------------------------------
  // The blink square wave

  /**
   * `Date.now() % (flashInterval * 2) < flashInterval ? 1 : 0`. With a zero
   * interval the remainder is NaN, the comparison false, and the state 0.
   */
  function FlashState(now: nat, flashInterval: nat): (s: nat)
    ensures s <= 1
    ensures flashInterval == 0 ==> s == 0
  {
    if flashInterval == 0 then 0
    else if now % (flashInterval * 2) < flashInterval then 1
    else 0
  }

  /** A product with a factor of at least one is at least the other factor. */
  lemma ProductAtLeast(t: nat, d: nat)
    requires t >= 1
    ensures t * d >= d
  {
  }

  /** The remainder is determined by any quotient-remainder decomposition. */
  lemma ModOfDecomposition(a: nat, d: nat, q: nat, r: nat)
    requires 0 < d && r < d && a == q * d + r
    ensures a % d == r
  {
    var q', r' := a / d, a % d;
    assert q' * d + r' == q * d + r;
    if q' < q {
      var t := q - q';
      assert q * d == q' * d + t * d;
      ProductAtLeast(t, d);
      assert false;
    } else if q' > q {
      var t := q' - q;
      assert q' * d == q * d + t * d;
      ProductAtLeast(t, d);
      assert false;
    }
  }

  /** Half a period later the flash state is the opposite one: a square wave. */
  lemma {:induction false} FlashToggles(now: nat, flashInterval: nat)
    requires flashInterval > 0
    ensures FlashState(now + flashInterval, flashInterval) == 1 - FlashState(now, flashInterval)
  {
    var p := flashInterval * 2;
    var q, r := now / p, now % p;
    assert now == q * p + r;
    if r < flashInterval {
      ModOfDecomposition(now + flashInterval, p, q, r + flashInterval);
    } else {
      assert now + flashInterval == (q + 1) * p + (r - flashInterval);
      ModOfDecomposition(now + flashInterval, p, q + 1, r - flashInterval);
    }
  }

  /** The flash state repeats with period `2 * flashInterval`. */
  lemma {:induction false} FlashPeriodic(now: nat, flashInterval: nat)
    ensures FlashState(now + 2 * flashInterval, flashInterval) == FlashState(now, flashInterval)
  {
    if flashInterval > 0 {
      FlashToggles(now, flashInterval);
      FlashToggles(now + flashInterval, flashInterval);
    }
  }

  /** The wave is on for the first half of each period and off for the second. */
  lemma {:induction false} FlashHalves(k: nat, t: nat, flashInterval: nat)
    requires t < 2 * flashInterval
    ensures FlashState(k * (2 * flashInterval) + t, flashInterval) == (if t < flashInterval then 1 else 0)
  {
    ModOfDecomposition(k * (2 * flashInterval) + t, 2 * flashInterval, k, t);
  }

  // ---------------------------------------------------------------------
  // The tier decision of parseUDPMessage

  /**
   * The LED command for a fraction, or None when none is sent. Below the
   * blink threshold the fraction itself; from the threshold up to (not
   * including) 1, solid 1; at 1 and above, including +Infinity, the flash
   * state; below 0, including -Infinity, 0; NaN sends nothing.
   */
  function LedCommand(f: Num, blinkThreshold: real, flash: nat): (cmd: Option<real>)
    ensures cmd.None? <==> f.NaN?
    ensures f.Fin? && 0.0 <= f.value < blinkThreshold && f.value < 1.0 ==> cmd == Some(f.value)
    ensures f.Fin? && 0.0 <= f.value && blinkThreshold <= f.value < 1.0 ==> cmd == Some(1.0)
    ensures AtLeast(f, 1.0) ==> cmd == Some(flash as real)
    ensures Below(f, 0.0) ==> cmd == Some(0.0)
    ensures flash <= 1 && cmd.Some? ==> 0.0 <= cmd.value <= 1.0
  {
    if IsValidRpmFraction(f) then
      if AtLeast(f, blinkThreshold) && Below(f, 1.0) then Some(1.0)
      else if AtLeast(f, 1.0) then Some(flash as real)
      else Some(f.value)
    else if Above(f, 1.0) then Some(flash as real)
    else if AtMost(f, 0.0) then Some(0.0)
    else None
  }

  /** The command parseUDPMessage sends for a datagram, against the ceiling it is given. */
  function MessageCommand(msg: seq<Byte>, maxRpm: Num, blinkThreshold: real, flashInterval: nat,
                          now: nat, host: Endianness): Option<real>
  {
    var fraction := CalculateRpmFraction(ParseRpmFromMessage(msg, host), maxRpm);
    LedCommand(fraction, blinkThreshold, FlashState(now, flashInterval))
  }

  /** `Math.ceil(rpm / 1000) * 1000`: the reading rounded up to a whole thousand. */
  function CeilToThousand(rpm: Num): (r: Num)
    ensures rpm.Fin? ==> r.Fin? && rpm.value <= r.value < rpm.value + 1000.0
    ensures rpm.Fin? ==> WholeThousands(r.value)
    ensures !rpm.Fin? ==> r == rpm
  {
    match rpm
    case Fin(x) => Fin((Ceil(x / 1000.0) * 1000) as real)
    case _ => rpm
  }

  /** An integral number of thousands. */
  predicate WholeThousands(v: real) {
    v == v.Floor as real && v.Floor % 1000 == 0
  }

  /** The recalibration the overshoot branch computes for 7350 RPM is 8000. */
  lemma CeilToThousandExample()
    ensures CeilToThousand(Fin(7350.0)) == Fin(8000.0)
  {
  }

  // ---------------------------------------------------------------------
  // The operator command dispatcher (handleUserInput)

  /** The callback handleUserInput invokes. */
  datatype Effect = CleanupAndExit | EnterTestMode | LogNewMaxRpm | WarnInvalidInput

  datatype UserInputResult = UserInputResult(newMaxRpm: Num, effect: Effect)

  predicate IsExitCommand(input: string) {
    input == "exit" || input == "quit" || input == "q"
  }

  /**
   * handleUserInput. `numberInput` is `Number(input)`, JavaScript's
   * string-to-number conversion, supplied by the caller.
   */
  function HandleUserInput(input: string, currentMaxRpm: Num, numberInput: Num): (r: UserInputResult)
    ensures r.effect == CleanupAndExit <==> IsExitCommand(input)
    ensures r.effect == EnterTestMode <==> input == "test"
    ensures r.effect == LogNewMaxRpm <==> !IsExitCommand(input) && input != "test" && !numberInput.NaN?
    ensures r.effect == LogNewMaxRpm ==> r.newMaxRpm == numberInput
    ensures r.effect != LogNewMaxRpm ==> r.newMaxRpm == currentMaxRpm
  {
    var newMaxRpm := currentMaxRpm;
    if input == "exit" || input == "quit" || input == "q" then UserInputResult(newMaxRpm, CleanupAndExit)
    else if input == "test" then UserInputResult(newMaxRpm, EnterTestMode)
    else if !numberInput.NaN? then UserInputResult(numberInput, LogNewMaxRpm)
    else UserInputResult(newMaxRpm, WarnInvalidInput)
  }

  // ---------------------------------------------------------------------
  // Configuration override of runApp

  /** A configured flash interval replaces the default only when truthy (not 0, not absent). */
  function EffectiveFlashInterval(configured: Option<nat>): (fi: nat)
    ensures fi > 0
    ensures configured.Some? && configured.value != 0 ==> fi == configured.value
    ensures configured == None || configured == Some(0) ==> fi == Config.DefaultFlashInterval
  {
    if configured.Some? && configured.value != 0 then configured.value else Config.DefaultFlashInterval
  }

  /** A configured blink threshold replaces the default only when truthy (not 0, not absent). */
  function EffectiveBlinkThreshold(configured: Option<real>): (bt: real)
    ensures configured.Some? && configured.value != 0.0 ==> bt == configured.value
    ensures configured == None || configured == Some(0.0) ==> bt == Config.DefaultBlinkThreshold
    ensures bt != 0.0
  {
    if configured.Some? && configured.value != 0.0 then configured.value else Config.DefaultBlinkThreshold
  }

  // ---------------------------------------------------------------------
  // The state machine

  /**
   * The module's state once runApp has run: the module-level mode and
   * configuration, the socket handler's closure (`isInitialMessage` and
   * `currentMaxRpm`), how many times each pedal handler has been registered,
   * and the output logs.
   */
  datatype State = State(
    inTestMode: bool,
    isInitialMessage: bool,
    currentMaxRpm: Num,
    flashInterval: nat,
    blinkThreshold: real,
    pedalListeners: nat,
    leds: seq<real>,
    bars: seq<BarUpdate>)

  datatype Event =
    | Message(msg: seq<Byte>, now: nat, host: Endianness)
    | PedalValue(pedal: Pedal, val: real)
    | TestCommand

  /** runApp: configuration applied, handleTestMode run once, the game-mode handler armed. */
  function Startup(maxRpm: Num, configuredFlashInterval: Option<nat>,
                   configuredBlinkThreshold: Option<real>): State
  {
    State(true, true, maxRpm, EffectiveFlashInterval(configuredFlashInterval),
          EffectiveBlinkThreshold(configuredBlinkThreshold), 1, [], [])
  }

  /** The socket's message handler: the latch, then the mapping in game mode. */
  function MessageStep(s: State, msg: seq<Byte>, now: nat, host: Endianness): State {
    var s1 := if s.isInitialMessage then s.(inTestMode := false, isInitialMessage := false) else s;
    if !s1.inTestMode then
      s1.(leds := s1.leds + ToSeq(MessageCommand(msg, s1.currentMaxRpm, s1.blinkThreshold,
                                                 s1.flashInterval, now, host)))
    else s1
  }

  /** A pedal event, delivered once per registration of its handler; ignored outside test mode. */
  function PedalStep(s: State, pedal: Pedal, val: real): State {
    if s.inTestMode then
      s.(leds := if pedal == Gas then s.leds + Repeat(val, s.pedalListeners) else s.leds,
         bars := s.bars + Repeat(BarUpdate(pedal, val * 100.0), s.pedalListeners))
    else s
  }

  /** handleTestMode: test mode on and the pedal handlers registered once more. */
  function TestModeStep(s: State): State {
    s.(inTestMode := true, pedalListeners := s.pedalListeners + 1)
  }

  function Step(s: State, e: Event): State {
    match e
    case Message(msg, now, host) => MessageStep(s, msg, now, host)
    case PedalValue(pedal, val) => PedalStep(s, pedal, val)
    case TestCommand => TestModeStep(s)
  }

  function Run(s: State, events: seq<Event>): State
    decreases |events|
  {
    if events == [] then s else Run(Step(s, events[0]), events[1..])
  }

  // Properties of the state machine

  /** The first message switches to game mode and spends the latch. */
  lemma FirstMessageEntersGameMode(s: State, msg: seq<Byte>, now: nat, host: Endianness)
    requires s.isInitialMessage
    ensures !MessageStep(s, msg, now, host).inTestMode
    ensures !MessageStep(s, msg, now, host).isInitialMessage
    ensures MessageStep(s, msg, now, host).leds
         == s.leds + ToSeq(MessageCommand(msg, s.currentMaxRpm, s.blinkThreshold, s.flashInterval, now, host))
  {
  }

  /** Once spent, the latch is never re-armed, whatever happens next. */
  lemma {:induction false} LatchNeverReArmed(s: State, events: seq<Event>)
    requires !s.isInitialMessage
    ensures !Run(s, events).isInitialMessage
    decreases |events|
  {
    if events != [] {
      LatchNeverReArmed(Step(s, events[0]), events[1..]);
    }
  }

  /** With the latch spent, a datagram arriving in test mode changes nothing. */
  lemma MessageIgnoredInTestMode(s: State, msg: seq<Byte>, now: nat, host: Endianness)
    requires !s.isInitialMessage && s.inTestMode
    ensures MessageStep(s, msg, now, host) == s
  {
  }

  /** Once the latch is spent, test mode persists through any events whatsoever. */
  lemma {:induction false} TestModeIsFinal(s: State, events: seq<Event>)
    requires !s.isInitialMessage && s.inTestMode
    ensures Run(s, events).inTestMode
    ensures !Run(s, events).isInitialMessage
    decreases |events|
  {
    if events != [] {
      TestModeIsFinal(Step(s, events[0]), events[1..]);
    }
  }

  /**
   * In that state only the gas pedal reaches the LEDs: without gas-pedal
   * events the LEDs receive nothing, however many datagrams arrive.
   */
  lemma {:induction false} NoLedsWithoutGas(s: State, events: seq<Event>)
    requires !s.isInitialMessage && s.inTestMode
    requires forall i :: 0 <= i < |events| ==> !(events[i].PedalValue? && events[i].pedal == Gas)
    ensures Run(s, events).leds == s.leds
    decreases |events|
  {
    if events != [] {
      NoLedsWithoutGas(Step(s, events[0]), events[1..]);
    }
  }

  /**
   * Nothing ever changes the ceiling a datagram is mapped against, nor the
   * configuration: the overshoot branch's recalibration is a dead store.
   */
  lemma {:induction false} CeilingNeverChanges(s: State, events: seq<Event>)
    ensures Run(s, events).currentMaxRpm == s.currentMaxRpm
    ensures Run(s, events).flashInterval == s.flashInterval
    ensures Run(s, events).blinkThreshold == s.blinkThreshold
    decreases |events|
  {
    if events != [] {
      CeilingNeverChanges(Step(s, events[0]), events[1..]);
    }
  }

  /** In game mode pedal events have no effect at all. */
  lemma PedalsIgnoredInGameMode(s: State, pedal: Pedal, val: real)
    requires !s.inTestMode
    ensures PedalStep(s, pedal, val) == s
  {
  }

  /** In test mode each registration of the gas handler forwards the value to the LEDs unchanged. */
  lemma GasForwardedInTestMode(s: State, val: real)
    requires s.inTestMode
    ensures PedalStep(s, Gas, val).leds == s.leds + Repeat(val, s.pedalListeners)
    ensures PedalStep(s, Gas, val).bars == s.bars + Repeat(BarUpdate(Gas, val * 100.0), s.pedalListeners)
  {
  }

  /** A reading above a positive finite ceiling is mapped to the flash state. */
  lemma OvershootFlashes(msg: seq<Byte>, maxRpm: real, blinkThreshold: real, flashInterval: nat,
                         now: nat, host: Endianness)
    requires maxRpm > 0.0
    requires ParseRpmFromMessage(msg, host).Fin? && ParseRpmFromMessage(msg, host).value > maxRpm
    ensures MessageCommand(msg, Fin(maxRpm), blinkThreshold, flashInterval, now, host)
         == Some(FlashState(now, flashInterval) as real)
  {
    FractionAboveOne(ParseRpmFromMessage(msg, host).value, maxRpm);
  }

  /**
   * An overshooting reading keeps flashing on every datagram: the ceiling the
   * next datagram is mapped against is still the old one, although the
   * rounded-up ceiling would have brought the reading back within range.
   */
  lemma OvershootNotRecalibrated(s: State, msg: seq<Byte>, t1: nat, t2: nat, host: Endianness)
    requires !s.isInitialMessage && !s.inTestMode
    requires s.currentMaxRpm.Fin? && s.currentMaxRpm.value > 0.0
    requires ParseRpmFromMessage(msg, host).Fin?
    requires ParseRpmFromMessage(msg, host).value > s.currentMaxRpm.value
    ensures Run(s, [Message(msg, t1, host), Message(msg, t2, host)]).leds
         == s.leds + [FlashState(t1, s.flashInterval) as real, FlashState(t2, s.flashInterval) as real]
    ensures var rpm := ParseRpmFromMessage(msg, host);
            IsValidRpmFraction(CalculateRpmFraction(rpm, CeilToThousand(rpm)))
  {
    var rpm := ParseRpmFromMessage(msg, host);
    var m := s.currentMaxRpm.value;
    OvershootFlashes(msg, m, s.blinkThreshold, s.flashInterval, t1, host);
    OvershootFlashes(msg, m, s.blinkThreshold, s.flashInterval, t2, host);
    var events := [Message(msg, t1, host), Message(msg, t2, host)];
    var s1 := MessageStep(s, msg, t1, host);
    var s2 := MessageStep(s1, msg, t2, host);
    assert s1.leds == s.leds + [FlashState(t1, s.flashInterval) as real];
    assert s2.leds == s1.leds + [FlashState(t2, s.flashInterval) as real];
    assert Run(s, events) == Run(s1, events[1..]);
    assert Run(s1, events[1..]) == Run(s2, []);
    ValidExactlyWithinCeiling(rpm.value, CeilToThousand(rpm).value);
  }

  // ---------------------------------------------------------------------
  // The module's mutable state

  class AppState {
    var inTestMode: bool
    var isInitialMessage: bool
    var currentMaxRpm: Num
    var flashInterval: nat
    var blinkThreshold: real
    var pedalListeners: nat
    var leds: seq<real>
    var bars: seq<BarUpdate>

    ghost function Snapshot(): State
      reads this
    {
      State(inTestMode, isInitialMessage, currentMaxRpm, flashInterval, blinkThreshold,
            pedalListeners, leds, bars)
    }

    /** runApp (sockets, UI and the wheel connection left out). */
    constructor RunApp(maxRpm: Num, configuredFlashInterval: Option<nat>,
                       configuredBlinkThreshold: Option<real>)
      ensures Snapshot() == Startup(maxRpm, configuredFlashInterval, configuredBlinkThreshold)
    {
      inTestMode := true;
      flashInterval := Config.DefaultFlashInterval;
      blinkThreshold := Config.DefaultBlinkThreshold;
      pedalListeners := 0;
      leds, bars := [], [];
      if configuredFlashInterval.Some? && configuredFlashInterval.value != 0 {
        flashInterval := configuredFlashInterval.value;
      }
      if configuredBlinkThreshold.Some? && configuredBlinkThreshold.value != 0.0 {
        blinkThreshold := configuredBlinkThreshold.value;
      }
      new;
      HandleTestMode();
      isInitialMessage := true;
      currentMaxRpm := maxRpm;
    }

    method HandleTestMode()
      modifies this`inTestMode, this`pedalListeners
      ensures Snapshot() == TestModeStep(old(Snapshot()))
    {
      if !inTestMode {
        inTestMode := true;
      }
      pedalListeners := pedalListeners + 1;
    }

    /** parseUDPMessage: one LED command per datagram, NaN excepted; `maxRpm` is its parameter. */
    method ParseUdpMessage(msg: seq<Byte>, maxRpm: Num, now: nat, host: Endianness)
      modifies this`leds
      ensures leds == old(leds) + ToSeq(MessageCommand(msg, maxRpm, blinkThreshold, flashInterval, now, host))
    {
      var localMaxRpm := maxRpm;
      var currentRpm := ParseRpmFromMessage(msg, host);
      var rpmFraction := CalculateRpmFraction(currentRpm, localMaxRpm);
      var flashState := FlashState(now, flashInterval);
      if IsValidRpmFraction(rpmFraction) {
        if AtLeast(rpmFraction, blinkThreshold) && Below(rpmFraction, 1.0) {
          leds := leds + [1.0];
        } else if AtLeast(rpmFraction, 1.0) {
          leds := leds + [flashState as real];
        } else {
          leds := leds + [rpmFraction.value];
        }
      } else {
        if Above(rpmFraction, 1.0) {
          // the recalibrated ceiling only replaces the local copy
          localMaxRpm := CeilToThousand(currentRpm);
          leds := leds + [flashState as real];
        } else if AtMost(rpmFraction, 0.0) {
          leds := leds + [0.0];
        }
      }
    }

    /** The socket's "message" handler installed by handleGameMode. */
    method HandleMessage(msg: seq<Byte>, now: nat, host: Endianness)
      modifies this`inTestMode, this`isInitialMessage, this`leds
      ensures Snapshot() == MessageStep(old(Snapshot()), msg, now, host)
    {
      if isInitialMessage {
        inTestMode := false;
        isInitialMessage := false;
      }
      if !inTestMode {
        ParseUdpMessage(msg, currentMaxRpm, now, host);
      }
    }

    method HandleGasPedalValue(val: real)
      modifies this`leds, this`bars
      ensures Snapshot() == PedalStep(old(Snapshot()), Gas, val)
    {
      if inTestMode {
        leds := leds + Repeat(val, pedalListeners);
        bars := bars + Repeat(BarUpdate(Gas, val * 100.0), pedalListeners);
      }
    }

    method HandleBrakePedalValue(val: real)
      modifies this`bars
      ensures Snapshot() == PedalStep(old(Snapshot()), Brake, val)
    {
      if inTestMode {
        bars := bars + Repeat(BarUpdate(Brake, val * 100.0), pedalListeners);
      }
    }

    method HandleClutchPedalValue(val: real)
      modifies this`bars
      ensures Snapshot() == PedalStep(old(Snapshot()), Clutch, val)
    {
      if inTestMode {
        bars := bars + Repeat(BarUpdate(Clutch, val * 100.0), pedalListeners);
      }
    }
  }
}
