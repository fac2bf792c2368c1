/** The defaults of the bridge's configuration. */
module Config {
  /** Default RPM ceiling. */
  const DefaultMaxRpm: real := 7000.0
  /** Default half-period of the over-redline blink, in milliseconds. */
  const DefaultFlashInterval: nat := 100
  /** Default fraction of the ceiling at which the LEDs turn solid. */
  const DefaultBlinkThreshold: real := 0.9
}
