/**
 * What the bridge sends to the outside: LED intensities to the wheel (the
 * `leds` call of the wheel driver) and pedal progress-bar updates to the
 * console UI. Both are modelled as logs the handlers append to.
 */
module Wheel {
  datatype Pedal = Gas | Brake | Clutch

  /** One progress-bar update: the pedal and its value scaled to a percentage. */
  datatype BarUpdate = BarUpdate(pedal: Pedal, percent: real)
}
