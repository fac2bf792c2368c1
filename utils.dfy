/**
 * Telemetry decoding and the fraction helpers (src/utils.js).
 *
 * A datagram is a byte sequence; the RPM is the binary32 at offset 16 of the
 * OutGauge packet. The four bytes are copied into a fresh buffer and read
 * back through a `Float32Array`, which uses the host's byte order.
 */
module Utils {
  import opened JsNumber
  import Binary32

  type Byte = b: int | 0 <= b < 256

  datatype Endianness = LittleEndian | BigEndian

  /** Offset of the RPM field in the datagram. */
  const RpmOffset: nat := 16

  /**
   * `msg[i]` as the `Uint8Array` constructor sees it: a missing index reads
   * `undefined`, which converts to 0.
   */
  function ByteAt(msg: seq<Byte>, i: nat): (b: Byte)
    ensures i < |msg| ==> b == msg[i]
    ensures i >= |msg| ==> b == 0
  {
    if i < |msg| then msg[i] else 0
  }

  /** The 32-bit pattern formed by four bytes laid out in memory in the given order. */
  function Assemble(b0: Byte, b1: Byte, b2: Byte, b3: Byte, host: Endianness): Binary32.Bits32 {
    match host
    case LittleEndian => ((b3 * 256 + b2) * 256 + b1) * 256 + b0
    case BigEndian => ((b0 * 256 + b1) * 256 + b2) * 256 + b3
  }

  /** The bit pattern the `Float32Array` view reads from bytes 16..19. */
  function RpmBits(msg: seq<Byte>, host: Endianness): Binary32.Bits32 {
    Assemble(ByteAt(msg, RpmOffset), ByteAt(msg, RpmOffset + 1),
             ByteAt(msg, RpmOffset + 2), ByteAt(msg, RpmOffset + 3), host)
  }

  /**
   * parseRpmFromMessage: the binary32 at offset 16 in host byte order, never
   * failing; a datagram with nothing at offset 16 reads as 0.
   */
  function ParseRpmFromMessage(msg: seq<Byte>, host: Endianness): (r: Num)
    ensures |msg| <= RpmOffset ==> r == Fin(0.0)
  {
    Binary32.Value(RpmBits(msg, host))
  }

  /** calculateRpmFraction: the current RPM over the ceiling, as JavaScript divides. */
  function CalculateRpmFraction(currentRpm: Num, maxRpm: Num): (f: Num)
    ensures currentRpm.Fin? && maxRpm.Fin? && maxRpm.value != 0.0 ==>
              f == Fin(currentRpm.value / maxRpm.value)
    ensures currentRpm == Fin(0.0) && maxRpm == Fin(0.0) ==> f.NaN?
  {
    Div(currentRpm, maxRpm)
  }

  /** isValidRpmFraction: the closed interval [0, 1]; NaN and the infinities are outside it. */
  predicate IsValidRpmFraction(f: Num)
    ensures IsValidRpmFraction(f) <==> f.Fin? && 0.0 <= f.value <= 1.0
  {
    AtLeast(f, 0.0) && AtMost(f, 1.0)
  }

  // Properties of the decoder

  /** The result depends on bytes 16..19 only (with missing bytes read as 0). */
  lemma OnlyRpmBytesMatter(m1: seq<Byte>, m2: seq<Byte>, host: Endianness)
    requires forall i :: RpmOffset <= i < RpmOffset + 4 ==> ByteAt(m1, i) == ByteAt(m2, i)
    ensures ParseRpmFromMessage(m1, host) == ParseRpmFromMessage(m2, host)
  {
  }

  /** Overwriting a byte outside 16..19 leaves the decoded RPM unchanged. */
  lemma OtherBytesIgnored(msg: seq<Byte>, i: nat, v: Byte, host: Endianness)
    requires i < |msg| && !(RpmOffset <= i < RpmOffset + 4)
    ensures ParseRpmFromMessage(msg[i := v], host) == ParseRpmFromMessage(msg, host)
  {
  }

  /** A message of 16 bytes or fewer reads the all-zero pattern: +0.0, on either host. */
  lemma ShortMessageIsZero(msg: seq<Byte>, host: Endianness)
    requires |msg| <= RpmOffset
    ensures ParseRpmFromMessage(msg, host) == Fin(0.0)
  {
  }

  /** Missing bytes of a message cut short inside the RPM field read as 0. */
  lemma TruncatedMessagePadsWithZeros(msg: seq<Byte>, host: Endianness)
    requires |msg| < RpmOffset + 4
    ensures ParseRpmFromMessage(msg, host) == ParseRpmFromMessage(msg + Zeros(RpmOffset + 4 - |msg|), host)
  {
  }

  function Zeros(n: nat): (z: seq<Byte>)
    ensures |z| == n && forall i :: 0 <= i < n ==> z[i] == 0
  {
    if n == 0 then [] else [0] + Zeros(n - 1)
  }

  /** A big-endian host reads the byte-reversed pattern of a little-endian one. */
  lemma HostOrderSwapsBytes(msg: seq<Byte>)
    ensures RpmBits(msg, BigEndian) ==
              Assemble(ByteAt(msg, 19), ByteAt(msg, 18), ByteAt(msg, 17), ByteAt(msg, 16), LittleEndian)
  {
  }

  // Properties of the fraction helpers

  /** The fraction times the ceiling gives back the reading, for a finite non-zero ceiling. */
  lemma FractionScalesBack(currentRpm: real, maxRpm: real)
    requires maxRpm != 0.0
    ensures CalculateRpmFraction(Fin(currentRpm), Fin(maxRpm)).value * maxRpm == currentRpm
  {
  }

  /** Readings between 0 and a positive finite ceiling give valid fractions, and only those. */
  lemma ValidExactlyWithinCeiling(currentRpm: real, maxRpm: real)
    requires maxRpm > 0.0
    ensures var f := CalculateRpmFraction(Fin(currentRpm), Fin(maxRpm));
            IsValidRpmFraction(f) <==> 0.0 <= currentRpm <= maxRpm
  {
    var q := currentRpm / maxRpm;
    assert q * maxRpm == currentRpm;
    if 0.0 <= currentRpm <= maxRpm {
      assert 0.0 <= q <= 1.0;
    } else if currentRpm < 0.0 {
      assert q < 0.0;
    } else {
      assert q > 1.0;
    }
  }

  /** With a positive finite ceiling, the fraction exceeds 1 exactly when the reading exceeds the ceiling. */
  lemma FractionAboveOne(currentRpm: real, maxRpm: real)
    requires maxRpm > 0.0
    ensures CalculateRpmFraction(Fin(currentRpm), Fin(maxRpm)).value > 1.0 <==> currentRpm > maxRpm
  {
    var q := currentRpm / maxRpm;
    assert q * maxRpm == currentRpm;
    assert (q - 1.0) * maxRpm == currentRpm - maxRpm;
  }
}
