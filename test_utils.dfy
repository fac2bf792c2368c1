/**
 * The datagram encoder used by the tests (src/testUtils.js): sixteen zero
 * bytes followed by the RPM written as a little-endian binary32.
 *
 * `Buffer.writeFloatLE` first rounds the JavaScript number to binary32; that
 * rounding is the parameter `toBinary32`, left abstract.
 */
module TestUtils {
  import opened JsNumber
  import Binary32
  import opened Utils

  /** The four bytes of a 32-bit pattern, least significant first. */
  function LittleEndianBytes(bits: Binary32.Bits32): (b: seq<Byte>)
    ensures |b| == 4
    ensures Assemble(b[0], b[1], b[2], b[3], LittleEndian) == bits
  {
    [bits % 256, (bits / 0x100) % 256, (bits / 0x1_0000) % 256, bits / 0x100_0000]
  }

  /** createMockMessage */
  function CreateMockMessage(rpm: Num, toBinary32: Num -> Binary32.Bits32): (msg: seq<Byte>)
    ensures |msg| == RpmOffset + 4
    ensures forall i :: 0 <= i < RpmOffset ==> msg[i] == 0
    ensures msg[RpmOffset..] == LittleEndianBytes(toBinary32(rpm))
  {
    Zeros(RpmOffset) + LittleEndianBytes(toBinary32(rpm))
  }

  /** On a little-endian host the decoder reads back exactly the pattern the encoder wrote. */
  lemma RoundTrip(rpm: Num, toBinary32: Num -> Binary32.Bits32)
    ensures RpmBits(CreateMockMessage(rpm, toBinary32), LittleEndian) == toBinary32(rpm)
    ensures ParseRpmFromMessage(CreateMockMessage(rpm, toBinary32), LittleEndian)
         == Binary32.Value(toBinary32(rpm))
  {
  }

  /** A rounding that keeps every value binary32 can already represent. */
  ghost predicate KeepsRepresentable(toBinary32: Num -> Binary32.Bits32) {
    forall bits: Binary32.Bits32 {:trigger Binary32.Value(bits)} ::
      Binary32.Value(toBinary32(Binary32.Value(bits))) == Binary32.Value(bits)
  }

  /** A representable reading survives encoding then decoding on a little-endian host. */
  lemma RepresentableRoundTrip(bits: Binary32.Bits32, toBinary32: Num -> Binary32.Bits32)
    requires KeepsRepresentable(toBinary32)
    ensures ParseRpmFromMessage(CreateMockMessage(Binary32.Value(bits), toBinary32), LittleEndian)
         == Binary32.Value(bits)
  {
  }

  /** The test's example: 7000 is encoded and read back as 7000. */
  lemma SevenThousandRoundTrip(toBinary32: Num -> Binary32.Bits32)
    requires KeepsRepresentable(toBinary32)
    ensures ParseRpmFromMessage(CreateMockMessage(Fin(7000.0), toBinary32), LittleEndian) == Fin(7000.0)
  {
    Binary32.SevenThousandPattern();
    RepresentableRoundTrip(0x45DA_C000, toBinary32);
  }
}
