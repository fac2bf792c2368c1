/**
 * The numeric value of an IEEE 754 binary32 bit pattern (section 3.4 of
 * IEEE 754-2008): one sign bit, an 8-bit biased exponent and a 23-bit
 * trailing significand. This is what a `Float32Array` element reads as.
 */
module Binary32 {
  import opened JsNumber

  const ExponentBias: nat := 127
  const FractionBits: nat := 23
  /** 2^23, the weight of the implicit leading significand bit. */
  const Hidden: nat := 0x80_0000

  function Pow2(n: nat): (r: real)
    ensures r >= 1.0
  {
    if n == 0 then 1.0 else 2.0 * Pow2(n - 1)
  }

  /** 2^e for any integer exponent. */
  function Scale(e: int): (r: real)
    ensures r > 0.0
  {
    if e >= 0 then Pow2(e) else 1.0 / Pow2(-e)
  }

  /** A 32-bit pattern, read as an unsigned integer (bit 31 most significant). */
  type Bits32 = n: int | 0 <= n < 0x1_0000_0000

  function SignBit(bits: Bits32): bool {
    bits >= 0x8000_0000
  }

  function BiasedExponent(bits: Bits32): (e: nat)
    ensures e < 256
  {
    (bits / Hidden) % 256
  }

  function Fraction(bits: Bits32): (f: nat)
    ensures f < Hidden
  {
    bits % Hidden
  }

  /**
   * The value of a binary32 datum: all-ones exponent is an infinity (zero
   * fraction) or NaN; zero exponent is zero or subnormal; otherwise a normal
   * number with the implicit leading bit.
   */
  function Value(bits: Bits32): (v: Num)
    ensures v.NaN? <==> BiasedExponent(bits) == 255 && Fraction(bits) != 0
    ensures v.Fin? <==> BiasedExponent(bits) < 255
    ensures v.Fin? ==> (v.value < 0.0 ==> SignBit(bits)) && (v.value > 0.0 ==> !SignBit(bits))
  {
    var e := BiasedExponent(bits);
    var f := Fraction(bits);
    if e == 255 then
      (if f != 0 then NaN else if SignBit(bits) then NegInf else PosInf)
    else
      var magnitude :=
        if e == 0 then f as real * Scale(1 - ExponentBias - FractionBits)
        else (Hidden + f) as real * Scale(e - ExponentBias - FractionBits);
      Fin(if SignBit(bits) then -magnitude else magnitude)
  }

  /** 0x45DAC000 is the binary32 encoding of 7000. */
  lemma SevenThousandPattern()
    ensures Value(0x45DA_C000) == Fin(7000.0)
  {
    assert BiasedExponent(0x45DA_C000) == 139;
    assert Fraction(0x45DA_C000) == 0x5A_C000;
    assert !SignBit(0x45DA_C000);
    assert Scale(139 - 127 - 23) == 1.0 / 2048.0;
  }
}
