/**
 * The run-flag bitmask of ELComparisons: two engine bits and two mode bits in
 * a Java `int`, modelled as `bv32` so that `+` wraps exactly as Java's does.
 */
module Flags {
  const RUN_MVEL: bv32 := 1
  const RUN_OGNL: bv32 := 1 << 1
  const COMPILED: bv32 := 1 << 30
  const INTERPRETED: bv32 := 1 << 31
  const ALL: bv32 := RUN_MVEL + RUN_OGNL

  /** `(flags & bit) != 0` */
  predicate Has(flags: bv32, bit: bv32)
  {
    flags & bit != 0
  }

  /** The signed value Java gives a 32-bit pattern. */
  function JavaInt(b: bv32): (v: int)
    ensures -0x8000_0000 <= v < 0x8000_0000
    ensures v < 0 <==> b as int >= 0x8000_0000
    ensures v == b as int || v == b as int - 0x1_0000_0000
  {
    var u := b as int;
    if u < 0x8000_0000 then u else u - 0x1_0000_0000
  }

  /**
   * `(x & bit) != 0` for a Java `long` x, as its 64-bit pattern, and an `int`
   * bit, which Java first widens to `long` by sign extension.
   */
  predicate LongHas(x: bv64, bit: bv32)
  {
    var wide := if Has(bit, INTERPRETED) then bit as bv64 | 0xFFFF_FFFF_0000_0000 else bit as bv64;
    x & wide != 0
  }

  /** The mode bits `main` composes with `+` (line 97). */
  function ModeFlags(compiled: bool, interpreted: bool): bv32
  {
    (if compiled then COMPILED else 0) + (if interpreted then INTERPRETED else 0)
  }

  /**
   * The four bits are distinct, so every `+` that main applies to them is a
   * bitwise OR, and each bit of the sum is set exactly when it was chosen.
   */
  lemma ComposedFlags(compiled: bool, interpreted: bool, engine: bv32)
    requires engine == RUN_OGNL || engine == RUN_MVEL
    ensures ModeFlags(compiled, interpreted) + engine == ModeFlags(compiled, interpreted) | engine
    ensures ModeFlags(compiled, interpreted) == (if compiled then COMPILED else 0) | (if interpreted then INTERPRETED else 0)
    ensures Has(ModeFlags(compiled, interpreted) + engine, COMPILED) <==> compiled
    ensures Has(ModeFlags(compiled, interpreted) + engine, INTERPRETED) <==> interpreted
    ensures Has(ModeFlags(compiled, interpreted) + engine, RUN_OGNL) <==> engine == RUN_OGNL
    ensures Has(ModeFlags(compiled, interpreted) + engine, RUN_MVEL) <==> engine == RUN_MVEL
  {
  }

  /** INTERPRETED is the sign bit: as a Java int it is Integer.MIN_VALUE. */
  lemma InterpretedIsSignBit()
    ensures JavaInt(INTERPRETED) == -0x8000_0000
    ensures JavaInt(ModeFlags(true, true) + RUN_OGNL) == -0x4000_0000 + 2
    ensures ALL == 3
  {
  }
}
