/**
 * A single-precision number read from the wire is converted to double precision
 * (c/third_party/mpack_stub.h:269-275). Both patterns are given their meaning as numbers, in the
 * binary interchange formats of IEEE 754, and the conversion is shown to keep it.
 */
module FloatWidening {
  import opened Bytes
  import opened Mpack
  import opened ValueRoundTrip

  /** Two to the power of any integer. */
  function Pow2(e: int): (r: real)
    ensures r > 0.0
    decreases if e < 0 then -e else e
  {
    if e == 0 then 1.0 else if e > 0 then 2.0 * Pow2(e - 1) else Pow2(e + 1) / 2.0
  }

  // ---------------------------------------------------------------------------
  // Patterns
  // ---------------------------------------------------------------------------

  type single = n: int | 0 <= n < 0x1_0000_0000

  /** The fields of a pattern. */
  datatype Pattern = Pattern(negative: bool, exp: nat, man: nat)

  /** One sign bit, eight exponent bits, twenty-three mantissa bits. */
  function Fields32(f: single): Pattern {
    Pattern(f >= 0x8000_0000, f % 0x8000_0000 / 0x80_0000, f % 0x80_0000)
  }

  /** One sign bit, eleven exponent bits, fifty-two mantissa bits. */
  function Fields64(b: uint64): Pattern {
    Pattern(b >= 0x8000_0000_0000_0000, b % 0x8000_0000_0000_0000 / 0x10_0000_0000_0000, b % 0x10_0000_0000_0000)
  }

  function Scaled(m: int, e: int): real {
    m as real * Pow2(e)
  }

  function WithSign(negative: bool, x: real): real {
    if negative then -x else x
  }

  /** The number a finite single-precision pattern stands for: subnormal, or with an implicit leading one. */
  function Value32(f: single): real {
    var x := Fields32(f);
    WithSign(x.negative, if x.exp == 0 then Scaled(x.man, -149) else Scaled(0x80_0000 + x.man, x.exp - 150))
  }

  function Value64(b: uint64): real {
    var x := Fields64(b);
    WithSign(x.negative, if x.exp == 0 then Scaled(x.man, -1074) else Scaled(0x10_0000_0000_0000 + x.man, x.exp - 1075))
  }

  // ---------------------------------------------------------------------------
  // Arithmetic
  // ---------------------------------------------------------------------------

  lemma {:induction false} Doubled(e: int)
    ensures Pow2(e + 1) == 2.0 * Pow2(e)
  {
  }

  function Two(n: nat): (r: int)
    ensures r >= 1
  {
    if n == 0 then 1 else 2 * Two(n - 1)
  }

  lemma {:induction false} Shifted(e: int, n: nat)
    ensures Pow2(e + n) == Two(n) as real * Pow2(e)
  {
    if n > 0 {
      Shifted(e, n - 1);
      Doubled(e + n - 1);
      assert Two(n) as real == 2.0 * Two(n - 1) as real;
    }
  }

  lemma {:induction false} TwentyNine()
    ensures Two(29) == 0x2000_0000 && Two(23) == 0x80_0000
  {
    assert Two(8) == 0x100 && Two(16) == 0x1_0000;
    assert Two(23) == 128 * Two(16);
    assert Two(29) == 64 * Two(23);
  }

  /** Shifting a mantissa up and its exponent down keeps the product. */
  lemma {:induction false} SameProduct(m: int, e: int)
    ensures Scaled(m * 0x2000_0000, e - 29) == Scaled(m, e)
  {
    hide Pow2, Two;
    TwentyNine();
    Shifted(e - 29, 29);
    assert (m * 0x2000_0000) as real == m as real * 0x2000_0000 as real;
  }

  /** A pattern put together from its fields. */
  lemma {:induction false} Packed(negative: bool, exp: nat, man: nat)
    requires exp < 0x800 && man < 0x10_0000_0000_0000
    ensures var b := (if negative then TWO_63 else 0) + exp * 0x10_0000_0000_0000 + man;
            0 <= b < TWO_64 && Fields64(b) == Pattern(negative, exp, man)
  {
  }

  // ---------------------------------------------------------------------------
  // Subnormal numbers
  // ---------------------------------------------------------------------------

  /** `n` shifts are enough to bring the leading one into place. */
  predicate Reaches(man: nat, n: nat) {
    man * Two(n) >= 0x80_0000
  }

  lemma {:induction false} OneShift(man: nat, n: nat, e: int)
    requires Reaches(man, n) && man < 0x80_0000
    ensures n > 0 && Reaches(man * 2, n - 1)
    ensures Scaled(man * 2, e - 1) == Scaled(man, e)
  {
    if n > 0 { assert man * 2 * Two(n - 1) == man * Two(n); }
    Doubled(e - 1);
    hide Pow2;
    assert (man * 2) as real == man as real * 2.0;
  }

  /** The shifting loop ends with the leading one in place, before the exponent runs out. */
  lemma {:induction false} Normalised(man: nat, exp: nat, n: nat) returns (m: int, e: int)
    requires 0 < man < 0x100_0000 && Reaches(man, n) && n < exp <= 897
    ensures WidenSubnormal(man, exp) == e * 0x10_0000_0000_0000 + m * 0x2000_0000
    ensures 0 <= m < 0x80_0000 && 0 < e <= 897
    ensures Scaled(0x80_0000 + m, e - 1046) == Scaled(man, exp - 1046)
    decreases n
  {
    hide Scaled, Reaches;
    if man >= 0x80_0000 {
      m, e := man - 0x80_0000, exp;
    } else {
      OneShift(man, n, exp - 1046);
      m, e := Normalised(man * 2, exp - 1, n - 1);
    }
  }

  // ---------------------------------------------------------------------------
  // The conversion
  // ---------------------------------------------------------------------------

  lemma {:induction false} WidenNormal(f: single)
    requires 0 < Fields32(f).exp < 0xFF
    ensures var x := Fields32(f);
            Fields64(Widen(f)) == Pattern(x.negative, x.exp + 896, x.man * 0x2000_0000)
  {
    var x := Fields32(f);
    SplitSingle(f);
    Packed(x.negative, x.exp + 896, x.man * 0x2000_0000);
    hide Fields64;
  }

  /** The two ways to take a single-precision pattern apart agree. */
  lemma {:induction false} SplitSingle(f: single)
    ensures f / 0x8000_0000 == (if Fields32(f).negative then 1 else 0)
    ensures f / 0x80_0000 % 0x100 == Fields32(f).exp && Fields32(f).exp < 0x100
  {
  }

  lemma {:induction false} WidenZero(f: single)
    requires Fields32(f).exp == 0 && Fields32(f).man == 0
    ensures Fields64(Widen(f)) == Fields32(f) && Value64(Widen(f)) == Value32(f)
  {
    hide WidenSubnormal, Pow2;
    SplitSingle(f);
    Packed(Fields32(f).negative, 0, 0);
  }

  lemma {:induction false} WidenSubnormals(f: single) returns (m: int, e: int)
    requires Fields32(f).exp == 0 && Fields32(f).man != 0
    ensures 0 <= m < 0x80_0000 && 0 < e <= 897
    ensures Fields64(Widen(f)) == Pattern(Fields32(f).negative, e, m * 0x2000_0000)
    ensures Scaled(0x80_0000 + m, e - 1046) == Scaled(Fields32(f).man, -149)
  {
    hide Scaled, WidenSubnormal;
    SplitSingle(f);
    EnoughShifts(Fields32(f).man);
    m, e := Normalised(Fields32(f).man, 897, 23);
    Packed(Fields32(f).negative, e, m * 0x2000_0000);
    hide Fields64;
  }

  lemma {:induction false} EnoughShifts(man: nat)
    requires man > 0
    ensures Reaches(man, 23)
  {
    hide Two;
    TwentyNine();
  }

  lemma {:induction false} SmallValue(f: single)
    requires Fields32(f).exp == 0
    ensures Fields64(Widen(f)).exp < 0x7FF && Fields64(Widen(f)).negative == Fields32(f).negative && Value64(Widen(f)) == Value32(f)
  {
    hide Fields64, Scaled, Widen, Fields32;
    if Fields32(f).man == 0 {
      WidenZero(f);
    } else {
      var m, e := WidenSubnormals(f);
      SameProduct(0x80_0000 + m, e - 1046);
    }
  }

  /** The number is the same, and so is its sign, also for zeros; infinities and NaNs stay what they are, and NaNs come out quiet. */
  lemma {:induction false} WidenKeepsTheNumber(f: single)
    ensures Fields64(Widen(f)).negative == Fields32(f).negative
    ensures Fields32(f).exp < 0xFF ==> Fields64(Widen(f)).exp < 0x7FF && Value64(Widen(f)) == Value32(f)
    ensures Fields32(f).exp == 0xFF && Fields32(f).man == 0 ==> Fields64(Widen(f)).exp == 0x7FF && Fields64(Widen(f)).man == 0
    ensures Fields32(f).exp == 0xFF && Fields32(f).man != 0 ==> Fields64(Widen(f)).exp == 0x7FF && Fields64(Widen(f)).man >= 0x8_0000_0000_0000
  {
    hide Value32, Value64, Widen, Fields64;
    SplitSingle(f);
    hide Fields32;
    if Fields32(f).exp == 0 {
      SmallValue(f);
    } else if Fields32(f).exp < 0xFF {
      NormalValue(f);
    } else {
      WidenSpecial(f);
    }
  }

  lemma {:induction false} NormalValue(f: single)
    requires 0 < Fields32(f).exp < 0xFF
    ensures Fields64(Widen(f)).exp < 0x7FF && Fields64(Widen(f)).negative == Fields32(f).negative && Value64(Widen(f)) == Value32(f)
  {
    hide Fields64, Scaled, Widen, Fields32;
    var x := Fields32(f);
    WidenNormal(f);
    SameProduct(0x80_0000 + x.man, x.exp - 150);
  }

  lemma {:induction false} WidenSpecial(f: single)
    requires Fields32(f).exp == 0xFF
    ensures Fields64(Widen(f)).negative == Fields32(f).negative && Fields64(Widen(f)).exp == 0x7FF
    ensures Fields32(f).man == 0 ==> Fields64(Widen(f)).man == 0
    ensures Fields32(f).man != 0 ==> Fields64(Widen(f)).man >= 0x8_0000_0000_0000
  {
    var x := Fields32(f);
    SplitSingle(f);
    var man := (if 0 < x.man < 0x40_0000 then x.man + 0x40_0000 else x.man) * 0x2000_0000;
    Packed(x.negative, 0x7FF, man);
    hide Fields64;
  }

  /** A single-precision number on the wire is decoded as a double with the same value, and what follows it is left. */
  lemma {:induction false} SingleIsRead(f: single, rest: bytes) returns (b: uint64)
    ensures Dec(At([0xCA] + U32(f) + rest)) == Got(Value.Float(b), At(rest))
    ensures Fields64(b).negative == Fields32(f).negative
    ensures Fields32(f).exp < 0xFF ==> Fields64(b).exp < 0x7FF && Value64(b) == Value32(f)
    ensures Fields32(f).exp == 0xFF ==> Fields64(b).exp == 0x7FF && (Fields64(b).man == 0 <==> Fields32(f).man == 0)
  {
    hide Fields32, Fields64, Value32, Value64;
    b := Widen(f);
    WidenKeepsTheNumber(f);
    hide Widen;
    var r := At([0xCA] + U32(f) + rest);
    DropTag(0xCA, U32(f), rest);
    ReadU32Back(f, rest);
    NumberByTag(r);
  }
}
