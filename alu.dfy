/**
 * The integer ALU of the RV32I simulator: the operations behind the
 * register-register handlers (execADD ... execSRA) and the register-immediate
 * handlers (execADDI ... execSRAI). Registers hold 32-bit words, so `bv32`
 * arithmetic, which Dafny defines modulo 2^32, is the C++ `uint32_t`
 * arithmetic of the source.
 */
module Alu {
  import opened Wrappers

  /** The ALU operations shared by the R-type and I-type arithmetic handlers. */
  datatype AluOp = Add | Sub | Sll | Slt | Sltu | Xor | Srl | Sra | Or | And

  /** Bit 31 is set: the word is negative when read as an `int32_t`. */
  predicate Negative(x: bv32) {
    x >= 0x8000_0000
  }

  /**
   * The value of a word reinterpreted as a two's-complement `int32_t`: bits
   * 30..0 count as usual and bit 31 weighs -2^31.
   */
  function Signed(x: bv32): (v: int)
    ensures -0x8000_0000 <= v < 0x8000_0000
    ensures v < 0 <==> Negative(x)
  {
    var low := (x & 0x7FFF_FFFF) as bv31;
    if Negative(x) then low as int - 0x8000_0000 else low as int
  }

  /** SLL/SLLI: `a << (b & 0x1F)`; only the low five bits of the amount count. */
  function ShiftLeft(a: bv32, b: bv32): bv32 {
    a << (b & 0x1F)
  }

  /** SRL/SRLI: `a >> (b & 0x1F)` on the unsigned word. */
  function ShiftRightLogical(a: bv32, b: bv32): bv32 {
    a >> (b & 0x1F)
  }

  /**
   * SRA/SRAI: `(int32_t)a >> (b & 0x1F)`, the logical shift with the sign bit
   * copied into every vacated top bit.
   */
  function ShiftRightArithmetic(a: bv32, b: bv32): bv32 {
    if Negative(a) then (a >> (b & 0x1F)) | !(0xFFFF_FFFF >> (b & 0x1F))
    else a >> (b & 0x1F)
  }

  /** SLT/SLTI: signed comparison, result 1 or 0. */
  function SetLessThan(a: bv32, b: bv32): bv32 {
    if Signed(a) < Signed(b) then 1 else 0
  }

  /** SLTU/SLTIU: unsigned comparison, result 1 or 0. */
  function SetLessThanUnsigned(a: bv32, b: bv32): bv32 {
    if a < b then 1 else 0
  }

  /** The result of ALU operation `op` on the operands `a` and `b`. */
  function Compute(op: AluOp, a: bv32, b: bv32): bv32 {
    match op
    case Add => a + b
    case Sub => a - b
    case Sll => ShiftLeft(a, b)
    case Slt => SetLessThan(a, b)
    case Sltu => SetLessThanUnsigned(a, b)
    case Xor => a ^ b
    case Srl => ShiftRightLogical(a, b)
    case Sra => ShiftRightArithmetic(a, b)
    case Or => a | b
    case And => a & b
  }

  /** The `int32_t` view is the unsigned value, less 2^32 when bit 31 is set. */
  lemma SignedValue(x: bv32)
    ensures !Negative(x) ==> Signed(x) == x as int
    ensures Negative(x) ==> Signed(x) == x as int - 0x1_0000_0000
  {
  }

  lemma ShiftLeftAmount(a: bv32, b: bv32)
    ensures ShiftLeft(a, b) == ShiftLeft(a, b & 0x1F)
    ensures ShiftLeft(a, b) == ShiftLeft(a, b + 32)
  {
  }

  lemma ShiftRightLogicalAmount(a: bv32, b: bv32)
    ensures ShiftRightLogical(a, b) == ShiftRightLogical(a, b & 0x1F)
    ensures ShiftRightLogical(a, b) == ShiftRightLogical(a, b + 32)
  {
  }

  lemma ShiftRightArithmeticAmount(a: bv32, b: bv32)
    ensures ShiftRightArithmetic(a, b) == ShiftRightArithmetic(a, b & 0x1F)
    ensures ShiftRightArithmetic(a, b) == ShiftRightArithmetic(a, b + 32)
  {
  }

  /**
   * Every shift uses only the low five bits of its amount: masking the amount
   * changes nothing, and a shift by 32 + k is a shift by k.
   */
  lemma ShiftsMaskAmount(op: AluOp, a: bv32, b: bv32)
    requires op == Sll || op == Srl || op == Sra
    ensures Compute(op, a, b) == Compute(op, a, b & 0x1F)
    ensures Compute(op, a, b) == Compute(op, a, b + 32)
  {
    match op
    case Sll => ShiftLeftAmount(a, b);
    case Srl => ShiftRightLogicalAmount(a, b);
    case Sra => ShiftRightArithmeticAmount(a, b);
  }

  /** SLL fills the low `b & 0x1F` bits with zeros. */
  lemma ShiftLeftFillsZeros(a: bv32, b: bv32)
    ensures ShiftLeft(a, b) & !(0xFFFF_FFFF << (b & 0x1F)) == 0
  {
  }

  /** SRL fills the top `b & 0x1F` bits with zeros. */
  lemma ShiftRightLogicalFillsZeros(a: bv32, b: bv32)
    ensures ShiftRightLogical(a, b) & !(0xFFFF_FFFF >> (b & 0x1F)) == 0
  {
  }

  /** On a non-negative word the arithmetic shift is the logical shift. */
  lemma RightShiftsAgreeOnNonNegative(a: bv32, b: bv32)
    requires !Negative(a)
    ensures ShiftRightArithmetic(a, b) == ShiftRightLogical(a, b)
  {
  }

  /**
   * On a negative word the arithmetic shift sets the top `b & 0x1F` bits and
   * keeps the logical shift in the others.
   */
  lemma ShiftRightArithmeticFillsSign(a: bv32, b: bv32)
    requires Negative(a)
    ensures ShiftRightArithmetic(a, b) & !(0xFFFF_FFFF >> (b & 0x1F)) == !(0xFFFF_FFFF >> (b & 0x1F))
    ensures ShiftRightArithmetic(a, b) & (0xFFFF_FFFF >> (b & 0x1F)) == ShiftRightLogical(a, b)
  {
  }

  /** Subtraction undoes addition modulo 2^32. */
  lemma SubUndoesAdd(a: bv32, b: bv32)
    ensures Compute(Sub, Compute(Add, a, b), b) == a
  {
    assert Compute(Add, a, b) == a + b;
    assert Compute(Sub, a + b, b) == (a + b) - b;
    AddThenSub(a, b);
  }

  /** Addition undoes subtraction modulo 2^32. */
  lemma AddUndoesSub(a: bv32, b: bv32)
    ensures Compute(Add, Compute(Sub, a, b), b) == a
  {
    assert Compute(Sub, a, b) == a - b;
    assert Compute(Add, a - b, b) == (a - b) + b;
    SubThenAdd(a, b);
  }

  lemma AddThenSub(a: bv32, b: bv32)
    ensures (a + b) - b == a
  {
  }

  lemma SubThenAdd(a: bv32, b: bv32)
    ensures (a - b) + b == a
  {
  }

  /**
   * A negative word is below a non-negative one for SLT but above it for
   * SLTU: the two comparisons differ exactly on operands of opposite sign.
   */
  lemma SignedAndUnsignedDisagreeAcrossSign(a: bv32, b: bv32)
    requires Negative(a) && !Negative(b)
    ensures Compute(Slt, a, b) == 1
    ensures Compute(Sltu, a, b) == 0
  {
  }

  // ---------------------------------------------------------------------
  // Unsigned order and integer order. The solver does not relate the order
  // of a wide bit-vector to the order of its integer value by itself, so the
  // link is built a byte at a time: a value is its low bits plus 2^k times
  // its top byte, and the order is decided by the top byte or, when those
  // agree, by the low bits.

  /** A byte's value is the sum of the place values of its set bits. */
  lemma ByteValue(h: bv8)
    ensures h as int == 0
      + (if h & 0x80 != 0 then 0x80 else 0)
      + (if h & 0x40 != 0 then 0x40 else 0)
      + (if h & 0x20 != 0 then 0x20 else 0)
      + (if h & 0x10 != 0 then 0x10 else 0)
      + (if h & 0x8 != 0 then 0x8 else 0)
      + (if h & 0x4 != 0 then 0x4 else 0)
      + (if h & 0x2 != 0 then 0x2 else 0)
      + (if h & 0x1 != 0 then 0x1 else 0)
  {
  }

  lemma LessToInt8(x: bv8, y: bv8)
    requires x < y
    ensures x as int < y as int
  {
  }

  lemma LessToInt7(x: bv7, y: bv7)
    requires x < y
    ensures x as int < y as int
  {
  }

  lemma AtMostToInt7(x: bv7, y: bv7)
    requires x <= y
    ensures x as int <= y as int
  {
  }

  /** A 15-bit value is its low 7 bits plus the place values of its top eight bits. */
  lemma TopBits15(x: bv15)
    ensures x as int == (x & 0x7F) as bv7 as int
      + (if x & 0x4000 != 0 then 0x4000 else 0)
      + (if x & 0x2000 != 0 then 0x2000 else 0)
      + (if x & 0x1000 != 0 then 0x1000 else 0)
      + (if x & 0x800 != 0 then 0x800 else 0)
      + (if x & 0x400 != 0 then 0x400 else 0)
      + (if x & 0x200 != 0 then 0x200 else 0)
      + (if x & 0x100 != 0 then 0x100 else 0)
      + (if x & 0x80 != 0 then 0x80 else 0)
  {
  }

  /** A 15-bit value is its low 7 bits plus 2^7 times its top byte. */
  lemma SplitTopByte15(x: bv15)
    ensures x as int == (x & 0x7F) as bv7 as int + 0x80 * (x >> 7) as bv8 as int
  {
    TopBits15(x);
    ByteValue((x >> 7) as bv8);
  }

  lemma PlaceValue7(a: int, b: int, hx: int, hy: int, lx: int, ly: int)
    requires a == lx + 0x80 * hx && b == ly + 0x80 * hy
    requires hx < hy && 0 <= lx < 0x80 && 0 <= ly
    ensures a < b
  {
  }

  /** A larger top byte makes a larger value, whatever the low 7 bits. */
  lemma LessByTopByte15(x: bv15, y: bv15)
    requires (x >> 7) as bv8 < (y >> 7) as bv8
    ensures x as int < y as int
  {
    SplitTopByte15(x);
    SplitTopByte15(y);
    LessToInt8((x >> 7) as bv8, (y >> 7) as bv8);
    PlaceValue7(x as int, y as int, (x >> 7) as bv8 as int, (y >> 7) as bv8 as int, (x & 0x7F) as bv7 as int, (y & 0x7F) as bv7 as int);
  }

  lemma LessByLowBits15(x: bv15, y: bv15)
    requires (x >> 7) as bv8 == (y >> 7) as bv8 && (x & 0x7F) as bv7 < (y & 0x7F) as bv7
    ensures x as int < y as int
  {
    SplitTopByte15(x);
    SplitTopByte15(y);
    LessToInt7((x & 0x7F) as bv7, (y & 0x7F) as bv7);
  }

  lemma AtMostByLowBits15(x: bv15, y: bv15)
    requires (x >> 7) as bv8 == (y >> 7) as bv8 && (x & 0x7F) as bv7 <= (y & 0x7F) as bv7
    ensures x as int <= y as int
  {
    SplitTopByte15(x);
    SplitTopByte15(y);
    AtMostToInt7((x & 0x7F) as bv7, (y & 0x7F) as bv7);
  }

  /** On 15 bits, `<` is decided by the top byte, then by the low 7 bits. */
  lemma LessSplit15(x: bv15, y: bv15)
    requires x < y
    ensures (x >> 7) as bv8 < (y >> 7) as bv8 || ((x >> 7) as bv8 == (y >> 7) as bv8 && (x & 0x7F) as bv7 < (y & 0x7F) as bv7)
  {
  }

  /** On 15 bits, `<=` is decided by the top byte, then by the low 7 bits. */
  lemma AtMostSplit15(x: bv15, y: bv15)
    requires x <= y
    ensures (x >> 7) as bv8 < (y >> 7) as bv8 || ((x >> 7) as bv8 == (y >> 7) as bv8 && (x & 0x7F) as bv7 <= (y & 0x7F) as bv7)
  {
  }

  /** On 15 bits, `<` on the bits is `<` on the integer values. */
  lemma LessToInt15(x: bv15, y: bv15)
    requires x < y
    ensures x as int < y as int
  {
    LessSplit15(x, y);
    if (x >> 7) as bv8 < (y >> 7) as bv8 {
      LessByTopByte15(x, y);
    } else {
      LessByLowBits15(x, y);
    }
  }

  /** On 15 bits, `<=` on the bits is `<=` on the integer values. */
  lemma AtMostToInt15(x: bv15, y: bv15)
    requires x <= y
    ensures x as int <= y as int
  {
    AtMostSplit15(x, y);
    if (x >> 7) as bv8 < (y >> 7) as bv8 {
      LessByTopByte15(x, y);
    } else {
      AtMostByLowBits15(x, y);
    }
  }

  /** A 23-bit value is its low 15 bits plus the place values of its top eight bits. */
  lemma TopBits23(x: bv23)
    ensures x as int == (x & 0x7FFF) as bv15 as int
      + (if x & 0x400000 != 0 then 0x400000 else 0)
      + (if x & 0x200000 != 0 then 0x200000 else 0)
      + (if x & 0x100000 != 0 then 0x100000 else 0)
      + (if x & 0x80000 != 0 then 0x80000 else 0)
      + (if x & 0x40000 != 0 then 0x40000 else 0)
      + (if x & 0x20000 != 0 then 0x20000 else 0)
      + (if x & 0x10000 != 0 then 0x10000 else 0)
      + (if x & 0x8000 != 0 then 0x8000 else 0)
  {
  }

  /** A 23-bit value is its low 15 bits plus 2^15 times its top byte. */
  lemma SplitTopByte23(x: bv23)
    ensures x as int == (x & 0x7FFF) as bv15 as int + 0x8000 * (x >> 15) as bv8 as int
  {
    TopBits23(x);
    ByteValue((x >> 15) as bv8);
  }

  lemma PlaceValue15(a: int, b: int, hx: int, hy: int, lx: int, ly: int)
    requires a == lx + 0x8000 * hx && b == ly + 0x8000 * hy
    requires hx < hy && 0 <= lx < 0x8000 && 0 <= ly
    ensures a < b
  {
  }

  /** A larger top byte makes a larger value, whatever the low 15 bits. */
  lemma LessByTopByte23(x: bv23, y: bv23)
    requires (x >> 15) as bv8 < (y >> 15) as bv8
    ensures x as int < y as int
  {
    SplitTopByte23(x);
    SplitTopByte23(y);
    LessToInt8((x >> 15) as bv8, (y >> 15) as bv8);
    PlaceValue15(x as int, y as int, (x >> 15) as bv8 as int, (y >> 15) as bv8 as int, (x & 0x7FFF) as bv15 as int, (y & 0x7FFF) as bv15 as int);
  }

  lemma LessByLowBits23(x: bv23, y: bv23)
    requires (x >> 15) as bv8 == (y >> 15) as bv8 && (x & 0x7FFF) as bv15 < (y & 0x7FFF) as bv15
    ensures x as int < y as int
  {
    SplitTopByte23(x);
    SplitTopByte23(y);
    LessToInt15((x & 0x7FFF) as bv15, (y & 0x7FFF) as bv15);
  }

  lemma AtMostByLowBits23(x: bv23, y: bv23)
    requires (x >> 15) as bv8 == (y >> 15) as bv8 && (x & 0x7FFF) as bv15 <= (y & 0x7FFF) as bv15
    ensures x as int <= y as int
  {
    SplitTopByte23(x);
    SplitTopByte23(y);
    AtMostToInt15((x & 0x7FFF) as bv15, (y & 0x7FFF) as bv15);
  }

  /** On 23 bits, `<` is decided by the top byte, then by the low 15 bits. */
  lemma LessSplit23(x: bv23, y: bv23)
    requires x < y
    ensures (x >> 15) as bv8 < (y >> 15) as bv8 || ((x >> 15) as bv8 == (y >> 15) as bv8 && (x & 0x7FFF) as bv15 < (y & 0x7FFF) as bv15)
  {
  }

  /** On 23 bits, `<=` is decided by the top byte, then by the low 15 bits. */
  lemma AtMostSplit23(x: bv23, y: bv23)
    requires x <= y
    ensures (x >> 15) as bv8 < (y >> 15) as bv8 || ((x >> 15) as bv8 == (y >> 15) as bv8 && (x & 0x7FFF) as bv15 <= (y & 0x7FFF) as bv15)
  {
  }

  /** On 23 bits, `<` on the bits is `<` on the integer values. */
  lemma LessToInt23(x: bv23, y: bv23)
    requires x < y
    ensures x as int < y as int
  {
    LessSplit23(x, y);
    if (x >> 15) as bv8 < (y >> 15) as bv8 {
      LessByTopByte23(x, y);
    } else {
      LessByLowBits23(x, y);
    }
  }

  /** On 23 bits, `<=` on the bits is `<=` on the integer values. */
  lemma AtMostToInt23(x: bv23, y: bv23)
    requires x <= y
    ensures x as int <= y as int
  {
    AtMostSplit23(x, y);
    if (x >> 15) as bv8 < (y >> 15) as bv8 {
      LessByTopByte23(x, y);
    } else {
      AtMostByLowBits23(x, y);
    }
  }

  /** A 31-bit value is its low 23 bits plus the place values of its top eight bits. */
  lemma TopBits31(x: bv31)
    ensures x as int == (x & 0x7FFFFF) as bv23 as int
      + (if x & 0x40000000 != 0 then 0x40000000 else 0)
      + (if x & 0x20000000 != 0 then 0x20000000 else 0)
      + (if x & 0x10000000 != 0 then 0x10000000 else 0)
      + (if x & 0x8000000 != 0 then 0x8000000 else 0)
      + (if x & 0x4000000 != 0 then 0x4000000 else 0)
      + (if x & 0x2000000 != 0 then 0x2000000 else 0)
      + (if x & 0x1000000 != 0 then 0x1000000 else 0)
      + (if x & 0x800000 != 0 then 0x800000 else 0)
  {
  }

  /** A 31-bit value is its low 23 bits plus 2^23 times its top byte. */
  lemma SplitTopByte31(x: bv31)
    ensures x as int == (x & 0x7FFFFF) as bv23 as int + 0x800000 * (x >> 23) as bv8 as int
  {
    TopBits31(x);
    ByteValue((x >> 23) as bv8);
  }

  lemma PlaceValue23(a: int, b: int, hx: int, hy: int, lx: int, ly: int)
    requires a == lx + 0x800000 * hx && b == ly + 0x800000 * hy
    requires hx < hy && 0 <= lx < 0x800000 && 0 <= ly
    ensures a < b
  {
  }

  /** A larger top byte makes a larger value, whatever the low 23 bits. */
  lemma LessByTopByte31(x: bv31, y: bv31)
    requires (x >> 23) as bv8 < (y >> 23) as bv8
    ensures x as int < y as int
  {
    SplitTopByte31(x);
    SplitTopByte31(y);
    LessToInt8((x >> 23) as bv8, (y >> 23) as bv8);
    PlaceValue23(x as int, y as int, (x >> 23) as bv8 as int, (y >> 23) as bv8 as int, (x & 0x7FFFFF) as bv23 as int, (y & 0x7FFFFF) as bv23 as int);
  }

  lemma LessByLowBits31(x: bv31, y: bv31)
    requires (x >> 23) as bv8 == (y >> 23) as bv8 && (x & 0x7FFFFF) as bv23 < (y & 0x7FFFFF) as bv23
    ensures x as int < y as int
  {
    SplitTopByte31(x);
    SplitTopByte31(y);
    LessToInt23((x & 0x7FFFFF) as bv23, (y & 0x7FFFFF) as bv23);
  }

  lemma AtMostByLowBits31(x: bv31, y: bv31)
    requires (x >> 23) as bv8 == (y >> 23) as bv8 && (x & 0x7FFFFF) as bv23 <= (y & 0x7FFFFF) as bv23
    ensures x as int <= y as int
  {
    SplitTopByte31(x);
    SplitTopByte31(y);
    AtMostToInt23((x & 0x7FFFFF) as bv23, (y & 0x7FFFFF) as bv23);
  }

  /** On 31 bits, `<` is decided by the top byte, then by the low 23 bits. */
  lemma LessSplit31(x: bv31, y: bv31)
    requires x < y
    ensures (x >> 23) as bv8 < (y >> 23) as bv8 || ((x >> 23) as bv8 == (y >> 23) as bv8 && (x & 0x7FFFFF) as bv23 < (y & 0x7FFFFF) as bv23)
  {
  }

  /** On 31 bits, `<=` is decided by the top byte, then by the low 23 bits. */
  lemma AtMostSplit31(x: bv31, y: bv31)
    requires x <= y
    ensures (x >> 23) as bv8 < (y >> 23) as bv8 || ((x >> 23) as bv8 == (y >> 23) as bv8 && (x & 0x7FFFFF) as bv23 <= (y & 0x7FFFFF) as bv23)
  {
  }

  /** On 31 bits, `<` on the bits is `<` on the integer values. */
  lemma LessToInt31(x: bv31, y: bv31)
    requires x < y
    ensures x as int < y as int
  {
    LessSplit31(x, y);
    if (x >> 23) as bv8 < (y >> 23) as bv8 {
      LessByTopByte31(x, y);
    } else {
      LessByLowBits31(x, y);
    }
  }

  /** On 31 bits, `<=` on the bits is `<=` on the integer values. */
  lemma AtMostToInt31(x: bv31, y: bv31)
    requires x <= y
    ensures x as int <= y as int
  {
    AtMostSplit31(x, y);
    if (x >> 23) as bv8 < (y >> 23) as bv8 {
      LessByTopByte31(x, y);
    } else {
      AtMostByLowBits31(x, y);
    }
  }

  /** On operands of equal sign, the unsigned order is the order of bits 30..0. */
  lemma UnsignedOrderOfLowBits(a: bv32, b: bv32)
    requires Negative(a) == Negative(b)
    ensures a < b ==> (a & 0x7FFF_FFFF) as bv31 < (b & 0x7FFF_FFFF) as bv31
    ensures a <= b ==> (a & 0x7FFF_FFFF) as bv31 <= (b & 0x7FFF_FFFF) as bv31
  {
  }

  /** The `int32_t` view in terms of bits 30..0, as Signed computes it. */
  lemma SignedOfLowBits(a: bv32)
    ensures Signed(a) == ((a & 0x7FFF_FFFF) as bv31) as int - (if Negative(a) then 0x8000_0000 else 0)
  {
  }

  lemma SignedBelowOnSameSign(a: bv32, b: bv32)
    requires Negative(a) == Negative(b) && a < b
    ensures Signed(a) < Signed(b)
  {
    var la, lb := (a & 0x7FFF_FFFF) as bv31, (b & 0x7FFF_FFFF) as bv31;
    assert la < lb by {
      UnsignedOrderOfLowBits(a, b);
    }
    LessToInt31(la, lb);
    SignedOfLowBits(a);
    SignedOfLowBits(b);
  }

  lemma SignedAtMostOnSameSign(a: bv32, b: bv32)
    requires Negative(a) == Negative(b) && a <= b
    ensures Signed(a) <= Signed(b)
  {
    var la, lb := (a & 0x7FFF_FFFF) as bv31, (b & 0x7FFF_FFFF) as bv31;
    assert la <= lb by {
      UnsignedOrderOfLowBits(a, b);
    }
    AtMostToInt31(la, lb);
    SignedOfLowBits(a);
    SignedOfLowBits(b);
  }

  /** On operands of equal sign, the `int32_t` order is the unsigned order. */
  lemma SignedOrderOnSameSign(a: bv32, b: bv32)
    requires Negative(a) == Negative(b)
    ensures Signed(a) < Signed(b) <==> a < b
  {
    if a < b {
      SignedBelowOnSameSign(a, b);
    } else {
      SignedAtMostOnSameSign(b, a);
    }
  }

  /**
   * On operands of the same sign SLT and SLTU agree; with
   * SignedAndUnsignedDisagreeAcrossSign this says the two comparisons differ
   * exactly when the signs differ.
   */
  lemma SignedAndUnsignedAgreeOnSameSign(a: bv32, b: bv32)
    requires Negative(a) == Negative(b)
    ensures Compute(Slt, a, b) == Compute(Sltu, a, b)
  {
    SignedOrderOnSameSign(a, b);
  }

  /** SLT is SLTU applied to the operands with their sign bits flipped. */
  lemma SetLessThanIsFlippedUnsigned(a: bv32, b: bv32)
    ensures Compute(Slt, a, b) == Compute(Sltu, a ^ 0x8000_0000, b ^ 0x8000_0000)
  {
    if Negative(a) == Negative(b) {
      SignedAndUnsignedAgreeOnSameSign(a, b);
      assert (a ^ 0x8000_0000 < b ^ 0x8000_0000) == (a < b);
    } else if Negative(a) {
      SignedAndUnsignedDisagreeAcrossSign(a, b);
    } else {
      SignedAndUnsignedDisagreeAcrossSign(b, a);
    }
  }

  // ---------------------------------------------------------------------
  // SLLI as execSLLI (src/CPU.cpp) and the CPU2 double (src/tests2.cpp) write it.

  /**
   * `a << amount` with the raw immediate as the amount: C++ defines the shift
   * only for amounts below 32, and None stands for the undefined result.
   * Below 32 it agrees with the masked shift.
   */
  function ShiftLeftUnmasked(a: bv32, amount: bv32): (r: Option<bv32>)
    ensures amount < 32 ==> r == Some(ShiftLeft(a, amount))
    ensures amount >= 32 <==> r == None
  {
    if amount < 32 then Some(a << amount) else None
  }

  /**
   * test_slli's "modulo 32" case: 0b1010 shifted by 34 is undefined as
   * written and 0b101000 with the amount masked.
   */
  lemma SlliUnmaskedBy34()
    ensures ShiftLeftUnmasked(0xA, 34) == None
    ensures ShiftLeft(0xA, 34) == 0x28
  {
  }
}
