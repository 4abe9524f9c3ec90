/**
 * Field extraction for RV32I instruction words (extractFields in
 * src/CPU.cpp): the register and function fields, and the immediate of each
 * format rebuilt from its scattered bits and sign-extended. Each immediate
 * has an encoder as its partner: the round-trip lemmas show that no bit is
 * lost or moved in either direction.
 */
module Fields {
  import opened Alu

  /** The record `Instr` of include/cpusim/CPU.h, narrowed to the widths its fields take. */
  datatype Instr = Instr(rd: bv5, rs1: bv5, rs2: bv5, funct3: bv3, funct7: bv7, imm: bv32)

  function Opcode(w: bv32): bv7 {
    (w & 0x7F) as bv7
  }

  function Rd(w: bv32): bv5 {
    ((w >> 7) & 0x1F) as bv5
  }

  function Rs1(w: bv32): bv5 {
    ((w >> 15) & 0x1F) as bv5
  }

  function Rs2(w: bv32): bv5 {
    ((w >> 20) & 0x1F) as bv5
  }

  function Funct3(w: bv32): bv3 {
    ((w >> 12) & 0x7) as bv3
  }

  function Funct7(w: bv32): bv7 {
    ((w >> 25) & 0x7F) as bv7
  }

  /** I-format immediate: `(int32_t)w >> 20`, that is w[31:20] sign-extended. */
  function ImmI(w: bv32): bv32 {
    ShiftRightArithmetic(w, 20)
  }

  /** U-format immediate as the source keeps it: `(int32_t)w >> 12`; handlers shift it back by 12. */
  function ImmU(w: bv32): bv32 {
    ShiftRightArithmetic(w, 12)
  }

  /** S-format immediate: w[31:25] ++ w[11:7], sign-extended from bit 11. */
  function ImmS(w: bv32): bv32 {
    ShiftRightArithmetic((((w >> 25) << 5) | ((w >> 7) & 0x1F)) << 20, 20)
  }

  /** The B-format offset before sign extension: w[31] ++ w[7] ++ w[30:25] ++ w[11:8] ++ 0. */
  function RawB(w: bv32): bv32 {
    ((w & 0x8000_0000) >> 19) | ((w & 0x80) << 4) | ((w & 0x7E00_0000) >> 20) | ((w & 0xF00) >> 7)
  }

  /** B-format immediate: the raw offset sign-extended from bit 12. */
  function ImmB(w: bv32): bv32 {
    ShiftRightArithmetic(RawB(w) << 19, 19)
  }

  /** The J-format offset before sign extension: w[31] ++ w[19:12] ++ w[20] ++ w[30:21] ++ 0. */
  function RawJ(w: bv32): bv32 {
    ((w & 0x8000_0000) >> 11) | (w & 0xF_F000) | ((w & 0x10_0000) >> 9) | ((w & 0x7FE0_0000) >> 20)
  }

  /** J-format immediate: the raw offset sign-extended from bit 20. */
  function ImmJ(w: bv32): bv32 {
    ShiftRightArithmetic(RawJ(w) << 11, 11)
  }

  /**
   * extractFields: every field is sliced out of the word; the immediate is the
   * one of the format the opcode names: sign-extended, within that format's
   * reach, and such that the extracted fields encode back, in that format, to
   * the word they came from. The source leaves `imm` unset for the R-type and
   * system opcodes; the model sets it to 0.
   */
  function ExtractFields(w: bv32): (i: Instr)
    ensures i.rd == Rd(w) && i.rs1 == Rs1(w) && i.rs2 == Rs2(w)
    ensures i.funct3 == Funct3(w) && i.funct7 == Funct7(w)
    ensures Opcode(w) == 0x33 ==> EncodeR(i.funct7, i.rs2, i.rs1, i.funct3, i.rd, 0x33) == w
    ensures Opcode(w) == 0x13 || Opcode(w) == 0x03 || Opcode(w) == 0x67 ==>
      EncodeI(i.imm, i.rs1, i.funct3, i.rd, Opcode(w)) == w
    ensures Opcode(w) == 0x23 ==> EncodeS(i.imm, i.rs2, i.rs1, i.funct3, 0x23) == w
    ensures Opcode(w) == 0x63 ==> EncodeB(i.imm, i.rs2, i.rs1, i.funct3, 0x63) == w
    ensures Opcode(w) == 0x37 || Opcode(w) == 0x17 ==> EncodeU(i.imm, i.rd, Opcode(w)) == w
    ensures Opcode(w) == 0x6F ==> EncodeJ(i.imm, i.rd, 0x6F) == w
    ensures Opcode(w) == 0x13 || Opcode(w) == 0x03 || Opcode(w) == 0x67 || Opcode(w) == 0x23 ==> FitsImm12(i.imm)
    ensures Opcode(w) == 0x63 ==> FitsBranchOffset(i.imm)
    ensures Opcode(w) == 0x37 || Opcode(w) == 0x17 ==> FitsImm20(i.imm)
    ensures Opcode(w) == 0x6F ==> FitsJumpOffset(i.imm)
    ensures !(Opcode(w) in {0x13, 0x03, 0x67, 0x37, 0x17, 0x23, 0x63, 0x6F}) ==> i.imm == 0
  {
    ImmIRange(w);
    ImmSRange(w);
    ImmBRange(w);
    ImmURange(w);
    ImmJRange(w);
    EncodeDecodeR(w);
    EncodeDecodeI(w);
    EncodeDecodeS(w);
    EncodeDecodeB(w);
    EncodeDecodeU(w);
    EncodeDecodeJ(w);
    var opcode := Opcode(w);
    var imm :=
      if opcode == 0x13 || opcode == 0x03 || opcode == 0x67 then ImmI(w)
      else if opcode == 0x37 || opcode == 0x17 then ImmU(w)
      else if opcode == 0x23 then ImmS(w)
      else if opcode == 0x63 then ImmB(w)
      else if opcode == 0x6F then ImmJ(w)
      else 0;
    Instr(Rd(w), Rs1(w), Rs2(w), Funct3(w), Funct7(w), imm)
  }

  // Ranges of the immediates, written on the 32-bit word: a value lies in
  // [-2^k, 2^k - 1] as an int32_t exactly when it is at most 2^k - 1 or at
  // least 2^32 - 2^k unsigned.

  /** The value fits a 12-bit signed immediate: [-2048, 2047]. */
  predicate FitsImm12(x: bv32) {
    x <= 0x7FF || x >= 0xFFFF_F800
  }

  /** An even value in [-4096, 4094], the reach of a branch. */
  predicate FitsBranchOffset(x: bv32) {
    x & 1 == 0 && (x <= 0xFFE || x >= 0xFFFF_F000)
  }

  /** An even value in [-2^20, 2^20 - 2], the reach of JAL. */
  predicate FitsJumpOffset(x: bv32) {
    x & 1 == 0 && (x <= 0xF_FFFE || x >= 0xFFF0_0000)
  }

  /** A 20-bit signed value [-2^19, 2^19 - 1], the U-format immediate before `<< 12`. */
  predicate FitsImm20(x: bv32) {
    x <= 0x7_FFFF || x >= 0xFFF8_0000
  }

  lemma ImmIRange(w: bv32)
    ensures FitsImm12(ImmI(w))
  {
  }

  lemma ImmSRange(w: bv32)
    ensures FitsImm12(ImmS(w))
  {
  }

  lemma ImmBRange(w: bv32)
    ensures FitsBranchOffset(ImmB(w))
  {
  }

  lemma ImmJRange(w: bv32)
    ensures FitsJumpOffset(ImmJ(w))
  {
  }

  lemma ImmURange(w: bv32)
    ensures FitsImm20(ImmU(w))
  {
  }

  // The encoders: each places the fields of its format where the RISC-V
  // base encoding puts them; the lemmas below show that they are exactly
  // the inverses of the extractors above.

  function EncodeR(funct7: bv7, rs2: bv5, rs1: bv5, funct3: bv3, rd: bv5, opcode: bv7): bv32 {
    ((funct7 as bv32) << 25) | ((rs2 as bv32) << 20) | ((rs1 as bv32) << 15)
      | ((funct3 as bv32) << 12) | ((rd as bv32) << 7) | (opcode as bv32)
  }

  function EncodeI(imm: bv32, rs1: bv5, funct3: bv3, rd: bv5, opcode: bv7): bv32 {
    (imm << 20) | ((rs1 as bv32) << 15) | ((funct3 as bv32) << 12) | ((rd as bv32) << 7) | (opcode as bv32)
  }

  function EncodeS(imm: bv32, rs2: bv5, rs1: bv5, funct3: bv3, opcode: bv7): bv32 {
    ((imm & 0xFE0) << 20) | ((rs2 as bv32) << 20) | ((rs1 as bv32) << 15)
      | ((funct3 as bv32) << 12) | ((imm & 0x1F) << 7) | (opcode as bv32)
  }

  function EncodeB(imm: bv32, rs2: bv5, rs1: bv5, funct3: bv3, opcode: bv7): bv32 {
    ((imm & 0x1000) << 19) | ((imm & 0x7E0) << 20) | ((rs2 as bv32) << 20) | ((rs1 as bv32) << 15)
      | ((funct3 as bv32) << 12) | ((imm & 0x1E) << 7) | ((imm & 0x800) >> 4) | (opcode as bv32)
  }

  function EncodeU(imm: bv32, rd: bv5, opcode: bv7): bv32 {
    (imm << 12) | ((rd as bv32) << 7) | (opcode as bv32)
  }

  function EncodeJ(imm: bv32, rd: bv5, opcode: bv7): bv32 {
    ((imm & 0x10_0000) << 11) | ((imm & 0x7FE) << 20) | ((imm & 0x800) << 9) | (imm & 0xF_F000)
      | ((rd as bv32) << 7) | (opcode as bv32)
  }

  /** R-format: the extractors read back every field the encoder placed ... */
  lemma DecodeEncodeR(funct7: bv7, rs2: bv5, rs1: bv5, funct3: bv3, rd: bv5, opcode: bv7)
    ensures var w := EncodeR(funct7, rs2, rs1, funct3, rd, opcode);
      Opcode(w) == opcode && Rd(w) == rd && Funct3(w) == funct3 && Rs1(w) == rs1
      && Rs2(w) == rs2 && Funct7(w) == funct7
  {
  }

  /** ... and re-encoding the extracted fields gives the word back. */
  lemma EncodeDecodeR(w: bv32)
    ensures EncodeR(Funct7(w), Rs2(w), Rs1(w), Funct3(w), Rd(w), Opcode(w)) == w
  {
  }

  lemma IFieldsOfEncoding(imm: bv32, rs1: bv5, funct3: bv3, rd: bv5, opcode: bv7)
    ensures var w := EncodeI(imm, rs1, funct3, rd, opcode);
      Opcode(w) == opcode && Rd(w) == rd && Funct3(w) == funct3 && Rs1(w) == rs1
      && Rs2(w) == (imm & 0x1F) as bv5 && Funct7(w) == ((imm >> 5) & 0x7F) as bv7
  {
  }

  lemma IImmOfEncodingNonNegative(imm: bv32, rs1: bv5, funct3: bv3, rd: bv5, opcode: bv7)
    requires imm <= 0x7FF
    ensures ImmI(EncodeI(imm, rs1, funct3, rd, opcode)) == imm
  {
  }

  lemma IImmOfEncodingNegative(imm: bv32, rs1: bv5, funct3: bv3, rd: bv5, opcode: bv7)
    requires imm >= 0xFFFF_F800
    ensures ImmI(EncodeI(imm, rs1, funct3, rd, opcode)) == imm
  {
  }

  /** I-format (OP-IMM, LOAD, JALR): every field, the immediate included, reads back as encoded ... */
  lemma DecodeEncodeI(imm: bv32, rs1: bv5, funct3: bv3, rd: bv5, opcode: bv7)
    requires FitsImm12(imm)
    ensures var w := EncodeI(imm, rs1, funct3, rd, opcode);
      Opcode(w) == opcode && Rd(w) == rd && Funct3(w) == funct3 && Rs1(w) == rs1
      && Rs2(w) == (imm & 0x1F) as bv5 && Funct7(w) == ((imm >> 5) & 0x7F) as bv7
      && ImmI(w) == imm
  {
    IFieldsOfEncoding(imm, rs1, funct3, rd, opcode);
    if imm >= 0xFFFF_F800 {
      IImmOfEncodingNegative(imm, rs1, funct3, rd, opcode);
    } else {
      IImmOfEncodingNonNegative(imm, rs1, funct3, rd, opcode);
    }
  }

  lemma IEncodingOfFieldsNonNegative(w: bv32)
    requires !Negative(w)
    ensures EncodeI(ImmI(w), Rs1(w), Funct3(w), Rd(w), Opcode(w)) == w
  {
  }

  lemma IEncodingOfFieldsNegative(w: bv32)
    requires Negative(w)
    ensures EncodeI(ImmI(w), Rs1(w), Funct3(w), Rd(w), Opcode(w)) == w
  {
  }

  /** ... and the fields of any word re-encode to that word. */
  lemma EncodeDecodeI(w: bv32)
    ensures EncodeI(ImmI(w), Rs1(w), Funct3(w), Rd(w), Opcode(w)) == w
  {
    if Negative(w) {
      IEncodingOfFieldsNegative(w);
    } else {
      IEncodingOfFieldsNonNegative(w);
    }
  }

  lemma SFieldsOfEncoding(imm: bv32, rs2: bv5, rs1: bv5, funct3: bv3, opcode: bv7)
    ensures var w := EncodeS(imm, rs2, rs1, funct3, opcode);
      Opcode(w) == opcode && Rs2(w) == rs2 && Funct3(w) == funct3 && Rs1(w) == rs1
  {
  }

  lemma SImmOfEncodingNonNegative(imm: bv32, rs2: bv5, rs1: bv5, funct3: bv3, opcode: bv7)
    requires imm <= 0x7FF
    ensures ImmS(EncodeS(imm, rs2, rs1, funct3, opcode)) == imm
  {
  }

  lemma SImmOfEncodingNegative(imm: bv32, rs2: bv5, rs1: bv5, funct3: bv3, opcode: bv7)
    requires imm >= 0xFFFF_F800
    ensures ImmS(EncodeS(imm, rs2, rs1, funct3, opcode)) == imm
  {
  }

  /** S-format (STORE): every field, the immediate included, reads back as encoded ... */
  lemma DecodeEncodeS(imm: bv32, rs2: bv5, rs1: bv5, funct3: bv3, opcode: bv7)
    requires FitsImm12(imm)
    ensures var w := EncodeS(imm, rs2, rs1, funct3, opcode);
      Opcode(w) == opcode && Rs2(w) == rs2 && Funct3(w) == funct3 && Rs1(w) == rs1
      && ImmS(w) == imm
  {
    SFieldsOfEncoding(imm, rs2, rs1, funct3, opcode);
    if imm >= 0xFFFF_F800 {
      SImmOfEncodingNegative(imm, rs2, rs1, funct3, opcode);
    } else {
      SImmOfEncodingNonNegative(imm, rs2, rs1, funct3, opcode);
    }
  }

  lemma SEncodingOfFieldsNonNegative(w: bv32)
    requires !Negative(w)
    ensures EncodeS(ImmS(w), Rs2(w), Rs1(w), Funct3(w), Opcode(w)) == w
  {
  }

  lemma SEncodingOfFieldsNegative(w: bv32)
    requires Negative(w)
    ensures EncodeS(ImmS(w), Rs2(w), Rs1(w), Funct3(w), Opcode(w)) == w
  {
  }

  /** ... and the fields of any word re-encode to that word. */
  lemma EncodeDecodeS(w: bv32)
    ensures EncodeS(ImmS(w), Rs2(w), Rs1(w), Funct3(w), Opcode(w)) == w
  {
    if Negative(w) {
      SEncodingOfFieldsNegative(w);
    } else {
      SEncodingOfFieldsNonNegative(w);
    }
  }

  lemma BFieldsOfEncoding(imm: bv32, rs2: bv5, rs1: bv5, funct3: bv3, opcode: bv7)
    ensures var w := EncodeB(imm, rs2, rs1, funct3, opcode);
      Opcode(w) == opcode && Rs2(w) == rs2 && Funct3(w) == funct3 && Rs1(w) == rs1
  {
  }

  lemma BImmOfEncodingNonNegative(imm: bv32, rs2: bv5, rs1: bv5, funct3: bv3, opcode: bv7)
    requires imm & 1 == 0 && imm <= 0xFFE
    ensures ImmB(EncodeB(imm, rs2, rs1, funct3, opcode)) == imm
  {
  }

  lemma BImmOfEncodingNegative(imm: bv32, rs2: bv5, rs1: bv5, funct3: bv3, opcode: bv7)
    requires imm & 1 == 0 && imm >= 0xFFFF_F000
    ensures ImmB(EncodeB(imm, rs2, rs1, funct3, opcode)) == imm
  {
  }

  /** B-format (BRANCH): every field, the immediate included, reads back as encoded ... */
  lemma DecodeEncodeB(imm: bv32, rs2: bv5, rs1: bv5, funct3: bv3, opcode: bv7)
    requires FitsBranchOffset(imm)
    ensures var w := EncodeB(imm, rs2, rs1, funct3, opcode);
      Opcode(w) == opcode && Rs2(w) == rs2 && Funct3(w) == funct3 && Rs1(w) == rs1
      && ImmB(w) == imm
  {
    BFieldsOfEncoding(imm, rs2, rs1, funct3, opcode);
    if imm & 1 == 0 && imm >= 0xFFFF_F000 {
      BImmOfEncodingNegative(imm, rs2, rs1, funct3, opcode);
    } else {
      BImmOfEncodingNonNegative(imm, rs2, rs1, funct3, opcode);
    }
  }

  lemma BEncodingOfFieldsNonNegative(w: bv32)
    requires !Negative(w)
    ensures EncodeB(ImmB(w), Rs2(w), Rs1(w), Funct3(w), Opcode(w)) == w
  {
  }

  lemma BEncodingOfFieldsNegative(w: bv32)
    requires Negative(w)
    ensures EncodeB(ImmB(w), Rs2(w), Rs1(w), Funct3(w), Opcode(w)) == w
  {
  }

  /** ... and the fields of any word re-encode to that word. */
  lemma EncodeDecodeB(w: bv32)
    ensures EncodeB(ImmB(w), Rs2(w), Rs1(w), Funct3(w), Opcode(w)) == w
  {
    if Negative(w) {
      BEncodingOfFieldsNegative(w);
    } else {
      BEncodingOfFieldsNonNegative(w);
    }
  }

  lemma UFieldsOfEncoding(imm: bv32, rd: bv5, opcode: bv7)
    ensures var w := EncodeU(imm, rd, opcode);
      Opcode(w) == opcode && Rd(w) == rd
  {
  }

  lemma UImmOfEncodingNonNegative(imm: bv32, rd: bv5, opcode: bv7)
    requires imm <= 0x7_FFFF
    ensures ImmU(EncodeU(imm, rd, opcode)) == imm
  {
  }

  lemma UImmOfEncodingNegative(imm: bv32, rd: bv5, opcode: bv7)
    requires imm >= 0xFFF8_0000
    ensures ImmU(EncodeU(imm, rd, opcode)) == imm
  {
  }

  /** U-format (LUI, AUIPC): every field, the immediate included, reads back as encoded ... */
  lemma DecodeEncodeU(imm: bv32, rd: bv5, opcode: bv7)
    requires FitsImm20(imm)
    ensures var w := EncodeU(imm, rd, opcode);
      Opcode(w) == opcode && Rd(w) == rd
      && ImmU(w) == imm
  {
    UFieldsOfEncoding(imm, rd, opcode);
    if imm >= 0xFFF8_0000 {
      UImmOfEncodingNegative(imm, rd, opcode);
    } else {
      UImmOfEncodingNonNegative(imm, rd, opcode);
    }
  }

  lemma UEncodingOfFieldsNonNegative(w: bv32)
    requires !Negative(w)
    ensures EncodeU(ImmU(w), Rd(w), Opcode(w)) == w
  {
  }

  lemma UEncodingOfFieldsNegative(w: bv32)
    requires Negative(w)
    ensures EncodeU(ImmU(w), Rd(w), Opcode(w)) == w
  {
  }

  /** ... and the fields of any word re-encode to that word. */
  lemma EncodeDecodeU(w: bv32)
    ensures EncodeU(ImmU(w), Rd(w), Opcode(w)) == w
  {
    if Negative(w) {
      UEncodingOfFieldsNegative(w);
    } else {
      UEncodingOfFieldsNonNegative(w);
    }
  }

  lemma JFieldsOfEncoding(imm: bv32, rd: bv5, opcode: bv7)
    ensures var w := EncodeJ(imm, rd, opcode);
      Opcode(w) == opcode && Rd(w) == rd
  {
  }

  lemma JImmOfEncodingNonNegative(imm: bv32, rd: bv5, opcode: bv7)
    requires imm & 1 == 0 && imm <= 0xF_FFFE
    ensures ImmJ(EncodeJ(imm, rd, opcode)) == imm
  {
  }

  lemma JImmOfEncodingNegative(imm: bv32, rd: bv5, opcode: bv7)
    requires imm & 1 == 0 && imm >= 0xFFF0_0000
    ensures ImmJ(EncodeJ(imm, rd, opcode)) == imm
  {
  }

  /** J-format (JAL): every field, the immediate included, reads back as encoded ... */
  lemma DecodeEncodeJ(imm: bv32, rd: bv5, opcode: bv7)
    requires FitsJumpOffset(imm)
    ensures var w := EncodeJ(imm, rd, opcode);
      Opcode(w) == opcode && Rd(w) == rd
      && ImmJ(w) == imm
  {
    JFieldsOfEncoding(imm, rd, opcode);
    if imm & 1 == 0 && imm >= 0xFFF0_0000 {
      JImmOfEncodingNegative(imm, rd, opcode);
    } else {
      JImmOfEncodingNonNegative(imm, rd, opcode);
    }
  }

  lemma JEncodingOfFieldsNonNegative(w: bv32)
    requires !Negative(w)
    ensures EncodeJ(ImmJ(w), Rd(w), Opcode(w)) == w
  {
  }

  lemma JEncodingOfFieldsNegative(w: bv32)
    requires Negative(w)
    ensures EncodeJ(ImmJ(w), Rd(w), Opcode(w)) == w
  {
  }

  /** ... and the fields of any word re-encode to that word. */
  lemma EncodeDecodeJ(w: bv32)
    ensures EncodeJ(ImmJ(w), Rd(w), Opcode(w)) == w
  {
    if Negative(w) {
      JEncodingOfFieldsNegative(w);
    } else {
      JEncodingOfFieldsNonNegative(w);
    }
  }

  /**
   * The shift-by-immediate words keep the shift amount in the low five bits
   * of the I-immediate and funct7 in the seven above it.
   */
  lemma ShiftImmediateFields(w: bv32)
    ensures Funct7(w) == 0 ==> ImmI(w) <= 0x1F
    ensures Funct7(w) != 0 ==> ImmI(w) & 0xFE0 != 0
    ensures ImmI(w) & 0x1F == (Rs2(w) as bv32)
  {
  }

  // Within its format's reach an immediate is fixed by the word it encodes
  // to, so the reach and re-encoding clauses of ExtractFields leave one
  // immediate per word.

  lemma EncodeIInjective(a: bv32, b: bv32, rs1: bv5, funct3: bv3, rd: bv5, opcode: bv7)
    requires FitsImm12(a) && FitsImm12(b)
    requires EncodeI(a, rs1, funct3, rd, opcode) == EncodeI(b, rs1, funct3, rd, opcode)
    ensures a == b
  {
    DecodeEncodeI(a, rs1, funct3, rd, opcode);
    DecodeEncodeI(b, rs1, funct3, rd, opcode);
  }

  lemma EncodeSInjective(a: bv32, b: bv32, rs2: bv5, rs1: bv5, funct3: bv3, opcode: bv7)
    requires FitsImm12(a) && FitsImm12(b)
    requires EncodeS(a, rs2, rs1, funct3, opcode) == EncodeS(b, rs2, rs1, funct3, opcode)
    ensures a == b
  {
    DecodeEncodeS(a, rs2, rs1, funct3, opcode);
    DecodeEncodeS(b, rs2, rs1, funct3, opcode);
  }

  lemma EncodeBInjective(a: bv32, b: bv32, rs2: bv5, rs1: bv5, funct3: bv3, opcode: bv7)
    requires FitsBranchOffset(a) && FitsBranchOffset(b)
    requires EncodeB(a, rs2, rs1, funct3, opcode) == EncodeB(b, rs2, rs1, funct3, opcode)
    ensures a == b
  {
    DecodeEncodeB(a, rs2, rs1, funct3, opcode);
    DecodeEncodeB(b, rs2, rs1, funct3, opcode);
  }

  lemma EncodeUInjective(a: bv32, b: bv32, rd: bv5, opcode: bv7)
    requires FitsImm20(a) && FitsImm20(b)
    requires EncodeU(a, rd, opcode) == EncodeU(b, rd, opcode)
    ensures a == b
  {
    DecodeEncodeU(a, rd, opcode);
    DecodeEncodeU(b, rd, opcode);
  }

  lemma EncodeJInjective(a: bv32, b: bv32, rd: bv5, opcode: bv7)
    requires FitsJumpOffset(a) && FitsJumpOffset(b)
    requires EncodeJ(a, rd, opcode) == EncodeJ(b, rd, opcode)
    ensures a == b
  {
    DecodeEncodeJ(a, rd, opcode);
    DecodeEncodeJ(b, rd, opcode);
  }

  /** The immediate ExtractFields gives a word is the only one of its format's reach that re-encodes to the word. */
  lemma ExtractedImmediateIsUnique(w: bv32, imm: bv32)
    requires Opcode(w) == 0x13 || Opcode(w) == 0x03 || Opcode(w) == 0x67
    requires FitsImm12(imm) && EncodeI(imm, Rs1(w), Funct3(w), Rd(w), Opcode(w)) == w
    ensures imm == ExtractFields(w).imm == ImmI(w)
  {
    var i := ExtractFields(w);
    EncodeIInjective(imm, i.imm, Rs1(w), Funct3(w), Rd(w), Opcode(w));
  }
}
