/**
 * Instruction decoding of src/CPU.cpp: the key built from a word
 * (makeInstrKey), the table from keys to handlers (instruction_map), and the
 * handler's view of the fields, written as the operation `Op` that the
 * handler performs. `Encode` is the partner of `Decode`: every well-formed
 * operation survives encoding and decoding, and every decoded word other
 * than a system call is the encoding of its operation.
 */
module Decoder {
  import opened Wrappers
  import opened Alu
  import opened Fields

  datatype LoadKind = LB | LH | LW | LBU | LHU
  datatype StoreKind = SB | SH | SW
  datatype BranchKind = BEQ | BNE | BLT | BGE | BLTU | BGEU

  /** What a handler does, with the fields it reads. Immediates are kept as extractFields leaves them. */
  datatype Op =
    | RegReg(alu: AluOp, rd: bv5, rs1: bv5, rs2: bv5)
    | RegImm(alu: AluOp, rd: bv5, rs1: bv5, imm: bv32)
    | Load(load: LoadKind, rd: bv5, rs1: bv5, imm: bv32)
    | Store(store: StoreKind, rs1: bv5, rs2: bv5, imm: bv32)
    | Branch(branch: BranchKind, rs1: bv5, rs2: bv5, imm: bv32)
    | Lui(rd: bv5, imm: bv32)
    | Auipc(rd: bv5, imm: bv32)
    | Jal(rd: bv5, imm: bv32)
    | Jalr(rd: bv5, rs1: bv5, imm: bv32)
    | Ecall
    | Ebreak

  /**
   * The member functions of `CPU` that instruction_map points to, grouped by
   * the operation they perform: `RegRegH(Add)` is execADD, `RegImmH(Xor)` is
   * execXORI, `ShiftRightImmH` is execSRLAI, `SystemH` is execE.
   */
  datatype Handler =
    | RegRegH(alu: AluOp)
    | RegImmH(alu: AluOp)
    | ShiftRightImmH
    | LoadH(load: LoadKind)
    | StoreH(store: StoreKind)
    | BranchH(branch: BranchKind)
    | LuiH
    | AuipcH
    | JalH
    | JalrH
    | SystemH

  /**
   * makeInstrKey, corrected: opcode in bits 31..24, funct3 in bits 14..12 and,
   * for R-type words only, funct7 in bits 6..0. JAL, LUI and AUIPC have no
   * funct3 field, so their key is the opcode alone. The fields do not
   * overlap, so the key is written as the sum of the shifted fields.
   */
  function InstrKey(w: bv32): int {
    var opcode := Opcode(w);
    if opcode == 0x33 then
      opcode as int * 0x100_0000 + Funct3(w) as int * 0x1000 + Funct7(w) as int
    else if opcode == 0x6F || opcode == 0x37 || opcode == 0x17 then
      opcode as int * 0x100_0000
    else
      opcode as int * 0x100_0000 + Funct3(w) as int * 0x1000
  }

  /**
   * makeInstrKey as the source writes it: only JAL drops funct3, so a LUI or
   * AUIPC whose immediate has any of bits 14..12 set gets a key that is not
   * in the table.
   */
  function InstrKeyAsWritten(w: bv32): int {
    var opcode := Opcode(w);
    if opcode == 0x33 then
      opcode as int * 0x100_0000 + Funct3(w) as int * 0x1000 + Funct7(w) as int
    else if opcode == 0x6F then
      opcode as int * 0x100_0000
    else
      opcode as int * 0x100_0000 + Funct3(w) as int * 0x1000
  }

  /** instruction_map: the handler registered under a key, if any. */
  function Lookup(key: int): Option<Handler> {
    match key
    case 0x3300_0000 => Some(RegRegH(Add))
    case 0x3300_0020 => Some(RegRegH(Sub))
    case 0x3300_1000 => Some(RegRegH(Sll))
    case 0x3300_2000 => Some(RegRegH(Slt))
    case 0x3300_5000 => Some(RegRegH(Srl))
    case 0x3300_5020 => Some(RegRegH(Sra))
    case 0x3300_3000 => Some(RegRegH(Sltu))
    case 0x3300_4000 => Some(RegRegH(Xor))
    case 0x3300_6000 => Some(RegRegH(Or))
    case 0x3300_7000 => Some(RegRegH(And))
    case 0x1300_0000 => Some(RegImmH(Add))
    case 0x1300_1000 => Some(RegImmH(Sll))
    case 0x1300_2000 => Some(RegImmH(Slt))
    case 0x1300_3000 => Some(RegImmH(Sltu))
    case 0x1300_4000 => Some(RegImmH(Xor))
    case 0x1300_5000 => Some(ShiftRightImmH)
    case 0x1300_6000 => Some(RegImmH(Or))
    case 0x1300_7000 => Some(RegImmH(And))
    case 0x0300_4000 => Some(LoadH(LBU))
    case 0x0300_5000 => Some(LoadH(LHU))
    case 0x0300_0000 => Some(LoadH(LB))
    case 0x0300_1000 => Some(LoadH(LH))
    case 0x0300_2000 => Some(LoadH(LW))
    case 0x2300_0000 => Some(StoreH(SB))
    case 0x2300_1000 => Some(StoreH(SH))
    case 0x2300_2000 => Some(StoreH(SW))
    case 0x6300_0000 => Some(BranchH(BEQ))
    case 0x6300_1000 => Some(BranchH(BNE))
    case 0x6300_4000 => Some(BranchH(BLT))
    case 0x6300_5000 => Some(BranchH(BGE))
    case 0x6300_6000 => Some(BranchH(BLTU))
    case 0x6300_7000 => Some(BranchH(BGEU))
    case 0x3700_0000 => Some(LuiH)
    case 0x1700_0000 => Some(AuipcH)
    case 0x6F00_0000 => Some(JalH)
    case 0x6700_0000 => Some(JalrH)
    case 0x7300_0000 => Some(SystemH)
    case _ => None
  }

  /**
   * The handler's reading of the extracted fields. execSRLAI picks the
   * arithmetic shift whenever funct7 is non-zero; execE picks EBREAK whenever
   * rs2 is non-zero.
   */
  function Dispatch(h: Handler, i: Instr): Op {
    match h
    case RegRegH(alu) => RegReg(alu, i.rd, i.rs1, i.rs2)
    case RegImmH(alu) => RegImm(alu, i.rd, i.rs1, i.imm)
    case ShiftRightImmH => RegImm(if i.funct7 != 0 then Sra else Srl, i.rd, i.rs1, i.imm)
    case LoadH(k) => Load(k, i.rd, i.rs1, i.imm)
    case StoreH(k) => Store(k, i.rs1, i.rs2, i.imm)
    case BranchH(k) => Branch(k, i.rs1, i.rs2, i.imm)
    case LuiH => Lui(i.rd, i.imm)
    case AuipcH => Auipc(i.rd, i.imm)
    case JalH => Jal(i.rd, i.imm)
    case JalrH => Jalr(i.rd, i.rs1, i.imm)
    case SystemH => if i.rs2 != 0 then Ebreak else Ecall
  }

  /** decode: look the key up; a word with no handler is not an instruction. */
  function Decode(w: bv32): Option<Op> {
    match Lookup(InstrKey(w))
    case None => None
    case Some(h) => Some(Dispatch(h, ExtractFields(w)))
  }

  // ---------------------------------------------------------------------
  // The encoding side: the RISC-V base encoding of each operation.

  function AluFunct3(alu: AluOp): bv3 {
    match alu
    case Add => 0
    case Sub => 0
    case Sll => 1
    case Slt => 2
    case Sltu => 3
    case Xor => 4
    case Srl => 5
    case Sra => 5
    case Or => 6
    case And => 7
  }

  function AluFunct7(alu: AluOp): bv7 {
    if alu == Sub || alu == Sra then 0x20 else 0
  }

  function LoadFunct3(k: LoadKind): bv3 {
    match k
    case LB => 0
    case LH => 1
    case LW => 2
    case LBU => 4
    case LHU => 5
  }

  function StoreFunct3(k: StoreKind): bv3 {
    match k
    case SB => 0
    case SH => 1
    case SW => 2
  }

  function BranchFunct3(k: BranchKind): bv3 {
    match k
    case BEQ => 0
    case BNE => 1
    case BLT => 4
    case BGE => 5
    case BLTU => 6
    case BGEU => 7
  }

  /**
   * The operations that have an encoding: immediates within the reach of
   * their field, no SUB with an immediate, and a right shift by immediate
   * whose upper immediate bits say which shift it is.
   */
  predicate WellFormed(op: Op) {
    match op
    case RegReg(_, _, _, _) => true
    case RegImm(alu, _, _, imm) =>
      alu != Sub && FitsImm12(imm)
      && (alu == Srl ==> imm <= 0x1F)
      && (alu == Sra ==> imm & 0xFE0 != 0)
    case Load(_, _, _, imm) => FitsImm12(imm)
    case Store(_, _, _, imm) => FitsImm12(imm)
    case Branch(_, _, _, imm) => FitsBranchOffset(imm)
    case Lui(_, imm) => FitsImm20(imm)
    case Auipc(_, imm) => FitsImm20(imm)
    case Jal(_, imm) => FitsJumpOffset(imm)
    case Jalr(_, _, imm) => FitsImm12(imm)
    case Ecall => true
    case Ebreak => true
  }

  /** The instruction word of an operation. */
  function Encode(op: Op): bv32 {
    match op
    case RegReg(alu, rd, rs1, rs2) => EncodeR(AluFunct7(alu), rs2, rs1, AluFunct3(alu), rd, 0x33)
    case RegImm(alu, rd, rs1, imm) => EncodeI(imm, rs1, AluFunct3(alu), rd, 0x13)
    case Load(k, rd, rs1, imm) => EncodeI(imm, rs1, LoadFunct3(k), rd, 0x03)
    case Store(k, rs1, rs2, imm) => EncodeS(imm, rs2, rs1, StoreFunct3(k), 0x23)
    case Branch(k, rs1, rs2, imm) => EncodeB(imm, rs2, rs1, BranchFunct3(k), 0x63)
    case Lui(rd, imm) => EncodeU(imm, rd, 0x37)
    case Auipc(rd, imm) => EncodeU(imm, rd, 0x17)
    case Jal(rd, imm) => EncodeJ(imm, rd, 0x6F)
    case Jalr(rd, rs1, imm) => EncodeI(imm, rs1, 0, rd, 0x67)
    case Ecall => 0x0000_0073
    case Ebreak => 0x0010_0073
  }

  // ---------------------------------------------------------------------
  // Decoding an encoded operation gives the operation back. Each proof reads
  // the fields back from the word, then decodes through the field-by-field
  // decision for its opcode.

  lemma DecodeEncodeRegReg(alu: AluOp, rd: bv5, rs1: bv5, rs2: bv5)
    ensures Decode(Encode(RegReg(alu, rd, rs1, rs2))) == Some(RegReg(alu, rd, rs1, rs2))
  {
    DecodeEncodeR(AluFunct7(alu), rs2, rs1, AluFunct3(alu), rd, 0x33);
    OpcodeMapOp(Encode(RegReg(alu, rd, rs1, rs2)));
  }

  lemma DecodeEncodeRegImm(alu: AluOp, rd: bv5, rs1: bv5, imm: bv32)
    requires alu != Sub && alu != Srl && alu != Sra && FitsImm12(imm)
    ensures Decode(Encode(RegImm(alu, rd, rs1, imm))) == Some(RegImm(alu, rd, rs1, imm))
  {
    DecodeEncodeI(imm, rs1, AluFunct3(alu), rd, 0x13);
    OpcodeMapOpImm(Encode(RegImm(alu, rd, rs1, imm)));
  }

  /** SRLI and SRAI share a key; the upper immediate bits, funct7 to the handler, tell them apart. */
  lemma DecodeEncodeShiftRightImm(alu: AluOp, rd: bv5, rs1: bv5, imm: bv32)
    requires WellFormed(RegImm(alu, rd, rs1, imm)) && (alu == Srl || alu == Sra)
    ensures Decode(Encode(RegImm(alu, rd, rs1, imm))) == Some(RegImm(alu, rd, rs1, imm))
  {
    DecodeEncodeI(imm, rs1, 5, rd, 0x13);
    OpcodeMapOpImm(Encode(RegImm(alu, rd, rs1, imm)));
  }

  lemma DecodeEncodeLoad(k: LoadKind, rd: bv5, rs1: bv5, imm: bv32)
    requires FitsImm12(imm)
    ensures Decode(Encode(Load(k, rd, rs1, imm))) == Some(Load(k, rd, rs1, imm))
  {
    DecodeEncodeI(imm, rs1, LoadFunct3(k), rd, 0x03);
    OpcodeMapLoad(Encode(Load(k, rd, rs1, imm)));
  }

  lemma DecodeEncodeStore(k: StoreKind, rs1: bv5, rs2: bv5, imm: bv32)
    requires FitsImm12(imm)
    ensures Decode(Encode(Store(k, rs1, rs2, imm))) == Some(Store(k, rs1, rs2, imm))
  {
    DecodeEncodeS(imm, rs2, rs1, StoreFunct3(k), 0x23);
    OpcodeMapStore(Encode(Store(k, rs1, rs2, imm)));
  }

  lemma DecodeEncodeBranchEquality(k: BranchKind, rs1: bv5, rs2: bv5, imm: bv32)
    requires k == BEQ || k == BNE
    requires FitsBranchOffset(imm)
    ensures Decode(Encode(Branch(k, rs1, rs2, imm))) == Some(Branch(k, rs1, rs2, imm))
  {
    DecodeEncodeB(imm, rs2, rs1, BranchFunct3(k), 0x63);
    OpcodeMapBranch(Encode(Branch(k, rs1, rs2, imm)));
  }

  lemma DecodeEncodeBranchSigned(k: BranchKind, rs1: bv5, rs2: bv5, imm: bv32)
    requires k == BLT || k == BGE
    requires FitsBranchOffset(imm)
    ensures Decode(Encode(Branch(k, rs1, rs2, imm))) == Some(Branch(k, rs1, rs2, imm))
  {
    DecodeEncodeB(imm, rs2, rs1, BranchFunct3(k), 0x63);
    OpcodeMapBranch(Encode(Branch(k, rs1, rs2, imm)));
  }

  lemma DecodeEncodeBranchUnsigned(k: BranchKind, rs1: bv5, rs2: bv5, imm: bv32)
    requires k == BLTU || k == BGEU
    requires FitsBranchOffset(imm)
    ensures Decode(Encode(Branch(k, rs1, rs2, imm))) == Some(Branch(k, rs1, rs2, imm))
  {
    DecodeEncodeB(imm, rs2, rs1, BranchFunct3(k), 0x63);
    OpcodeMapBranch(Encode(Branch(k, rs1, rs2, imm)));
  }

  lemma DecodeEncodeLui(rd: bv5, imm: bv32)
    requires FitsImm20(imm)
    ensures Decode(Encode(Lui(rd, imm))) == Some(Lui(rd, imm))
  {
    DecodeEncodeU(imm, rd, 0x37);
    OpcodeMapLui(Encode(Lui(rd, imm)));
  }

  lemma DecodeEncodeAuipc(rd: bv5, imm: bv32)
    requires FitsImm20(imm)
    ensures Decode(Encode(Auipc(rd, imm))) == Some(Auipc(rd, imm))
  {
    DecodeEncodeU(imm, rd, 0x17);
    OpcodeMapAuipc(Encode(Auipc(rd, imm)));
  }

  lemma DecodeEncodeJalr(rd: bv5, rs1: bv5, imm: bv32)
    requires FitsImm12(imm)
    ensures Decode(Encode(Jalr(rd, rs1, imm))) == Some(Jalr(rd, rs1, imm))
  {
    DecodeEncodeI(imm, rs1, 0, rd, 0x67);
    OpcodeMapJalr(Encode(Jalr(rd, rs1, imm)));
  }

  lemma DecodeEncodeJal(rd: bv5, imm: bv32)
    requires FitsJumpOffset(imm)
    ensures Decode(Encode(Jal(rd, imm))) == Some(Jal(rd, imm))
  {
    DecodeEncodeJ(imm, rd, 0x6F);
    OpcodeMapJal(Encode(Jal(rd, imm)));
  }

  lemma DecodeEncodeSystem()
    ensures Decode(Encode(Ecall)) == Some(Ecall)
    ensures Decode(Encode(Ebreak)) == Some(Ebreak)
  {
    var ecall, ebreak := Encode(Ecall), Encode(Ebreak);
    assert ecall == 0x0000_0073 && ebreak == 0x0010_0073;
    assert Rs2(ecall) == 0 && Rs2(ebreak) == 1;
    DecodeSystemWord(ecall);
    DecodeSystemWord(ebreak);
  }

  /** A SYSTEM word with funct3 0 decodes to EBREAK when its rs2 field is non-zero, and to ECALL otherwise. */
  lemma DecodeSystemWord(w: bv32)
    requires Opcode(w) == 0x73 && Funct3(w) == 0
    ensures Decode(w) == Some(if Rs2(w) != 0 then Ebreak else Ecall)
  {
    OpcodeMapSystem(w);
  }

  // ---------------------------------------------------------------------
  // The key-and-table decoder written as a decision on the fields alone:
  // opcode, then funct3, then (for OP and the immediate right shifts) funct7,
  // with no key and no table. It reads nothing but those fields and the
  // operand fields, so dispatch depends on no other bit of the word. It
  // follows the handlers' choices, reserved encodings included: an SLLI word
  // with any funct7, an SRLI/SRAI word read as SRAI for any nonzero funct7,
  // and an ECALL word with a nonzero rs2 field read as EBREAK.

  /** funct3 of OP and OP-IMM: the ALU operation (0x20 in funct7 turns Add into Sub and Srl into Sra). */
  function Funct3Alu(funct3: bv3): AluOp {
    match funct3
    case 0 => Add
    case 1 => Sll
    case 2 => Slt
    case 3 => Sltu
    case 4 => Xor
    case 5 => Srl
    case 6 => Or
    case 7 => And
  }

  function DecodeByOpcodeMap(w: bv32): Option<Op> {
    var funct3 := Funct3(w);
    var funct7 := Funct7(w);
    match Opcode(w)
    case 0x33 =>
      if funct7 == 0 then Some(RegReg(Funct3Alu(funct3), Rd(w), Rs1(w), Rs2(w)))
      else if funct7 == 0x20 && funct3 == 0 then Some(RegReg(Sub, Rd(w), Rs1(w), Rs2(w)))
      else if funct7 == 0x20 && funct3 == 5 then Some(RegReg(Sra, Rd(w), Rs1(w), Rs2(w)))
      else None
    case 0x13 =>
      Some(RegImm(if funct3 == 5 && funct7 != 0 then Sra else Funct3Alu(funct3), Rd(w), Rs1(w), ImmI(w)))
    case 0x03 =>
      (match funct3
       case 0 => Some(Load(LB, Rd(w), Rs1(w), ImmI(w)))
       case 1 => Some(Load(LH, Rd(w), Rs1(w), ImmI(w)))
       case 2 => Some(Load(LW, Rd(w), Rs1(w), ImmI(w)))
       case 4 => Some(Load(LBU, Rd(w), Rs1(w), ImmI(w)))
       case 5 => Some(Load(LHU, Rd(w), Rs1(w), ImmI(w)))
       case _ => None)
    case 0x23 =>
      (match funct3
       case 0 => Some(Store(SB, Rs1(w), Rs2(w), ImmS(w)))
       case 1 => Some(Store(SH, Rs1(w), Rs2(w), ImmS(w)))
       case 2 => Some(Store(SW, Rs1(w), Rs2(w), ImmS(w)))
       case _ => None)
    case 0x63 =>
      (match funct3
       case 0 => Some(Branch(BEQ, Rs1(w), Rs2(w), ImmB(w)))
       case 1 => Some(Branch(BNE, Rs1(w), Rs2(w), ImmB(w)))
       case 4 => Some(Branch(BLT, Rs1(w), Rs2(w), ImmB(w)))
       case 5 => Some(Branch(BGE, Rs1(w), Rs2(w), ImmB(w)))
       case 6 => Some(Branch(BLTU, Rs1(w), Rs2(w), ImmB(w)))
       case 7 => Some(Branch(BGEU, Rs1(w), Rs2(w), ImmB(w)))
       case _ => None)
    case 0x37 => Some(Lui(Rd(w), ImmU(w)))
    case 0x17 => Some(Auipc(Rd(w), ImmU(w)))
    case 0x6F => Some(Jal(Rd(w), ImmJ(w)))
    case 0x67 => if funct3 == 0 then Some(Jalr(Rd(w), Rs1(w), ImmI(w))) else None
    case 0x73 => if funct3 == 0 then Some(if Rs2(w) != 0 then Ebreak else Ecall) else None
    case _ => None
  }

  lemma OpcodeMapOp(w: bv32)
    requires Opcode(w) == 0x33
    ensures Decode(w) == DecodeByOpcodeMap(w)
  {
  }

  lemma OpcodeMapOpImm(w: bv32)
    requires Opcode(w) == 0x13
    ensures Decode(w) == DecodeByOpcodeMap(w)
  {
  }

  lemma OpcodeMapLoad(w: bv32)
    requires Opcode(w) == 0x03
    ensures Decode(w) == DecodeByOpcodeMap(w)
  {
  }

  lemma OpcodeMapStore(w: bv32)
    requires Opcode(w) == 0x23
    ensures Decode(w) == DecodeByOpcodeMap(w)
  {
  }

  lemma OpcodeMapBranch(w: bv32)
    requires Opcode(w) == 0x63
    ensures Decode(w) == DecodeByOpcodeMap(w)
  {
  }

  lemma OpcodeMapLui(w: bv32)
    requires Opcode(w) == 0x37
    ensures Decode(w) == DecodeByOpcodeMap(w)
  {
  }

  lemma OpcodeMapAuipc(w: bv32)
    requires Opcode(w) == 0x17
    ensures Decode(w) == DecodeByOpcodeMap(w)
  {
  }

  lemma OpcodeMapJal(w: bv32)
    requires Opcode(w) == 0x6F
    ensures Decode(w) == DecodeByOpcodeMap(w)
  {
  }

  lemma OpcodeMapJalr(w: bv32)
    requires Opcode(w) == 0x67
    ensures Decode(w) == DecodeByOpcodeMap(w)
  {
  }

  lemma OpcodeMapSystem(w: bv32)
    requires Opcode(w) == 0x73
    ensures Decode(w) == DecodeByOpcodeMap(w)
  {
  }

  predicate KnownOpcode(opcode: bv7) {
    opcode == 0x33 || opcode == 0x13 || opcode == 0x03 || opcode == 0x23 || opcode == 0x63
    || opcode == 0x37 || opcode == 0x17 || opcode == 0x6F || opcode == 0x67 || opcode == 0x73
  }

  /** The key of a word with an unknown opcode is not in the table. */
  lemma UnknownKeyHasNoHandler(w: bv32)
    requires !KnownOpcode(Opcode(w))
    ensures Lookup(InstrKey(w)) == None
  {
  }

  lemma OpcodeMapUnknown(w: bv32)
    requires !KnownOpcode(Opcode(w))
    ensures Decode(w) == None && DecodeByOpcodeMap(w) == None
  {
    UnknownKeyHasNoHandler(w);
  }

  /** The key-and-table decoder is the field-by-field decision, word for word. */
  lemma DecodeIsOpcodeMap(w: bv32)
    ensures Decode(w) == DecodeByOpcodeMap(w)
  {
    var opcode := Opcode(w);
    if opcode == 0x33 {
      OpcodeMapOp(w);
    } else if opcode == 0x13 {
      OpcodeMapOpImm(w);
    } else if opcode == 0x03 {
      OpcodeMapLoad(w);
    } else if opcode == 0x23 {
      OpcodeMapStore(w);
    } else if opcode == 0x63 {
      OpcodeMapBranch(w);
    } else if opcode == 0x37 {
      OpcodeMapLui(w);
    } else if opcode == 0x17 {
      OpcodeMapAuipc(w);
    } else if opcode == 0x6F {
      OpcodeMapJal(w);
    } else if opcode == 0x67 {
      OpcodeMapJalr(w);
    } else if opcode == 0x73 {
      OpcodeMapSystem(w);
    } else {
      OpcodeMapUnknown(w);
    }
  }

  // ---------------------------------------------------------------------
  // Encoding a decoded operation gives the word back.

  lemma EncodeOfDecodeOp(w: bv32)
    requires Opcode(w) == 0x33 && DecodeByOpcodeMap(w).Some?
    ensures Encode(DecodeByOpcodeMap(w).value) == w
  {
    EncodeDecodeR(w);
    var f3, f7 := Funct3(w), Funct7(w);
    if f7 == 0 {
      FunctOfFunct3Alu(f3);
      assert DecodeByOpcodeMap(w).value == RegReg(Funct3Alu(f3), Rd(w), Rs1(w), Rs2(w));
    } else if f3 == 0 {
      assert DecodeByOpcodeMap(w).value == RegReg(Sub, Rd(w), Rs1(w), Rs2(w));
    } else {
      assert DecodeByOpcodeMap(w).value == RegReg(Sra, Rd(w), Rs1(w), Rs2(w));
    }
  }

  /** The operation a funct3 names with funct7 = 0 has that funct3 and funct7 = 0. */
  lemma FunctOfFunct3Alu(f3: bv3)
    ensures AluFunct3(Funct3Alu(f3)) == f3 && AluFunct7(Funct3Alu(f3)) == 0
  {
  }

  lemma EncodeOfDecodeOpImm(w: bv32)
    requires Opcode(w) == 0x13
    ensures Encode(DecodeByOpcodeMap(w).value) == w
  {
    EncodeDecodeI(w);
  }

  lemma EncodeOfDecodeLoad(w: bv32)
    requires Opcode(w) == 0x03 && DecodeByOpcodeMap(w).Some?
    ensures Encode(DecodeByOpcodeMap(w).value) == w
  {
    EncodeDecodeI(w);
  }

  lemma EncodeOfDecodeStore(w: bv32)
    requires Opcode(w) == 0x23 && DecodeByOpcodeMap(w).Some?
    ensures Encode(DecodeByOpcodeMap(w).value) == w
  {
    EncodeDecodeS(w);
  }

  lemma EncodeOfDecodeBranch(w: bv32)
    requires Opcode(w) == 0x63 && DecodeByOpcodeMap(w).Some?
    ensures Encode(DecodeByOpcodeMap(w).value) == w
  {
    EncodeDecodeB(w);
  }

  lemma EncodeOfDecodeJumps(w: bv32)
    requires Opcode(w) in {0x37, 0x17, 0x6F, 0x67} && DecodeByOpcodeMap(w).Some?
    ensures Encode(DecodeByOpcodeMap(w).value) == w
  {
    EncodeDecodeU(w);
    EncodeDecodeJ(w);
    EncodeDecodeI(w);
  }

  /**
   * Every word the decoder accepts, other than ECALL and EBREAK (whose
   * unused fields the decoder ignores), is the encoding of the operation it
   * decodes to.
   */
  lemma EncodeOfDecode(w: bv32)
    requires Decode(w).Some? && !Decode(w).value.Ecall? && !Decode(w).value.Ebreak?
    ensures Encode(Decode(w).value) == w
  {
    DecodeIsOpcodeMap(w);
    var opcode := Opcode(w);
    if opcode == 0x33 {
      EncodeOfDecodeOp(w);
    } else if opcode == 0x13 {
      EncodeOfDecodeOpImm(w);
    } else if opcode == 0x03 {
      EncodeOfDecodeLoad(w);
    } else if opcode == 0x23 {
      EncodeOfDecodeStore(w);
    } else if opcode == 0x63 {
      EncodeOfDecodeBranch(w);
    } else {
      EncodeOfDecodeJumps(w);
    }
  }

  // ---------------------------------------------------------------------
  // LUI and AUIPC keys.

  /** Corrected key: every LUI and AUIPC word reaches its handler, whatever its immediate. */
  lemma UpperKeyIsOpcode(w: bv32)
    ensures Opcode(w) == 0x37 ==> Lookup(InstrKey(w)) == Some(LuiH)
    ensures Opcode(w) == 0x17 ==> Lookup(InstrKey(w)) == Some(AuipcH)
  {
  }

  /** Key as written: a LUI or AUIPC whose immediate has a bit among 14..12 set is not found. */
  lemma UpperKeyAsWrittenMisses(w: bv32)
    requires Opcode(w) == 0x37 || Opcode(w) == 0x17
    requires Funct3(w) != 0
    ensures Lookup(InstrKeyAsWritten(w)) == None
  {
  }

  /** `lui x1, 1` (0x000010B7) is reported unknown by the key as written and found by the corrected one. */
  lemma LuiWithFunct3BitsExample()
    ensures Lookup(InstrKeyAsWritten(0x0000_10B7)) == None
    ensures Lookup(InstrKey(0x0000_10B7)) == Some(LuiH)
  {
  }
}
