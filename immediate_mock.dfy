/**
 * The CPU2 test double of src/tests2.cpp: a bare file of 32 registers with
 * the nine register-immediate handlers (ADDI ... SRAI) and a reset, driven by
 * the test functions test_addi ... test_edge_cases. The immediate is the
 * sign-extended `int32_t` of the instruction, carried here as its 32 bits.
 *
 * The handlers use the ALU of module Alu and the register write of module
 * Machine, so x0 stays 0 and SLLI masks its amount; the double as written
 * does neither (see Alu.ShiftLeftUnmasked and Machine.SetRegAsWritten).
 */
module ImmediateMock {
  import opened Alu
  import opened Machine

  class CPU2 {
    /** `uint32_t regs[32]`, x0 reading 0. */
    const regs: array<bv32>

    ghost predicate Valid()
      reads this, regs
    {
      regs.Length == 32 && regs[0] == 0
    }

    /** `regs[32] = {0}`: every register starts at 0. */
    constructor ()
      ensures Valid() && fresh(regs)
      ensures forall i :: 0 <= i < 32 ==> regs[i] == 0
    {
      regs := new bv32[32](_ => 0);
    }

    /** The write-back of every handler: a write to x0 is dropped. */
    method Write(rd: bv5, v: bv32)
      requires Valid()
      modifies regs
      ensures Valid()
      ensures regs[..] == SetReg(old(regs[..]), rd, v)
    {
      if rd != 0 {
        regs[rd as int] := v;
      }
    }

    method ExecAddi(rd: bv5, rs1: bv5, imm: bv32)
      requires Valid()
      modifies regs
      ensures Valid()
      ensures regs[..] == SetReg(old(regs[..]), rd, Compute(Add, old(regs[rs1 as int]), imm))
    {
      Write(rd, regs[rs1 as int] + imm);
    }

    method ExecXori(rd: bv5, rs1: bv5, imm: bv32)
      requires Valid()
      modifies regs
      ensures Valid()
      ensures regs[..] == SetReg(old(regs[..]), rd, Compute(Xor, old(regs[rs1 as int]), imm))
    {
      Write(rd, regs[rs1 as int] ^ imm);
    }

    method ExecOri(rd: bv5, rs1: bv5, imm: bv32)
      requires Valid()
      modifies regs
      ensures Valid()
      ensures regs[..] == SetReg(old(regs[..]), rd, Compute(Or, old(regs[rs1 as int]), imm))
    {
      Write(rd, regs[rs1 as int] | imm);
    }

    method ExecAndi(rd: bv5, rs1: bv5, imm: bv32)
      requires Valid()
      modifies regs
      ensures Valid()
      ensures regs[..] == SetReg(old(regs[..]), rd, Compute(And, old(regs[rs1 as int]), imm))
    {
      Write(rd, regs[rs1 as int] & imm);
    }

    /** SLLI with the amount masked to five bits, as the ISA and test_slli require. */
    method ExecSlli(rd: bv5, rs1: bv5, imm: bv32)
      requires Valid()
      modifies regs
      ensures Valid()
      ensures regs[..] == SetReg(old(regs[..]), rd, Compute(Sll, old(regs[rs1 as int]), imm))
    {
      Write(rd, ShiftLeft(regs[rs1 as int], imm));
    }

    method ExecSlti(rd: bv5, rs1: bv5, imm: bv32)
      requires Valid()
      modifies regs
      ensures Valid()
      ensures regs[..] == SetReg(old(regs[..]), rd, Compute(Slt, old(regs[rs1 as int]), imm))
    {
      Write(rd, SetLessThan(regs[rs1 as int], imm));
    }

    method ExecSltiu(rd: bv5, rs1: bv5, imm: bv32)
      requires Valid()
      modifies regs
      ensures Valid()
      ensures regs[..] == SetReg(old(regs[..]), rd, Compute(Sltu, old(regs[rs1 as int]), imm))
    {
      Write(rd, SetLessThanUnsigned(regs[rs1 as int], imm));
    }

    method ExecSrli(rd: bv5, rs1: bv5, imm: bv32)
      requires Valid()
      modifies regs
      ensures Valid()
      ensures regs[..] == SetReg(old(regs[..]), rd, Compute(Srl, old(regs[rs1 as int]), imm))
    {
      Write(rd, ShiftRightLogical(regs[rs1 as int], imm));
    }

    method ExecSrai(rd: bv5, rs1: bv5, imm: bv32)
      requires Valid()
      modifies regs
      ensures Valid()
      ensures regs[..] == SetReg(old(regs[..]), rd, Compute(Sra, old(regs[rs1 as int]), imm))
    {
      Write(rd, ShiftRightArithmetic(regs[rs1 as int], imm));
    }

    /** Clears all 32 registers, one at a time. */
    method Reset()
      requires regs.Length == 32
      modifies regs
      ensures Valid()
      ensures forall i :: 0 <= i < 32 ==> regs[i] == 0
    {
      for i := 0 to 32
        invariant forall j :: 0 <= j < i ==> regs[j] == 0
      {
        regs[i] := 0;
      }
    }

    /** Sets x1, the source register of every test, keeping x0 at 0. */
    method SetSource(v: bv32)
      requires Valid()
      modifies regs
      ensures Valid()
      ensures regs[..] == old(regs[..])[1 := v]
    {
      regs[1] := v;
    }
  }

  // ---------------------------------------------------------------------
  // The test functions of src/tests2.cpp. Each case resets the double, loads
  // x1 and runs one handler into x2; the out-parameters are the values the
  // tests compare.

  /**
   * One test case: a fresh double with x1 == src runs the register-immediate
   * handler of `op` (there is no SUBI) into x2, and x2 is read back.
   */
  method RunCase(op: AluOp, src: bv32, imm: bv32) returns (x2: bv32)
    requires op != Sub
    ensures x2 == Compute(op, src, imm)
  {
    var cpu := new CPU2();
    cpu.SetSource(src);
    match op {
      case Add => cpu.ExecAddi(2, 1, imm);
      case Xor => cpu.ExecXori(2, 1, imm);
      case Or => cpu.ExecOri(2, 1, imm);
      case And => cpu.ExecAndi(2, 1, imm);
      case Sll => cpu.ExecSlli(2, 1, imm);
      case Slt => cpu.ExecSlti(2, 1, imm);
      case Sltu => cpu.ExecSltiu(2, 1, imm);
      case Srl => cpu.ExecSrli(2, 1, imm);
      case Sra => cpu.ExecSrai(2, 1, imm);
    }
    x2 := cpu.regs[2];
  }

  /** test_addi: wrap-around in both directions. */
  method TestAddi() returns (basic: bv32, fromZero: bv32, negative: bv32, overflow: bv32, underflow: bv32)
    ensures basic == 15 && fromZero == 42 && negative == 30
    ensures overflow == 0x8000_0000 && underflow == 0x7FFF_FFFF
  {
    basic := RunCase(Add, 10, 5);
    fromZero := RunCase(Add, 0, 42);
    negative := RunCase(Add, 50, 0xFFFF_FFEC);
    overflow := RunCase(Add, 0x7FFF_FFFF, 1);
    underflow := RunCase(Add, 0x8000_0000, 0xFFFF_FFFF);
  }

  /** test_addi's last case: `addi x0, x1, 50` with x1 == 100 leaves x0 at 0. */
  method TestAddiToX0() returns (x0: bv32)
    ensures x0 == 0
  {
    var cpu := new CPU2();
    cpu.SetSource(100);
    cpu.ExecAddi(0, 1, 50);
    x0 := cpu.regs[0];
  }

  /** test_xori: XOR with 0 is the identity, with -1 the complement, with itself 0. */
  method TestXori() returns (basic: bv32, withZero: bv32, withOnes: bv32, self: bv32)
    ensures basic == 0x66 && withZero == 0x1234_5678
    ensures withOnes == 0xEDCB_A987 && self == 0
  {
    basic := RunCase(Xor, 0xAA, 0xCC);
    withZero := RunCase(Xor, 0x1234_5678, 0);
    withOnes := RunCase(Xor, 0x1234_5678, 0xFFFF_FFFF);
    self := RunCase(Xor, 0x555, 0x555);
  }

  /** test_ori: OR with 0 is the identity, with -1 all ones. */
  method TestOri() returns (basic: bv32, withZero: bv32, withOnes: bv32, setBits: bv32)
    ensures basic == 0xEE && withZero == 0x1234_5678
    ensures withOnes == 0xFFFF_FFFF && setBits == 0x0F0F
  {
    basic := RunCase(Or, 0xAA, 0xCC);
    withZero := RunCase(Or, 0x1234_5678, 0);
    withOnes := RunCase(Or, 0x1234_5678, 0xFFFF_FFFF);
    setBits := RunCase(Or, 0, 0x0F0F);
  }

  /** test_andi: AND with 0 clears, with -1 is the identity, with 0xFF keeps the low byte. */
  method TestAndi() returns (basic: bv32, withZero: bv32, withOnes: bv32, mask: bv32)
    ensures basic == 0xAA && withZero == 0
    ensures withOnes == 0x1234_5678 && mask == 0x78
  {
    basic := RunCase(And, 0xFF, 0xAA);
    withZero := RunCase(And, 0x1234_5678, 0);
    withOnes := RunCase(And, 0x1234_5678, 0xFFFF_FFFF);
    mask := RunCase(And, 0x1234_5678, 0xFF);
  }

  /** test_slli: bits shifted out are lost, and a shift by 34 is a shift by 2. */
  method TestSlli() returns (basic: bv32, byZero: bv32, maxShift: bv32, overflow: bv32, modulo: bv32)
    ensures basic == 0x28 && byZero == 0x1234_5678 && maxShift == 0x8000_0000
    ensures overflow == 0 && modulo == 0x28
  {
    basic := RunCase(Sll, 0xA, 2);
    byZero := RunCase(Sll, 0x1234_5678, 0);
    maxShift := RunCase(Sll, 1, 31);
    overflow := RunCase(Sll, 0x8000_0000, 1);
    modulo := RunCase(Sll, 0xA, 34);
  }

  /** test_slti: signed comparison against the sign-extended immediate. */
  method TestSlti() returns (less: bv32, greater: bv32, equal: bv32, negative: bv32, negativeImm: bv32, minMax: bv32)
    ensures less == 1 && greater == 0 && equal == 0
    ensures negative == 1 && negativeImm == 0 && minMax == 1
  {
    less := RunCase(Slt, 5, 10);
    greater := RunCase(Slt, 15, 10);
    equal := RunCase(Slt, 10, 10);
    negative := RunCase(Slt, 0xFFFF_FFFF, 0);
    negativeImm := RunCase(Slt, 5, 0xFFFF_FFF6);
    minMax := RunCase(Slt, 0x8000_0000, 0x7FFF_FFFF);
  }

  /** test_sltiu: unsigned comparison, where -1 is the largest word. */
  method TestSltiu() returns (less: bv32, greater: bv32, equal: bv32, onesVsZero: bv32, zeroVsOnes: bv32)
    ensures less == 1 && greater == 0 && equal == 0
    ensures onesVsZero == 0 && zeroVsOnes == 1
  {
    less := RunCase(Sltu, 5, 10);
    greater := RunCase(Sltu, 15, 10);
    equal := RunCase(Sltu, 10, 10);
    onesVsZero := RunCase(Sltu, 0xFFFF_FFFF, 0);
    zeroVsOnes := RunCase(Sltu, 0, 0xFFFF_FFFF);
  }

  /** test_srli: zero fill, and a shift by 34 is a shift by 2. */
  method TestSrli() returns (basic: bv32, byZero: bv32, maxShift: bv32, zeroFill: bv32, allOut: bv32, modulo: bv32, byteShift: bv32)
    ensures basic == 0x14 && byZero == 0x1234_5678 && maxShift == 1 && zeroFill == 0x4000_0000
    ensures allOut == 0 && modulo == 0x14 && byteShift == 0x00FF_0000
  {
    basic := RunCase(Srl, 0x50, 2);
    byZero := RunCase(Srl, 0x1234_5678, 0);
    maxShift := RunCase(Srl, 0x8000_0000, 31);
    zeroFill := RunCase(Srl, 0x8000_0000, 1);
    allOut := RunCase(Srl, 0x7FFF_FFFF, 31);
    modulo := RunCase(Srl, 0x50, 34);
    byteShift := RunCase(Srl, 0xFF00_0000, 8);
  }

  /** test_srai: sign fill, -1 stays -1, and a shift by 33 is a shift by 1. */
  method TestSrai() returns (basic: bv32, byZero: bv32, signFill: bv32, maxPositive: bv32, maxNegative: bv32, minusOne: bv32, modulo: bv32, small: bv32, boundary: bv32)
    ensures basic == 0x14 && byZero == 0x1234_5678 && signFill == 0xC000_0000
    ensures maxPositive == 0 && maxNegative == 0xFFFF_FFFF && minusOne == 0xFFFF_FFFF
    ensures modulo == 0xC000_0000 && small == 0xFFFF_FFFC && boundary == 0x3FFF_FFFF
  {
    basic := RunCase(Sra, 0x50, 2);
    byZero := RunCase(Sra, 0x1234_5678, 0);
    signFill := RunCase(Sra, 0x8000_0000, 1);
    maxPositive := RunCase(Sra, 0x7FFF_FFFF, 31);
    maxNegative := RunCase(Sra, 0x8000_0000, 31);
    minusOne := RunCase(Sra, 0xFFFF_FFFF, 5);
    modulo := RunCase(Sra, 0x8000_0000, 33);
    small := RunCase(Sra, 0xFFFF_FFF0, 2);
    boundary := RunCase(Sra, 0x7FFF_FFFF, 1);
  }

  /** test_edge_cases, first part: the nine handlers aimed at x0 all leave it 0. */
  method TestAllHandlersSpareX0() returns (x0: bv32)
    ensures x0 == 0
  {
    var cpu := new CPU2();
    cpu.Reset();
    cpu.SetSource(0x1234_5678);
    cpu.ExecAddi(0, 1, 100);
    cpu.ExecXori(0, 1, 0xFF);
    cpu.ExecOri(0, 1, 0xFF);
    cpu.ExecAndi(0, 1, 0xFF);
    cpu.ExecSlli(0, 1, 5);
    cpu.ExecSrli(0, 1, 5);
    cpu.ExecSrai(0, 1, 5);
    cpu.ExecSlti(0, 1, 100);
    cpu.ExecSltiu(0, 1, 100);
    x0 := cpu.regs[0];
  }

  /**
   * test_edge_cases, the rest: the 12-bit immediate extremes, a shift by 32
   * that is no shift, and SRLI against SRAI on the negative word 0x80000008.
   */
  method TestEdgeCases() returns (maxImm: bv32, minImm: bv32, shift32: bv32, logical: bv32, arithmetic: bv32)
    ensures maxImm == 2047 && minImm == 0xFFFF_F800 && shift32 == 0x1234_5678
    ensures logical == 0x0800_0000 && arithmetic == 0xF800_0000
  {
    maxImm := RunCase(Add, 0, 2047);
    minImm := RunCase(Add, 0, 0xFFFF_F800);
    shift32 := RunCase(Sll, 0x1234_5678, 32);
    logical := RunCase(Srl, 0x8000_0008, 4);
    arithmetic := RunCase(Sra, 0x8000_0008, 4);
  }
}
