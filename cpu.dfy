/**
 * The `CPU` class of include/cpusim/CPU.h with the handlers of src/CPU.cpp:
 * a mutable pc, a register array and a byte-array memory that every handler
 * updates in place. Each handler is proved to leave the object in the state
 * that the matching function of `Machine` computes from the state before,
 * so everything proved about `Machine` holds of the object.
 */
module Cpu {
  import opened Wrappers
  import opened Alu
  import opened Fields
  import opened Decoder
  import opened Machine

  class CPU {
    var pc: bv32
    const regs: array<bv32>
    const mem: array<bv8>
    /** The bytes written to the console port so far. */
    var out: seq<bv8>

    /** 32 registers with x0 == 0 and 16 MiB of memory. */
    ghost predicate Valid()
      reads this, regs
    {
      regs.Length == 32 && regs[0] == 0 && mem.Length == MEM_SIZE
    }

    /** The object's state as a `Machine.State`. */
    ghost function Model(): (s: State)
      reads this, regs, mem
      requires Valid()
      ensures Machine.Valid(s)
    {
      State(pc, regs[..], mem[..], out)
    }

    /**
     * Zeroed registers and memory, then the bootstrap program: `sw x5, 0(x6)`
     * at 0 and `ecall` at 4, with x5 = 0x65626142 and x6 the console port.
     */
    constructor ()
      ensures Valid() && Model() == Boot()
      ensures fresh(regs) && fresh(mem)
    {
      pc := 0;
      regs := new bv32[32](i => BootRegister(i));
      mem := new bv8[MEM_SIZE](i => BootMemory(i));
      out := [];
    }

    /** fetch: the little-endian word at pc; nothing changes. */
    method Fetch() returns (w: bv32)
      requires Valid() && InMemory(pc, 4)
      ensures w == Machine.Fetch(Model())
    {
      var i := MemIndex(pc);
      w := Word(mem[i], mem[i + 1], mem[i + 2], mem[i + 3]);
    }

    /** The single place a register is written; a write to x0 is dropped. */
    method WriteReg(rd: bv5, v: bv32)
      requires Valid()
      modifies regs
      ensures Valid()
      ensures regs[..] == SetReg(old(regs[..]), rd, v)
    {
      if rd != 0 {
        regs[rd] := v;
      }
    }
  
    /** execADD, execSUB, execSLL, execSLT, execSLTU, execXOR, execOR, execAND, execSRL, execSRA. */
    method ExecRegReg(alu: AluOp, rd: bv5, rs1: bv5, rs2: bv5)
      requires Valid()
      modifies this, regs
      ensures Valid()
      ensures Outcome(Model(), Running) == Machine.ExecRegReg(old(Model()), alu, rd, rs1, rs2)
    {
      var v := Compute(alu, regs[rs1], regs[rs2]);
      WriteReg(rd, v);
      pc := NextPc(pc);
    }

    /** execADDI, execXORI, execORI, execANDI, execSLLI, execSLTI, execSLTIU, execSRLI, execSRAI. */
    method ExecRegImm(alu: AluOp, rd: bv5, rs1: bv5, imm: bv32)
      requires Valid()
      modifies this, regs
      ensures Valid()
      ensures Outcome(Model(), Running) == Machine.ExecRegImm(old(Model()), alu, rd, rs1, imm)
    {
      var v := Compute(alu, regs[rs1], imm);
      WriteReg(rd, v);
      pc := NextPc(pc);
    }

    /** The value a load of kind `k` at index `i` puts in rd. */
    method ReadValue(k: LoadKind, i: int) returns (v: bv32)
      requires Valid() && 0 <= i && i + LoadWidth(k) <= mem.Length
      ensures v == LoadValue(k, mem[..], i)
    {
      match k {
        case LB => v := SignExtendByte(mem[i]);
        case LBU => v := mem[i] as bv32;
        case LH => v := SignExtendHalf(Half(mem[i], mem[i + 1]));
        case LHU => v := Half(mem[i], mem[i + 1]) as bv32;
        case LW => v := Word(mem[i], mem[i + 1], mem[i + 2], mem[i + 3]);
      }
    }

    /** execLB, execLH, execLW, execLBU, execLHU: read 1, 2 or 4 bytes, little-endian. */
    method ExecLoad(k: LoadKind, rd: bv5, rs1: bv5, imm: bv32) returns (status: Status)
      requires Valid()
      modifies this, regs
      ensures Valid()
      ensures Outcome(Model(), status) == Machine.ExecLoad(old(Model()), k, rd, rs1, imm)
    {
      ghost var s := Model();
      var addr := Offset(regs[rs1], imm);
      if !InMemory(addr, LoadWidth(k)) {
        LoadOutsideMemoryFaults(s, k, rd, rs1, imm);
        return Halted(MemFault(addr, pc));
      }
      var v := ReadValue(k, MemIndex(addr));
      LoadInMemoryOutcome(s, k, rd, rs1, imm);
      WriteReg(rd, v);
      pc := NextPc(pc);
      status := Running;
    }

    /** Write `bytes` into memory from index `i` on, one byte at a time. */
    method StoreBytes(i: int, bytes: seq<bv8>)
      requires Valid() && 0 <= i && i + |bytes| <= mem.Length
      modifies mem
      ensures Valid()
      ensures mem[..] == WriteBytes(old(mem[..]), i, bytes)
    {
      var j := 0;
      while j < |bytes|
        invariant 0 <= j <= |bytes|
        invariant mem[..] == WriteBytes(old(mem[..]), i, bytes[..j])
      {
        WriteBytesExtend(old(mem[..]), i, bytes, j);
        mem[i + j] := bytes[j];
        j := j + 1;
      }
      assert bytes[..j] == bytes;
    }

    /** A store to the console port: the bytes are printed, memory is untouched. */
    method StoreToConsole(k: StoreKind, rs1: bv5, rs2: bv5, imm: bv32)
      requires Valid() && IsConsole(Offset(regs[rs1], imm))
      modifies this
      ensures Valid()
      ensures Outcome(Model(), Running) == Machine.ExecStore(old(Model()), k, rs1, rs2, imm)
    {
      ghost var s := Model();
      var bytes := LowBytes(regs[rs2], StoreWidth(k));
      assert Machine.ExecStore(s, k, rs1, rs2, imm) == Outcome(s.(pc := NextPc(s.pc), out := s.out + bytes), Running);
      out := out + bytes;
      pc := NextPc(pc);
    }

    /** A store inside memory: the bytes are written at the address. */
    method StoreToMemory(k: StoreKind, rs1: bv5, rs2: bv5, imm: bv32)
      requires Valid() && !IsConsole(Offset(regs[rs1], imm)) && InMemory(Offset(regs[rs1], imm), StoreWidth(k))
      modifies this, mem
      ensures Valid()
      ensures Outcome(Model(), Running) == Machine.ExecStore(old(Model()), k, rs1, rs2, imm)
    {
      ghost var s := Model();
      var i := MemIndex(Offset(regs[rs1], imm));
      var bytes := LowBytes(regs[rs2], StoreWidth(k));
      StoreInMemoryOutcome(s, k, rs1, rs2, imm);
      StoreBytes(i, bytes);
      pc := NextPc(pc);
    }

    /** execSB, execSH, execSW: the low 1, 2 or 4 bytes of rs2 go to the console port or to memory. */
    method ExecStore(k: StoreKind, rs1: bv5, rs2: bv5, imm: bv32) returns (status: Status)
      requires Valid()
      modifies this, mem
      ensures Valid()
      ensures Outcome(Model(), status) == Machine.ExecStore(old(Model()), k, rs1, rs2, imm)
    {
      var addr := Offset(regs[rs1], imm);
      if IsConsole(addr) {
        StoreToConsole(k, rs1, rs2, imm);
        status := Running;
      } else if InMemory(addr, StoreWidth(k)) {
        StoreToMemory(k, rs1, rs2, imm);
        status := Running;
      } else {
        status := Halted(MemFault(addr, pc));
      }
    }

    /** execBEQ, execBNE, execBLT, execBGE, execBLTU, execBGEU. */
    method ExecBranch(k: BranchKind, rs1: bv5, rs2: bv5, imm: bv32)
      requires Valid()
      modifies this
      ensures Valid()
      ensures Outcome(Model(), Running) == Machine.ExecBranch(old(Model()), k, rs1, rs2, imm)
    {
      ghost var s := Model();
      assert Reg(s, rs1) == regs[rs1] && Reg(s, rs2) == regs[rs2];
      if Taken(k, regs[rs1], regs[rs2]) {
        pc := Offset(pc, imm);
      } else {
        pc := NextPc(pc);
      }
      assert Model() == s.(pc := pc);
    }

    /** execLUI. */
    method ExecLui(rd: bv5, imm: bv32)
      requires Valid()
      modifies this, regs
      ensures Valid()
      ensures Outcome(Model(), Running) == Machine.Execute(old(Model()), Lui(rd, imm))
    {
      WriteReg(rd, UpperImmediate(imm));
      pc := NextPc(pc);
    }

    /** execAUIPC: the pc before the step plus the upper immediate. */
    method ExecAuipc(rd: bv5, imm: bv32)
      requires Valid()
      modifies this, regs
      ensures Valid()
      ensures Outcome(Model(), Running) == Machine.Execute(old(Model()), Auipc(rd, imm))
    {
      WriteReg(rd, Offset(pc, UpperImmediate(imm)));
      pc := NextPc(pc);
    }

    /** execJAL. */
    method ExecJal(rd: bv5, imm: bv32)
      requires Valid()
      modifies this, regs
      ensures Valid()
      ensures Outcome(Model(), Running) == Machine.ExecJal(old(Model()), rd, imm)
    {
      WriteReg(rd, NextPc(pc));
      pc := Offset(pc, imm);
    }

    /** execJALR: the link is computed first, the target from rs1 before rd is written. */
    method ExecJalr(rd: bv5, rs1: bv5, imm: bv32)
      requires Valid()
      modifies this, regs
      ensures Valid()
      ensures Outcome(Model(), Running) == Machine.ExecJalr(old(Model()), rd, rs1, imm)
    {
      var t := NextPc(pc);
      pc := JumpTarget(regs[rs1], imm);
      WriteReg(rd, t);
    }

    /** execECALL: syscall 93 halts with exit code a0; any other is skipped. */
    method ExecEcall() returns (status: Status)
      requires Valid()
      modifies this
      ensures Valid()
      ensures Outcome(Model(), status) == Machine.ExecEcall(old(Model()))
    {
      if regs[17] == 93 {
        status := Halted(Exit(regs[10]));
      } else {
        pc := NextPc(pc);
        status := Running;
      }
    }

    /** The handlers that write a register from the ALU or an immediate. */
    method ExecuteArithmetic(op: Op)
      requires Valid() && (op.RegReg? || op.RegImm? || op.Lui? || op.Auipc?)
      modifies this, regs
      ensures Valid()
      ensures Outcome(Model(), Running) == Machine.Execute(old(Model()), op)
    {
      match op {
        case RegReg(alu, rd, rs1, rs2) => ExecRegReg(alu, rd, rs1, rs2);
        case RegImm(alu, rd, rs1, imm) => ExecRegImm(alu, rd, rs1, imm);
        case Lui(rd, imm) => ExecLui(rd, imm);
        case Auipc(rd, imm) => ExecAuipc(rd, imm);
      }
    }

    /** The handlers that move pc other than to the next word. */
    method ExecuteJump(op: Op)
      requires Valid() && (op.Branch? || op.Jal? || op.Jalr?)
      modifies this, regs
      ensures Valid()
      ensures Outcome(Model(), Running) == Machine.Execute(old(Model()), op)
    {
      match op {
        case Branch(k, rs1, rs2, imm) => ExecBranch(k, rs1, rs2, imm);
        case Jal(rd, imm) => ExecJal(rd, imm);
        case Jalr(rd, rs1, imm) => ExecJalr(rd, rs1, imm);
      }
    }

    /** execE: ECALL or EBREAK. */
    method ExecuteSystem(op: Op) returns (status: Status)
      requires Valid() && (op.Ecall? || op.Ebreak?)
      modifies this
      ensures Valid()
      ensures Outcome(Model(), status) == Machine.Execute(old(Model()), op)
    {
      if op.Ecall? {
        status := ExecEcall();
      } else {
        status := Halted(Breakpoint(pc));
      }
    }

    /** Run the handler of a decoded instruction. */
    method Execute(op: Op) returns (status: Status)
      requires Valid()
      modifies this, regs, mem
      ensures Valid()
      ensures Outcome(Model(), status) == Machine.Execute(old(Model()), op)
    {
      if op.Load? {
        status := ExecLoad(op.load, op.rd, op.rs1, op.imm);
      } else if op.Store? {
        status := ExecStore(op.store, op.rs1, op.rs2, op.imm);
      } else if op.RegReg? || op.RegImm? || op.Lui? || op.Auipc? {
        ExecuteArithmetic(op);
        status := Running;
      } else if op.Branch? || op.Jal? || op.Jalr? {
        ExecuteJump(op);
        status := Running;
      } else {
        status := ExecuteSystem(op);
      }
    }

    /** One step: decode(fetch(pc)), halting on a fetch outside memory or an unknown word. */
    method Step() returns (status: Status)
      requires Valid()
      modifies this, regs, mem
      ensures Valid()
      ensures Outcome(Model(), status) == Machine.Step(old(Model()))
    {
      if !InMemory(pc, 4) {
        return Halted(MemFault(pc, pc));
      }
      var w := Fetch();
      match Decode(w) {
        case None =>
          status := Halted(DecodeError(w, pc));
        case Some(op) =>
          status := Execute(op);
      }
    }
  }
}
