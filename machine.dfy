/**
 * The machine state of include/cpusim/CPU.h (a 32-bit pc, 32 registers and a
 * 16 MiB byte memory) and the effect of one instruction on it, as the exec*
 * handlers of src/CPU.cpp perform it. This is the specification the `CPU`
 * class is proved against. The console is the sequence of bytes written so
 * far; halting is a status instead of a call to exit.
 */
module Machine {
  import opened Wrappers
  import opened Alu
  import opened Fields
  import opened Decoder

  /** 16 MiB of memory, addresses 0x000000 to 0xFFFFFF. */
  const MEM_SIZE: int := 0x100_0000

  /** Why the machine stopped. */
  datatype Halt =
    | Exit(code: bv32)                   // ECALL with a7 == 93; the code is a0
    | Breakpoint(pc: bv32)               // EBREAK
    | DecodeError(word: bv32, pc: bv32)  // a word with no handler
    | MemFault(addr: bv32, pc: bv32)     // a fetch, load or store outside memory

  datatype Status = Running | Halted(reason: Halt)

  datatype State = State(pc: bv32, regs: seq<bv32>, mem: seq<bv8>, out: seq<bv8>)

  /** The state after a step and whether the machine goes on. */
  datatype Outcome = Outcome(next: State, status: Status)

  /** 32 registers, x0 reading 0, and the whole memory. */
  predicate Valid(s: State) {
    |s.regs| == 32 && s.regs[0] == 0 && |s.mem| == MEM_SIZE
  }

  function Reg(s: State, r: bv5): bv32
    requires Valid(s)
  {
    s.regs[r as int]
  }

  /** The one register write of the machine: a write to x0 is dropped. */
  function SetReg(regs: seq<bv32>, rd: bv5, v: bv32): (r: seq<bv32>)
    requires |regs| == 32
    ensures |r| == 32
    ensures r[0] == regs[0]
    ensures rd != 0 ==> r[rd as int] == v
    ensures forall j :: 0 <= j < 32 && j != rd as int ==> r[j] == regs[j]
  {
    if rd == 0 then regs else regs[rd as int := v]
  }

  /** The memory index of an address below 2^24. */
  function MemIndex(addr: bv32): (i: int)
    ensures 0 <= i < MEM_SIZE
  {
    ((addr & 0xFF_FFFF) as bv24) as int
  }

  /** The `n` bytes at `addr` all lie in memory. */
  predicate InMemory(addr: bv32, n: int) {
    addr <= 0xFF_FFFF && MemIndex(addr) + n <= MEM_SIZE
  }

  /** The console port: a store here prints instead of writing memory. */
  predicate IsConsole(addr: bv32) {
    addr == 0xFFFF_0000
  }

  /** Four bytes, low byte first, as a word. */
  function Word(b0: bv8, b1: bv8, b2: bv8, b3: bv8): bv32 {
    (b0 as bv32) | ((b1 as bv32) << 8) | ((b2 as bv32) << 16) | ((b3 as bv32) << 24)
  }

  /** Two bytes, low byte first, as a halfword. */
  function Half(b0: bv8, b1: bv8): bv16 {
    (b0 as bv16) | ((b1 as bv16) << 8)
  }

  /** The little-endian word at index `i`. */
  function WordAt(mem: seq<bv8>, i: int): bv32
    requires 0 <= i && i + 4 <= |mem|
  {
    Word(mem[i], mem[i + 1], mem[i + 2], mem[i + 3])
  }

  /** The little-endian halfword at index `i`. */
  function HalfAt(mem: seq<bv8>, i: int): bv16
    requires 0 <= i && i + 2 <= |mem|
  {
    Half(mem[i], mem[i + 1])
  }

  function SignExtendByte(b: bv8): (r: bv32)
    ensures r & 0xFF == b as bv32
    ensures b < 0x80 ==> r <= 0x7F
    ensures b >= 0x80 ==> r >= 0xFFFF_FF80
  {
    if b < 0x80 then b as bv32 else (b as bv32) | 0xFFFF_FF00
  }

  function SignExtendHalf(h: bv16): (r: bv32)
    ensures (r & 0xFFFF) as bv16 == h
    ensures h < 0x8000 ==> r <= 0x7FFF
    ensures h >= 0x8000 ==> r >= 0xFFFF_8000
  {
    if h < 0x8000 then h as bv32 else (h as bv32) | 0xFFFF_0000
  }

  function LoadWidth(k: LoadKind): int {
    match k
    case LB => 1
    case LBU => 1
    case LH => 2
    case LHU => 2
    case LW => 4
  }

  function StoreWidth(k: StoreKind): int {
    match k
    case SB => 1
    case SH => 2
    case SW => 4
  }

  /** The value a load puts in rd: the byte or halfword sign- or zero-extended, or the word. */
  function LoadValue(k: LoadKind, mem: seq<bv8>, i: int): bv32
    requires 0 <= i && i + LoadWidth(k) <= |mem|
  {
    match k
    case LB => SignExtendByte(mem[i])
    case LBU => mem[i] as bv32
    case LH => SignExtendHalf(HalfAt(mem, i))
    case LHU => HalfAt(mem, i) as bv32
    case LW => WordAt(mem, i)
  }

  /** The four bytes of a word, low byte first. */
  function Bytes(v: bv32): (b: seq<bv8>)
    ensures |b| == 4
  {
    [(v & 0xFF) as bv8, ((v >> 8) & 0xFF) as bv8, ((v >> 16) & 0xFF) as bv8, ((v >> 24) & 0xFF) as bv8]
  }

  /** The low `n` bytes of a word, low byte first: what a store of width `n` writes or prints. */
  function LowBytes(v: bv32, n: int): (b: seq<bv8>)
    requires 0 <= n <= 4
    ensures |b| == n
  {
    Bytes(v)[..n]
  }

  /** Memory with `bytes` written from index `i` on. */
  function WriteBytes(mem: seq<bv8>, i: int, bytes: seq<bv8>): (r: seq<bv8>)
    requires 0 <= i && i + |bytes| <= |mem|
    ensures |r| == |mem|
    ensures forall j :: 0 <= j < |bytes| ==> r[i + j] == bytes[j]
    ensures forall j :: 0 <= j < |mem| && !(i <= j < i + |bytes|) ==> r[j] == mem[j]
  {
    mem[..i] + bytes + mem[i + |bytes|..]
  }

  /** Writing one more byte extends a write by one position. */
  lemma {:induction false} WriteBytesExtend(mem: seq<bv8>, i: int, bytes: seq<bv8>, j: int)
    requires 0 <= i && 0 <= j < |bytes| && i + |bytes| <= |mem|
    ensures WriteBytes(mem, i, bytes[..j + 1]) == WriteBytes(mem, i, bytes[..j])[i + j := bytes[j]]
  {
    var a := WriteBytes(mem, i, bytes[..j + 1]);
    var b := WriteBytes(mem, i, bytes[..j])[i + j := bytes[j]];
    forall k | 0 <= k < |mem|
      ensures a[k] == b[k]
    {
      if i <= k < i + j {
        assert a[i + (k - i)] == bytes[..j + 1][k - i];
        assert WriteBytes(mem, i, bytes[..j])[i + (k - i)] == bytes[..j][k - i];
      } else if k == i + j {
        assert a[i + j] == bytes[..j + 1][j];
      }
    }
  }

  /** The outcome of a load that lies inside memory. */
  lemma LoadInMemoryOutcome(s: State, k: LoadKind, rd: bv5, rs1: bv5, imm: bv32)
    requires Valid(s) && InMemory(Offset(Reg(s, rs1), imm), LoadWidth(k))
    ensures MemIndex(Offset(Reg(s, rs1), imm)) + LoadWidth(k) <= |s.mem|
    ensures ExecLoad(s, k, rd, rs1, imm) == Continue(s, rd, LoadValue(k, s.mem, MemIndex(Offset(Reg(s, rs1), imm))))
  {
  }

  /** The outcome of a store that lies inside memory. */
  lemma StoreInMemoryOutcome(s: State, k: StoreKind, rs1: bv5, rs2: bv5, imm: bv32)
    requires Valid(s)
    requires !IsConsole(Offset(Reg(s, rs1), imm)) && InMemory(Offset(Reg(s, rs1), imm), StoreWidth(k))
    ensures MemIndex(Offset(Reg(s, rs1), imm)) + |LowBytes(Reg(s, rs2), StoreWidth(k))| <= |s.mem|
    ensures ExecStore(s, k, rs1, rs2, imm) == Outcome(
      s.(pc := NextPc(s.pc), mem := WriteBytes(s.mem, MemIndex(Offset(Reg(s, rs1), imm)), LowBytes(Reg(s, rs2), StoreWidth(k)))),
      Running)
  {
  }

  /** The branch conditions: equality, signed order and unsigned order. */
  predicate Taken(k: BranchKind, a: bv32, b: bv32) {
    match k
    case BEQ => a == b
    case BNE => a != b
    case BLT => Signed(a) < Signed(b)
    case BGE => Signed(a) >= Signed(b)
    case BLTU => a < b
    case BGEU => a >= b
  }

  /** The address of the next word: pc + 4, wrapping modulo 2^32. */
  function NextPc(pc: bv32): bv32 {
    pc + 4
  }

  /** `base + offset` modulo 2^32: a load or store address, a branch or JAL target. */
  function Offset(base: bv32, offset: bv32): bv32 {
    base + offset
  }

  /** The JALR target: rs1 + imm with bit 0 cleared. */
  function JumpTarget(base: bv32, imm: bv32): bv32 {
    Offset(base, imm) & 0xFFFF_FFFE
  }

  /** The value LUI writes and AUIPC adds to pc: the immediate in bits 31..12. */
  function UpperImmediate(imm: bv32): bv32 {
    imm << 12
  }

  /** Write rd and go to the next instruction. */
  function Continue(s: State, rd: bv5, v: bv32): Outcome
    requires Valid(s)
  {
    Outcome(s.(pc := NextPc(s.pc), regs := SetReg(s.regs, rd, v)), Running)
  }

  /** execADD ... execSRA: rd := rs1 op rs2. */
  function ExecRegReg(s: State, alu: AluOp, rd: bv5, rs1: bv5, rs2: bv5): Outcome
    requires Valid(s)
  {
    Continue(s, rd, Compute(alu, Reg(s, rs1), Reg(s, rs2)))
  }

  /** execADDI ... execSRAI: rd := rs1 op imm. */
  function ExecRegImm(s: State, alu: AluOp, rd: bv5, rs1: bv5, imm: bv32): Outcome
    requires Valid(s)
  {
    Continue(s, rd, Compute(alu, Reg(s, rs1), imm))
  }

  /** execLB ... execLHU: rd := the extended value at rs1 + imm. */
  function ExecLoad(s: State, k: LoadKind, rd: bv5, rs1: bv5, imm: bv32): Outcome
    requires Valid(s)
  {
    var addr := Offset(Reg(s, rs1), imm);
    if InMemory(addr, LoadWidth(k)) then Continue(s, rd, LoadValue(k, s.mem, MemIndex(addr)))
    else Outcome(s, Halted(MemFault(addr, s.pc)))
  }

  /** execSB, execSH, execSW: the low bytes of rs2 go to the console port or to memory at rs1 + imm. */
  function ExecStore(s: State, k: StoreKind, rs1: bv5, rs2: bv5, imm: bv32): Outcome
    requires Valid(s)
  {
    var addr := Offset(Reg(s, rs1), imm);
    var bytes := LowBytes(Reg(s, rs2), StoreWidth(k));
    if IsConsole(addr) then Outcome(s.(pc := NextPc(s.pc), out := s.out + bytes), Running)
    else if InMemory(addr, StoreWidth(k)) then
      Outcome(s.(pc := NextPc(s.pc), mem := WriteBytes(s.mem, MemIndex(addr), bytes)), Running)
    else Outcome(s, Halted(MemFault(addr, s.pc)))
  }

  /** execBEQ ... execBGEU: pc + imm when the condition holds, else pc + 4. */
  function ExecBranch(s: State, k: BranchKind, rs1: bv5, rs2: bv5, imm: bv32): Outcome
    requires Valid(s)
  {
    var target := if Taken(k, Reg(s, rs1), Reg(s, rs2)) then Offset(s.pc, imm) else NextPc(s.pc);
    Outcome(s.(pc := target), Running)
  }

  /** execJAL: rd := pc + 4, then pc := pc + imm. */
  function ExecJal(s: State, rd: bv5, imm: bv32): Outcome
    requires Valid(s)
  {
    Outcome(s.(pc := Offset(s.pc, imm), regs := SetReg(s.regs, rd, NextPc(s.pc))), Running)
  }

  /** execJALR: the target comes from rs1 before rd := pc + 4 is written; bit 0 is cleared. */
  function ExecJalr(s: State, rd: bv5, rs1: bv5, imm: bv32): Outcome
    requires Valid(s)
  {
    Outcome(s.(pc := JumpTarget(Reg(s, rs1), imm), regs := SetReg(s.regs, rd, NextPc(s.pc))), Running)
  }

  /** execECALL: syscall 93 (a7) exits with code a0; any other syscall is skipped. */
  function ExecEcall(s: State): Outcome
    requires Valid(s)
  {
    if Reg(s, 17) == 93 then Outcome(s, Halted(Exit(Reg(s, 10))))
    else Outcome(s.(pc := NextPc(s.pc)), Running)
  }

  /** The effect of one decoded instruction: the handler the decoder chose. */
  function Execute(s: State, op: Op): Outcome
    requires Valid(s)
  {
    match op
    case RegReg(alu, rd, rs1, rs2) => ExecRegReg(s, alu, rd, rs1, rs2)
    case RegImm(alu, rd, rs1, imm) => ExecRegImm(s, alu, rd, rs1, imm)
    case Load(k, rd, rs1, imm) => ExecLoad(s, k, rd, rs1, imm)
    case Store(k, rs1, rs2, imm) => ExecStore(s, k, rs1, rs2, imm)
    case Branch(k, rs1, rs2, imm) => ExecBranch(s, k, rs1, rs2, imm)
    case Lui(rd, imm) => Continue(s, rd, UpperImmediate(imm))
    case Auipc(rd, imm) => Continue(s, rd, Offset(s.pc, UpperImmediate(imm)))
    case Jal(rd, imm) => ExecJal(s, rd, imm)
    case Jalr(rd, rs1, imm) => ExecJalr(s, rd, rs1, imm)
    case Ecall => ExecEcall(s)
    case Ebreak => Outcome(s, Halted(Breakpoint(s.pc)))
  }

  /** The word at pc, as fetch reads it. */
  function Fetch(s: State): bv32
    requires Valid(s) && InMemory(s.pc, 4)
  {
    WordAt(s.mem, MemIndex(s.pc))
  }

  /** One machine step: fetch the word at pc, decode it and run its handler. */
  function Step(s: State): (o: Outcome)
    requires Valid(s)
  {
    if !InMemory(s.pc, 4) then Outcome(s, Halted(MemFault(s.pc, s.pc)))
    else
      var w := Fetch(s);
      match Decode(w)
      case None => Outcome(s, Halted(DecodeError(w, s.pc)))
      case Some(op) => Execute(s, op)
  }

  lemma RegisterWritesPreserveValid(s: State, op: Op)
    requires Valid(s)
    requires op.RegReg? || op.RegImm? || op.Load? || op.Lui? || op.Auipc?
    ensures Valid(Execute(s, op).next)
  {
  }

  lemma StorePreservesValid(s: State, op: Op)
    requires Valid(s) && op.Store?
    ensures Valid(Execute(s, op).next)
  {
  }

  lemma ControlPreservesValid(s: State, op: Op)
    requires Valid(s)
    requires op.Branch? || op.Jal? || op.Jalr? || op.Ecall? || op.Ebreak?
    ensures Valid(Execute(s, op).next)
  {
  }

  /** Every instruction keeps 32 registers with x0 == 0 and the whole memory. */
  lemma ExecutePreservesValid(s: State, op: Op)
    requires Valid(s)
    ensures Valid(Execute(s, op).next)
  {
    if op.Store? {
      StorePreservesValid(s, op);
    } else if op.Branch? || op.Jal? || op.Jalr? || op.Ecall? || op.Ebreak? {
      ControlPreservesValid(s, op);
    } else {
      RegisterWritesPreserveValid(s, op);
    }
  }

  /** x0 reads 0 and memory keeps its size after any step. */
  lemma StepPreservesValid(s: State)
    requires Valid(s)
    ensures Valid(Step(s).next)
  {
    if InMemory(s.pc, 4) {
      var w := Fetch(s);
      if Decode(w).Some? {
        ExecutePreservesValid(s, Decode(w).value);
      }
    }
  }

  /**
   * The ALU, load, store, LUI and AUIPC handlers that do not halt go on to
   * the next word: pc advances by exactly 4.
   */
  lemma SequentialAdvancesPc(s: State, op: Op)
    requires Valid(s)
    requires op.RegReg? || op.RegImm? || op.Load? || op.Store? || op.Lui? || op.Auipc?
    requires Execute(s, op).status == Running
    ensures Execute(s, op).next.pc == NextPc(s.pc)
  {
  }

  /**
   * A handler that writes a register writes only rd: every other register,
   * the memory and the console keep their contents.
   */
  lemma RegisterWriteFrame(s: State, op: Op, r: bv5)
    requires Valid(s)
    requires op.RegReg? || op.RegImm? || op.Load? || op.Lui? || op.Auipc? || op.Jal? || op.Jalr?
    requires r != op.rd
    ensures Execute(s, op).next.regs[r as int] == s.regs[r as int]
    ensures Execute(s, op).next.mem == s.mem
    ensures Execute(s, op).next.out == s.out
  {
    if op.Load? {
      LoadWriteFrame(s, op, r);
    } else if op.Jal? || op.Jalr? {
      JumpWriteFrame(s, op, r);
    } else {
      AluWriteFrame(s, op, r);
    }
  }

  lemma JumpWriteFrame(s: State, op: Op, r: bv5)
    requires Valid(s) && (op.Jal? || op.Jalr?) && r != op.rd
    ensures Execute(s, op).next.regs[r as int] == s.regs[r as int]
    ensures Execute(s, op).next.mem == s.mem
    ensures Execute(s, op).next.out == s.out
  {
  }

  lemma LoadWriteFrame(s: State, op: Op, r: bv5)
    requires Valid(s) && op.Load? && r != op.rd
    ensures Execute(s, op).next.regs[r as int] == s.regs[r as int]
    ensures Execute(s, op).next.mem == s.mem
    ensures Execute(s, op).next.out == s.out
  {
  }

  lemma AluWriteFrame(s: State, op: Op, r: bv5)
    requires Valid(s) && (op.RegReg? || op.RegImm? || op.Lui? || op.Auipc?) && r != op.rd
    ensures Execute(s, op).next.regs[r as int] == s.regs[r as int]
    ensures Execute(s, op).next.mem == s.mem
    ensures Execute(s, op).next.out == s.out
  {
  }

  /** A halted step changes nothing: the state is the one before the instruction. */
  lemma HaltLeavesStateUnchanged(s: State, op: Op)
    requires Valid(s)
    requires Execute(s, op).status.Halted?
    ensures Execute(s, op).next == s
  {
  }

  /** A load or store outside memory halts with the faulting address. */
  lemma LoadOutsideMemoryFaults(s: State, k: LoadKind, rd: bv5, rs1: bv5, imm: bv32)
    requires Valid(s)
    requires !InMemory(Offset(Reg(s, rs1), imm), LoadWidth(k))
    ensures ExecLoad(s, k, rd, rs1, imm) == Outcome(s, Halted(MemFault(Offset(Reg(s, rs1), imm), s.pc)))
  {
  }

  lemma StoreOutsideMemoryFaults(s: State, k: StoreKind, rs1: bv5, rs2: bv5, imm: bv32)
    requires Valid(s)
    requires !IsConsole(Offset(Reg(s, rs1), imm)) && !InMemory(Offset(Reg(s, rs1), imm), StoreWidth(k))
    ensures ExecStore(s, k, rs1, rs2, imm) == Outcome(s, Halted(MemFault(Offset(Reg(s, rs1), imm), s.pc)))
  {
  }

  /**
   * A store to the console port leaves memory and registers alone and emits
   * the low 1, 2 or 4 bytes of rs2, low byte first.
   */
  lemma ConsoleStoreAppendsOutput(s: State, k: StoreKind, rs1: bv5, rs2: bv5, imm: bv32)
    requires Valid(s)
    requires IsConsole(Offset(Reg(s, rs1), imm))
    ensures ExecStore(s, k, rs1, rs2, imm).status == Running
    ensures ExecStore(s, k, rs1, rs2, imm).next.mem == s.mem
    ensures ExecStore(s, k, rs1, rs2, imm).next.regs == s.regs
    ensures ExecStore(s, k, rs1, rs2, imm).next.out == s.out + Bytes(Reg(s, rs2))[..StoreWidth(k)]
    ensures ExecStore(s, k, rs1, rs2, imm).next.pc == NextPc(s.pc)
  {
  }

  /**
   * A store inside memory writes the low StoreWidth(k) bytes of rs2 at the
   * address, low byte first, and leaves every other byte, the registers and
   * the console alone.
   */
  lemma MemoryStoreFrame(s: State, k: StoreKind, rs1: bv5, rs2: bv5, imm: bv32, j: int)
    requires Valid(s)
    requires !IsConsole(Offset(Reg(s, rs1), imm)) && InMemory(Offset(Reg(s, rs1), imm), StoreWidth(k))
    requires 0 <= j < MEM_SIZE
    ensures ExecStore(s, k, rs1, rs2, imm).status == Running
    ensures ExecStore(s, k, rs1, rs2, imm).next.regs == s.regs
    ensures ExecStore(s, k, rs1, rs2, imm).next.out == s.out
    ensures var i := MemIndex(Offset(Reg(s, rs1), imm));
      ExecStore(s, k, rs1, rs2, imm).next.mem[j] ==
        if i <= j < i + StoreWidth(k) then Bytes(Reg(s, rs2))[j - i] else s.mem[j]
  {
    var i := MemIndex(Offset(Reg(s, rs1), imm));
    StoreInMemoryOutcome(s, k, rs1, rs2, imm);
    WrittenByteAt(s.mem, i, Reg(s, rs2), StoreWidth(k), j);
    if i <= j < i + StoreWidth(k) {
      assert ExecStore(s, k, rs1, rs2, imm).next.mem[j] == Bytes(Reg(s, rs2))[j - i];
    } else {
      assert ExecStore(s, k, rs1, rs2, imm).next.mem[j] == s.mem[j];
    }
  }

  /** After writing a word's low `n` bytes at `i`, byte `j` is one of them or is unchanged. */
  lemma WrittenByteAt(mem: seq<bv8>, i: int, v: bv32, n: int, j: int)
    requires 0 <= n <= 4 && 0 <= i && i + n <= |mem| && 0 <= j < |mem|
    ensures WriteBytes(mem, i, LowBytes(v, n))[j] == if i <= j < i + n then Bytes(v)[j - i] else mem[j]
  {
    var m := WriteBytes(mem, i, LowBytes(v, n));
    if i <= j < i + n {
      assert m[i + (j - i)] == LowBytes(v, n)[j - i];
    }
  }

  /** Reading back the four bytes of a word gives the word. */
  lemma WordOfBytes(v: bv32)
    ensures WordAt(Bytes(v), 0) == v
  {
  }

  /** Splitting the word at `i` into bytes gives the four bytes at `i`. */
  lemma BytesOfWord(mem: seq<bv8>, i: int)
    requires 0 <= i && i + 4 <= |mem|
    ensures Bytes(WordAt(mem, i)) == mem[i..i + 4]
  {
  }

  /** The halfword of a word's two low bytes is the word's low half. */
  lemma HalfOfBytes(v: bv32)
    ensures HalfAt(Bytes(v), 0) as bv32 == v & 0xFFFF
  {
  }

  /** A word written to memory reads back unchanged. */
  lemma {:induction false} LoadWordAfterStoreWord(mem: seq<bv8>, i: int, v: bv32)
    requires 0 <= i && i + 4 <= |mem|
    ensures WordAt(WriteBytes(mem, i, LowBytes(v, 4)), i) == v
  {
    var m := WriteBytes(mem, i, LowBytes(v, 4));
    assert m[i..i + 4] == Bytes(v);
    WordOfBytes(v);
  }

  /** The halfword at `i` after a halfword store is the stored word's low half. */
  lemma {:induction false} HalfAfterStoreHalf(mem: seq<bv8>, i: int, v: bv32)
    requires 0 <= i && i + 2 <= |mem|
    ensures HalfAt(WriteBytes(mem, i, LowBytes(v, 2)), i) == HalfAt(Bytes(v), 0)
  {
    var m := WriteBytes(mem, i, LowBytes(v, 2));
    assert m[i] == Bytes(v)[0] && m[i + 1] == Bytes(v)[1];
  }

  /** A halfword written to memory reads back as rs2's low half, zero- or sign-extended. */
  lemma {:induction false} LoadHalfAfterStoreHalf(mem: seq<bv8>, i: int, v: bv32)
    requires 0 <= i && i + 2 <= |mem|
    ensures LoadValue(LHU, WriteBytes(mem, i, LowBytes(v, 2)), i) == v & 0xFFFF
    ensures LoadValue(LH, WriteBytes(mem, i, LowBytes(v, 2)), i) == SignExtendHalf(HalfAt(Bytes(v), 0))
  {
    HalfAfterStoreHalf(mem, i, v);
    HalfOfBytes(v);
  }

  /** A byte written to memory reads back as rs2's low byte, zero- or sign-extended. */
  lemma {:induction false} LoadByteAfterStoreByte(mem: seq<bv8>, i: int, v: bv32)
    requires 0 <= i && i + 1 <= |mem|
    ensures LoadValue(LBU, WriteBytes(mem, i, LowBytes(v, 1)), i) == v & 0xFF
    ensures LoadValue(LB, WriteBytes(mem, i, LowBytes(v, 1)), i) == SignExtendByte((v & 0xFF) as bv8)
  {
    var m := WriteBytes(mem, i, LowBytes(v, 1));
    assert m[i] == Bytes(v)[0];
  }

  /**
   * SW followed by LW from the same base register and offset loads the
   * stored register's value.
   */
  lemma {:induction false} LoadWordAfterStoreWordInMachine(s: State, rs1: bv5, rs2: bv5, imm: bv32, rd: bv5)
    requires Valid(s) && rd != 0
    requires !IsConsole(Offset(Reg(s, rs1), imm)) && InMemory(Offset(Reg(s, rs1), imm), 4)
    ensures var t := ExecStore(s, SW, rs1, rs2, imm).next;
      Valid(t) && ExecLoad(t, LW, rd, rs1, imm).next.regs[rd as int] == Reg(s, rs2)
  {
    var i := MemIndex(Offset(Reg(s, rs1), imm));
    StoreInMemoryOutcome(s, SW, rs1, rs2, imm);
    var t := ExecStore(s, SW, rs1, rs2, imm).next;
    LoadInMemoryOutcome(t, LW, rd, rs1, imm);
    LoadWordAfterStoreWord(s.mem, i, Reg(s, rs2));
  }

  /** Each branch's condition is the negation of its partner's. */
  lemma BranchPairsAreComplements(a: bv32, b: bv32)
    ensures Taken(BEQ, a, b) <==> !Taken(BNE, a, b)
    ensures Taken(BLT, a, b) <==> !Taken(BGE, a, b)
    ensures Taken(BLTU, a, b) <==> !Taken(BGEU, a, b)
  {
  }

  /** BLT and BLTU branch exactly when SLT and SLTU would set rd to 1. */
  lemma BranchConditionsMatchSetLessThan(a: bv32, b: bv32)
    ensures Taken(BLT, a, b) <==> Compute(Slt, a, b) == 1
    ensures Taken(BLTU, a, b) <==> Compute(Sltu, a, b) == 1
  {
  }

  /**
   * A branch changes only pc: to pc + imm when its condition holds and to
   * pc + 4 otherwise.
   */
  lemma BranchChangesOnlyPc(s: State, k: BranchKind, rs1: bv5, rs2: bv5, imm: bv32)
    requires Valid(s)
    ensures ExecBranch(s, k, rs1, rs2, imm).status == Running
    ensures ExecBranch(s, k, rs1, rs2, imm).next.regs == s.regs
    ensures ExecBranch(s, k, rs1, rs2, imm).next.mem == s.mem
    ensures ExecBranch(s, k, rs1, rs2, imm).next.out == s.out
    ensures Taken(k, Reg(s, rs1), Reg(s, rs2)) ==> ExecBranch(s, k, rs1, rs2, imm).next.pc == Offset(s.pc, imm)
    ensures !Taken(k, Reg(s, rs1), Reg(s, rs2)) ==> ExecBranch(s, k, rs1, rs2, imm).next.pc == NextPc(s.pc)
  {
  }

  /** JAL links the address of the next word into rd and jumps to pc + imm; nothing else changes. */
  lemma JalLinksAndJumps(s: State, rd: bv5, imm: bv32)
    requires Valid(s)
    ensures ExecJal(s, rd, imm).next.pc == Offset(s.pc, imm)
    ensures rd != 0 ==> ExecJal(s, rd, imm).next.regs[rd as int] == NextPc(s.pc)
    ensures forall r :: 0 <= r < 32 && r != rd as int ==> ExecJal(s, rd, imm).next.regs[r] == s.regs[r]
    ensures ExecJal(s, rd, imm).next.mem == s.mem && ExecJal(s, rd, imm).next.out == s.out
  {
  }

  /**
   * JALR links the address of the next word into rd and jumps to rs1 + imm
   * with bit 0 cleared, rs1 read before rd is written; nothing else changes.
   */
  lemma JalrLinksAndJumps(s: State, rd: bv5, rs1: bv5, imm: bv32)
    requires Valid(s)
    ensures ExecJalr(s, rd, rs1, imm).status == Running
    ensures ExecJalr(s, rd, rs1, imm).next.pc == JumpTarget(Reg(s, rs1), imm)
    ensures rd != 0 ==> ExecJalr(s, rd, rs1, imm).next.regs[rd as int] == NextPc(s.pc)
    ensures forall r :: 0 <= r < 32 && r != rd as int ==> ExecJalr(s, rd, rs1, imm).next.regs[r] == s.regs[r]
    ensures ExecJalr(s, rd, rs1, imm).next.mem == s.mem && ExecJalr(s, rd, rs1, imm).next.out == s.out
  {
  }

  /**
   * JALR with rd == rs1 still jumps to the target computed from the old
   * rs1, and rd ends up holding the link address.
   */
  lemma JalrSameRegister(s: State, r: bv5, imm: bv32)
    requires Valid(s) && r != 0
    ensures ExecJalr(s, r, r, imm).next.pc == JumpTarget(Reg(s, r), imm)
    ensures ExecJalr(s, r, r, imm).next.regs[r as int] == NextPc(s.pc)
  {
  }

  /** A JALR target is even. */
  lemma JumpTargetIsEven(base: bv32, imm: bv32)
    ensures JumpTarget(base, imm) & 1 == 0
  {
  }

  /** LUI fills bits 31..12 with the immediate's low 20 bits and clears bits 11..0. */
  lemma UpperImmediateBits(imm: bv32)
    ensures UpperImmediate(imm) & 0xFFF == 0
    ensures UpperImmediate(imm) >> 12 == imm & 0xF_FFFF
  {
  }

  lemma UpperImmediateOfNonNegativeWord(w: bv32)
    requires !Negative(w)
    ensures UpperImmediate(ImmU(w)) == w & 0xFFFF_F000
  {
  }

  lemma UpperImmediateOfNegativeWord(w: bv32)
    requires Negative(w)
    ensures UpperImmediate(ImmU(w)) == w & 0xFFFF_F000
  {
  }

  /** The U-immediate shifted back into place is the top 20 bits of the instruction word. */
  lemma UpperImmediateOfWord(w: bv32)
    ensures UpperImmediate(ImmU(w)) == w & 0xFFFF_F000
  {
    if Negative(w) {
      UpperImmediateOfNegativeWord(w);
    } else {
      UpperImmediateOfNonNegativeWord(w);
    }
  }

  /** ECALL with a7 == 93 halts with exit code a0 and changes nothing. */
  lemma EcallExitHalts(s: State)
    requires Valid(s) && Reg(s, 17) == 93
    ensures Execute(s, Ecall) == Outcome(s, Halted(Exit(Reg(s, 10))))
  {
  }

  /** Any other ECALL only moves on to the next word. */
  lemma EcallOtherSkips(s: State)
    requires Valid(s) && Reg(s, 17) != 93
    ensures Execute(s, Ecall) == Outcome(s.(pc := NextPc(s.pc)), Running)
  {
  }

  /** EBREAK halts at its own pc and changes nothing. */
  lemma EbreakHalts(s: State)
    requires Valid(s)
    ensures Execute(s, Ebreak) == Outcome(s, Halted(Breakpoint(s.pc)))
  {
  }

  /** A pc whose word does not lie in memory halts the machine with a fault. */
  lemma StepOutsideMemoryFaults(s: State)
    requires Valid(s) && !InMemory(s.pc, 4)
    ensures Step(s) == Outcome(s, Halted(MemFault(s.pc, s.pc)))
  {
  }

  /** A word no handler accepts halts the machine and changes nothing. */
  lemma StepUnknownWordHalts(s: State)
    requires Valid(s) && InMemory(s.pc, 4) && Decode(Fetch(s)) == None
    ensures Step(s) == Outcome(s, Halted(DecodeError(Fetch(s), s.pc)))
  {
  }

  /** One step runs the handler of the word at pc. */
  lemma StepRunsDecodedHandler(s: State, op: Op)
    requires Valid(s) && InMemory(s.pc, 4) && Decode(Fetch(s)) == Some(op)
    ensures Step(s) == Execute(s, op)
  {
  }

  // ---------------------------------------------------------------------
  // The handlers as src/CPU.cpp writes them, where they depart from the ISA.

  /** The register write every handler of src/CPU.cpp performs: x0 is not protected. */
  function SetRegAsWritten(regs: seq<bv32>, rd: bv5, v: bv32): (r: seq<bv32>)
    requires |regs| == 32
    ensures |r| == 32 && r[rd as int] == v
  {
    regs[rd as int := v]
  }

  /**
   * `addi x0, x1, 50` with x1 == 100: written as the source writes it, x0
   * becomes 150; through SetReg it stays 0.
   */
  lemma X0WriteAsWrittenExample(regs: seq<bv32>)
    requires |regs| == 32 && regs[0] == 0 && regs[1] == 100
    ensures SetRegAsWritten(regs, 0, Compute(Add, regs[1], 50))[0] == 150
    ensures SetReg(regs, 0, Compute(Add, regs[1], 50))[0] == 0
  {
  }

  /** execSRLAI as written: the chosen shift advances pc, then execSRLAI advances it again. */
  function ExecShiftRightImmAsWritten(s: State, funct7: bv7, rd: bv5, rs1: bv5, imm: bv32): Outcome
    requires Valid(s)
  {
    var o := ExecRegImm(s, if funct7 != 0 then Sra else Srl, rd, rs1, imm);
    Outcome(o.next.(pc := NextPc(o.next.pc)), o.status)
  }

  /**
   * As written, SRLI and SRAI skip the following word: pc moves by 8, where
   * the corrected handler moves it by 4.
   */
  lemma ShiftRightImmAsWrittenSkipsAWord(s: State, funct7: bv7, rd: bv5, rs1: bv5, imm: bv32)
    requires Valid(s)
    ensures ExecShiftRightImmAsWritten(s, funct7, rd, rs1, imm).next.pc == NextPc(NextPc(s.pc))
    ensures ExecRegImm(s, if funct7 != 0 then Sra else Srl, rd, rs1, imm).next.pc == NextPc(s.pc)
  {
  }

  lemma NextPcTwiceDiffers(pc: bv32)
    ensures NextPc(NextPc(pc)) != NextPc(pc)
  {
  }

  /** The value execSB and execSH write through a `uint32_t*`: rs2 masked to 8 or 16 bits. */
  function StoreMaskAsWritten(k: StoreKind, v: bv32): bv32 {
    match k
    case SB => v & 0xFF
    case SH => v & 0xFFFF
    case SW => v
  }

  /** execSB, execSH and execSW as written: every store outside the console port writes four bytes. */
  function ExecStoreAsWritten(s: State, k: StoreKind, rs1: bv5, rs2: bv5, imm: bv32): Outcome
    requires Valid(s)
  {
    var addr := Offset(Reg(s, rs1), imm);
    if IsConsole(addr) then ExecStore(s, k, rs1, rs2, imm)
    else if InMemory(addr, 4) then
      Outcome(s.(pc := NextPc(s.pc), mem := WriteBytes(s.mem, MemIndex(addr), Bytes(StoreMaskAsWritten(k, Reg(s, rs2))))), Running)
    else Outcome(s, Halted(MemFault(addr, s.pc)))
  }

  /** The four bytes execSB writes: the low byte of rs2, then three zeros. */
  lemma StoreByteAsWrittenBytes(v: bv32)
    ensures Bytes(StoreMaskAsWritten(SB, v)) == [(v & 0xFF) as bv8, 0, 0, 0]
  {
  }

  /**
   * As written, SB zeroes the three bytes after the stored one; the
   * corrected store leaves them alone.
   */
  lemma {:induction false} StoreByteAsWrittenClobbers(mem: seq<bv8>, i: int, v: bv32, j: int)
    requires 0 <= i < j < i + 4 <= |mem|
    ensures WriteBytes(mem, i, Bytes(StoreMaskAsWritten(SB, v)))[j] == 0
    ensures WriteBytes(mem, i, LowBytes(v, 1))[j] == mem[j]
  {
    StoreByteAsWrittenBytes(v);
  }

  /** execECALL as written: syscall 93 exits; any other number falls out of the switch and pc stays put. */
  function ExecEcallAsWritten(s: State): Outcome
    requires Valid(s)
  {
    if Reg(s, 17) == 93 then Outcome(s, Halted(Exit(Reg(s, 10))))
    else Outcome(s, Running)
  }

  /**
   * As written, an ECALL with any other syscall number leaves the machine
   * running in exactly the state it started from, so the next fetch runs the
   * same ECALL again; the corrected handler moves on to the next word.
   */
  lemma EcallAsWrittenStaysPut(s: State)
    requires Valid(s) && Reg(s, 17) != 93
    ensures ExecEcallAsWritten(s) == Outcome(s, Running)
    ensures ExecEcall(s).status == Running && ExecEcall(s).next.pc != s.pc
  {
  }

  // ---------------------------------------------------------------------
  // The program the constructor of src/CPU.cpp loads: `sw x5, 0(x6)` then
  // `ecall`, with x5 = 0x65626142 and x6 the console port.

  function BootMemory(i: int): bv8 {
    if i == 0 then 0x23 else if i == 1 then 0x20 else if i == 2 then 0x53 else if i == 4 then 0x73 else 0
  }

  function BootRegister(i: int): bv32 {
    if i == 5 then 0x6562_6142 else if i == 6 then 0xFFFF_0000 else 0
  }

  /** The state the constructor builds. */
  function Boot(): (s: State)
    ensures Valid(s) && s.pc == 0 && s.out == []
  {
    State(0, seq(32, i => BootRegister(i)), seq(MEM_SIZE, i => BootMemory(i)), [])
  }

  /** The word at 0 is `sw x5, 0(x6)`. */
  lemma BootFirstWord()
    ensures InMemory(Boot().pc, 4)
    ensures Decode(Fetch(Boot())) == Some(Store(SW, 6, 5, 0))
  {
    assert Fetch(Boot()) == Encode(Store(SW, 6, 5, 0));
    DecodeEncodeStore(SW, 6, 5, 0);
  }

  lemma {:induction false} BootStoreToConsole()
    ensures Execute(Boot(), Store(SW, 6, 5, 0)) == Outcome(Boot().(pc := 4, out := [0x42, 0x61, 0x62, 0x65]), Running)
  {
    var s := Boot();
    assert Offset(Reg(s, 6), 0) == 0xFFFF_0000;
    ConsoleStoreAppendsOutput(s, SW, 6, 5, 0);
    assert Bytes(Reg(s, 5)) == [0x42, 0x61, 0x62, 0x65];
    assert NextPc(s.pc) == 4;
  }

  /** The first step stores x5 to the console: the bytes of "Babe". */
  lemma {:induction false} BootFirstStepPrints()
    ensures Step(Boot()) == Outcome(Boot().(pc := 4, out := [0x42, 0x61, 0x62, 0x65]), Running)
  {
    BootFirstWord();
    StepRunsDecodedHandler(Boot(), Store(SW, 6, 5, 0));
    BootStoreToConsole();
  }

  /** The state after the first step: pc at the `ecall`, "Babe" on the console. */
  function BootPrinted(): (s: State)
    ensures Valid(s)
  {
    Boot().(pc := 4, out := [0x42, 0x61, 0x62, 0x65])
  }

  lemma BootSecondWord()
    ensures InMemory(BootPrinted().pc, 4)
    ensures Decode(Fetch(BootPrinted())) == Some(Ecall)
  {
    assert Fetch(BootPrinted()) == 0x73;
    OpcodeMapSystem(0x73);
  }

  /** The second step is the `ecall`; a7 is 0, not 93, so it only moves on. */
  lemma {:induction false} BootSecondStepSkipsEcall()
    ensures Step(BootPrinted()) == Outcome(BootPrinted().(pc := 8), Running)
  {
    var s := BootPrinted();
    BootSecondWord();
    StepRunsDecodedHandler(s, Ecall);
    EcallOtherSkips(s);
    assert NextPc(s.pc) == 8;
  }

  /** The third step finds the zero word at 8, which no handler accepts. */
  lemma {:induction false} BootThirdStepHalts()
    ensures Step(BootPrinted().(pc := 8)) == Outcome(BootPrinted().(pc := 8), Halted(DecodeError(0, 8)))
  {
    var s := BootPrinted().(pc := 8);
    assert InMemory(s.pc, 4);
    assert Fetch(s) == 0;
    OpcodeMapUnknown(0);
    StepUnknownWordHalts(s);
  }
}
