# cpu-sim: the RV32I decoder and execution engine

cpu-sim is a functional simulator of a 32-bit RISC-V (RV32I) processor. Its
`CPU` object has:

- a program counter;
- 32 general registers;
- a 16 MiB byte-addressed memory.

A word fetched at `pc` is processed in three stages:

1. It is split into fields: opcode, rd, rs1, rs2, funct3, funct7, and the
   sign-extended immediate of its format.
2. It is looked up in a table keyed by (opcode, funct3, funct7).
3. It is dispatched to an `exec*` handler. The handler updates the registers,
   the memory and `pc`. A store to the console port `0xFFFF0000` prints
   instead of storing. ECALL 93 and EBREAK end the program.

This project models that engine in Dafny in the following modules:

| module | models |
|---|---|
| `Alu` | The ten register-register operations on 32-bit words: wrap-around add and sub, bitwise logic, shifts by the low five bits of the amount, and signed and unsigned compare. |
| `Fields` | The field extraction of `extractFields`. It includes an encoder for each format R, I, S, B, U and J, and proves both round trips: fields→word→fields when the immediate fits its format, and word→fields→word for every word. |
| `Decoder` | The key of `makeInstrKey` and the lookup in `instruction_map`. `Decode` gives an `Op`, or `None` for a word with no handler. It is proved to invert `Encode` for every well-formed instruction, `Encode` is proved to give back every decoded word other than ECALL and EBREAK, and the key-and-table lookup is proved to equal a decision on opcode, funct3 and funct7 alone on every word. |
| `Machine` | The state and the effect of each handler, as pure functions. These form the specification. Lemmas cover the following: validity is preserved; pc advances; the frame (what each instruction leaves unchanged); memory and console stores; load-after-store for each width; branches; jumps; system calls; and one step of the program the constructor loads. |
| `Cpu` | The `CPU` class itself, with its fields `pc`, `regs` (an array of 32 words), `mem` (an array of 16 MiB) and the console output. Each handler is a method that updates them in place and is proved equal to the `Machine` function of the old state. The same holds for `Step`, which is fetch, decode and execute. |
| `ImmediateMock` | The `CPU2` mock of `src/tests2.cpp`, with its nine I-type handlers and `reset`. The scenarios of those tests are methods whose `ensures` give the values each scenario checks. |
| `AluVectors` | The boundary tables of `src/tests.cpp`, each proved row by row against `Alu.Compute`. |

The model follows the RISC-V ISA where the source departs from it. The
departures are listed under "## Findings". For each departure there is a
member that models the code as written, a lemma that exhibits the
difference, and the corrected behaviour that the rest of the model uses.

## Model

| member | source | states |
|---|---|---|
| Alu.Signed | src/CPU.cpp:196-200 | The two's-complement reading of a word lies in [-2^31, 2^31), and it is negative exactly when bit 31 is set. |
| Alu.SignedValue | src/CPU.cpp:268-272 | The signed value is the unsigned value when bit 31 is clear, and the unsigned value minus 2^32 otherwise. |
| Alu.Compute | src/CPU.cpp:191-241 | The ten R-type results. Its properties are stated by the lemmas below: the inverse laws of ADD and SUB, the masked shift amount, the fill of each shift, and the agreement and disagreement of SLT and SLTU. |
| Alu.ShiftLeft | src/CPU.cpp:191-194 | SLL; stated by Alu.ShiftLeftAmount and Alu.ShiftLeftFillsZeros. |
| Alu.ShiftRightLogical | src/CPU.cpp:228-231 | SRL; stated by Alu.ShiftRightLogicalAmount and Alu.ShiftRightLogicalFillsZeros. |
| Alu.ShiftRightArithmetic | src/CPU.cpp:222-226 | SRA; stated by Alu.ShiftRightArithmeticAmount, Alu.RightShiftsAgreeOnNonNegative and Alu.ShiftRightArithmeticFillsSign. |
| Alu.ShiftLeftAmount | src/CPU.cpp:191-194 | SLL depends only on the low five bits of the amount: shifting by b, by b & 31 and by b + 32 gives the same word. |
| Alu.ShiftRightLogicalAmount | src/CPU.cpp:228-231 | SRL depends only on the low five bits of the amount. |
| Alu.ShiftRightArithmeticAmount | src/CPU.cpp:222-226 | SRA depends only on the low five bits of the amount. |
| Alu.ShiftsMaskAmount | src/CPU.cpp:285-293 | For all three shift operations of the ALU, the amount is masked to five bits, so an amount of 32 acts as 0. |
| Alu.ShiftLeftFillsZeros | src/CPU.cpp:191-194 | The low bits that SLL vacates are zero. |
| Alu.ShiftRightLogicalFillsZeros | src/CPU.cpp:228-231 | The high bits that SRL vacates are zero. |
| Alu.RightShiftsAgreeOnNonNegative | src/CPU.cpp:222-231 | On a word with bit 31 clear, SRA and SRL agree. |
| Alu.ShiftRightArithmeticFillsSign | src/CPU.cpp:222-226 | On a negative word, SRA fills the vacated high bits with ones and keeps the SRL result in the remaining bits. |
| Alu.SubUndoesAdd | src/CPU.cpp:233-241 | (a + b) - b == a under 32-bit wrap-around. |
| Alu.AddUndoesSub | src/CPU.cpp:233-241 | (a - b) + b == a under 32-bit wrap-around. |
| Alu.SignedAndUnsignedDisagreeAcrossSign | src/CPU.cpp:196-205 | A negative rs1 and a non-negative rs2 give SLT 1 and SLTU 0. |
| Alu.SignedBelowOnSameSign | src/CPU.cpp:196-205 | For two words of the same sign, unsigned < implies `int32_t` <. |
| Alu.SignedAtMostOnSameSign | src/CPU.cpp:196-205 | For two words of the same sign, unsigned <= implies `int32_t` <=. |
| Alu.SignedOrderOnSameSign | src/CPU.cpp:196-205 | For two words of the same sign, the `int32_t` order and the unsigned order agree, in both directions. |
| Alu.SignedAndUnsignedAgreeOnSameSign | src/CPU.cpp:196-205 | On operands of the same sign, SLT and SLTU give the same result. With the previous lemma, the two differ exactly when the signs differ. |
| Alu.SetLessThanIsFlippedUnsigned | src/CPU.cpp:196-205 | SLT of two words is SLTU of the same words with bit 31 flipped in each. |
| Alu.LessToInt31 | src/CPU.cpp:196-200 | On 31-bit words, unsigned < is < on the integer values that the `int32_t` reading is built from. |
| Alu.AtMostToInt31 | src/CPU.cpp:196-200 | On 31-bit words, unsigned <= is <= on the integer values. |
| Alu.ShiftLeftUnmasked | src/CPU.cpp:263-266 | SLLI as written, with the immediate as the shift count: the result is defined only for counts below 32, where it equals the masked shift. Any larger count is undefined in C++ and gives None. |
| Alu.SlliUnmaskedBy34 | src/CPU.cpp:263-266 | `slli` by 34 is undefined as written, while the masked shift gives 0xA << 2 == 0x28. |
| Fields.ExtractFields | src/CPU.cpp:149-177 | The immediate is the one of the format the opcode names. For OP the fields re-encode in R format to the word; for OP-IMM, LOAD and JALR in I format; for STORE in S format; for BRANCH in B format; for LUI and AUIPC in U format; for JAL in J format. The immediate is sign-extended and lies within that format's reach: a 12-bit value for I and S, an even 13-bit offset for B, a 20-bit value for U, an even 21-bit offset for J. With the re-encoding, this leaves exactly one immediate per word (Fields.ExtractedImmediateIsUnique). For any other opcode the immediate is 0. rd, rs1, rs2, funct3 and funct7 are the fields at their fixed positions. |
| Fields.ImmI | src/CPU.cpp:159-160 | The I-immediate; stated by Fields.ImmIRange and the I round trips (Fields.DecodeEncodeI, Fields.EncodeDecodeI). |
| Fields.ImmU | src/CPU.cpp:161-162 | The U-immediate; stated by Fields.ImmURange and the U round trips. |
| Fields.ImmS | src/CPU.cpp:163-165 | The S-immediate; stated by Fields.ImmSRange and the S round trips. |
| Fields.ImmB | src/CPU.cpp:166-169 | The B-offset; stated by Fields.ImmBRange and the B round trips. |
| Fields.ImmJ | src/CPU.cpp:170-173 | The J-offset; stated by Fields.ImmJRange and the J round trips. |
| Fields.ImmIRange | src/CPU.cpp:159-160 | The I-immediate is a sign-extended 12-bit value. |
| Fields.ImmSRange | src/CPU.cpp:163-165 | The S-immediate is a sign-extended 12-bit value. |
| Fields.ImmBRange | src/CPU.cpp:166-169 | The B-immediate is an even, sign-extended 13-bit value. |
| Fields.ImmJRange | src/CPU.cpp:170-173 | The J-immediate is an even, sign-extended 21-bit value. |
| Fields.ImmURange | src/CPU.cpp:161-162 | The U-immediate is a sign-extended 20-bit value. |
| Fields.DecodeEncodeR | src/CPU.cpp:151-157 | Encoding any six R-type fields and extracting them again gives the same fields. |
| Fields.EncodeDecodeR | src/CPU.cpp:151-157 | Every word is the R-encoding of its own fields. |
| Fields.IFieldsOfEncoding | src/CPU.cpp:151-157 | The I-encoding places opcode, rd, funct3 and rs1, and the immediate's low 12 bits, where extraction finds them. |
| Fields.IImmOfEncodingNonNegative | src/CPU.cpp:159-160 | A non-negative 12-bit immediate survives I-encoding and extraction. |
| Fields.IImmOfEncodingNegative | src/CPU.cpp:159-160 | A negative 12-bit immediate survives I-encoding and extraction. |
| Fields.DecodeEncodeI | src/CPU.cpp:151-160 | Every field of an I-encoding comes back on extraction, provided the immediate fits 12 bits. |
| Fields.IEncodingOfFieldsNonNegative | src/CPU.cpp:159-160 | A word with bit 31 clear is the I-encoding of its own fields. |
| Fields.IEncodingOfFieldsNegative | src/CPU.cpp:159-160 | A word with bit 31 set is the I-encoding of its own fields. |
| Fields.EncodeDecodeI | src/CPU.cpp:151-160 | Every word is the I-encoding of its extracted fields and immediate. |
| Fields.SFieldsOfEncoding | src/CPU.cpp:151-157 | The S-encoding places opcode, funct3, rs1 and rs2 where extraction finds them. |
| Fields.SImmOfEncodingNonNegative | src/CPU.cpp:163-165 | A non-negative 12-bit immediate survives S-encoding and the reassembly of its two split pieces. |
| Fields.SImmOfEncodingNegative | src/CPU.cpp:163-165 | A negative 12-bit immediate survives S-encoding and reassembly. |
| Fields.DecodeEncodeS | src/CPU.cpp:151-165 | Every field of an S-encoding comes back on extraction, provided the immediate fits 12 bits. |
| Fields.SEncodingOfFieldsNonNegative | src/CPU.cpp:163-165 | A word with bit 31 clear is the S-encoding of its own fields. |
| Fields.SEncodingOfFieldsNegative | src/CPU.cpp:163-165 | A word with bit 31 set is the S-encoding of its own fields. |
| Fields.EncodeDecodeS | src/CPU.cpp:151-165 | Every word is the S-encoding of its extracted fields and immediate. |
| Fields.BFieldsOfEncoding | src/CPU.cpp:151-157 | The B-encoding places opcode, funct3, rs1 and rs2 where extraction finds them. |
| Fields.BImmOfEncodingNonNegative | src/CPU.cpp:166-169 | A non-negative even 13-bit offset survives the four-piece B-encoding and its reassembly. |
| Fields.BImmOfEncodingNegative | src/CPU.cpp:166-169 | A negative even 13-bit offset survives B-encoding and reassembly. |
| Fields.DecodeEncodeB | src/CPU.cpp:151-169 | Every field of a B-encoding comes back on extraction, provided the offset is even and fits 13 bits. |
| Fields.BEncodingOfFieldsNonNegative | src/CPU.cpp:166-169 | A word with bit 31 clear is the B-encoding of its own fields. |
| Fields.BEncodingOfFieldsNegative | src/CPU.cpp:166-169 | A word with bit 31 set is the B-encoding of its own fields. |
| Fields.EncodeDecodeB | src/CPU.cpp:151-169 | Every word is the B-encoding of its extracted fields and offset. |
| Fields.UFieldsOfEncoding | src/CPU.cpp:151-157 | The U-encoding places opcode and rd where extraction finds them. |
| Fields.UImmOfEncodingNonNegative | src/CPU.cpp:161-162 | A non-negative 20-bit immediate survives U-encoding and extraction. |
| Fields.UImmOfEncodingNegative | src/CPU.cpp:161-162 | A negative 20-bit immediate survives U-encoding and extraction. |
| Fields.DecodeEncodeU | src/CPU.cpp:151-162 | Every field of a U-encoding comes back on extraction, provided the immediate fits 20 bits. |
| Fields.UEncodingOfFieldsNonNegative | src/CPU.cpp:161-162 | A word with bit 31 clear is the U-encoding of its own fields. |
| Fields.UEncodingOfFieldsNegative | src/CPU.cpp:161-162 | A word with bit 31 set is the U-encoding of its own fields. |
| Fields.EncodeDecodeU | src/CPU.cpp:151-162 | Every word is the U-encoding of its extracted fields and immediate. |
| Fields.JFieldsOfEncoding | src/CPU.cpp:151-157 | The J-encoding places opcode and rd where extraction finds them. |
| Fields.JImmOfEncodingNonNegative | src/CPU.cpp:170-173 | A non-negative even 21-bit offset survives the four-piece J-encoding and its reassembly. |
| Fields.JImmOfEncodingNegative | src/CPU.cpp:170-173 | A negative even 21-bit offset survives J-encoding and reassembly. |
| Fields.DecodeEncodeJ | src/CPU.cpp:151-173 | Every field of a J-encoding comes back on extraction, provided the offset is even and fits 21 bits. |
| Fields.JEncodingOfFieldsNonNegative | src/CPU.cpp:170-173 | A word with bit 31 clear is the J-encoding of its own fields. |
| Fields.JEncodingOfFieldsNegative | src/CPU.cpp:170-173 | A word with bit 31 set is the J-encoding of its own fields. |
| Fields.EncodeDecodeJ | src/CPU.cpp:151-173 | Every word is the J-encoding of its extracted fields and offset. |
| Fields.EncodeIInjective | src/CPU.cpp:159-160 | Two 12-bit immediates with the same I-encoding are equal. |
| Fields.EncodeSInjective | src/CPU.cpp:163-165 | Two 12-bit immediates with the same S-encoding are equal. |
| Fields.EncodeBInjective | src/CPU.cpp:166-169 | Two branch offsets within reach with the same B-encoding are equal. |
| Fields.EncodeUInjective | src/CPU.cpp:161-162 | Two 20-bit immediates with the same U-encoding are equal. |
| Fields.EncodeJInjective | src/CPU.cpp:170-173 | Two jump offsets within reach with the same J-encoding are equal. |
| Fields.ExtractedImmediateIsUnique | src/CPU.cpp:159-160 | For an OP-IMM, LOAD or JALR word, any 12-bit immediate whose I-encoding with the word's fields is the word is the extracted immediate, `(int32_t)w >> 20`. |
| Fields.ShiftImmediateFields | src/CPU.cpp:280-293 | For a shift-immediate word, funct7 == 0 exactly when the I-immediate is a bare shift amount. The low five bits of the I-immediate are the rs2 field. |
| Decoder.DecodeEncodeRegReg | src/CPU.cpp:62-71 | Each of the ten R-type operations decodes from its encoding to itself, through its (opcode, funct3, funct7) key. |
| Decoder.DecodeEncodeRegImm | src/CPU.cpp:74-81 | ADDI, SLLI, SLTI, SLTIU, XORI, ORI and ANDI with a 12-bit immediate decode from their encoding to themselves. |
| Decoder.DecodeEncodeShiftRightImm | src/CPU.cpp:79 | SRLI and SRAI share one key. The decoder tells them apart by funct7, as execSRLAI does. |
| Decoder.DecodeEncodeLoad | src/CPU.cpp:82-88 | LB, LH, LW, LBU and LHU decode from their encoding to themselves. |
| Decoder.DecodeEncodeStore | src/CPU.cpp:91-93 | SB, SH and SW decode from their encoding to themselves. |
| Decoder.DecodeEncodeBranchEquality | src/CPU.cpp:96-97 | BEQ and BNE with an even 13-bit offset decode to themselves. |
| Decoder.DecodeEncodeBranchSigned | src/CPU.cpp:98-99 | BLT and BGE decode to themselves. |
| Decoder.DecodeEncodeBranchUnsigned | src/CPU.cpp:100-101 | BLTU and BGEU decode to themselves. |
| Decoder.DecodeEncodeLui | src/CPU.cpp:104 | LUI with a 20-bit immediate decodes to itself. |
| Decoder.DecodeEncodeAuipc | src/CPU.cpp:105 | AUIPC with a 20-bit immediate decodes to itself. |
| Decoder.DecodeEncodeJalr | src/CPU.cpp:109 | JALR with a 12-bit immediate decodes to itself. |
| Decoder.DecodeEncodeJal | src/CPU.cpp:108 | JAL with an even 21-bit offset decodes to itself; its key is the opcode alone. |
| Decoder.DecodeEncodeSystem | src/CPU.cpp:111-112 | ECALL and EBREAK decode from their encodings (0x00000073 and 0x00100073) back to themselves, so together with the rows above every well-formed instruction round-trips. |
| Decoder.DecodeSystemWord | src/CPU.cpp:424 | A SYSTEM word with funct3 0 decodes to EBREAK when its rs2 field is non-zero and to ECALL otherwise. |
| Decoder.OpcodeMapOp | src/CPU.cpp:179-189 | For opcode 0x33, table decoding agrees with the field-by-field decision `DecodeByOpcodeMap`. |
| Decoder.OpcodeMapOpImm | src/CPU.cpp:179-189 | For opcode 0x13, table decoding agrees with the field-by-field decision `DecodeByOpcodeMap`. |
| Decoder.OpcodeMapLoad | src/CPU.cpp:179-189 | For opcode 0x03, table decoding agrees with the field-by-field decision `DecodeByOpcodeMap`. |
| Decoder.OpcodeMapStore | src/CPU.cpp:179-189 | For opcode 0x23, table decoding agrees with the field-by-field decision `DecodeByOpcodeMap`. |
| Decoder.OpcodeMapBranch | src/CPU.cpp:179-189 | For opcode 0x63, table decoding agrees with the field-by-field decision `DecodeByOpcodeMap`. |
| Decoder.OpcodeMapLui | src/CPU.cpp:179-189 | For opcode 0x37, table decoding agrees with the field-by-field decision `DecodeByOpcodeMap`. |
| Decoder.OpcodeMapAuipc | src/CPU.cpp:179-189 | For opcode 0x17, table decoding agrees with the field-by-field decision `DecodeByOpcodeMap`. |
| Decoder.OpcodeMapJal | src/CPU.cpp:179-189 | For opcode 0x6F, table decoding agrees with the field-by-field decision `DecodeByOpcodeMap`. |
| Decoder.OpcodeMapJalr | src/CPU.cpp:179-189 | For opcode 0x67, table decoding agrees with the field-by-field decision `DecodeByOpcodeMap`. |
| Decoder.OpcodeMapSystem | src/CPU.cpp:179-189 | For opcode 0x73, table decoding agrees with the field-by-field decision `DecodeByOpcodeMap` (ECALL or EBREAK by rs2, as execE chooses). |
| Decoder.UnknownKeyHasNoHandler | src/CPU.cpp:135-147 | The key of a word whose opcode is none of the ten in the table matches no entry of the table. |
| Decoder.OpcodeMapUnknown | src/CPU.cpp:184-188 | A word whose opcode is not in the table has no handler in either decoder. |
| Decoder.DecodeIsOpcodeMap | src/CPU.cpp:179-189 | On every word, table decoding and the field-by-field decision agree: the same handler and the same operands, or no handler at all. |
| Decoder.InstrKey | src/CPU.cpp:135-147 | The corrected key; stated by Decoder.UpperKeyIsOpcode and, through Decode, by the DecodeEncode lemmas. |
| Decoder.Lookup | src/CPU.cpp:60-113 | The table; its entries are stated by the DecodeEncode lemmas, one per row group, and by Decoder.OpcodeMapUnknown. |
| Decoder.Dispatch | src/CPU.cpp:280-283 | The handler's reading of the fields, with execSRLAI choosing SRAI for a nonzero funct7 and execE (line 424) choosing EBREAK for a nonzero rs2; stated by Decoder.DecodeEncodeShiftRightImm and Decoder.OpcodeMapSystem. |
| Decoder.Decode | src/CPU.cpp:179-189 | Look-up, field extraction and dispatch; stated by Decoder.OpcodeMapUnknown (only the ten known opcodes have a handler), the DecodeEncode lemmas, Decoder.EncodeOfDecode and Decoder.DecodeIsOpcodeMap. |
| Decoder.EncodeOfDecodeOp | src/CPU.cpp:62-71 | An accepted OP word is the encoding of the operation it decodes to. |
| Decoder.EncodeOfDecodeOpImm | src/CPU.cpp:74-81 | Every OP-IMM word is the encoding of the operation it decodes to; the immediate keeps the funct7 bits of the shifts. |
| Decoder.EncodeOfDecodeLoad | src/CPU.cpp:82-88 | An accepted LOAD word is the encoding of its load. |
| Decoder.EncodeOfDecodeStore | src/CPU.cpp:91-93 | An accepted STORE word is the encoding of its store. |
| Decoder.EncodeOfDecodeBranch | src/CPU.cpp:96-101 | An accepted BRANCH word is the encoding of its branch. |
| Decoder.EncodeOfDecodeJumps | src/CPU.cpp:104-109 | An accepted LUI, AUIPC, JAL or JALR word is the encoding of its operation. |
| Decoder.EncodeOfDecode | src/CPU.cpp:179-189 | Every word the decoder accepts, other than ECALL and EBREAK, is the encoding of the operation it decodes to. |
| Decoder.UpperKeyIsOpcode | src/CPU.cpp:135-147 | With the corrected key, every LUI and AUIPC word finds its handler, whatever bits 12-14 hold. |
| Decoder.InstrKeyAsWritten | src/CPU.cpp:135-147 | `makeInstrKey` as written, where only JAL drops funct3 from its key; stated by Decoder.UpperKeyAsWrittenMisses and Decoder.LuiWithFunct3BitsExample. |
| Decoder.UpperKeyAsWrittenMisses | src/CPU.cpp:135-147 | With the key as written, an LUI or AUIPC word with nonzero bits 12-14 finds no handler. |
| Decoder.LuiWithFunct3BitsExample | src/CPU.cpp:135-147 | `lui x1, 0x1` (0x000010B7) is unknown with the key as written, and LUI with the corrected key. |
| Machine.Fetch | include/cpusim/CPU.h:26-28 | The little-endian word at pc; stated by Machine.BytesOfWord and Machine.StepOutsideMemoryFaults. |
| Machine.ExecRegReg | src/CPU.cpp:191-241 | The R-type handlers; stated by Machine.AluWriteFrame, Machine.RegisterWriteFrame and Machine.SequentialAdvancesPc. |
| Machine.ExecRegImm | src/CPU.cpp:243-293 | The I-type ALU handlers; stated by the same frame and pc lemmas. |
| Machine.ExecLoad | src/CPU.cpp:295-325 | The load handlers; stated by Machine.LoadInMemoryOutcome, Machine.LoadOutsideMemoryFaults and the load-after-store lemmas. |
| Machine.ExecStore | src/CPU.cpp:327-357 | The store handlers; stated by Machine.StoreInMemoryOutcome, Machine.ConsoleStoreAppendsOutput, Machine.MemoryStoreFrame and Machine.StoreOutsideMemoryFaults. |
| Machine.ExecBranch | src/CPU.cpp:359-402 | The branch handlers; stated by Machine.BranchChangesOnlyPc, Machine.BranchPairsAreComplements and Machine.BranchConditionsMatchSetLessThan. |
| Machine.ExecJal | src/CPU.cpp:413-416 | JAL; stated by Machine.JalLinksAndJumps. |
| Machine.ExecJalr | src/CPU.cpp:418-422 | JALR; stated by Machine.JalrLinksAndJumps, Machine.JalrSameRegister and Machine.JumpTargetIsEven. |
| Machine.ExecEcall | src/CPU.cpp:426-434 | ECALL; stated by Machine.EcallExitHalts and Machine.EcallOtherSkips. |
| Machine.Execute | src/CPU.cpp:184-186 | The handler chosen for an operation; stated by Machine.ExecutePreservesValid, Machine.SequentialAdvancesPc, Machine.RegisterWriteFrame and Machine.HaltLeavesStateUnchanged. |
| Machine.Step | src/CPU.cpp:179-189 | Fetch, decode and execute; stated by Machine.StepPreservesValid, Machine.StepRunsDecodedHandler, Machine.StepUnknownWordHalts and Machine.StepOutsideMemoryFaults. |
| Machine.SetReg | include/cpusim/CPU.h:20-23 | A register write changes exactly rd, keeps 32 registers, and never changes x0. |
| Machine.MemIndex | src/CPU.cpp:6 | The index of an address, taken from its low 24 bits, always lies inside the 16 MiB array. |
| Machine.SignExtendByte | src/CPU.cpp:295-300 | LB keeps the low byte and copies bit 7 into bits 8-31. |
| Machine.SignExtendHalf | src/CPU.cpp:302-307 | LH keeps the low halfword and copies bit 15 into bits 16-31. |
| Machine.WriteBytes | src/CPU.cpp:348-357 | A store puts its bytes at the address and leaves every other byte of memory unchanged. |
| Machine.WriteBytesExtend | src/CPU.cpp:348-357 | Writing one more byte is a single update of the memory written so far. |
| Machine.LoadInMemoryOutcome | src/CPU.cpp:295-325 | A load inside memory writes the loaded value of its width to rd and advances pc. |
| Machine.StoreInMemoryOutcome | src/CPU.cpp:327-357 | A store inside memory and off the console port writes the low bytes of rs2 of its width and advances pc. |
| Machine.RegisterWritesPreserveValid | src/CPU.cpp:191-325 | ALU, load, LUI and AUIPC handlers keep 32 registers, x0 at 0 and the full memory. |
| Machine.StorePreservesValid | src/CPU.cpp:327-357 | Store handlers keep the state well-formed. |
| Machine.ControlPreservesValid | src/CPU.cpp:359-439 | Branch, jump and system handlers keep the state well-formed. |
| Machine.ExecutePreservesValid | src/CPU.cpp:191-439 | Every handler keeps the state well-formed, so x0 reads 0 after every instruction. |
| Machine.StepPreservesValid | src/CPU.cpp:179-189 | A fetch-decode-execute step keeps the state well-formed. |
| Machine.SequentialAdvancesPc | src/CPU.cpp:191-411 | Every non-control instruction that completes moves pc to pc + 4. |
| Machine.RegisterWriteFrame | src/CPU.cpp:191-422 | An instruction that writes rd (ALU, load, LUI, AUIPC, JAL, JALR) changes no other register, and leaves memory and the console alone. |
| Machine.LoadWriteFrame | src/CPU.cpp:295-325 | A load changes only rd. |
| Machine.AluWriteFrame | src/CPU.cpp:191-293 | An ALU instruction, LUI or AUIPC changes only rd. |
| Machine.JumpWriteFrame | src/CPU.cpp:413-422 | JAL and JALR change no register other than rd, and leave memory and the console alone. |
| Machine.HaltLeavesStateUnchanged | src/CPU.cpp:426-439 | An instruction that halts leaves the whole state as it was. |
| Machine.LoadOutsideMemoryFaults | src/CPU.cpp:295-325 | A load whose bytes do not all lie in memory halts with a memory fault at that address. |
| Machine.StoreOutsideMemoryFaults | src/CPU.cpp:327-357 | A store off the console port whose bytes do not all lie in memory halts with a memory fault. |
| Machine.ConsoleStoreAppendsOutput | src/CPU.cpp:327-357 | A store to 0xFFFF0000 leaves memory and registers alone, appends the low bytes of rs2 of its width to the console, and advances pc. |
| Machine.MemoryStoreFrame | src/CPU.cpp:327-357 | A store in memory changes only the bytes of its own width at the address. |
| Machine.WrittenByteAt | src/CPU.cpp:327-357 | After a store writes the low `n` bytes of a word at index `i`, byte `j` is the word's byte `j - i` when it lies in the written range and is unchanged otherwise. |
| Machine.WordOfBytes | src/CPU.cpp:348-357 | Reading back the little-endian bytes of a word gives the word. |
| Machine.BytesOfWord | include/cpusim/CPU.h:26-28 | The bytes of the word read at an index are the four memory bytes there. |
| Machine.HalfOfBytes | src/CPU.cpp:337-346 | The first two little-endian bytes of a word hold its low half. |
| Machine.LoadWordAfterStoreWord | src/CPU.cpp:309-313 | LW after SW at the same index reads the stored word. |
| Machine.HalfAfterStoreHalf | src/CPU.cpp:302-307 | The halfword read after SH at the same index is the low half of the stored word. |
| Machine.LoadHalfAfterStoreHalf | src/CPU.cpp:321-325 | After SH, LHU reads rs2 & 0xFFFF, and LH reads that half sign-extended. |
| Machine.LoadByteAfterStoreByte | src/CPU.cpp:315-319 | After SB, LBU reads rs2 & 0xFF, and LB reads that byte sign-extended. |
| Machine.LoadWordAfterStoreWordInMachine | src/CPU.cpp:309-357 | In the machine, `sw rs2, imm(rs1)` followed by `lw rd, imm(rs1)` puts the stored register into rd. |
| Machine.BranchPairsAreComplements | src/CPU.cpp:359-402 | BEQ/BNE, BLT/BGE and BLTU/BGEU are each other's negations. |
| Machine.BranchConditionsMatchSetLessThan | src/CPU.cpp:375-395 | BLT is taken exactly when SLT gives 1, and BLTU exactly when SLTU gives 1. |
| Machine.BranchChangesOnlyPc | src/CPU.cpp:359-402 | A branch keeps running, moves pc to pc + offset when taken and to pc + 4 otherwise, and changes nothing else. |
| Machine.JalLinksAndJumps | src/CPU.cpp:413-416 | JAL writes pc + 4 to rd and jumps to pc + offset. Every other register, memory and the console are unchanged. |
| Machine.JalrLinksAndJumps | src/CPU.cpp:418-422 | JALR goes on running. It jumps to the old rs1 + imm with bit 0 cleared and writes pc + 4 to rd. Every other register, memory and the console are unchanged. |
| Machine.JalrSameRegister | src/CPU.cpp:418-422 | JALR with rd == rs1 jumps to the old rs1 + imm with bit 0 cleared, and then writes the link into rd. |
| Machine.JumpTargetIsEven | src/CPU.cpp:418-422 | The JALR target always has bit 0 clear. |
| Machine.UpperImmediateBits | src/CPU.cpp:404-411 | imm << 12 has zero low 12 bits, and its upper 20 bits are the immediate. |
| Machine.UpperImmediateOfNonNegativeWord | src/CPU.cpp:404-407 | For a word with bit 31 clear, LUI loads exactly the upper 20 bits of the instruction word. |
| Machine.UpperImmediateOfNegativeWord | src/CPU.cpp:404-407 | For a word with bit 31 set, LUI loads exactly the upper 20 bits of the instruction word. |
| Machine.UpperImmediateOfWord | src/CPU.cpp:404-411 | For every LUI or AUIPC word, the value added or loaded is the word with its low 12 bits cleared. |
| Machine.EcallExitHalts | src/CPU.cpp:426-434 | ECALL with a7 == 93 halts with exit code a0 and changes nothing. |
| Machine.EcallOtherSkips | src/CPU.cpp:426-434 | ECALL with any other a7 only advances pc. |
| Machine.EbreakHalts | src/CPU.cpp:436-439 | EBREAK halts with a breakpoint at pc and changes nothing. |
| Machine.StepOutsideMemoryFaults | include/cpusim/CPU.h:26-28 | Fetching from a pc whose word is not in memory halts with a fault. |
| Machine.StepUnknownWordHalts | src/CPU.cpp:184-188 | A word with no handler halts with a decode error and changes nothing. |
| Machine.StepRunsDecodedHandler | src/CPU.cpp:179-186 | A word that decodes runs exactly the handler the decoder chose. |
| Machine.SetRegAsWritten | src/CPU.cpp:243-246 | As written, a handler writes rd whatever it is, x0 included. |
| Machine.X0WriteAsWrittenExample | src/CPU.cpp:243-246 | `addi x0, x1, 50` with x1 == 100 leaves x0 == 150 as written, and 0 with the corrected write. |
| Machine.ExecShiftRightImmAsWritten | src/CPU.cpp:280-283 | `execSRLAI` as written, adding 4 to pc after the chosen shift already has; stated by Machine.ShiftRightImmAsWrittenSkipsAWord. |
| Machine.ShiftRightImmAsWrittenSkipsAWord | src/CPU.cpp:280-293 | As written, SRLI and SRAI move pc by 8, where the corrected handler moves it by 4. |
| Machine.NextPcTwiceDiffers | src/CPU.cpp:280-283 | Advancing pc twice never lands where advancing it once does, so the double step always skips a word. |
| Machine.StoreMaskAsWritten | src/CPU.cpp:327-357 | The value SB, SH and SW write through a `uint32_t*` as written: rs2 masked to 8 bits, 16 bits, or whole; stated by Machine.StoreByteAsWrittenBytes. |
| Machine.ExecStoreAsWritten | src/CPU.cpp:327-357 | SB, SH and SW as written, writing four bytes at every address outside the console port; stated by Machine.StoreByteAsWrittenBytes and Machine.StoreByteAsWrittenClobbers. |
| Machine.StoreByteAsWrittenBytes | src/CPU.cpp:327-335 | As written, SB writes the low byte of rs2 followed by three zero bytes. |
| Machine.StoreByteAsWrittenClobbers | src/CPU.cpp:327-335 | As written, SB zeroes the three bytes after the address, while the corrected SB leaves them unchanged. |
| Machine.ExecEcallAsWritten | src/CPU.cpp:426-434 | ECALL as written: syscall 93 exits and any other number leaves the state, pc included, unchanged; stated by Machine.EcallAsWrittenStaysPut. |
| Machine.EcallAsWrittenStaysPut | src/CPU.cpp:426-434 | As written, ECALL with a7 != 93 leaves the machine running in its unchanged state, pc included. The corrected handler moves pc. |
| Machine.Boot | src/CPU.cpp:115-133 | The state the constructor builds is well-formed, with pc 0 and nothing printed. |
| Machine.BootFirstWord | src/CPU.cpp:124-127 | The first word the constructor stores decodes to `sw x5, 0(x6)`. |
| Machine.BootStoreToConsole | src/CPU.cpp:131-132 | That store hits the console port and prints the bytes of 0x65626142, "Babe", in little-endian order. |
| Machine.BootFirstStepPrints | src/CPU.cpp:115-133 | The first step from the boot state prints "Babe" and moves pc to 4. |
| Machine.BootPrinted | src/CPU.cpp:115-133 | The state after the first step is well-formed. |
| Machine.BootSecondWord | src/CPU.cpp:119-122 | The second word the constructor stores decodes to ECALL. |
| Machine.BootSecondStepSkipsEcall | src/CPU.cpp:426-434 | With a7 == 0, that ECALL only moves pc to 8. |
| Machine.BootThirdStepHalts | src/CPU.cpp:184-188 | The zero word at 8 has no handler, so the machine halts with a decode error. |
| Cpu.CPU.constructor | src/CPU.cpp:115-133 | The new object's state is the boot state. |
| Cpu.CPU.Fetch | include/cpusim/CPU.h:26-28 | Reads the little-endian word at pc, as Machine.Fetch does. |
| Cpu.CPU.WriteReg | include/cpusim/CPU.h:21-22 | Updates the register array in place, as Machine.SetReg does. |
| Cpu.CPU.ExecRegReg | src/CPU.cpp:191-241 | In-place R-type handler, equal to Machine.ExecRegReg on the old state. |
| Cpu.CPU.ExecRegImm | src/CPU.cpp:243-293 | In-place I-type ALU handler, equal to Machine.ExecRegImm. |
| Cpu.CPU.ReadValue | src/CPU.cpp:295-325 | Reads and extends the bytes a load of each width reads. |
| Cpu.CPU.ExecLoad | src/CPU.cpp:295-325 | In-place load handler, equal to Machine.ExecLoad, fault included. |
| Cpu.CPU.StoreBytes | src/CPU.cpp:348-357 | Writes the bytes into the memory array one by one. The loop invariant ties each prefix to Machine.WriteBytes. |
| Cpu.CPU.StoreToConsole | src/CPU.cpp:327-357 | The console branch of the store handlers, equal to Machine.ExecStore. |
| Cpu.CPU.StoreToMemory | src/CPU.cpp:327-357 | The memory branch of the store handlers, equal to Machine.ExecStore. |
| Cpu.CPU.ExecStore | src/CPU.cpp:327-357 | In-place store handler, equal to Machine.ExecStore, fault included. |
| Cpu.CPU.ExecBranch | src/CPU.cpp:359-402 | In-place branch handler, equal to Machine.ExecBranch. |
| Cpu.CPU.ExecLui | src/CPU.cpp:404-407 | In-place LUI, equal to Machine.Execute of Lui. |
| Cpu.CPU.ExecAuipc | src/CPU.cpp:408-411 | In-place AUIPC, equal to Machine.Execute of Auipc. |
| Cpu.CPU.ExecJal | src/CPU.cpp:413-416 | In-place JAL, equal to Machine.ExecJal. |
| Cpu.CPU.ExecJalr | src/CPU.cpp:418-422 | In-place JALR, equal to Machine.ExecJalr. |
| Cpu.CPU.ExecEcall | src/CPU.cpp:426-434 | In-place ECALL, equal to Machine.ExecEcall. |
| Cpu.CPU.ExecuteArithmetic | src/CPU.cpp:191-411 | Dispatches ALU, LUI and AUIPC operations, equal to Machine.Execute. |
| Cpu.CPU.ExecuteJump | src/CPU.cpp:359-422 | Dispatches branches and jumps, equal to Machine.Execute. |
| Cpu.CPU.ExecuteSystem | src/CPU.cpp:424-439 | Dispatches ECALL and EBREAK by rs2, equal to Machine.Execute. |
| Cpu.CPU.Execute | src/CPU.cpp:184-186 | Runs the handler of any decoded operation, equal to Machine.Execute. |
| Cpu.CPU.Step | src/CPU.cpp:179-189 | Fetch, decode and execute in place. The new state and status equal Machine.Step of the old state. |
| ImmediateMock.CPU2.constructor | src/tests2.cpp:16 | A new mock has 32 registers, all zero. |
| ImmediateMock.CPU2.Write | src/tests2.cpp:18 | The mock's register write, as Machine.SetReg performs it. |
| ImmediateMock.CPU2.ExecAddi | src/tests2.cpp:18 | rd := rs1 + imm with wrap-around, every other register unchanged. |
| ImmediateMock.CPU2.ExecXori | src/tests2.cpp:20 | rd := rs1 ^ imm. |
| ImmediateMock.CPU2.ExecOri | src/tests2.cpp:22 | rd := rs1 OR imm. |
| ImmediateMock.CPU2.ExecAndi | src/tests2.cpp:24 | rd := rs1 & imm. |
| ImmediateMock.CPU2.ExecSlli | src/tests2.cpp:26 | rd := rs1 << (imm & 31). |
| ImmediateMock.CPU2.ExecSlti | src/tests2.cpp:28-31 | rd := 1 if the signed rs1 < the signed imm, else 0. |
| ImmediateMock.CPU2.ExecSltiu | src/tests2.cpp:33-36 | rd := 1 if the unsigned rs1 < the unsigned imm, else 0. |
| ImmediateMock.CPU2.ExecSrli | src/tests2.cpp:38 | rd := rs1 >> (imm & 31), logical. |
| ImmediateMock.CPU2.ExecSrai | src/tests2.cpp:40-42 | rd := rs1 >> (imm & 31), arithmetic. |
| ImmediateMock.CPU2.Reset | src/tests2.cpp:44-48 | After the reset loop, every register is zero. |
| ImmediateMock.CPU2.SetSource | src/tests2.cpp:89-91 | A test's `cpu.regs[1] = v` changes x1 only. |
| ImmediateMock.RunCase | src/tests2.cpp:56-93 | One scenario on a fresh mock: set x1, run the handler into x2 and read x2. x2 is the ALU result. |
| ImmediateMock.TestAddi | src/tests2.cpp:56-87 | The ADDI scenarios give 15, 42, 30, 0x80000000 (overflow) and 0x7FFFFFFF (underflow). |
| ImmediateMock.TestAddiToX0 | src/tests2.cpp:89-93 | `addi x0, x1, 50` leaves x0 == 0. |
| ImmediateMock.TestXori | src/tests2.cpp:96-122 | The XORI scenarios give 0x66, 0x12345678, 0xEDCBA987 and 0. |
| ImmediateMock.TestOri | src/tests2.cpp:124-150 | The ORI scenarios give 0xEE, 0x12345678, 0xFFFFFFFF and 0x0F0F. |
| ImmediateMock.TestAndi | src/tests2.cpp:152-178 | The ANDI scenarios give 0xAA, 0, 0x12345678 and 0x78. |
| ImmediateMock.TestSlli | src/tests2.cpp:180-212 | The SLLI scenarios give 0x28, 0x12345678, 0x80000000, 0, and 0x28 for a shift by 34. |
| ImmediateMock.TestSlti | src/tests2.cpp:214-252 | The SLTI scenarios give 1, 0, 0, 1, 0 and 1. |
| ImmediateMock.TestSltiu | src/tests2.cpp:254-292 | The SLTIU scenarios give 1, 0, 0, 0 and 1. |
| ImmediateMock.TestSrli | src/tests2.cpp:294-338 | The SRLI scenarios give 0x14, 0x12345678, 1, 0x40000000, 0, 0x14 and 0x00FF0000. |
| ImmediateMock.TestSrai | src/tests2.cpp:340-396 | The SRAI scenarios give 0x14, 0x12345678, 0xC0000000, 0, 0xFFFFFFFF, 0xFFFFFFFF, 0xC0000000, 0xFFFFFFFC and 0x3FFFFFFF. |
| ImmediateMock.TestAllHandlersSpareX0 | src/tests2.cpp:402-416 | Running all nine handlers with rd == x0 leaves x0 == 0. |
| ImmediateMock.TestEdgeCases | src/tests2.cpp:418-442 | The results are 2047 and 0xFFFFF800 at the immediate bounds, 0x12345678 for a shift by 32, and 0x08000000 and 0xF8000000 for SRLI and SRAI of 0x80000008 by 4. |
| AluVectors.SllVectors | src/tests.cpp:15-42 | Every `sll_tests` row is what the ALU computes for SLL. |
| AluVectors.SltVectors | src/tests.cpp:57-86 | Every `slt_tests` row is what the ALU computes for SLT. |
| AluVectors.SltuVectors | src/tests.cpp:101-144 | Every `sltu_tests` row is what the ALU computes for SLTU. |
| AluVectors.XorVectorsLow | src/tests.cpp:159-199 | The first groups of `xor_tests` match the ALU's XOR. |
| AluVectors.XorVectorsHigh | src/tests.cpp:202-222 | The remaining `xor_tests` rows match the ALU's XOR. |
| AluVectors.OrVectorsLow | src/tests.cpp:237-277 | The first groups of `or_tests` match the ALU's OR. |
| AluVectors.OrVectorsHigh | src/tests.cpp:280-300 | The remaining `or_tests` rows match the ALU's OR. |
| AluVectors.AndVectorsLow | src/tests.cpp:315-355 | The first groups of `and_tests` match the ALU's AND. |
| AluVectors.AndVectorsHigh | src/tests.cpp:358-384 | The remaining `and_tests` rows match the ALU's AND. |
| AluVectors.AddVectorsLow | src/tests.cpp:469-505 | The first groups of `add_tests` match the ALU's wrap-around ADD. |
| AluVectors.AddVectorsHigh | src/tests.cpp:508-541 | The remaining `add_tests` rows match the ALU's ADD. |
| AluVectors.SubVectorsLow | src/tests.cpp:556-592 | The first groups of `sub_tests` match the ALU's wrap-around SUB. |
| AluVectors.SubVectorsHigh | src/tests.cpp:595-640 | The remaining `sub_tests` rows match the ALU's SUB. |
| AluVectors.SraVectorsLow | src/tests.cpp:678-715 | The first groups of `sra_tests` match the ALU's SRA, shift amount masked. |
| AluVectors.SraVectorsHigh | src/tests.cpp:718-762 | The remaining `sra_tests` rows match the ALU's SRA. |
| AluVectors.SrlVectorsLow | src/tests.cpp:777-814 | The first groups of `srl_tests` match the ALU's SRL, shift amount masked. |
| AluVectors.SrlVectorsMid | src/tests.cpp:817-855 | The middle groups of `srl_tests` match the ALU's SRL. |
| AluVectors.SrlVectorsHigh | src/tests.cpp:858-874 | The last `srl_tests` rows match the ALU's SRL. |
| AluVectors.BitwiseLaws | src/tests.cpp:159-384 | For every word, the XOR, OR and AND identities the tables sample hold: x XOR x = 0, x XOR 0 = x, x OR x = x, x OR ones = ones, x AND 0 = 0 and x AND ones = x. |
| AluVectors.SubSelfIsZero | src/tests.cpp:569-572 | x - x == 0 for every word. |
| AluVectors.SraOfMinusOne | src/tests.cpp:710-712 | An arithmetic right shift of -1 by any amount gives -1. |
| AluVectors.RunTests | src/tests.cpp:387-458 | The table runner returns one verdict per row, in order. Verdict i is PASS exactly when the ALU result for row i equals its expected value. The same loop serves every table: run_or, run_and, run_xor, run_sltu, run_sll and run_slt here, and run_add, run_sub, run_sra and run_srl at lines 643-909. |

## Left out

- Console output is the sequence of bytes the console stores emit. The newline that `std::endl` adds after each store is not modelled. The halfword store prints two bytes, as `bit_cast` gives them, and the word store prints four.
- `exit(0)` in ECALL and EBREAK becomes a `Halted` status. The exit code is the a0 the handler reports; the process status the source returns is always 0. The text the handlers print is not modelled.
- The "Unknown instruction" message on `std::cerr` becomes `Halted(DecodeError(word, pc))`. The source prints the message and returns with nothing changed.
- Memory bounds: the source dereferences `mem + addr` without a check. The model halts with `MemFault` when a fetch, load or store would leave the 16 MiB array. Such an access is undefined behaviour in C++.
- `std::unordered_map` and dispatch through `std::invoke` on member functions are modelled as a `match` over integer keys (`Decoder.Lookup`), with one entry per table row.
- `reinterpret_cast` and `std::bit_cast` are modelled as explicit little-endian byte assembly and splitting.
- `main.cpp` runs a single fetch and decode; `Cpu.CPU.Step` models that. No run loop exists in the source, and none is modelled.
- `include/cpusim/cpusim.h` (an unrelated greeter class), the `decode*` member declarations of `CPU.h` that have no definitions, and the unused `Instr.offset` field are not part of this model.
- The `print_test_result` and `printf` reporting of both test files is left out. `AluVectors.RunTests` returns the PASS/FAIL verdicts those lines would print, and the expected values appear as `ensures` clauses.
- The `CPU2` mock of `src/tests2.cpp` writes `regs[rd]` unguarded and shifts by the full immediate in `execSLLI`. Its model uses the corrected register write and masked shift, for the reasons under "## Findings". The tests expect exactly that behaviour (lines 89-93, 207-211 and 402-416).
- Alu.Compute: no lemma relates 32-bit ADD and SUB to integer arithmetic modulo 2^32. Wrap-around is stated through the inverse laws and the table rows instead.
- Fields.ExtractFields: for the R-type and SYSTEM opcodes the source leaves `Instr.imm` uninitialised (include/cpusim/CPU.h). The model sets it to 0. No handler of those opcodes reads it.
- Decoder.Decode: reserved encodings are accepted as the source accepts them. An OP-IMM word with funct3 = 1 is SLLI whatever its funct7, one with funct3 = 5 is SRAI for any nonzero funct7, and a SYSTEM word with funct3 = 0 is EBREAK for any nonzero rs2 field. The RISC-V base ISA reserves those words.
- Machine.ExecLoad: LB, LH, LBU and LHU read a whole `uint32_t` through `reinterpret_cast` and then mask it (src/CPU.cpp:295-325). Within three bytes of the end of memory that read runs past the array. The model reads only the one or two bytes it keeps.
- Machine.UpperImmediate: LUI and AUIPC evaluate `imm << 12` on a signed `int32_t` (src/CPU.cpp:405 and 409), which is undefined for a negative immediate before C++20. The model shifts the bits, as C++20 defines it.
- Machine.EcallOtherSkips: advances pc for a syscall other than 93, as the ISA describes. The source leaves pc where it is; see "## Findings".

## Findings

| source | as written | input that shows it | evidently intended | confidence | as-written member | corrected member |
|---|---|---|---|---|---|---|
| src/CPU.cpp:135-147 | `makeInstrKey` adds funct3 to the key of LUI and AUIPC, whose bits 12-14 belong to the immediate; the table has only the funct3 = 0 entries | `lui x1, 0x1` = 0x000010B7 finds no handler | key U-type words by opcode alone, like JAL | not executed | Decoder.UpperKeyAsWrittenMisses | Decoder.UpperKeyIsOpcode |
| src/CPU.cpp:280-293 | `execSRLAI` adds 4 to pc after `execSRLI`/`execSRAI` have already added 4 | `srli x1, x1, 1` at pc 0 leaves pc at 8 | pc + 4 | not executed | Machine.ShiftRightImmAsWrittenSkipsAWord | Machine.SequentialAdvancesPc |
| src/CPU.cpp:327-346 | SB and SH store the masked register through a `uint32_t*`, writing four bytes | `sb` of 0x41 at address 0 zeroes bytes 1-3 | write one or two bytes | not executed | Machine.StoreByteAsWrittenClobbers | Machine.MemoryStoreFrame |
| src/CPU.cpp:243-246 | every handler writes `regs[rd]` even when rd is x0 | `addi x0, x1, 50` with x1 = 100 sets x0 to 150 | x0 always reads 0 | not executed | Machine.X0WriteAsWrittenExample | Machine.ExecutePreservesValid |
| src/CPU.cpp:263-266 | `execSLLI` shifts by the whole immediate; a count of 32 or more is undefined in C++ | `slli x2, x1, 34` | shift by imm & 31, as the tests at src/tests2.cpp:207-211 expect | not executed | Alu.SlliUnmaskedBy34 | Alu.ShiftsMaskAmount |
| src/CPU.cpp:426-434 | `execECALL` has no default case, so a syscall other than 93 leaves pc on the ECALL | the constructor's program: its ECALL at address 4 runs with a7 = 0 | advance pc past the ECALL | not executed | Machine.EcallAsWrittenStaysPut | Machine.EcallOtherSkips |
