/**
 * The boundary tables of src/tests.cpp (`sll_tests` ... `srl_tests`): rows of
 * (rs1, rs2, expected) that the tests compare against a one-line C++ oracle
 * for each register-register operation. Each lemma below states one table, or
 * one run of consecutive groups of a long table, as equations on the ALU of
 * module Alu: every expected value the tests list is the value the model
 * computes. The general laws the tables sample close the module.
 */
module AluVectors {
  import opened Alu

  /** `sll_tests`, which the test checks against `rs1 << (rs2 & 0x1F)`. */
  lemma SllVectors()
    ensures Compute(Sll, 0x0000_0001, 0x0000_0000) == 0x0000_0001 && Compute(Sll, 0x0000_0001, 0x0000_0001) == 0x0000_0002 && Compute(Sll, 0x0000_0001, 0x0000_0004) == 0x0000_0010
    ensures Compute(Sll, 0x0000_0004, 0x0000_0002) == 0x0000_0010 && Compute(Sll, 0x0000_0001, 0x0000_0020) == 0x0000_0001 && Compute(Sll, 0x0000_0001, 0x0000_0021) == 0x0000_0002
    ensures Compute(Sll, 0x0000_0004, 0x0000_007F) == 0x0000_0000 && Compute(Sll, 0x0000_0001, 0xFFFF_FFFF) == 0x8000_0000 && Compute(Sll, 0x0000_0001, 0x0000_001F) == 0x8000_0000
    ensures Compute(Sll, 0x0000_0002, 0x0000_001E) == 0x8000_0000 && Compute(Sll, 0x0000_0002, 0x0000_001F) == 0x0000_0000 && Compute(Sll, 0x0000_0004, 0x0000_001E) == 0x0000_0000
    ensures Compute(Sll, 0x0000_0004, 0x0000_001D) == 0x8000_0000 && Compute(Sll, 0x8000_0000, 0x0000_0001) == 0x0000_0000 && Compute(Sll, 0x4000_0000, 0x0000_0001) == 0x8000_0000
    ensures Compute(Sll, 0xFFFF_FFFF, 0x0000_0001) == 0xFFFF_FFFE && Compute(Sll, 0xFFFF_FFFF, 0x0000_0008) == 0xFFFF_FF00 && Compute(Sll, 0x0000_0000, 0x0000_0000) == 0x0000_0000
    ensures Compute(Sll, 0x0000_0000, 0x0000_001F) == 0x0000_0000 && Compute(Sll, 0x0000_0000, 0xFFFF_FFFF) == 0x0000_0000
  {
  }

  /** `slt_tests`, which the test checks against `(int32_t)rs1 < (int32_t)rs2 ? 1 : 0`. */
  lemma SltVectors()
    ensures Compute(Slt, 0x0000_0000, 0x0000_0001) == 0x0000_0001 && Compute(Slt, 0x0000_0001, 0x0000_0000) == 0x0000_0000 && Compute(Slt, 0x0000_0001, 0x0000_0001) == 0x0000_0000
    ensures Compute(Slt, 0x0000_0005, 0x0000_000A) == 0x0000_0001 && Compute(Slt, 0x0000_000A, 0x0000_0005) == 0x0000_0000 && Compute(Slt, 0x0000_0000, 0x8000_0000) == 0x0000_0000
    ensures Compute(Slt, 0x8000_0000, 0x0000_0000) == 0x0000_0001 && Compute(Slt, 0x8000_0000, 0x7FFF_FFFF) == 0x0000_0001 && Compute(Slt, 0x7FFF_FFFF, 0x8000_0000) == 0x0000_0000
    ensures Compute(Slt, 0xFFFF_FFFF, 0x0000_0000) == 0x0000_0001 && Compute(Slt, 0x0000_0000, 0xFFFF_FFFF) == 0x0000_0000 && Compute(Slt, 0xFFFF_FFFF, 0xFFFF_FFFE) == 0x0000_0000
    ensures Compute(Slt, 0xFFFF_FFFE, 0xFFFF_FFFF) == 0x0000_0001 && Compute(Slt, 0x8000_0001, 0x8000_0000) == 0x0000_0000 && Compute(Slt, 0x7FFF_FFFF, 0x7FFF_FFFF) == 0x0000_0000
    ensures Compute(Slt, 0x8000_0000, 0x8000_0000) == 0x0000_0000 && Compute(Slt, 0x7FFF_FFFE, 0x7FFF_FFFF) == 0x0000_0001 && Compute(Slt, 0x8000_0000, 0x8000_0001) == 0x0000_0001
    ensures Compute(Slt, 0x0000_0001, 0xFFFF_FFFF) == 0x0000_0000 && Compute(Slt, 0xFFFF_FFFF, 0x0000_0001) == 0x0000_0001 && Compute(Slt, 0x1234_5678, 0x8765_4321) == 0x0000_0000
    ensures Compute(Slt, 0x8765_4321, 0x1234_5678) == 0x0000_0001
  {
  }

  /** `sltu_tests`, which the test checks against `rs1 < rs2 ? 1 : 0`. */
  lemma SltuVectors()
    ensures Compute(Sltu, 0x0000_0000, 0x0000_0001) == 0x0000_0001 && Compute(Sltu, 0x0000_0001, 0x0000_0000) == 0x0000_0000 && Compute(Sltu, 0x0000_0001, 0x0000_0001) == 0x0000_0000
    ensures Compute(Sltu, 0x0000_0005, 0x0000_000A) == 0x0000_0001 && Compute(Sltu, 0x0000_000A, 0x0000_0005) == 0x0000_0000 && Compute(Sltu, 0x0000_0000, 0x8000_0000) == 0x0000_0001
    ensures Compute(Sltu, 0x8000_0000, 0x0000_0000) == 0x0000_0000 && Compute(Sltu, 0x8000_0000, 0x7FFF_FFFF) == 0x0000_0000 && Compute(Sltu, 0x7FFF_FFFF, 0x8000_0000) == 0x0000_0001
    ensures Compute(Sltu, 0xFFFF_FFFF, 0x0000_0000) == 0x0000_0000 && Compute(Sltu, 0x0000_0000, 0xFFFF_FFFF) == 0x0000_0001 && Compute(Sltu, 0xFFFF_FFFF, 0xFFFF_FFFE) == 0x0000_0000
    ensures Compute(Sltu, 0xFFFF_FFFE, 0xFFFF_FFFF) == 0x0000_0001 && Compute(Sltu, 0x8000_0001, 0x8000_0000) == 0x0000_0000 && Compute(Sltu, 0x7FFF_FFFF, 0x7FFF_FFFF) == 0x0000_0000
    ensures Compute(Sltu, 0x8000_0000, 0x8000_0000) == 0x0000_0000 && Compute(Sltu, 0xFFFF_FFFF, 0xFFFF_FFFF) == 0x0000_0000 && Compute(Sltu, 0x7FFF_FFFE, 0x7FFF_FFFF) == 0x0000_0001
    ensures Compute(Sltu, 0x8000_0000, 0x8000_0001) == 0x0000_0001 && Compute(Sltu, 0xFFFF_FFFF, 0x0000_0001) == 0x0000_0000 && Compute(Sltu, 0x0000_0001, 0xFFFF_FFFF) == 0x0000_0001
    ensures Compute(Sltu, 0x1234_5678, 0x8765_4321) == 0x0000_0001 && Compute(Sltu, 0x8765_4321, 0x1234_5678) == 0x0000_0000 && Compute(Sltu, 0x0000_0000, 0x0000_0001) == 0x0000_0001
    ensures Compute(Sltu, 0x0000_0001, 0x0000_0002) == 0x0000_0001 && Compute(Sltu, 0x7FFF_FFFE, 0x7FFF_FFFF) == 0x0000_0001 && Compute(Sltu, 0x7FFF_FFFF, 0x8000_0000) == 0x0000_0001
    ensures Compute(Sltu, 0x8000_0000, 0x8000_0001) == 0x0000_0001 && Compute(Sltu, 0xFFFF_FFFE, 0xFFFF_FFFF) == 0x0000_0001 && Compute(Sltu, 0x0000_0000, 0x0000_0000) == 0x0000_0000
    ensures Compute(Sltu, 0x0000_0000, 0x8000_0000) == 0x0000_0001 && Compute(Sltu, 0x0000_0000, 0xFFFF_FFFF) == 0x0000_0001
  {
  }

  /** `xor_tests` (lines 159-199), which the test checks against `rs1 ^ rs2`. */
  lemma XorVectorsLow()
    ensures Compute(Xor, 0x0000_0000, 0x0000_0000) == 0x0000_0000 && Compute(Xor, 0x0000_0001, 0x0000_0000) == 0x0000_0001 && Compute(Xor, 0x0000_0000, 0x0000_0001) == 0x0000_0001
    ensures Compute(Xor, 0x0000_0001, 0x0000_0001) == 0x0000_0000 && Compute(Xor, 0x1234_5678, 0x1234_5678) == 0x0000_0000 && Compute(Xor, 0xFFFF_FFFF, 0xFFFF_FFFF) == 0x0000_0000
    ensures Compute(Xor, 0x8000_0000, 0x8000_0000) == 0x0000_0000 && Compute(Xor, 0x7FFF_FFFF, 0x7FFF_FFFF) == 0x0000_0000 && Compute(Xor, 0x1234_5678, 0x0000_0000) == 0x1234_5678
    ensures Compute(Xor, 0xFFFF_FFFF, 0x0000_0000) == 0xFFFF_FFFF && Compute(Xor, 0x8000_0000, 0x0000_0000) == 0x8000_0000 && Compute(Xor, 0x0000_0000, 0x1234_5678) == 0x1234_5678
    ensures Compute(Xor, 0x0000_0000, 0xFFFF_FFFF) == 0xFFFF_FFFF && Compute(Xor, 0xFFFF_FFFF, 0xFFFF_FFFF) == 0x0000_0000 && Compute(Xor, 0x1234_5678, 0xFFFF_FFFF) == 0xEDCB_A987
    ensures Compute(Xor, 0x8000_0000, 0xFFFF_FFFF) == 0x7FFF_FFFF && Compute(Xor, 0x7FFF_FFFF, 0xFFFF_FFFF) == 0x8000_0000 && Compute(Xor, 0x0000_FFFF, 0xFFFF_0000) == 0xFFFF_FFFF
    ensures Compute(Xor, 0xAAAA_AAAA, 0x5555_5555) == 0xFFFF_FFFF && Compute(Xor, 0x5555_5555, 0xAAAA_AAAA) == 0xFFFF_FFFF && Compute(Xor, 0xF0F0_F0F0, 0x0F0F_0F0F) == 0xFFFF_FFFF
    ensures Compute(Xor, 0x0000_0001, 0x0000_0002) == 0x0000_0003 && Compute(Xor, 0x0000_0001, 0x0000_0003) == 0x0000_0002 && Compute(Xor, 0x8000_0000, 0x4000_0000) == 0xC000_0000
    ensures Compute(Xor, 0x0000_0001, 0x8000_0000) == 0x8000_0001 && Compute(Xor, 0x0000_0001, 0x0000_0004) == 0x0000_0005 && Compute(Xor, 0x0000_0010, 0x0000_0100) == 0x0000_0110
    ensures Compute(Xor, 0x0000_1000, 0x0001_0000) == 0x0001_1000 && Compute(Xor, 0x8000_0000, 0x0000_0001) == 0x8000_0001
  {
  }

  /** `xor_tests` (lines 202-222), which the test checks against `rs1 ^ rs2`. */
  lemma XorVectorsHigh()
    ensures Compute(Xor, 0x1234_5678, 0x0000_FFFF) == 0x1234_A987 && Compute(Xor, 0x1234_5678, 0xFFFF_0000) == 0xEDCB_5678 && Compute(Xor, 0x1234_5678, 0x00FF_00FF) == 0x12CB_5687
    ensures Compute(Xor, 0x1234_5678, 0x0F0F_0F0F) == 0x1D3B_5977 && Compute(Xor, 0x0000_0001, 0x0000_0002) == 0x0000_0003 && Compute(Xor, 0x0000_0003, 0x0000_0002) == 0x0000_0001
    ensures Compute(Xor, 0x0000_0005, 0x0000_0003) == 0x0000_0006 && Compute(Xor, 0x0000_0006, 0x0000_0003) == 0x0000_0005 && Compute(Xor, 0x1234_5678, 0x9ABC_DEF0) == 0x8888_8888
    ensures Compute(Xor, 0x8765_4321, 0xFEDC_BA98) == 0x79B9_F9B9 && Compute(Xor, 0xDEAD_BEEF, 0xCAFE_BABE) == 0x1453_0451 && Compute(Xor, 0x0000_0000, 0x8000_0000) == 0x8000_0000
    ensures Compute(Xor, 0x7FFF_FFFF, 0x8000_0000) == 0xFFFF_FFFF && Compute(Xor, 0x0000_0001, 0xFFFF_FFFE) == 0xFFFF_FFFF && Compute(Xor, 0xFFFF_FFFF, 0x0000_0001) == 0xFFFF_FFFE
  {
  }

  /** `or_tests` (lines 237-277), which the test checks against `rs1 | rs2`. */
  lemma OrVectorsLow()
    ensures Compute(Or, 0x0000_0000, 0x0000_0000) == 0x0000_0000 && Compute(Or, 0x0000_0001, 0x0000_0000) == 0x0000_0001 && Compute(Or, 0x0000_0000, 0x0000_0001) == 0x0000_0001
    ensures Compute(Or, 0x0000_0001, 0x0000_0001) == 0x0000_0001 && Compute(Or, 0x1234_5678, 0x1234_5678) == 0x1234_5678 && Compute(Or, 0xFFFF_FFFF, 0xFFFF_FFFF) == 0xFFFF_FFFF
    ensures Compute(Or, 0x8000_0000, 0x8000_0000) == 0x8000_0000 && Compute(Or, 0x7FFF_FFFF, 0x7FFF_FFFF) == 0x7FFF_FFFF && Compute(Or, 0x1234_5678, 0x0000_0000) == 0x1234_5678
    ensures Compute(Or, 0xFFFF_FFFF, 0x0000_0000) == 0xFFFF_FFFF && Compute(Or, 0x8000_0000, 0x0000_0000) == 0x8000_0000 && Compute(Or, 0x0000_0000, 0x1234_5678) == 0x1234_5678
    ensures Compute(Or, 0x0000_0000, 0xFFFF_FFFF) == 0xFFFF_FFFF && Compute(Or, 0xFFFF_FFFF, 0xFFFF_FFFF) == 0xFFFF_FFFF && Compute(Or, 0x1234_5678, 0xFFFF_FFFF) == 0xFFFF_FFFF
    ensures Compute(Or, 0x8000_0000, 0xFFFF_FFFF) == 0xFFFF_FFFF && Compute(Or, 0x7FFF_FFFF, 0xFFFF_FFFF) == 0xFFFF_FFFF && Compute(Or, 0x0000_FFFF, 0xFFFF_0000) == 0xFFFF_FFFF
    ensures Compute(Or, 0xAAAA_AAAA, 0x5555_5555) == 0xFFFF_FFFF && Compute(Or, 0x5555_5555, 0xAAAA_AAAA) == 0xFFFF_FFFF && Compute(Or, 0xF0F0_F0F0, 0x0F0F_0F0F) == 0xFFFF_FFFF
    ensures Compute(Or, 0x0000_0001, 0x0000_0002) == 0x0000_0003 && Compute(Or, 0x0000_0001, 0x0000_0003) == 0x0000_0003 && Compute(Or, 0x8000_0000, 0x4000_0000) == 0xC000_0000
    ensures Compute(Or, 0x0000_0001, 0x8000_0000) == 0x8000_0001 && Compute(Or, 0x0000_0001, 0x0000_0004) == 0x0000_0005 && Compute(Or, 0x0000_0010, 0x0000_0100) == 0x0000_0110
    ensures Compute(Or, 0x0000_1000, 0x0001_0000) == 0x0001_1000 && Compute(Or, 0x8000_0000, 0x0000_0001) == 0x8000_0001
  {
  }

  /** `or_tests` (lines 280-300), which the test checks against `rs1 | rs2`. */
  lemma OrVectorsHigh()
    ensures Compute(Or, 0x1234_0000, 0x0000_FFFF) == 0x1234_FFFF && Compute(Or, 0x0000_5678, 0xFFFF_0000) == 0xFFFF_5678 && Compute(Or, 0x1204_5678, 0x00FF_00FF) == 0x12FF_56FF
    ensures Compute(Or, 0x1234_5678, 0x0F0F_0F0F) == 0x1F3F_5F7F && Compute(Or, 0x0000_0001, 0x0000_0002) == 0x0000_0003 && Compute(Or, 0x0000_0003, 0x0000_0002) == 0x0000_0003
    ensures Compute(Or, 0x0000_0005, 0x0000_0003) == 0x0000_0007 && Compute(Or, 0x0000_0006, 0x0000_0003) == 0x0000_0007 && Compute(Or, 0x1234_5678, 0x9ABC_DEF0) == 0x9ABC_DEF8
    ensures Compute(Or, 0x8765_4321, 0xFEDC_BA98) == 0xFFFD_FBB9 && Compute(Or, 0xDEAD_BEEF, 0xCAFE_BABE) == 0xDEFF_BEFF && Compute(Or, 0x0000_0000, 0x8000_0000) == 0x8000_0000
    ensures Compute(Or, 0x7FFF_FFFF, 0x8000_0000) == 0xFFFF_FFFF && Compute(Or, 0x0000_0001, 0xFFFF_FFFE) == 0xFFFF_FFFF && Compute(Or, 0xFFFF_FFFF, 0x0000_0001) == 0xFFFF_FFFF
  {
  }

  /** `and_tests` (lines 315-355), which the test checks against `rs1 & rs2`. */
  lemma AndVectorsLow()
    ensures Compute(And, 0x0000_0000, 0x0000_0000) == 0x0000_0000 && Compute(And, 0x0000_0001, 0x0000_0000) == 0x0000_0000 && Compute(And, 0x0000_0000, 0x0000_0001) == 0x0000_0000
    ensures Compute(And, 0x0000_0001, 0x0000_0001) == 0x0000_0001 && Compute(And, 0x1234_5678, 0x1234_5678) == 0x1234_5678 && Compute(And, 0xFFFF_FFFF, 0xFFFF_FFFF) == 0xFFFF_FFFF
    ensures Compute(And, 0x8000_0000, 0x8000_0000) == 0x8000_0000 && Compute(And, 0x7FFF_FFFF, 0x7FFF_FFFF) == 0x7FFF_FFFF && Compute(And, 0x1234_5678, 0x0000_0000) == 0x0000_0000
    ensures Compute(And, 0xFFFF_FFFF, 0x0000_0000) == 0x0000_0000 && Compute(And, 0x8000_0000, 0x0000_0000) == 0x0000_0000 && Compute(And, 0x0000_0000, 0x1234_5678) == 0x0000_0000
    ensures Compute(And, 0x0000_0000, 0xFFFF_FFFF) == 0x0000_0000 && Compute(And, 0xFFFF_FFFF, 0xFFFF_FFFF) == 0xFFFF_FFFF && Compute(And, 0x1234_5678, 0xFFFF_FFFF) == 0x1234_5678
    ensures Compute(And, 0x8000_0000, 0xFFFF_FFFF) == 0x8000_0000 && Compute(And, 0x7FFF_FFFF, 0xFFFF_FFFF) == 0x7FFF_FFFF && Compute(And, 0x1234_5678, 0x0000_FFFF) == 0x0000_5678
    ensures Compute(And, 0x1234_5678, 0xFFFF_0000) == 0x1234_0000 && Compute(And, 0x1234_5678, 0x00FF_00FF) == 0x0034_0078 && Compute(And, 0x1234_5678, 0x0F0F_0F0F) == 0x0204_0608
    ensures Compute(And, 0x0000_0001, 0x0000_0002) == 0x0000_0000 && Compute(And, 0x0000_0001, 0x0000_0003) == 0x0000_0001 && Compute(And, 0x8000_0000, 0x4000_0000) == 0x0000_0000
    ensures Compute(And, 0x0000_0001, 0x8000_0000) == 0x0000_0000 && Compute(And, 0x0000_0001, 0x0000_0004) == 0x0000_0000 && Compute(And, 0x0000_0010, 0x0000_0100) == 0x0000_0000
    ensures Compute(And, 0x0000_1000, 0x0001_0000) == 0x0000_0000 && Compute(And, 0x8000_0000, 0x0000_0001) == 0x0000_0000
  {
  }

  /** `and_tests` (lines 358-384), which the test checks against `rs1 & rs2`. */
  lemma AndVectorsHigh()
    ensures Compute(And, 0x1234_5678, 0x0000_00FF) == 0x0000_0078 && Compute(And, 0x1234_5678, 0x0000_FF00) == 0x0000_5600 && Compute(And, 0x1234_5678, 0x00FF_0000) == 0x0034_0000
    ensures Compute(And, 0x1234_5678, 0xFF00_0000) == 0x1200_0000 && Compute(And, 0x0000_0001, 0x0000_0002) == 0x0000_0000 && Compute(And, 0x0000_0003, 0x0000_0002) == 0x0000_0002
    ensures Compute(And, 0x0000_0005, 0x0000_0003) == 0x0000_0001 && Compute(And, 0x0000_0006, 0x0000_0003) == 0x0000_0002 && Compute(And, 0x1234_5678, 0x9ABC_DEF0) == 0x1234_5670
    ensures Compute(And, 0x8765_4321, 0xFEDC_BA98) == 0x8644_0200 && Compute(And, 0xDEAD_BEEF, 0xCAFE_BABE) == 0xCAAC_BAAE && Compute(And, 0x0000_0000, 0x8000_0000) == 0x0000_0000
    ensures Compute(And, 0x7FFF_FFFF, 0x8000_0000) == 0x0000_0000 && Compute(And, 0x0000_0001, 0xFFFF_FFFE) == 0x0000_0000 && Compute(And, 0xFFFF_FFFF, 0x0000_0001) == 0x0000_0001
    ensures Compute(And, 0xAAAA_AAAA, 0x5555_5555) == 0x0000_0000 && Compute(And, 0x5555_5555, 0xAAAA_AAAA) == 0x0000_0000 && Compute(And, 0xF0F0_F0F0, 0x0F0F_0F0F) == 0x0000_0000
    ensures Compute(And, 0xFFFF_0000, 0x0000_FFFF) == 0x0000_0000
  {
  }

  /** `add_tests` (lines 469-505), which the test checks against `rs1 + rs2` on `uint32_t`. */
  lemma AddVectorsLow()
    ensures Compute(Add, 0x0000_0000, 0x0000_0000) == 0x0000_0000 && Compute(Add, 0x0000_0001, 0x0000_0000) == 0x0000_0001 && Compute(Add, 0x0000_0000, 0x0000_0001) == 0x0000_0001
    ensures Compute(Add, 0x0000_0001, 0x0000_0001) == 0x0000_0002 && Compute(Add, 0x0000_0005, 0x0000_0003) == 0x0000_0008 && Compute(Add, 0x0000_000A, 0x0000_000F) == 0x0000_0019
    ensures Compute(Add, 0x1234_5678, 0x0000_0000) == 0x1234_5678 && Compute(Add, 0x0000_0000, 0x1234_5678) == 0x1234_5678 && Compute(Add, 0xFFFF_FFFF, 0x0000_0000) == 0xFFFF_FFFF
    ensures Compute(Add, 0x8000_0000, 0x0000_0000) == 0x8000_0000 && Compute(Add, 0x0000_0001, 0x0000_0001) == 0x0000_0002 && Compute(Add, 0x0000_0002, 0x0000_0002) == 0x0000_0004
    ensures Compute(Add, 0x0000_0004, 0x0000_0004) == 0x0000_0008 && Compute(Add, 0x0000_0008, 0x0000_0008) == 0x0000_0010 && Compute(Add, 0x4000_0000, 0x4000_0000) == 0x8000_0000
    ensures Compute(Add, 0xFFFF_FFFF, 0x0000_0001) == 0x0000_0000 && Compute(Add, 0x8000_0000, 0x8000_0000) == 0x0000_0000 && Compute(Add, 0x7FFF_FFFF, 0x0000_0001) == 0x8000_0000
    ensures Compute(Add, 0x7FFF_FFFF, 0x7FFF_FFFF) == 0xFFFF_FFFE && Compute(Add, 0xFFFF_FFFF, 0xFFFF_FFFF) == 0xFFFF_FFFE && Compute(Add, 0x1234_5678, 0x9ABC_DEF0) == 0xACF1_3568
    ensures Compute(Add, 0x8765_4321, 0xFEDC_BA98) == 0x8641_FDB9 && Compute(Add, 0xDEAD_BEEF, 0xCAFE_BABE) == 0xA9AC_79AD && Compute(Add, 0x0000_0001, 0x0000_0002) == 0x0000_0003
    ensures Compute(Add, 0x0000_0064, 0x0000_0064) == 0x0000_00C8 && Compute(Add, 0x0000_03E8, 0x0000_03E8) == 0x0000_07D0 && Compute(Add, 0x0000_0000, 0x7FFF_FFFF) == 0x7FFF_FFFF
  {
  }

  /** `add_tests` (lines 508-541), which the test checks against `rs1 + rs2` on `uint32_t`. */
  lemma AddVectorsHigh()
    ensures Compute(Add, 0xFFFF_FFFF, 0xFFFF_FFFF) == 0xFFFF_FFFE && Compute(Add, 0xFFFF_FFFF, 0xFFFF_FFFE) == 0xFFFF_FFFD && Compute(Add, 0x8000_0000, 0xFFFF_FFFF) == 0x7FFF_FFFF
    ensures Compute(Add, 0x8000_0001, 0xFFFF_FFFF) == 0x8000_0000 && Compute(Add, 0x0000_0001, 0xFFFF_FFFF) == 0x0000_0000 && Compute(Add, 0x0000_0005, 0xFFFF_FFFC) == 0x0000_0001
    ensures Compute(Add, 0x0000_000A, 0xFFFF_FFF6) == 0x0000_0000 && Compute(Add, 0x7FFF_FFFF, 0x8000_0000) == 0xFFFF_FFFF && Compute(Add, 0x0000_00FF, 0x0000_0001) == 0x0000_0100
    ensures Compute(Add, 0x0000_FFFF, 0x0000_0001) == 0x0001_0000 && Compute(Add, 0x00FF_FFFF, 0x0000_0001) == 0x0100_0000 && Compute(Add, 0x7FFF_FFFF, 0x0000_0001) == 0x8000_0000
    ensures Compute(Add, 0x0000_0000, 0x0000_0001) == 0x0000_0001 && Compute(Add, 0x0000_0001, 0x0000_0001) == 0x0000_0002 && Compute(Add, 0x0000_0002, 0x0000_0001) == 0x0000_0003
    ensures Compute(Add, 0x0000_0003, 0x0000_0001) == 0x0000_0004 && Compute(Add, 0x0000_0001, 0x8000_0000) == 0x8000_0001 && Compute(Add, 0x8000_0000, 0x0000_0001) == 0x8000_0001
    ensures Compute(Add, 0x7FFF_FFFE, 0x0000_0001) == 0x7FFF_FFFF && Compute(Add, 0x0000_0000, 0x8000_0000) == 0x8000_0000 && Compute(Add, 0x0000_000F, 0x0000_0001) == 0x0000_0010
    ensures Compute(Add, 0x0000_00FF, 0x0000_0001) == 0x0000_0100 && Compute(Add, 0x0000_0FFF, 0x0000_0001) == 0x0000_1000 && Compute(Add, 0x0000_FFFF, 0x0000_0001) == 0x0001_0000
  {
  }

  /** `sub_tests` (lines 556-592), which the test checks against `rs1 - rs2` on `uint32_t`. */
  lemma SubVectorsLow()
    ensures Compute(Sub, 0x0000_0000, 0x0000_0000) == 0x0000_0000 && Compute(Sub, 0x0000_0001, 0x0000_0000) == 0x0000_0001 && Compute(Sub, 0x0000_0001, 0x0000_0001) == 0x0000_0000
    ensures Compute(Sub, 0x0000_0005, 0x0000_0003) == 0x0000_0002 && Compute(Sub, 0x0000_000A, 0x0000_0005) == 0x0000_0005 && Compute(Sub, 0x0000_0019, 0x0000_000F) == 0x0000_000A
    ensures Compute(Sub, 0x1234_5678, 0x0000_0000) == 0x1234_5678 && Compute(Sub, 0x0000_0000, 0x1234_5678) == 0xEDCB_A988 && Compute(Sub, 0xFFFF_FFFF, 0x0000_0000) == 0xFFFF_FFFF
    ensures Compute(Sub, 0x8000_0000, 0x0000_0000) == 0x8000_0000 && Compute(Sub, 0x1234_5678, 0x1234_5678) == 0x0000_0000 && Compute(Sub, 0xFFFF_FFFF, 0xFFFF_FFFF) == 0x0000_0000
    ensures Compute(Sub, 0x8000_0000, 0x8000_0000) == 0x0000_0000 && Compute(Sub, 0x7FFF_FFFF, 0x7FFF_FFFF) == 0x0000_0000 && Compute(Sub, 0x0000_0002, 0x0000_0001) == 0x0000_0001
    ensures Compute(Sub, 0x0000_0004, 0x0000_0002) == 0x0000_0002 && Compute(Sub, 0x0000_0008, 0x0000_0004) == 0x0000_0004 && Compute(Sub, 0x0000_0010, 0x0000_0008) == 0x0000_0008
    ensures Compute(Sub, 0x8000_0000, 0x4000_0000) == 0x4000_0000 && Compute(Sub, 0x0000_0000, 0x0000_0001) == 0xFFFF_FFFF && Compute(Sub, 0x0000_0001, 0x0000_0002) == 0xFFFF_FFFF
    ensures Compute(Sub, 0x8000_0000, 0x0000_0001) == 0x7FFF_FFFF && Compute(Sub, 0x0000_0000, 0x8000_0000) == 0x8000_0000 && Compute(Sub, 0x7FFF_FFFF, 0x8000_0000) == 0xFFFF_FFFF
    ensures Compute(Sub, 0x9ABC_DEF0, 0x1234_5678) == 0x8888_8878 && Compute(Sub, 0xFEDC_BA98, 0x8765_4321) == 0x7777_7777 && Compute(Sub, 0xDEAD_BEEF, 0xCAFE_BABE) == 0x13AF_0431
  {
  }

  /** `sub_tests` (lines 595-640), which the test checks against `rs1 - rs2` on `uint32_t`. */
  lemma SubVectorsHigh()
    ensures Compute(Sub, 0x0000_0003, 0x0000_0002) == 0x0000_0001 && Compute(Sub, 0x0000_00C8, 0x0000_0064) == 0x0000_0064 && Compute(Sub, 0x0000_07D0, 0x0000_03E8) == 0x0000_03E8
    ensures Compute(Sub, 0x7FFF_FFFF, 0x0000_0000) == 0x7FFF_FFFF && Compute(Sub, 0xFFFF_FFFF, 0xFFFF_FFFF) == 0x0000_0000 && Compute(Sub, 0xFFFF_FFFF, 0xFFFF_FFFE) == 0x0000_0001
    ensures Compute(Sub, 0xFFFF_FFFE, 0xFFFF_FFFF) == 0xFFFF_FFFF && Compute(Sub, 0x8000_0000, 0xFFFF_FFFF) == 0x8000_0001 && Compute(Sub, 0x0000_0001, 0xFFFF_FFFF) == 0x0000_0002
    ensures Compute(Sub, 0x0000_0005, 0xFFFF_FFFC) == 0x0000_0009 && Compute(Sub, 0x0000_000A, 0xFFFF_FFF6) == 0x0000_0014 && Compute(Sub, 0x7FFF_FFFF, 0x8000_0000) == 0xFFFF_FFFF
    ensures Compute(Sub, 0x0000_0100, 0x0000_0001) == 0x0000_00FF && Compute(Sub, 0x0001_0000, 0x0000_0001) == 0x0000_FFFF && Compute(Sub, 0x0100_0000, 0x0000_0001) == 0x00FF_FFFF
    ensures Compute(Sub, 0x8000_0000, 0x0000_0001) == 0x7FFF_FFFF && Compute(Sub, 0x0000_0004, 0x0000_0001) == 0x0000_0003 && Compute(Sub, 0x0000_0003, 0x0000_0001) == 0x0000_0002
    ensures Compute(Sub, 0x0000_0002, 0x0000_0001) == 0x0000_0001 && Compute(Sub, 0x0000_0001, 0x0000_0001) == 0x0000_0000 && Compute(Sub, 0x8000_0001, 0x0000_0001) == 0x8000_0000
    ensures Compute(Sub, 0x7FFF_FFFF, 0x0000_0001) == 0x7FFF_FFFE && Compute(Sub, 0x0000_0000, 0x7FFF_FFFF) == 0x8000_0001 && Compute(Sub, 0x0000_0001, 0x8000_0000) == 0x8000_0001
    ensures Compute(Sub, 0x0000_0010, 0x0000_0001) == 0x0000_000F && Compute(Sub, 0x0000_0100, 0x0000_0001) == 0x0000_00FF && Compute(Sub, 0x0000_1000, 0x0000_0001) == 0x0000_0FFF
    ensures Compute(Sub, 0x0001_0000, 0x0000_0001) == 0x0000_FFFF && Compute(Sub, 0x0000_0000, 0x0000_0001) == 0xFFFF_FFFF && Compute(Sub, 0x0000_0000, 0x0000_0005) == 0xFFFF_FFFB
    ensures Compute(Sub, 0x0000_0000, 0x7FFF_FFFF) == 0x8000_0001 && Compute(Sub, 0x0000_0000, 0x8000_0000) == 0x8000_0000
  {
  }

  /** `sra_tests` (lines 678-715), which the test checks against `(int32_t)rs1 >> (rs2 & 0x1F)`. */
  lemma SraVectorsLow()
    ensures Compute(Sra, 0x0000_0000, 0x0000_0000) == 0x0000_0000 && Compute(Sra, 0x0000_0001, 0x0000_0000) == 0x0000_0001 && Compute(Sra, 0x0000_0001, 0x0000_0001) == 0x0000_0000
    ensures Compute(Sra, 0x0000_0002, 0x0000_0001) == 0x0000_0001 && Compute(Sra, 0x0000_0004, 0x0000_0001) == 0x0000_0002 && Compute(Sra, 0x0000_0008, 0x0000_0001) == 0x0000_0004
    ensures Compute(Sra, 0x0000_0010, 0x0000_0001) == 0x0000_0008 && Compute(Sra, 0x0000_0004, 0x0000_0002) == 0x0000_0001 && Compute(Sra, 0x0000_0008, 0x0000_0003) == 0x0000_0001
    ensures Compute(Sra, 0x0000_0010, 0x0000_0004) == 0x0000_0001 && Compute(Sra, 0x0000_0020, 0x0000_0005) == 0x0000_0001 && Compute(Sra, 0x0000_0040, 0x0000_0006) == 0x0000_0001
    ensures Compute(Sra, 0x0000_0080, 0x0000_0007) == 0x0000_0001 && Compute(Sra, 0x1234_5678, 0x0000_0001) == 0x091A_2B3C && Compute(Sra, 0x1234_5678, 0x0000_0002) == 0x048D_159E
    ensures Compute(Sra, 0x1234_5678, 0x0000_0004) == 0x0123_4567 && Compute(Sra, 0x1234_5678, 0x0000_0008) == 0x0012_3456 && Compute(Sra, 0x1234_5678, 0x0000_0010) == 0x0000_1234
    ensures Compute(Sra, 0x8000_0000, 0x0000_0001) == 0xC000_0000 && Compute(Sra, 0x8000_0000, 0x0000_0002) == 0xE000_0000 && Compute(Sra, 0x8000_0000, 0x0000_0004) == 0xF800_0000
    ensures Compute(Sra, 0x8000_0000, 0x0000_0008) == 0xFF80_0000 && Compute(Sra, 0x8000_0000, 0x0000_0010) == 0xFFFF_8000 && Compute(Sra, 0x8000_0000, 0x0000_001F) == 0xFFFF_FFFF
    ensures Compute(Sra, 0xFFFF_FFFF, 0x0000_0001) == 0xFFFF_FFFF && Compute(Sra, 0xFFFF_FFFF, 0x0000_0002) == 0xFFFF_FFFF && Compute(Sra, 0xFFFF_FFFF, 0x0000_001F) == 0xFFFF_FFFF
    ensures Compute(Sra, 0xFFFF_FFFE, 0x0000_0001) == 0xFFFF_FFFF && Compute(Sra, 0xFFFF_FFFC, 0x0000_0001) == 0xFFFF_FFFE && Compute(Sra, 0xFFFF_FFF8, 0x0000_0001) == 0xFFFF_FFFC
  {
  }

  /** `sra_tests` (lines 718-762), which the test checks against `(int32_t)rs1 >> (rs2 & 0x1F)`. */
  lemma SraVectorsHigh()
    ensures Compute(Sra, 0x8000_0001, 0x0000_0001) == 0xC000_0000 && Compute(Sra, 0x8000_0001, 0x0000_001F) == 0xFFFF_FFFF && Compute(Sra, 0x8765_4321, 0x0000_0001) == 0xC3B2_A190
    ensures Compute(Sra, 0x8765_4321, 0x0000_0004) == 0xF876_5432 && Compute(Sra, 0x8765_4321, 0x0000_0008) == 0xFF87_6543 && Compute(Sra, 0x1234_5678, 0x0000_0020) == 0x1234_5678
    ensures Compute(Sra, 0x1234_5678, 0x0000_0021) == 0x091A_2B3C && Compute(Sra, 0x1234_5678, 0x0000_0022) == 0x048D_159E && Compute(Sra, 0x8000_0000, 0x0000_0020) == 0x8000_0000
    ensures Compute(Sra, 0x8000_0000, 0x0000_0021) == 0xC000_0000 && Compute(Sra, 0xFFFF_FFFF, 0x0000_0020) == 0xFFFF_FFFF && Compute(Sra, 0x1234_5678, 0x0000_00A1) == 0x091A_2B3C
    ensures Compute(Sra, 0x1234_5678, 0x0000_00E4) == 0x0123_4567 && Compute(Sra, 0x8000_0000, 0x0000_00FF) == 0xFFFF_FFFF && Compute(Sra, 0x8765_4321, 0x0000_0088) == 0xFF87_6543
    ensures Compute(Sra, 0x0000_0001, 0x0000_0001) == 0x0000_0000 && Compute(Sra, 0x0000_0002, 0x0000_0001) == 0x0000_0001 && Compute(Sra, 0x0000_0004, 0x0000_0001) == 0x0000_0002
    ensures Compute(Sra, 0x0000_0008, 0x0000_0001) == 0x0000_0004 && Compute(Sra, 0x8000_0000, 0x0000_0001) == 0xC000_0000 && Compute(Sra, 0x7FFF_FFFF, 0x0000_0001) == 0x3FFF_FFFF
    ensures Compute(Sra, 0x7FFF_FFFF, 0x0000_0002) == 0x1FFF_FFFF && Compute(Sra, 0x7FFF_FFFF, 0x0000_0004) == 0x07FF_FFFF && Compute(Sra, 0x7FFF_FFFF, 0x0000_0008) == 0x007F_FFFF
    ensures Compute(Sra, 0x7FFF_FFFF, 0x0000_001E) == 0x0000_0001 && Compute(Sra, 0x7FFF_FFFF, 0x0000_001F) == 0x0000_0000 && Compute(Sra, 0x0000_0000, 0x0000_0001) == 0x0000_0000
    ensures Compute(Sra, 0x0000_0000, 0x0000_000F) == 0x0000_0000 && Compute(Sra, 0x0000_0000, 0x0000_001F) == 0x0000_0000 && Compute(Sra, 0x5555_5555, 0x0000_0001) == 0x2AAA_AAAA
    ensures Compute(Sra, 0xAAAA_AAAA, 0x0000_0001) == 0xD555_5555 && Compute(Sra, 0x0F0F_0F0F, 0x0000_0004) == 0x00F0_F0F0 && Compute(Sra, 0xF0F0_F0F0, 0x0000_0004) == 0xFF0F_0F0F
  {
  }

  /** `srl_tests` (lines 777-814), which the test checks against `rs1 >> (rs2 & 0x1F)`. */
  lemma SrlVectorsLow()
    ensures Compute(Srl, 0x0000_0000, 0x0000_0000) == 0x0000_0000 && Compute(Srl, 0x0000_0001, 0x0000_0000) == 0x0000_0001 && Compute(Srl, 0x0000_0001, 0x0000_0001) == 0x0000_0000
    ensures Compute(Srl, 0x0000_0002, 0x0000_0001) == 0x0000_0001 && Compute(Srl, 0x0000_0004, 0x0000_0001) == 0x0000_0002 && Compute(Srl, 0x0000_0008, 0x0000_0001) == 0x0000_0004
    ensures Compute(Srl, 0x0000_0010, 0x0000_0001) == 0x0000_0008 && Compute(Srl, 0x0000_0004, 0x0000_0002) == 0x0000_0001 && Compute(Srl, 0x0000_0008, 0x0000_0003) == 0x0000_0001
    ensures Compute(Srl, 0x0000_0010, 0x0000_0004) == 0x0000_0001 && Compute(Srl, 0x0000_0020, 0x0000_0005) == 0x0000_0001 && Compute(Srl, 0x0000_0040, 0x0000_0006) == 0x0000_0001
    ensures Compute(Srl, 0x0000_0080, 0x0000_0007) == 0x0000_0001 && Compute(Srl, 0x1234_5678, 0x0000_0001) == 0x091A_2B3C && Compute(Srl, 0x1234_5678, 0x0000_0002) == 0x048D_159E
    ensures Compute(Srl, 0x1234_5678, 0x0000_0004) == 0x0123_4567 && Compute(Srl, 0x1234_5678, 0x0000_0008) == 0x0012_3456 && Compute(Srl, 0x1234_5678, 0x0000_0010) == 0x0000_1234
    ensures Compute(Srl, 0x8000_0000, 0x0000_0001) == 0x4000_0000 && Compute(Srl, 0x8000_0000, 0x0000_0002) == 0x2000_0000 && Compute(Srl, 0x8000_0000, 0x0000_0004) == 0x0800_0000
    ensures Compute(Srl, 0x8000_0000, 0x0000_0008) == 0x0080_0000 && Compute(Srl, 0x8000_0000, 0x0000_0010) == 0x0000_8000 && Compute(Srl, 0x8000_0000, 0x0000_001F) == 0x0000_0001
    ensures Compute(Srl, 0xFFFF_FFFF, 0x0000_0001) == 0x7FFF_FFFF && Compute(Srl, 0xFFFF_FFFF, 0x0000_0002) == 0x3FFF_FFFF && Compute(Srl, 0xFFFF_FFFF, 0x0000_001F) == 0x0000_0001
    ensures Compute(Srl, 0xFFFF_FFFE, 0x0000_0001) == 0x7FFF_FFFF && Compute(Srl, 0xFFFF_FFFC, 0x0000_0001) == 0x7FFF_FFFE && Compute(Srl, 0xFFFF_FFF8, 0x0000_0001) == 0x7FFF_FFFC
  {
  }

  /** `srl_tests` (lines 817-855), which the test checks against `rs1 >> (rs2 & 0x1F)`. */
  lemma SrlVectorsMid()
    ensures Compute(Srl, 0x8000_0001, 0x0000_0001) == 0x4000_0000 && Compute(Srl, 0x8000_0001, 0x0000_001F) == 0x0000_0001 && Compute(Srl, 0x8765_4321, 0x0000_0001) == 0x43B2_A190
    ensures Compute(Srl, 0x8765_4321, 0x0000_0004) == 0x0876_5432 && Compute(Srl, 0x8765_4321, 0x0000_0008) == 0x0087_6543 && Compute(Srl, 0x1234_5678, 0x0000_0020) == 0x1234_5678
    ensures Compute(Srl, 0x1234_5678, 0x0000_0021) == 0x091A_2B3C && Compute(Srl, 0x1234_5678, 0x0000_0022) == 0x048D_159E && Compute(Srl, 0x8000_0000, 0x0000_0020) == 0x8000_0000
    ensures Compute(Srl, 0x8000_0000, 0x0000_0021) == 0x4000_0000 && Compute(Srl, 0xFFFF_FFFF, 0x0000_0020) == 0xFFFF_FFFF && Compute(Srl, 0x1234_5678, 0x0000_00A1) == 0x091A_2B3C
    ensures Compute(Srl, 0x1234_5678, 0x0000_00E4) == 0x0123_4567 && Compute(Srl, 0x8000_0000, 0x0000_00FF) == 0x0000_0001 && Compute(Srl, 0x8765_4321, 0x0000_0088) == 0x0087_6543
    ensures Compute(Srl, 0x0000_0001, 0x0000_0001) == 0x0000_0000 && Compute(Srl, 0x0000_0002, 0x0000_0001) == 0x0000_0001 && Compute(Srl, 0x0000_0004, 0x0000_0001) == 0x0000_0002
    ensures Compute(Srl, 0x0000_0008, 0x0000_0001) == 0x0000_0004 && Compute(Srl, 0x8000_0000, 0x0000_0001) == 0x4000_0000 && Compute(Srl, 0x7FFF_FFFF, 0x0000_0001) == 0x3FFF_FFFF
    ensures Compute(Srl, 0x7FFF_FFFF, 0x0000_0002) == 0x1FFF_FFFF && Compute(Srl, 0x7FFF_FFFF, 0x0000_0004) == 0x07FF_FFFF && Compute(Srl, 0x7FFF_FFFF, 0x0000_0008) == 0x007F_FFFF
    ensures Compute(Srl, 0x7FFF_FFFF, 0x0000_001E) == 0x0000_0001 && Compute(Srl, 0x7FFF_FFFF, 0x0000_001F) == 0x0000_0000 && Compute(Srl, 0x0000_0000, 0x0000_0001) == 0x0000_0000
    ensures Compute(Srl, 0x0000_0000, 0x0000_000F) == 0x0000_0000 && Compute(Srl, 0x0000_0000, 0x0000_001F) == 0x0000_0000
  {
  }

  /** `srl_tests` (lines 858-874), which the test checks against `rs1 >> (rs2 & 0x1F)`. */
  lemma SrlVectorsHigh()
    ensures Compute(Srl, 0x5555_5555, 0x0000_0001) == 0x2AAA_AAAA && Compute(Srl, 0xAAAA_AAAA, 0x0000_0001) == 0x5555_5555 && Compute(Srl, 0x0F0F_0F0F, 0x0000_0004) == 0x00F0_F0F0
    ensures Compute(Srl, 0xF0F0_F0F0, 0x0000_0004) == 0x0F0F_0F0F && Compute(Srl, 0xFFFF_FFFF, 0x0000_0001) == 0x7FFF_FFFF && Compute(Srl, 0xFFFF_FFFF, 0x0000_0008) == 0x00FF_FFFF
    ensures Compute(Srl, 0xFFFF_FFFF, 0x0000_0010) == 0x0000_FFFF && Compute(Srl, 0xFFFF_FFFF, 0x0000_0018) == 0x0000_00FF && Compute(Srl, 0xFFFF_FFFF, 0x0000_001F) == 0x0000_0001
    ensures Compute(Srl, 0xFF00_0000, 0x0000_0008) == 0x00FF_0000 && Compute(Srl, 0x00FF_0000, 0x0000_0008) == 0x0000_FF00 && Compute(Srl, 0x0000_FF00, 0x0000_0008) == 0x0000_00FF
    ensures Compute(Srl, 0x0000_00FF, 0x0000_0008) == 0x0000_0000
  {
  }

  // ---------------------------------------------------------------------
  // The laws the tables sample, for every operand.

  /**
   * XOR, OR and AND against 0, against all ones and against the operand
   * itself.
   */
  lemma BitwiseLaws(x: bv32)
    ensures Compute(Xor, x, x) == 0 && Compute(Xor, x, 0) == x
    ensures Compute(Or, x, x) == x && Compute(Or, x, 0xFFFF_FFFF) == 0xFFFF_FFFF
    ensures Compute(And, x, 0) == 0 && Compute(And, x, 0xFFFF_FFFF) == x
  {
  }

  /** x - x == 0 for every word. */
  lemma SubSelfIsZero(x: bv32)
    ensures Compute(Sub, x, x) == 0
  {
  }

  /** -1 shifted arithmetically by any amount stays -1. */
  lemma SraOfMinusOne(b: bv32)
    ensures Compute(Sra, 0xFFFF_FFFF, b) == 0xFFFF_FFFF
  {
  }

  // ---------------------------------------------------------------------
  // The runners that walk the tables.

  /** One table row: the two operands and the value the test expects. */
  datatype TestCase = TestCase(rs1: bv32, rs2: bv32, expected: bv32)

  /**
   * run_or_tests ... run_srl_tests: for each row in order, compute the
   * operation on its operands and record PASS (true) or FAIL (false) by
   * comparing with the expected value. The printed lines are not modelled;
   * the verdicts are what they report.
   */
  method RunTests(op: AluOp, tests: seq<TestCase>) returns (passed: seq<bool>)
    ensures |passed| == |tests|
    ensures forall i :: 0 <= i < |tests| ==>
      (passed[i] <==> Compute(op, tests[i].rs1, tests[i].rs2) == tests[i].expected)
  {
    passed := [];
    var i := 0;
    while i < |tests|
      invariant 0 <= i <= |tests| && |passed| == i
      invariant forall k :: 0 <= k < i ==>
        (passed[k] <==> Compute(op, tests[k].rs1, tests[k].rs2) == tests[k].expected)
    {
      var result := Compute(op, tests[i].rs1, tests[i].rs2);
      passed := passed + [result == tests[i].expected];
      i := i + 1;
    }
  }
}
