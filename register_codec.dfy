/**
 * The Modbus register codec: a 32-bit IEEE-754 single-precision bit pattern travels
 * as two 16-bit registers, high word first (drivers/alicat.py, _float_to_regs and
 * _regs_to_float). The float <-> pattern reinterpretation of struct.pack/unpack is
 * not part of this model; a float is its bit pattern.
 */
module RegisterCodec {

  /** One 16-bit holding or input register. */
  type Word = bv16

  /** (raw >> 16) & 0xFFFF */
  function HighWord(raw: bv32): Word {
    ((raw >> 16) & 0xFFFF) as bv16
  }

  /** raw & 0xFFFF */
  function LowWord(raw: bv32): Word {
    (raw & 0xFFFF) as bv16
  }

  /** _float_to_regs once the pattern is known: (high word, low word). */
  function ToRegisters(raw: bv32): (regs: (Word, Word))
    ensures FromRegisters(regs.0, regs.1) == raw
    ensures raw == (regs.0 as bv32) * 0x1_0000 + (regs.1 as bv32)
  {
    (HighWord(raw), LowWord(raw))
  }

  /** _regs_to_float before the pattern is reinterpreted: (hi << 16) | lo. */
  function FromRegisters(hi: Word, lo: Word): (raw: bv32)
    ensures raw == (hi as bv32) * 0x1_0000 + (lo as bv32)
  {
    ((hi as bv32) << 16) | (lo as bv32)
  }

  /** Joining two registers and splitting the pattern again gives the same registers. */
  lemma SplitJoin(hi: Word, lo: Word)
    ensures ToRegisters(FromRegisters(hi, lo)) == (hi, lo)
  {
  }
}
