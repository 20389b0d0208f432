/**
 * The 16-slot opcode table of the CC-Debug driver: which byte is sent on the
 * wire for each logical debug command. The table can be replaced at run time
 * to support compatible chips; slot 0 holds the table's version.
 */
module InstructionTable {

  const Size: nat := 16

  // Slot indices.
  const Version: nat := 0
  const Halt: nat := 1
  const Resume: nat := 2
  const RdConfig: nat := 3
  const WrConfig: nat := 4
  const DebugInstr1: nat := 5
  const DebugInstr2: nat := 6
  const DebugInstr3: nat := 7
  const GetChipId: nat := 8
  const GetPc: nat := 9
  const ReadStatus: nat := 10
  const StepInstr: nat := 11
  const ChipErase: nat := 12
  // Reserved for extensions; the driver never sends them.
  const SetHwBreakpoint: nat := 13
  const GetBm: nat := 14
  const BurstWrite: nat := 15

  /**
   * The CC254x opcodes initialisation loads into slots 0 to 12, slot by
   * slot. The three reserved slots are not assigned there.
   */
  const Defaults: seq<bv8> :=
    [1, 0x40, 0x48, 0x20, 0x18, 0x51, 0x52, 0x53, 0x68, 0x28, 0x30, 0x58, 0x10]
}
