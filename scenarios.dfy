/**
 * Whole sessions driven through the driver's public operations, from a
 * fresh process. Each method builds its own session, so none of them
 * changes anything visible to its caller; their postconditions say what a
 * client of the driver observes.
 */
module Scenarios {
  import opened ByteCodec
  import opened Wire
  import opened CCDebugger
  import T = InstructionTable

  /**
   * Initialise, enter debug mode and read the chip identifier from a target
   * that answers with the bytes `hi` and `lo`: the identifier is `hi:lo`
   * and no error is left.
   */
  method ReadChipId(hi: bv8, lo: bv8) returns (id: bv16, error: ErrorCode)
    ensures id == Word(hi, lo)
    ensures error == None
  {
    var s := new Session();
    var status := s.Init(true);
    s.Enter();
    id := s.GetChipID(true, ShiftOut(hi, 8), ShiftOut(lo, 8));
    // Equal transmissions come from equal bytes.
    AssembleShiftOut(hi);
    AssembleShiftOut(HighByte(id));
    AssembleShiftOut(lo);
    AssembleShiftOut(LowByte(id));
    WordOfBytes(id);
    error := s.Error();
  }

  /**
   * A debug operation on a session that was never initialised is refused
   * with NotActive and returns 0.
   */
  method StatusBeforeInit(arrived: bool, reply: seq<bool>) returns (status: bv8, error: ErrorCode)
    requires |reply| == 8
    ensures status == 0 && error == NotActive
  {
    var s := new Session();
    status := s.GetStatus(arrived, reply);
    error := s.Error();
  }

  /**
   * Entering debug mode and leaving it again: the session stays active and
   * is no longer debugging, and the error says whether the target answered.
   */
  method EnterThenExit(arrived: bool, reply: seq<bool>) returns (active: bool, debugging: bool, error: ErrorCode)
    requires |reply| == 8
    ensures active && !debugging
    ensures error == (if arrived then None else NotWired)
  {
    var s := new Session();
    var status := s.Init(true);
    s.Enter();
    s.Exit(arrived, reply);
    active, debugging := s.ccActive, s.inDebugMode;
    error := s.Error();
  }

  /**
   * Deactivating a debugging session with the activation toggle as written:
   * the exit is refused because the session is already marked inactive, so
   * the target is never resumed, the session still believes it is in debug
   * mode and the error is NotActive.
   */
  method DeactivateWhileDebuggingAsWritten(arrived: bool, reply: seq<bool>)
    returns (active: bool, debugging: bool, error: ErrorCode)
    requires |reply| == 8
    ensures !active && debugging && error == NotActive
  {
    var s := new Session();
    var status := s.Init(true);
    s.Enter();
    s.SetActiveAsWritten(false, arrived, reply);
    active, debugging := s.ccActive, s.inDebugMode;
    error := s.Error();
  }

  /**
   * The same with the corrected toggle: the target is resumed first, the
   * session ends inactive and not debugging.
   */
  method DeactivateWhileDebugging(arrived: bool, reply: seq<bool>)
    returns (active: bool, debugging: bool, error: ErrorCode)
    requires |reply| == 8
    ensures !active && !debugging
    ensures error == (if arrived then None else NotWired)
  {
    var s := new Session();
    var status := s.Init(true);
    s.Enter();
    s.SetActive(false, arrived, reply);
    active, debugging := s.ccActive, s.inDebugMode;
    error := s.Error();
  }

  /**
   * Loading a replacement opcode table after initialisation: the version
   * the update returns and the version reported afterwards are both slot 0
   * of the new table.
   */
  method ReplaceTable(newTable: array<bv8>) returns (returned: bv8, version: bv8)
    requires newTable.Length == T.Size
    ensures returned == newTable[T.Version] && version == newTable[T.Version]
  {
    var s := new Session();
    var status := s.Init(true);
    returned := s.UpdateInstructionTable(newTable);
    version := s.GetInstructionTableVersion();
  }
}
