/**
 * The CC-Debug driver session.
 *
 * The driver keeps one process-wide session: whether it owns the lines
 * (`ccActive`), whether the target is in debug mode (`inDebugMode`), the
 * direction it last requested for DD (`ddIsOutput`), the last error and the
 * opcode table. Every operation changes this state in place, so the session
 * is a class; the ghost field `trace` records what each operation does to the
 * lines, as `Wire` events. Inputs that come from the hardware are parameters:
 * `arrived` is true exactly when the call waiting for a falling edge on DD
 * returns nonzero, and `reply` lists the eight levels sampled from DD while
 * reading a byte.
 */
module CCDebugger {
  import opened ByteCodec
  import opened Wire
  import T = InstructionTable

  /** The last-error value: overwritten by the guarded operations, never accumulated. */
  datatype ErrorCode = None | NotActive | NotDebugging | NotWired

  /** Events of (re-)acquiring all three lines as outputs at LOW when the session is activated. */
  const AcquireLines: seq<Event> := [RequestOutput(DC), RequestOutput(DD), RequestOutput(RST)]
  /** Events of releasing all three lines as inputs when the session is deactivated. */
  const ReleaseLines: seq<Event> := [RequestInput(DC), RequestInput(DD), RequestInput(RST)]

  class Session {
    var ccActive: bool
    var inDebugMode: bool
    var ddIsOutput: bool
    var errorFlag: ErrorCode
    const instr: array<bv8>
    ghost var trace: seq<Event>

    ghost predicate Valid()
      reads this
    {
      instr.Length == T.Size
    }

    /** The condition every guarded operation checks before touching the lines. */
    predicate Debugging()
      reads this
    {
      ccActive && inDebugMode
    }

    /**
     * A guarded operation that was refused: the error says which check
     * failed, no line was touched and no other field changed.
     */
    twostate predicate Refused()
      reads this
    {
      && errorFlag == (if !old(ccActive) then NotActive else NotDebugging)
      && ccActive == old(ccActive)
      && inDebugMode == old(inDebugMode)
      && ddIsOutput == old(ddIsOutput)
      && trace == old(trace)
    }

    /**
     * A debug instruction that went through: `command` was written and
     * `replies` read (see `Wire.Transaction`), DD is an output again, and the
     * error is NotWired exactly when the ready wait found no edge.
     */
    twostate predicate Transacted(command: seq<bv8>, arrived: bool, replies: seq<seq<bool>>)
      reads this
    {
      && ccActive
      && ddIsOutput
      && errorFlag == (if arrived then old(errorFlag) else NotWired)
      && trace == old(trace) + Transaction(old(ddIsOutput), command, arrived, replies)
    }

    /** The state of a fresh process: everything zero, nothing on the lines yet. */
    constructor ()
      ensures Valid() && fresh(instr)
      ensures !ccActive && !inDebugMode && !ddIsOutput && errorFlag == None
      ensures trace == []
      ensures forall i :: 0 <= i < instr.Length ==> instr[i] == 0
    {
      ccActive, inDebugMode, ddIsOutput, errorFlag := false, false, false, None;
      instr := new bv8[T.Size](_ => 0);
      trace := [];
    }

    /**
     * Initialisation. When the GPIO controller is not found it returns -1
     * and changes nothing; otherwise it requests the three lines as outputs,
     * loads the default opcodes into slots 0 to 12 and activates the session.
     */
    method Init(chipFound: bool) returns (status: int)
      requires Valid()
      modifies this`ccActive, this`trace, instr
      ensures Valid()
      ensures !chipFound ==> status == -1 && ccActive == old(ccActive) && trace == old(trace)
                             && instr[..] == old(instr[..])
      ensures chipFound ==> status == 1 && ccActive
                            && trace == old(trace) + [RequestOutput(RST), RequestOutput(DC), RequestOutput(DD)]
                            && instr[..|T.Defaults|] == T.Defaults
                            && instr[|T.Defaults|..] == old(instr[|T.Defaults|..])
    {
      if !chipFound {
        return -1;
      }
      trace := trace + [RequestOutput(RST), RequestOutput(DC), RequestOutput(DD)];
      instr[T.Version] := 1;
      instr[T.Halt] := 0x40;
      instr[T.Resume] := 0x48;
      instr[T.RdConfig] := 0x20;
      instr[T.WrConfig] := 0x18;
      instr[T.DebugInstr1] := 0x51;
      instr[T.DebugInstr2] := 0x52;
      instr[T.DebugInstr3] := 0x53;
      instr[T.GetChipId] := 0x68;
      instr[T.GetPc] := 0x28;
      instr[T.ReadStatus] := 0x30;
      instr[T.StepInstr] := 0x58;
      instr[T.ChipErase] := 0x10;
      ccActive := true;
      return 1;
    }

    /**
     * Activation toggle, as the driver intends it: the error is reset; a
     * request for the current state does nothing more; activating re-requests
     * the lines as outputs; deactivating first leaves debug mode (while the
     * session is still active) and then releases the lines.
     */
    method SetActive(on: bool, arrived: bool, reply: seq<bool>)
      requires Valid() && |reply| == 8
      modifies this`ccActive, this`inDebugMode, this`ddIsOutput, this`errorFlag, this`trace
      ensures Valid() && ccActive == on
      ensures on == old(ccActive) ==>
                errorFlag == None && inDebugMode == old(inDebugMode) && ddIsOutput == old(ddIsOutput)
                && trace == old(trace)
      ensures on && !old(ccActive) ==>
                errorFlag == None && inDebugMode == old(inDebugMode) && ddIsOutput == old(ddIsOutput)
                && trace == old(trace) + AcquireLines
      ensures !on && old(ccActive) && !old(inDebugMode) ==>
                errorFlag == None && !inDebugMode && ddIsOutput == old(ddIsOutput)
                && trace == old(trace) + ReleaseLines
      ensures !on && old(ccActive) && old(inDebugMode) ==>
                errorFlag == (if arrived then None else NotWired) && !inDebugMode && ddIsOutput
                && trace == old(trace) + Transaction(old(ddIsOutput), [instr[T.Resume]], arrived, [reply])
                                       + ReleaseLines
    {
      errorFlag := None;
      if on == ccActive {
        return;
      }
      if on {
        ccActive := true;
        trace := trace + AcquireLines;
      } else {
        if inDebugMode {
          Exit(arrived, reply);
        }
        ccActive := false;
        trace := trace + ReleaseLines;
      }
    }

    /**
     * Activation toggle as written: `ccActive` is cleared before the exit
     * from debug mode is attempted, so that exit is refused as NotActive.
     * Deactivating in debug mode therefore sends nothing, leaves
     * `inDebugMode` set and ends with the error NotActive.
     */
    method SetActiveAsWritten(on: bool, arrived: bool, reply: seq<bool>)
      requires Valid() && |reply| == 8
      modifies this`ccActive, this`inDebugMode, this`ddIsOutput, this`errorFlag, this`trace
      ensures Valid() && ccActive == on
      ensures inDebugMode == old(inDebugMode) && ddIsOutput == old(ddIsOutput)
      ensures on == old(ccActive) ==> errorFlag == None && trace == old(trace)
      ensures on && !old(ccActive) ==> errorFlag == None && trace == old(trace) + AcquireLines
      ensures !on && old(ccActive) ==>
                errorFlag == (if old(inDebugMode) then NotActive else None)
                && trace == old(trace) + ReleaseLines
    {
      errorFlag := None;
      if on == ccActive {
        return;
      }
      ccActive := on;
      if on {
        trace := trace + AcquireLines;
      } else {
        if inDebugMode {
          Exit(arrived, reply);
        }
        trace := trace + ReleaseLines;
      }
    }

    /** The error accessor. */
    method Error() returns (e: ErrorCode)
      ensures e == errorFlag
    {
      e := errorFlag;
    }

    /**
     * Enters debug mode: refused as NotActive when the session is inactive;
     * otherwise resets the error, runs the reset/clock handshake and marks
     * the session as debugging.
     */
    method Enter()
      requires Valid()
      modifies this`inDebugMode, this`errorFlag, this`trace
      ensures Valid()
      ensures old(ccActive) ==> errorFlag == None && inDebugMode && trace == old(trace) + EnterSequence()
      ensures !old(ccActive) ==> errorFlag == NotActive && inDebugMode == old(inDebugMode) && trace == old(trace)
    {
      if !ccActive {
        errorFlag := NotActive;
        return;
      }
      errorFlag := None;
      trace := trace + [Drive(RST, false), Drive(DC, true), Delay(200)];
      trace := trace + [Drive(DC, false), Delay(40)];
      trace := trace + [Drive(DC, true), Delay(40)];
      trace := trace + [Drive(DC, false), Delay(85)];
      trace := trace + [Drive(RST, true), Delay(85)];
      inDebugMode := true;
    }

    /**
     * Sets the direction of DD: nothing when it already has it, otherwise the
     * direction is recorded and DD re-requested once (see `Wire.DirectionTrace`).
     */
    method SetDDDirection(toOutput: bool)
      modifies this`ddIsOutput, this`trace
      ensures ddIsOutput == toOutput
      ensures trace == old(trace) + DirectionTrace(old(ddIsOutput), toOutput)
    {
      if toOutput == ddIsOutput {
        return;
      }
      ddIsOutput := toOutput;
      if ddIsOutput {
        trace := trace + [Drive(DD, false), RequestOutput(DD), Drive(DD, false)];
      } else {
        trace := trace + [Drive(DD, false), RequestInput(DD), Drive(DD, false)];
      }
    }

    /**
     * Writes a byte: refused unless active and debugging; otherwise makes DD
     * an output and clocks the byte out most significant bit first.
     */
    method Write(b: bv8)
      requires Valid()
      modifies this`ddIsOutput, this`errorFlag, this`trace
      ensures Valid()
      ensures old(Debugging()) ==>
                ddIsOutput && errorFlag == old(errorFlag)
                && trace == old(trace) + DirectionTrace(old(ddIsOutput), true) + WriteTrace(b)
      ensures !old(Debugging()) ==> Refused()
    {
      if !ccActive {
        errorFlag := NotActive;
        return;
      }
      if !inDebugMode {
        errorFlag := NotDebugging;
        return;
      }
      SetDDDirection(true);
      ghost var goal := trace + WriteTrace(b);
      var data := b;
      var cnt := 8;
      while cnt != 0
        invariant 0 <= cnt <= 8
        invariant goal == trace + WriteFrame(ShiftOut(data, cnt))
        invariant ddIsOutput && errorFlag == old(errorFlag)
      {
        ghost var before := trace;
        ghost var level := data & 0x80 != 0;
        ghost var rest := WriteFrame(ShiftOut(data << 1, cnt - 1));
        WriteFrameStep(data, cnt);
        AppendAssoc(before, BitGroup(level), rest);
        // DD takes bit 7, clock high, shift, hold, clock low, hold.
        var high := data & 0x80 != 0;
        data := data << 1;
        trace := trace + [Drive(DD, high), Drive(DC, true), Delay(WriteHold), Drive(DC, false), Delay(WriteHold)];
        cnt := cnt - 1;
      }
    }

    /**
     * Waits until the target is ready: refused unless active and debugging;
     * otherwise makes DD an input and waits for the falling edge. When the
     * wait returns nonzero, eight clock pulses follow; when it returns zero
     * the error is NotWired and debug mode is left. `maxWaitCycles` is not
     * used.
     */
    method SwitchRead(maxWaitCycles: bv8, arrived: bool)
      requires Valid()
      modifies this`inDebugMode, this`ddIsOutput, this`errorFlag, this`trace
      ensures Valid()
      ensures old(Debugging()) ==>
                !ddIsOutput && inDebugMode == arrived
                && errorFlag == (if arrived then old(errorFlag) else NotWired)
                && trace == old(trace) + DirectionTrace(old(ddIsOutput), false) + ReadyWait(arrived)
      ensures !old(Debugging()) ==> Refused()
    {
      if !ccActive {
        errorFlag := NotActive;
        return;
      }
      if !inDebugMode {
        errorFlag := NotDebugging;
        return;
      }
      var didWait := false;
      SetDDDirection(false);
      ghost var t1 := trace;
      ghost var wait: seq<Event> := [Delay(Settle), EdgeWait(arrived)];
      trace := trace + [Delay(Settle)];
      trace := trace + [EdgeWait(arrived)];
      assert trace == t1 + wait;
      if arrived {
        ghost var start := trace;
        var cnt := 8;
        while cnt != 0
          invariant 0 <= cnt <= 8
          invariant start + ReadyPulses(8) == trace + ReadyPulses(cnt)
          invariant cnt < 8 ==> didWait
          invariant !ddIsOutput && inDebugMode && errorFlag == old(errorFlag)
        {
          ghost var before := trace;
          AppendAssoc(before, [Drive(DC, true), Delay(ReadHold), Drive(DC, false), Delay(ReadHold)], ReadyPulses(cnt - 1));
          didWait := true;
          trace := trace + [Drive(DC, true), Delay(ReadHold)];
          trace := trace + [Drive(DC, false), Delay(ReadHold)];
          assert trace == before + [Drive(DC, true), Delay(ReadHold), Drive(DC, false), Delay(ReadHold)];
          cnt := cnt - 1;
        }
        assert trace + [] == trace;
      } else {
        errorFlag := NotWired;
        inDebugMode := false;
        assert wait + [] == wait;
        return;
      }
      if didWait {
        trace := trace + [Delay(Settle)];
      }
      AppendAssoc(t1 + wait, ReadyPulses(8), [Delay(Settle)]);
      AppendAssoc(t1, wait, ReadyPulses(8) + [Delay(Settle)]);
    }

    /** Makes DD an output again; never refused. */
    method SwitchWrite()
      modifies this`ddIsOutput, this`trace
      ensures ddIsOutput
      ensures trace == old(trace) + DirectionTrace(old(ddIsOutput), true)
    {
      SetDDDirection(true);
    }

    /**
     * Reads a byte: refused as NotActive when the session is inactive (debug
     * mode is not checked); otherwise makes DD an input and assembles the
     * eight sampled levels, most significant bit first.
     */
    method Read(levels: seq<bool>) returns (data: bv8)
      requires Valid() && |levels| == 8
      modifies this`ddIsOutput, this`errorFlag, this`trace
      ensures Valid()
      ensures old(ccActive) ==>
                data == Assemble(levels) && !ddIsOutput && errorFlag == old(errorFlag)
                && trace == old(trace) + DirectionTrace(old(ddIsOutput), false) + ReadFrame(levels)
      ensures !old(ccActive) ==>
                data == 0 && errorFlag == NotActive && ddIsOutput == old(ddIsOutput) && trace == old(trace)
    {
      if !ccActive {
        errorFlag := NotActive;
        return 0;
      }
      data := 0;
      SetDDDirection(false);
      ghost var start := trace;
      var cnt := 8;
      while cnt != 0
        invariant 0 <= cnt <= 8
        invariant ShiftIn(data, levels[8 - cnt..]) == Assemble(levels)
        invariant start + ReadFrame(levels) == trace + ReadFrame(levels[8 - cnt..])
        invariant !ddIsOutput && errorFlag == old(errorFlag)
      {
        ghost var before := trace;
        ReadFrameStep(levels, 8 - cnt);
        AppendAssoc(before, SampleGroup(levels[8 - cnt]), ReadFrame(levels[8 - cnt + 1..]));
        assert levels[8 - cnt..][0] == levels[8 - cnt];
        assert levels[8 - cnt..][1..] == levels[8 - cnt + 1..];
        // Clock high, hold, sample DD into bit 0 of the shifted register, clock low, hold.
        data := data << 1;
        var high := levels[8 - cnt];
        if high {
          data := data | 0x01;
        }
        trace := trace + [Drive(DC, true), Delay(ReadHold), Sample(high), Drive(DC, false), Delay(ReadHold)];
        cnt := cnt - 1;
      }
    }

    /**
     * The tail every one-byte-reply instruction shares once its command is
     * written: wait until the target is ready, read the reply byte, make DD
     * an output again.
     */
    method AwaitReply(arrived: bool, reply: seq<bool>) returns (data: bv8)
      requires Valid() && |reply| == 8 && Debugging() && ddIsOutput
      modifies this`inDebugMode, this`ddIsOutput, this`errorFlag, this`trace
      ensures Valid()
      ensures ddIsOutput && inDebugMode == arrived && errorFlag == (if arrived then old(errorFlag) else NotWired)
      ensures ShiftOut(data, 8) == reply
      ensures trace == old(trace) + DirectionTrace(true, false) + ReadyWait(arrived) + ReadBytes([reply])
                                  + DirectionTrace(false, true)
    {
      SwitchRead(250, arrived);
      ghost var waited := trace;
      data := Read(reply);
      ghost var r1 := trace;
      Received1(waited, reply, r1);
      SwitchWrite();
      ShiftOutAssemble(reply);
    }

    /**
     * The same tail for the two instructions that answer with a 16-bit
     * value: two reply bytes, high-order first, combined as
     * `(high << 8) | low` in an unsigned short.
     */
    method AwaitWord(arrived: bool, high: seq<bool>, low: seq<bool>) returns (value: bv16)
      requires Valid() && |high| == 8 && |low| == 8 && Debugging() && ddIsOutput
      modifies this`inDebugMode, this`ddIsOutput, this`errorFlag, this`trace
      ensures Valid()
      ensures ddIsOutput && inDebugMode == arrived && errorFlag == (if arrived then old(errorFlag) else NotWired)
      ensures ShiftOut(HighByte(value), 8) == high && ShiftOut(LowByte(value), 8) == low
      ensures trace == old(trace) + DirectionTrace(true, false) + ReadyWait(arrived) + ReadBytes([high, low])
                                  + DirectionTrace(false, true)
    {
      SwitchRead(250, arrived);
      ghost var waited := trace;
      var b := Read(high);
      value := (b as bv16) << 8;
      ghost var r1 := trace;
      b := Read(low);
      value := value | (b as bv16);
      ghost var r2 := trace;
      Received2(waited, high, low, r1, r2);
      SwitchWrite();
      assert value == Word(Assemble(high), Assemble(low));
      WordOfReplies(high, low);
    }

    /**
     * Leaves debug mode: refused unless active and debugging; otherwise sends
     * RESUME, reads and discards the status byte and clears debug mode.
     */
    method Exit(arrived: bool, reply: seq<bool>)
      requires Valid() && |reply| == 8
      modifies this`inDebugMode, this`ddIsOutput, this`errorFlag, this`trace
      ensures Valid()
      ensures old(Debugging()) ==> Transacted([old(instr[T.Resume])], arrived, [reply]) && !inDebugMode
      ensures !old(Debugging()) ==> Refused()
    {
      if !ccActive {
        errorFlag := NotActive;
        return;
      }
      if !inDebugMode {
        errorFlag := NotDebugging;
        return;
      }
      var op := instr[T.Resume];
      ghost var t0, d0 := trace, ddIsOutput;
      Write(op);
      ghost var w1 := trace;
      Written1(t0, d0, op, w1);
      var status := AwaitReply(arrived, reply);
      TransactionCompose(t0, d0, [op], arrived, [reply], w1, trace);
      inDebugMode := false;
    }

    /** Reads the debug configuration byte (RD_CONFIG). */
    method GetConfig(arrived: bool, reply: seq<bool>) returns (config: bv8)
      requires Valid() && |reply| == 8
      modifies this`inDebugMode, this`ddIsOutput, this`errorFlag, this`trace
      ensures Valid()
      ensures old(Debugging()) ==>
                Transacted([old(instr[T.RdConfig])], arrived, [reply]) && inDebugMode == arrived
                && ShiftOut(config, 8) == reply
      ensures !old(Debugging()) ==> Refused() && config == 0
    {
      if !ccActive {
        errorFlag := NotActive;
        return 0;
      }
      if !inDebugMode {
        errorFlag := NotDebugging;
        return 0;
      }
      var op := instr[T.RdConfig];
      ghost var t0, d0 := trace, ddIsOutput;
      Write(op);
      ghost var w1 := trace;
      Written1(t0, d0, op, w1);
      config := AwaitReply(arrived, reply);
      TransactionCompose(t0, d0, [op], arrived, [reply], w1, trace);
    }

    /** Writes the debug configuration byte (WR_CONFIG) and returns the byte the target answers. */
    method SetConfig(config: bv8, arrived: bool, reply: seq<bool>) returns (answer: bv8)
      requires Valid() && |reply| == 8
      modifies this`inDebugMode, this`ddIsOutput, this`errorFlag, this`trace
      ensures Valid()
      ensures old(Debugging()) ==>
                Transacted([old(instr[T.WrConfig]), config], arrived, [reply]) && inDebugMode == arrived
                && ShiftOut(answer, 8) == reply
      ensures !old(Debugging()) ==> Refused() && answer == 0
    {
      if !ccActive {
        errorFlag := NotActive;
        return 0;
      }
      if !inDebugMode {
        errorFlag := NotDebugging;
        return 0;
      }
      var op := instr[T.WrConfig];
      ghost var t0, d0 := trace, ddIsOutput;
      Write(op);
      ghost var w1 := trace;
      Write(config);
      ghost var w2 := trace;
      Written2(t0, d0, op, config, w1, w2);
      answer := AwaitReply(arrived, reply);
      TransactionCompose(t0, d0, [op, config], arrived, [reply], w2, trace);
    }

    /** Runs an instruction of one opcode byte on the target and returns the accumulator. */
    method Exec(oc0: bv8, arrived: bool, reply: seq<bool>) returns (accumulator: bv8)
      requires Valid() && |reply| == 8
      modifies this`inDebugMode, this`ddIsOutput, this`errorFlag, this`trace
      ensures Valid()
      ensures old(Debugging()) ==>
                Transacted([old(instr[T.DebugInstr1]), oc0], arrived, [reply]) && inDebugMode == arrived
                && ShiftOut(accumulator, 8) == reply
      ensures !old(Debugging()) ==> Refused() && accumulator == 0
    {
      if !ccActive {
        errorFlag := NotActive;
        return 0;
      }
      if !inDebugMode {
        errorFlag := NotDebugging;
        return 0;
      }
      var op := instr[T.DebugInstr1];
      ghost var t0, d0 := trace, ddIsOutput;
      Write(op);
      ghost var w1 := trace;
      Write(oc0);
      ghost var w2 := trace;
      Written2(t0, d0, op, oc0, w1, w2);
      accumulator := AwaitReply(arrived, reply);
      TransactionCompose(t0, d0, [op, oc0], arrived, [reply], w2, trace);
    }

    /** Runs an instruction of two opcode bytes on the target and returns the accumulator. */
    method Exec2(oc0: bv8, oc1: bv8, arrived: bool, reply: seq<bool>) returns (accumulator: bv8)
      requires Valid() && |reply| == 8
      modifies this`inDebugMode, this`ddIsOutput, this`errorFlag, this`trace
      ensures Valid()
      ensures old(Debugging()) ==>
                Transacted([old(instr[T.DebugInstr2]), oc0, oc1], arrived, [reply]) && inDebugMode == arrived
                && ShiftOut(accumulator, 8) == reply
      ensures !old(Debugging()) ==> Refused() && accumulator == 0
    {
      if !ccActive {
        errorFlag := NotActive;
        return 0;
      }
      if !inDebugMode {
        errorFlag := NotDebugging;
        return 0;
      }
      var op := instr[T.DebugInstr2];
      ghost var t0, d0 := trace, ddIsOutput;
      Write(op);
      ghost var w1 := trace;
      Write(oc0);
      ghost var w2 := trace;
      Write(oc1);
      ghost var w3 := trace;
      Written3(t0, d0, op, oc0, oc1, w1, w2, w3);
      accumulator := AwaitReply(arrived, reply);
      TransactionCompose(t0, d0, [op, oc0, oc1], arrived, [reply], w3, trace);
    }

    /** Runs an instruction of three opcode bytes on the target and returns the accumulator. */
    method Exec3(oc0: bv8, oc1: bv8, oc2: bv8, arrived: bool, reply: seq<bool>) returns (accumulator: bv8)
      requires Valid() && |reply| == 8
      modifies this`inDebugMode, this`ddIsOutput, this`errorFlag, this`trace
      ensures Valid()
      ensures old(Debugging()) ==>
                Transacted([old(instr[T.DebugInstr3]), oc0, oc1, oc2], arrived, [reply]) && inDebugMode == arrived
                && ShiftOut(accumulator, 8) == reply
      ensures !old(Debugging()) ==> Refused() && accumulator == 0
    {
      if !ccActive {
        errorFlag := NotActive;
        return 0;
      }
      if !inDebugMode {
        errorFlag := NotDebugging;
        return 0;
      }
      var op := instr[T.DebugInstr3];
      ghost var t0, d0 := trace, ddIsOutput;
      Write(op);
      ghost var w1 := trace;
      Write(oc0);
      ghost var w2 := trace;
      Write(oc1);
      ghost var w3 := trace;
      Write(oc2);
      ghost var w4 := trace;
      Written4(t0, d0, op, oc0, oc1, oc2, w1, w2, w3, w4);
      accumulator := AwaitReply(arrived, reply);
      TransactionCompose(t0, d0, [op, oc0, oc1, oc2], arrived, [reply], w4, trace);
    }

    /** Runs an opcode byte with a 16-bit immediate, sent high-order byte first, and returns the accumulator. */
    method ExecI(oc0: bv8, c0: bv16, arrived: bool, reply: seq<bool>) returns (accumulator: bv8)
      requires Valid() && |reply| == 8
      modifies this`inDebugMode, this`ddIsOutput, this`errorFlag, this`trace
      ensures Valid()
      ensures old(Debugging()) ==>
                Transacted([old(instr[T.DebugInstr3]), oc0, HighByte(c0), LowByte(c0)], arrived, [reply]) && inDebugMode == arrived
                && ShiftOut(accumulator, 8) == reply
      ensures !old(Debugging()) ==> Refused() && accumulator == 0
    {
      if !ccActive {
        errorFlag := NotActive;
        return 0;
      }
      if !inDebugMode {
        errorFlag := NotDebugging;
        return 0;
      }
      var op := instr[T.DebugInstr3];
      ghost var t0, d0 := trace, ddIsOutput;
      Write(op);
      ghost var w1 := trace;
      Write(oc0);
      ghost var w2 := trace;
      Write(HighByte(c0));
      ghost var w3 := trace;
      Write(LowByte(c0));
      ghost var w4 := trace;
      Written4(t0, d0, op, oc0, HighByte(c0), LowByte(c0), w1, w2, w3, w4);
      accumulator := AwaitReply(arrived, reply);
      TransactionCompose(t0, d0, [op, oc0, HighByte(c0), LowByte(c0)], arrived, [reply], w4, trace);
    }

    /** Reads the 16-bit chip identifier, high-order byte first. */
    method GetChipID(arrived: bool, high: seq<bool>, low: seq<bool>) returns (value: bv16)
      requires Valid() && |high| == 8 && |low| == 8
      modifies this`inDebugMode, this`ddIsOutput, this`errorFlag, this`trace
      ensures Valid()
      ensures old(Debugging()) ==>
                Transacted([old(instr[T.GetChipId])], arrived, [high, low]) && inDebugMode == arrived
                && ShiftOut(HighByte(value), 8) == high && ShiftOut(LowByte(value), 8) == low
      ensures !old(Debugging()) ==> Refused() && value == 0
    {
      if !ccActive {
        errorFlag := NotActive;
        return 0;
      }
      if !inDebugMode {
        errorFlag := NotDebugging;
        return 0;
      }
      var op := instr[T.GetChipId];
      ghost var t0, d0 := trace, ddIsOutput;
      Write(op);
      ghost var w1 := trace;
      Written1(t0, d0, op, w1);
      value := AwaitWord(arrived, high, low);
      TransactionCompose(t0, d0, [op], arrived, [high, low], w1, trace);
    }

    /** Reads the 16-bit program counter, high-order byte first. */
    method GetPC(arrived: bool, high: seq<bool>, low: seq<bool>) returns (value: bv16)
      requires Valid() && |high| == 8 && |low| == 8
      modifies this`inDebugMode, this`ddIsOutput, this`errorFlag, this`trace
      ensures Valid()
      ensures old(Debugging()) ==>
                Transacted([old(instr[T.GetPc])], arrived, [high, low]) && inDebugMode == arrived
                && ShiftOut(HighByte(value), 8) == high && ShiftOut(LowByte(value), 8) == low
      ensures !old(Debugging()) ==> Refused() && value == 0
    {
      if !ccActive {
        errorFlag := NotActive;
        return 0;
      }
      if !inDebugMode {
        errorFlag := NotDebugging;
        return 0;
      }
      var op := instr[T.GetPc];
      ghost var t0, d0 := trace, ddIsOutput;
      Write(op);
      ghost var w1 := trace;
      Written1(t0, d0, op, w1);
      value := AwaitWord(arrived, high, low);
      TransactionCompose(t0, d0, [op], arrived, [high, low], w1, trace);
    }

    /** Reads the debug status byte (READ_STATUS). */
    method GetStatus(arrived: bool, reply: seq<bool>) returns (status: bv8)
      requires Valid() && |reply| == 8
      modifies this`inDebugMode, this`ddIsOutput, this`errorFlag, this`trace
      ensures Valid()
      ensures old(Debugging()) ==>
                Transacted([old(instr[T.ReadStatus])], arrived, [reply]) && inDebugMode == arrived
                && ShiftOut(status, 8) == reply
      ensures !old(Debugging()) ==> Refused() && status == 0
    {
      if !ccActive {
        errorFlag := NotActive;
        return 0;
      }
      if !inDebugMode {
        errorFlag := NotDebugging;
        return 0;
      }
      var op := instr[T.ReadStatus];
      ghost var t0, d0 := trace, ddIsOutput;
      Write(op);
      ghost var w1 := trace;
      Written1(t0, d0, op, w1);
      status := AwaitReply(arrived, reply);
      TransactionCompose(t0, d0, [op], arrived, [reply], w1, trace);
    }

    /** Steps one instruction on the target and returns the accumulator. */
    method Step(arrived: bool, reply: seq<bool>) returns (accumulator: bv8)
      requires Valid() && |reply| == 8
      modifies this`inDebugMode, this`ddIsOutput, this`errorFlag, this`trace
      ensures Valid()
      ensures old(Debugging()) ==>
                Transacted([old(instr[T.StepInstr])], arrived, [reply]) && inDebugMode == arrived
                && ShiftOut(accumulator, 8) == reply
      ensures !old(Debugging()) ==> Refused() && accumulator == 0
    {
      if !ccActive {
        errorFlag := NotActive;
        return 0;
      }
      if !inDebugMode {
        errorFlag := NotDebugging;
        return 0;
      }
      var op := instr[T.StepInstr];
      ghost var t0, d0 := trace, ddIsOutput;
      Write(op);
      ghost var w1 := trace;
      Written1(t0, d0, op, w1);
      accumulator := AwaitReply(arrived, reply);
      TransactionCompose(t0, d0, [op], arrived, [reply], w1, trace);
    }

    /** Resumes the target (RESUME) without leaving debug mode and returns the byte it answers. */
    method Resume(arrived: bool, reply: seq<bool>) returns (accumulator: bv8)
      requires Valid() && |reply| == 8
      modifies this`inDebugMode, this`ddIsOutput, this`errorFlag, this`trace
      ensures Valid()
      ensures old(Debugging()) ==>
                Transacted([old(instr[T.Resume])], arrived, [reply]) && inDebugMode == arrived
                && ShiftOut(accumulator, 8) == reply
      ensures !old(Debugging()) ==> Refused() && accumulator == 0
    {
      if !ccActive {
        errorFlag := NotActive;
        return 0;
      }
      if !inDebugMode {
        errorFlag := NotDebugging;
        return 0;
      }
      var op := instr[T.Resume];
      ghost var t0, d0 := trace, ddIsOutput;
      Write(op);
      ghost var w1 := trace;
      Written1(t0, d0, op, w1);
      accumulator := AwaitReply(arrived, reply);
      TransactionCompose(t0, d0, [op], arrived, [reply], w1, trace);
    }

    /** Halts the target (HALT) and returns the byte it answers. */
    method Halt(arrived: bool, reply: seq<bool>) returns (accumulator: bv8)
      requires Valid() && |reply| == 8
      modifies this`inDebugMode, this`ddIsOutput, this`errorFlag, this`trace
      ensures Valid()
      ensures old(Debugging()) ==>
                Transacted([old(instr[T.Halt])], arrived, [reply]) && inDebugMode == arrived
                && ShiftOut(accumulator, 8) == reply
      ensures !old(Debugging()) ==> Refused() && accumulator == 0
    {
      if !ccActive {
        errorFlag := NotActive;
        return 0;
      }
      if !inDebugMode {
        errorFlag := NotDebugging;
        return 0;
      }
      var op := instr[T.Halt];
      ghost var t0, d0 := trace, ddIsOutput;
      Write(op);
      ghost var w1 := trace;
      Written1(t0, d0, op, w1);
      accumulator := AwaitReply(arrived, reply);
      TransactionCompose(t0, d0, [op], arrived, [reply], w1, trace);
    }

    /** Mass-erases the target (CHIP_ERASE) and returns the debug status. */
    method ChipErase(arrived: bool, reply: seq<bool>) returns (status: bv8)
      requires Valid() && |reply| == 8
      modifies this`inDebugMode, this`ddIsOutput, this`errorFlag, this`trace
      ensures Valid()
      ensures old(Debugging()) ==>
                Transacted([old(instr[T.ChipErase])], arrived, [reply]) && inDebugMode == arrived
                && ShiftOut(status, 8) == reply
      ensures !old(Debugging()) ==> Refused() && status == 0
    {
      if !ccActive {
        errorFlag := NotActive;
        return 0;
      }
      if !inDebugMode {
        errorFlag := NotDebugging;
        return 0;
      }
      var op := instr[T.ChipErase];
      ghost var t0, d0 := trace, ddIsOutput;
      Write(op);
      ghost var w1 := trace;
      Written1(t0, d0, op, w1);
      status := AwaitReply(arrived, reply);
      TransactionCompose(t0, d0, [op], arrived, [reply], w1, trace);
    }

    /**
     * Replaces all sixteen opcodes and returns the new version (slot 0).
     * No session flag changes and no line is touched.
     */
    method UpdateInstructionTable(newTable: array<bv8>) returns (version: bv8)
      requires Valid() && newTable.Length == T.Size
      modifies instr
      ensures Valid() && unchanged(this)
      ensures instr[..] == old(newTable[..])
      ensures version == old(newTable[T.Version]) && version == instr[T.Version]
    {
      ghost var source := newTable[..];
      var i := 0;
      while i < T.Size
        invariant 0 <= i <= T.Size
        invariant forall k :: 0 <= k < i ==> instr[k] == source[k]
        invariant forall k :: i <= k < T.Size ==> newTable[k] == source[k]
      {
        instr[i] := newTable[i];
        i := i + 1;
      }
      version := instr[T.Version];
    }

    /** The version of the current opcode table (slot 0). */
    method GetInstructionTableVersion() returns (version: bv8)
      requires Valid()
      ensures version == instr[T.Version]
    {
      version := instr[T.Version];
    }
  }
}
