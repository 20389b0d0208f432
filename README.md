# CC-Debug driver model

A Dafny model of a bit-banged driver for Texas Instruments' two-wire
CC-Debug protocol, which the CC254x chips use. The driver controls three
GPIO lines:

- RST is the target's reset line.
- DC is the clock, driven by the host.
- DD is the data line. It is bidirectional and changes direction between
  command and reply.

The driver keeps one session with these fields:

- whether it owns the lines (`ccActive`);
- whether the target is in debug mode (`inDebugMode`);
- the direction it last requested for DD (`ddIsOutput`);
- the last error;
- a 16-slot opcode table. This table can be replaced at run time for
  compatible chips, and slot 0 holds its version.

Every debug instruction uses the same wire protocol:

1. Write the command bytes MSB first, one DD level per DC pulse.
2. Turn DD around and wait for the target to pull DD low (ready).
3. Clock eight more pulses.
4. Read the reply bytes MSB first.
5. Make DD an output again.

The model has five modules:

- `ByteCodec`: how one byte becomes eight DD levels and back. `bv8` stands
  for `uint8_t` and `bv16` for `unsigned short`, so shifts truncate as
  they do in C.
- `Wire`: the line events, and the event sequence that each protocol step
  produces. Lemmas state what a target observing DD and DC receives
  during each step. `Clocked` is the level DD holds at each rising DC edge
  while the driver drives DD; over a whole instruction it yields exactly
  the command bytes.
- `InstructionTable`: the slot indices and the default CC254x opcodes.
- `CCDebugger`: the session, a class whose methods update its fields in
  place, as the driver's functions update its globals.
  - A ghost field `trace` records every line event.
  - Each method states its new state and `trace == old(trace) + <fragment>`.
  - Inputs from the hardware are parameters:
    - `chipFound` says whether the GPIO controller opened;
    - `arrived` is true exactly when the call that waits for a falling
      edge on DD returns nonzero;
    - `reply`, `high` and `low` are the eight levels sampled while reading
      a byte.
- `Scenarios`: whole sessions run from a fresh process, as a client of the
  driver sees them.

In these places the model follows the code where a reader might expect
otherwise:

- The ready wait ignores its `maxWaitCycles` argument.
- `ddIsOutput` starts false, although initialisation requests DD as an
  output.
- The read operation checks only that the session is active, not that it
  is debugging.
- Deactivating while debugging clears `ccActive` before the exit from debug
  mode runs. That exit is then refused, so debug mode is not left; see
  Findings.

## Model

| member | source | states |
|---|---|---|
| `ByteCodec.ShiftOutMsbFirst` | CCDebugger.c:271-290 | the i-th DD level the write loop drives is bit 7-i of the byte |
| `ByteCodec.AssembleMsbFirst` | CCDebugger.c:374-387 | the read loop puts the i-th sampled level into bit 7-i of the result |
| `ByteCodec.AssembleShiftOut` | CCDebugger.c:374-387 | sampling the levels a byte was written as gives back that byte |
| `ByteCodec.ShiftOutAssemble` | CCDebugger.c:271-290 | writing the byte assembled from eight levels reproduces those levels, so levels and bytes correspond one to one |
| `ByteCodec.Word` | CCDebugger.c:616-619 | `(hi << 8) \| lo` in an unsigned short has `hi` as high byte and `lo` as low byte |
| `ByteCodec.WordOfBytes` | CCDebugger.c:586-589 | splitting a 16-bit value into `(c >> 8) & 0xFF` and `c & 0xFF` and joining them again gives the value back |
| `ByteCodec.WordOfReplies` | CCDebugger.c:614-620 | the 16-bit value built from two received bytes has as high and low byte exactly the two level sequences sampled |
| `Wire.DirectionTraceObserved` | CCDebugger.c:397-409 | changing DD's direction re-requests DD exactly once and keeping it re-requests nothing; neither pulses the clock |
| `Wire.DirectionTwice` | CCDebugger.c:397-409 | two direction requests in a row for the same direction re-request DD at most once |
| `Wire.WriteFrameObserved` | CCDebugger.c:271-290 | the write loop over n levels is 5n events with n clock pulses, drives exactly those levels on DD and samples nothing |
| `Wire.WriteTraceFraming` | CCDebugger.c:271-290 | writing a byte is 40 events in 8 groups (DD level, clock high, hold, clock low, hold); group i drives bit 7-i |
| `Wire.WriteA5` | CCDebugger.c:271-290 | writing 0xA5 drives the levels 1,0,1,0,0,1,0,1 |
| `Wire.EchoRoundTrip` | CCDebugger.c:359-388 | reading back the DD levels of a write yields the written byte |
| `Wire.ReadFrameObserved` | CCDebugger.c:374-387 | the read loop over n levels is 5n events with n clock pulses, samples exactly those levels and drives nothing on DD |
| `Wire.ReadyPulsesObserved` | CCDebugger.c:325-331 | the ready loop emits exactly n clock pulses and neither drives nor samples DD |
| `Wire.ReadyWaitObserved` | CCDebugger.c:322-341 | the ready wait pulses the clock 8 times when the edge wait returns nonzero and never when it returns zero |
| `Wire.CommandRoundTrip` | CCDebugger.c:546-568 | a target clocking in the DD levels of consecutive writes, eight at a time, recovers the command bytes in order |
| `Wire.ImmediateHighFirst` | CCDebugger.c:586-589 | the 16-bit immediate of an instruction is received high byte first, and the third and fourth bytes rebuild it |
| `Wire.WriteFrameClocked` | CCDebugger.c:271-290 | with DD an output, the target clocks in at the rising DC edges exactly the levels the write loop drives, and DD stays an output |
| `Wire.DirectionTraceClocked` | CCDebugger.c:397-409 | a direction change clocks nothing in and leaves DD in the requested direction |
| `Wire.TransactionObserved` | CCDebugger.c:253-409 | one whole instruction: the target clocks in exactly the command bytes, the driver samples exactly the reply levels, DC pulses 8 times per command byte, 8 more only when the edge wait returned nonzero and once per reply level, and DD ends as an output |
| `CCDebugger.Session.constructor` | CCDebugger.c:44-55 | a fresh process is inactive, not debugging, with DD marked input, no error and an all-zero table |
| `CCDebugger.Session.Init` | CCDebugger.c:93-157 | -1 and no change when the GPIO controller is missing; otherwise RST, DC and DD are requested as outputs, slots 0-12 get the CC254x opcodes, slots 13-15 are untouched, the session is active and the result is 1 |
| `CCDebugger.Session.SetActive` | CCDebugger.c:162-187 | corrected toggle: the error is cleared, and nothing else happens if the state is already the requested one. Activating re-requests all lines as outputs. Deactivating first leaves debug mode with a RESUME transaction, then releases the lines. |
| `CCDebugger.Session.SetActiveAsWritten` | CCDebugger.c:162-187 | toggle as written: deactivating while debugging sends nothing but the line release, keeps `inDebugMode` and ends with NotActive |
| `CCDebugger.Session.Error` | CCDebugger.c:192-195 | returns the last error |
| `CCDebugger.Session.Enter` | CCDebugger.c:216-248 | refused as NotActive when inactive; otherwise error cleared, the RST/DC handshake with delays 200, 40, 40, 85, 85, debug mode set |
| `CCDebugger.Session.SetDDDirection` | CCDebugger.c:393-411 | DD gets the requested direction; the trace gains one re-request of DD only when the direction changes |
| `CCDebugger.Session.Write` | CCDebugger.c:253-294 | refused (NotActive, then NotDebugging) with no other change; otherwise DD becomes an output and the byte is clocked out MSB first |
| `CCDebugger.Session.SwitchRead` | CCDebugger.c:299-345 | refused as above; otherwise DD becomes an input. If the edge wait returns nonzero: 8 pulses, a settle delay, debug mode and error kept. If it returns zero: NotWired and debug mode left. |
| `CCDebugger.Session.SwitchWrite` | CCDebugger.c:350-354 | DD becomes an output, with a re-request only if it was an input |
| `CCDebugger.Session.Read` | CCDebugger.c:359-388 | refused as NotActive only when inactive; otherwise DD becomes an input and the result is the eight sampled levels assembled MSB first |
| `CCDebugger.Session.AwaitReply` | CCDebugger.c:461-463 | ready wait, one reply byte read, DD back to output; the result is the byte whose MSB-first levels were sampled |
| `CCDebugger.Session.AwaitWord` | CCDebugger.c:614-620 | ready wait, two reply bytes read, DD back to output; the result's high and low bytes are the two bytes sampled |
| `CCDebugger.Session.Exit` | CCDebugger.c:423-444 | refused as a guarded operation; otherwise a RESUME transaction with one reply byte, after which debug mode is off |
| `CCDebugger.Session.GetConfig` | CCDebugger.c:448-466 | refused with result 0; otherwise an RD_CONFIG transaction, debug mode kept exactly when the edge wait returned nonzero, result the byte read |
| `CCDebugger.Session.SetConfig` | CCDebugger.c:471-490 | as GetConfig, with command WR_CONFIG followed by the configuration byte |
| `CCDebugger.Session.Exec` | CCDebugger.c:495-515 | as GetConfig, with command DEBUG_INSTR_1 followed by one opcode byte |
| `CCDebugger.Session.Exec2` | CCDebugger.c:520-541 | as GetConfig, with command DEBUG_INSTR_2 followed by two opcode bytes in order |
| `CCDebugger.Session.Exec3` | CCDebugger.c:546-568 | as GetConfig, with command DEBUG_INSTR_3 followed by three opcode bytes in order |
| `CCDebugger.Session.ExecI` | CCDebugger.c:573-595 | as GetConfig, with command DEBUG_INSTR_3, the opcode, then the immediate's high and low byte |
| `CCDebugger.Session.GetChipID` | CCDebugger.c:600-623 | refused with result 0; otherwise a GET_CHIP_ID transaction with two reply bytes, and the result is high byte first |
| `CCDebugger.Session.GetPC` | CCDebugger.c:628-650 | the same with the GET_PC opcode |
| `CCDebugger.Session.GetStatus` | CCDebugger.c:655-673 | as GetConfig, with the READ_STATUS opcode |
| `CCDebugger.Session.Step` | CCDebugger.c:678-696 | as GetConfig, with the STEP_INSTR opcode |
| `CCDebugger.Session.Resume` | CCDebugger.c:701-719 | as GetConfig, with the RESUME opcode; unlike Exit, debug mode is not cleared |
| `CCDebugger.Session.Halt` | CCDebugger.c:724-742 | as GetConfig, with the HALT opcode |
| `CCDebugger.Session.ChipErase` | CCDebugger.c:747-766 | as GetConfig, with the CHIP_ERASE opcode |
| `CCDebugger.Session.UpdateInstructionTable` | CCDebugger.c:771-778 | all 16 slots become the new table, even when the new table is the session's own array; the result is the new slot 0; no session field changes |
| `CCDebugger.Session.GetInstructionTableVersion` | CCDebugger.c:783-787 | returns slot 0 of the current table |
| `Scenarios.ReadChipId` | CCDebugger.c:600-623 | after init and enter, a target answering `hi`, `lo` yields the identifier `hi:lo` with no error |
| `Scenarios.StatusBeforeInit` | CCDebugger.c:655-663 | before initialisation a debug operation returns 0 with NotActive |
| `Scenarios.EnterThenExit` | CCDebugger.c:423-444 | enter then exit leaves the session active and not debugging; the error is NotWired exactly when the edge wait returned zero |
| `Scenarios.DeactivateWhileDebuggingAsWritten` | CCDebugger.c:162-187 | as written, deactivating a debugging session leaves it inactive, still marked debugging, with NotActive |
| `Scenarios.DeactivateWhileDebugging` | CCDebugger.c:162-187 | with the corrected toggle the session ends inactive and not debugging |
| `Scenarios.ReplaceTable` | CCDebugger.c:771-787 | after a table replacement both the update's result and the reported version are slot 0 of the new table |

## Left out

- GPIO plumbing: opening the chip by name, looking up lines by number, and
  the per-line success or failure of requesting them. Every line request
  is modelled as succeeding and recorded as an event. The pin-number
  arguments of `cc_init` are not part of this model.
- Timing: `cc_delay` and `nanosleep` are recorded as `Delay(units)` events
  and do not pass time. The bound written into the edge wait's event
  structure at CCDebugger.c:322 is not modelled; `arrived` is true exactly
  when the wait call at CCDebugger.c:323 returns nonzero, which includes
  its error return.
- Numeric error codes: the error is the enumeration `ErrorCode`.
- Logging with `printf` is not modelled.
- cc_chipid.c is not part of this model. It only parses arguments and calls
  `cc_init`; its chip-ID read is commented out, and `Scenarios.ReadChipId`
  plays that sequence instead.
- `CCDebugger.Session.SetActive`, `CCDebugger.Session.SetActiveAsWritten`:
  the model takes `on` as a boolean. A `uint8_t` other than 0 or 1 compares
  unequal to `cc_active` and would be stored as is; that case is not
  modelled.
- Constant results: `cc_write`, `cc_switchRead`, `cc_switchWrite`,
  `cc_enter` and `cc_exit` always return 0, and the model's methods return
  nothing.
- The reserved opcode slots 13-15 (hardware breakpoint, GET_BM, burst
  write) are carried in the table but never sent. The code has no
  operations for them.

## Findings

| source | as written | input that shows it | evidently intended | confidence | as-written member | corrected member |
|---|---|---|---|---|---|---|
| CCDebugger.c:169-181 | `cc_active = on` runs before `if (inDebugMode) cc_exit()`. `cc_exit` then finds the session inactive and returns NOT_ACTIVE. | `cc_init`, `cc_enter`, then `cc_setActive(0)`: no RESUME is sent, `inDebugMode` stays 1, and `cc_error()` is NOT_ACTIVE. | Leave debug mode (send RESUME, read the status byte) while still active, then release the lines. | not executed; follows from the code as written | `CCDebugger.Session.SetActiveAsWritten`, `Scenarios.DeactivateWhileDebuggingAsWritten` | `CCDebugger.Session.SetActive`, `Scenarios.DeactivateWhileDebugging` |
