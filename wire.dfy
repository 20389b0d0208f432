/**
 * Line-level view of the CC-Debug driver.
 *
 * The driver owns three GPIO lines: RST (target reset), DC (debug clock) and
 * DD (debug data, the only line whose direction changes). What it does to
 * them is recorded as a sequence of events; the functions below give the
 * event sequence of each protocol step, and the lemmas say what a target
 * watching the lines observes: clock pulses, the levels driven on DD, the
 * levels sampled from DD and the re-requests of DD.
 */
module Wire {
  import opened ByteCodec

  datatype Line = RST | DC | DD

  datatype Event =
    | Drive(line: Line, high: bool)   // set the level of a line
    | Sample(high: bool)              // read the level of DD
    | RequestOutput(line: Line)       // (re-)acquire a line as an output at LOW
    | RequestInput(line: Line)        // (re-)acquire a line as an input
    | EdgeWait(arrived: bool)         // wait for a falling edge on DD; whether it returned nonzero
    | Delay(units: nat)               // sleep, in the driver's delay unit

  /** Clock high and low hold time of the write loop. */
  const WriteHold: nat := 20
  /** Clock high and low hold time of the read loop and of the ready pulses. */
  const ReadHold: nat := 32
  /** Settle time after DD becomes an input, and before the first sample. */
  const Settle: nat := 32

  /** Number of clock pulses (DC driven high). */
  function ClockPulses(t: seq<Event>): (n: nat)
  {
    if t == [] then 0
    else (if t[0] == Drive(DC, true) then 1 else 0) + ClockPulses(t[1..])
  }

  /**
   * The levels driven on DD, in order, whether or not a clock edge follows
   * them: the LOW of a direction change counts too. Applied to a write
   * loop's events it is what the target clocks in.
   */
  function DataLevels(t: seq<Event>): (levels: seq<bool>)
  {
    if t == [] then []
    else (if t[0].Drive? && t[0].line == DD then [t[0].high] else []) + DataLevels(t[1..])
  }

  /** The levels sampled from DD, in order. */
  function Samples(t: seq<Event>): (levels: seq<bool>)
  {
    if t == [] then []
    else (if t[0].Sample? then [t[0].high] else []) + Samples(t[1..])
  }

  /** Number of times DD is re-requested, in either direction. */
  function DirectionRequests(t: seq<Event>): (n: nat)
  {
    if t == [] then 0
    else (if t[0] == RequestOutput(DD) || t[0] == RequestInput(DD) then 1 else 0)
         + DirectionRequests(t[1..])
  }

  /** Every observer distributes over concatenation. */
  lemma ObserversAppend(a: seq<Event>, b: seq<Event>)
    ensures ClockPulses(a + b) == ClockPulses(a) + ClockPulses(b)
    ensures DataLevels(a + b) == DataLevels(a) + DataLevels(b)
    ensures Samples(a + b) == Samples(a) + Samples(b)
    ensures DirectionRequests(a + b) == DirectionRequests(a) + DirectionRequests(b)
  {
    ClockPulsesAppend(a, b);
    DataLevelsAppend(a, b);
    SamplesAppend(a, b);
    DirectionRequestsAppend(a, b);
  }

  lemma {:induction false} ClockPulsesAppend(a: seq<Event>, b: seq<Event>)
    ensures ClockPulses(a + b) == ClockPulses(a) + ClockPulses(b)
    decreases |a|
  {
    if a == [] {
      assert a + b == b;
    } else {
      assert (a + b)[0] == a[0] && (a + b)[1..] == a[1..] + b;
      ClockPulsesAppend(a[1..], b);
    }
  }

  lemma {:induction false} DataLevelsAppend(a: seq<Event>, b: seq<Event>)
    ensures DataLevels(a + b) == DataLevels(a) + DataLevels(b)
    decreases |a|
  {
    if a == [] {
      assert a + b == b;
    } else {
      assert (a + b)[0] == a[0] && (a + b)[1..] == a[1..] + b;
      DataLevelsAppend(a[1..], b);
      var h := if a[0].Drive? && a[0].line == DD then [a[0].high] else [];
      assert h + (DataLevels(a[1..]) + DataLevels(b)) == (h + DataLevels(a[1..])) + DataLevels(b);
    }
  }

  lemma {:induction false} SamplesAppend(a: seq<Event>, b: seq<Event>)
    ensures Samples(a + b) == Samples(a) + Samples(b)
    decreases |a|
  {
    if a == [] {
      assert a + b == b;
    } else {
      assert (a + b)[0] == a[0] && (a + b)[1..] == a[1..] + b;
      SamplesAppend(a[1..], b);
      var h := if a[0].Sample? then [a[0].high] else [];
      assert h + (Samples(a[1..]) + Samples(b)) == (h + Samples(a[1..])) + Samples(b);
    }
  }

  lemma {:induction false} DirectionRequestsAppend(a: seq<Event>, b: seq<Event>)
    ensures DirectionRequests(a + b) == DirectionRequests(a) + DirectionRequests(b)
    decreases |a|
  {
    if a == [] {
      assert a + b == b;
    } else {
      assert (a + b)[0] == a[0] && (a + b)[1..] == a[1..] + b;
      DirectionRequestsAppend(a[1..], b);
    }
  }

  /**
   * Changing the direction of DD: nothing when it already has the requested
   * direction, otherwise DD is set LOW, re-requested and set LOW again.
   */
  function DirectionTrace(isOutput: bool, toOutput: bool): (events: seq<Event>)
  {
    if toOutput == isOutput then []
    else [Drive(DD, false), if toOutput then RequestOutput(DD) else RequestInput(DD), Drive(DD, false)]
  }

  /** One round of the write loop: DD level, clock high, hold, clock low, hold. */
  function BitGroup(level: bool): (events: seq<Event>)
  {
    [Drive(DD, level), Drive(DC, true), Delay(WriteHold), Drive(DC, false), Delay(WriteHold)]
  }

  function WriteFrame(levels: seq<bool>): (events: seq<Event>)
  {
    if levels == [] then [] else BitGroup(levels[0]) + WriteFrame(levels[1..])
  }

  /** The events of the write loop for byte `b` (after DD is an output). */
  function WriteTrace(b: bv8): (events: seq<Event>)
  {
    WriteFrame(ShiftOut(b, 8))
  }

  /** One round of the read loop: clock high, hold, sample DD, clock low, hold. */
  function SampleGroup(level: bool): (events: seq<Event>)
  {
    [Drive(DC, true), Delay(ReadHold), Sample(level), Drive(DC, false), Delay(ReadHold)]
  }

  /** The events of the read loop when DD is sampled at `levels` (after DD is an input). */
  function ReadFrame(levels: seq<bool>): (events: seq<Event>)
  {
    if levels == [] then [] else SampleGroup(levels[0]) + ReadFrame(levels[1..])
  }

  /** `n` clock pulses that let the target leave its busy window. */
  function ReadyPulses(n: nat): (events: seq<Event>)
  {
    if n == 0 then []
    else [Drive(DC, true), Delay(ReadHold), Drive(DC, false), Delay(ReadHold)] + ReadyPulses(n - 1)
  }

  /**
   * The ready wait after DD became an input: settle, wait for the falling
   * edge and, only when it arrived, eight pulses and one more settle delay.
   */
  function ReadyWait(arrived: bool): (events: seq<Event>)
  {
    [Delay(Settle), EdgeWait(arrived)] + if arrived then ReadyPulses(8) + [Delay(Settle)] else []
  }

  /** The reset/clock handshake that puts the target into debug mode. */
  function EnterSequence(): (events: seq<Event>)
  {
    [Drive(RST, false),
     Drive(DC, true), Delay(200), Drive(DC, false), Delay(40),
     Drive(DC, true), Delay(40), Drive(DC, false), Delay(85),
     Drive(RST, true), Delay(85)]
  }

  /** Write loops for several bytes, one after the other. */
  function WriteBytes(bytes: seq<bv8>): (events: seq<Event>)
  {
    if bytes == [] then [] else WriteTrace(bytes[0]) + WriteBytes(bytes[1..])
  }

  /** Read loops for several bytes, one after the other. */
  function ReadBytes(replies: seq<seq<bool>>): (events: seq<Event>)
  {
    if replies == [] then [] else ReadFrame(replies[0]) + ReadBytes(replies[1..])
  }

  /**
   * One debug instruction on the wire, starting with DD in direction
   * `isOutput`: DD becomes an output, the command bytes are written, DD
   * becomes an input, the ready wait runs, the reply bytes are read and DD
   * becomes an output again.
   */
  function Transaction(isOutput: bool, command: seq<bv8>, arrived: bool, replies: seq<seq<bool>>): (events: seq<Event>)
  {
    DirectionTrace(isOutput, true) + WriteBytes(command) + DirectionTrace(true, false)
    + ReadyWait(arrived) + ReadBytes(replies) + DirectionTrace(false, true)
  }

  /** The bytes a receiver clocks in from a sequence of DD levels, eight at a time. */
  function DecodeBytes(levels: seq<bool>): (bytes: seq<bv8>)
    decreases |levels|
  {
    if |levels| < 8 then [] else [Assemble(levels[..8])] + DecodeBytes(levels[8..])
  }

  /** A direction change re-requests DD exactly when the direction differs, and never pulses the clock. */
  lemma DirectionTraceObserved(isOutput: bool, toOutput: bool)
    ensures DirectionRequests(DirectionTrace(isOutput, toOutput)) == if isOutput == toOutput then 0 else 1
    ensures ClockPulses(DirectionTrace(isOutput, toOutput)) == 0
    ensures Samples(DirectionTrace(isOutput, toOutput)) == []
  {
    if isOutput != toOutput {
      var t := DirectionTrace(isOutput, toOutput);
      assert t == [t[0]] + ([t[1]] + [t[2]]);
      ObserversAppend([t[0]], [t[1]] + [t[2]]);
      ObserversAppend([t[1]], [t[2]]);
    }
  }

  /** Asking twice for the same direction re-requests DD at most once. */
  lemma DirectionTwice(isOutput: bool, toOutput: bool)
    ensures DirectionRequests(DirectionTrace(isOutput, toOutput) + DirectionTrace(toOutput, toOutput))
            == if isOutput == toOutput then 0 else 1
  {
    DirectionTraceObserved(isOutput, toOutput);
    assert DirectionTrace(toOutput, toOutput) == [];
    assert DirectionTrace(isOutput, toOutput) + [] == DirectionTrace(isOutput, toOutput);
  }

  /** One round of the write loop: one clock pulse, DD driven at `level`, nothing sampled. */
  lemma BitGroupObserved(level: bool)
    ensures ClockPulses(BitGroup(level)) == 1 && DataLevels(BitGroup(level)) == [level]
    ensures Samples(BitGroup(level)) == [] && DirectionRequests(BitGroup(level)) == 0
  {
    var g: seq<Event> := BitGroup(level);
    assert g[0..] == [g[0]] + g[1..];
    ObserversAppend([g[0]], g[1..]);
    assert g[1..] == [g[1]] + g[2..];
    ObserversAppend([g[1]], g[2..]);
    assert g[2..] == [g[2]] + g[3..];
    ObserversAppend([g[2]], g[3..]);
    assert g[3..] == [g[3]] + g[4..];
    ObserversAppend([g[3]], g[4..]);
    assert g[4..] == [g[4]];
    assert g[0..] == g;
  }

  /** One round of the read loop: one clock pulse, `level` sampled, nothing driven on DD. */
  lemma SampleGroupObserved(level: bool)
    ensures ClockPulses(SampleGroup(level)) == 1 && Samples(SampleGroup(level)) == [level]
    ensures DataLevels(SampleGroup(level)) == [] && DirectionRequests(SampleGroup(level)) == 0
  {
    var g: seq<Event> := SampleGroup(level);
    assert g[0..] == [g[0]] + g[1..];
    ObserversAppend([g[0]], g[1..]);
    assert g[1..] == [g[1]] + g[2..];
    ObserversAppend([g[1]], g[2..]);
    assert g[2..] == [g[2]] + g[3..];
    ObserversAppend([g[2]], g[3..]);
    assert g[3..] == [g[3]] + g[4..];
    ObserversAppend([g[3]], g[4..]);
    assert g[4..] == [g[4]];
    assert g[0..] == g;
  }

  /** One pulse of the ready loop: one clock pulse, DD neither driven nor sampled. */
  lemma PulseObserved()
    ensures ClockPulses(ReadyPulses(1)) == 1
    ensures DataLevels(ReadyPulses(1)) == [] && Samples(ReadyPulses(1)) == []
  {
    var g: seq<Event> := ReadyPulses(1);
    assert g[0..] == [g[0]] + g[1..];
    ObserversAppend([g[0]], g[1..]);
    assert g[1..] == [g[1]] + g[2..];
    ObserversAppend([g[1]], g[2..]);
    assert g[2..] == [g[2]] + g[3..];
    ObserversAppend([g[2]], g[3..]);
    assert g[3..] == [g[3]];
    assert g[0..] == g;
  }

  /** The write loop pulses the clock once per level and drives exactly those levels on DD. */
  lemma {:induction false} WriteFrameObserved(levels: seq<bool>)
    ensures |WriteFrame(levels)| == 5 * |levels|
    ensures ClockPulses(WriteFrame(levels)) == |levels|
    ensures DataLevels(WriteFrame(levels)) == levels
    ensures Samples(WriteFrame(levels)) == []
    ensures DirectionRequests(WriteFrame(levels)) == 0
    decreases |levels|
  {
    if levels != [] {
      WriteFrameObserved(levels[1..]);
      BitGroupObserved(levels[0]);
      ObserversAppend(BitGroup(levels[0]), WriteFrame(levels[1..]));
      assert [levels[0]] + levels[1..] == levels;
    }
  }

  /** The `i`-th group of five events of the write loop carries the `i`-th level. */
  lemma {:induction false} WriteFrameGroup(levels: seq<bool>, i: nat)
    requires i < |levels|
    ensures |WriteFrame(levels)| == 5 * |levels|
    ensures WriteFrame(levels)[5 * i .. 5 * i + 5] == BitGroup(levels[i])
    decreases |levels|
  {
    WriteFrameObserved(levels);
    if i > 0 {
      WriteFrameGroup(levels[1..], i - 1);
      var rest := WriteFrame(levels[1..]);
      assert WriteFrame(levels) == BitGroup(levels[0]) + rest;
      assert WriteFrame(levels)[5 * i .. 5 * i + 5] == rest[5 * (i - 1) .. 5 * (i - 1) + 5];
    }
  }

  /**
   * Writing a byte is eight groups (DD level, DC high, hold, DC low, hold);
   * the level of group `i` is bit `7 - i` of the byte.
   */
  lemma WriteTraceFraming(b: bv8, i: nat)
    requires i < 8
    ensures |WriteTrace(b)| == 40 && ClockPulses(WriteTrace(b)) == 8
    ensures |DataLevels(WriteTrace(b))| == 8
    ensures WriteTrace(b)[5 * i .. 5 * i + 5] == BitGroup(Bit(b, 7 - i))
    ensures DataLevels(WriteTrace(b))[i] == Bit(b, 7 - i)
  {
    WriteFrameObserved(ShiftOut(b, 8));
    WriteFrameGroup(ShiftOut(b, 8), i);
    ShiftOutMsbFirst(b, 8, i);
  }

  /** The byte 0xA5 goes out as the levels 1,0,1,0,0,1,0,1. */
  lemma WriteA5()
    ensures DataLevels(WriteTrace(0xA5)) == [true, false, true, false, false, true, false, true]
  {
    var levels := ShiftOut(0xA5, 8);
    WriteFrameObserved(levels);
    forall i | 0 <= i < 8
      ensures levels[i] == Bit(0xA5, 7 - i)
    {
      ShiftOutMsbFirst(0xA5, 8, i);
    }
    assert levels == [Bit(0xA5, 7), Bit(0xA5, 6), Bit(0xA5, 5), Bit(0xA5, 4),
                      Bit(0xA5, 3), Bit(0xA5, 2), Bit(0xA5, 1), Bit(0xA5, 0)];
  }

  /** A receiver sampling the levels the write loop drives recovers the byte. */
  lemma EchoRoundTrip(b: bv8)
    ensures Assemble(DataLevels(WriteTrace(b))) == b
  {
    WriteFrameObserved(ShiftOut(b, 8));
    AssembleShiftOut(b);
  }

  /** The read loop pulses the clock once per sample and samples exactly `levels`. */
  lemma {:induction false} ReadFrameObserved(levels: seq<bool>)
    ensures |ReadFrame(levels)| == 5 * |levels|
    ensures ClockPulses(ReadFrame(levels)) == |levels|
    ensures Samples(ReadFrame(levels)) == levels
    ensures DataLevels(ReadFrame(levels)) == []
    ensures DirectionRequests(ReadFrame(levels)) == 0
    decreases |levels|
  {
    if levels != [] {
      ReadFrameObserved(levels[1..]);
      SampleGroupObserved(levels[0]);
      ObserversAppend(SampleGroup(levels[0]), ReadFrame(levels[1..]));
      assert [levels[0]] + levels[1..] == levels;
    }
  }

  lemma {:induction false} ReadyPulsesObserved(n: nat)
    ensures ClockPulses(ReadyPulses(n)) == n
    ensures DataLevels(ReadyPulses(n)) == [] && Samples(ReadyPulses(n)) == []
    decreases n
  {
    if n > 0 {
      ReadyPulsesObserved(n - 1);
      PulseObserved();
      assert ReadyPulses(n) == ReadyPulses(1) + ReadyPulses(n - 1);
      ObserversAppend(ReadyPulses(1), ReadyPulses(n - 1));
    }
  }

  /**
   * The ready wait pulses the clock eight times when the edge wait returned
   * nonzero and not at all otherwise; it never drives or samples DD.
   */
  lemma ReadyWaitObserved(arrived: bool)
    ensures ClockPulses(ReadyWait(arrived)) == if arrived then 8 else 0
    ensures DataLevels(ReadyWait(arrived)) == [] && Samples(ReadyWait(arrived)) == []
  {
    var head: seq<Event> := [Delay(Settle), EdgeWait(arrived)];
    assert head == [head[0]] + [head[1]];
    ObserversAppend([head[0]], [head[1]]);
    if arrived {
      ReadyPulsesObserved(8);
      ObserversAppend(ReadyPulses(8), [Delay(Settle)]);
      ObserversAppend(head, ReadyPulses(8) + [Delay(Settle)]);
    } else {
      assert ReadyWait(arrived) == head;
    }
  }

  /** A receiver clocking in the DD levels of a command, eight at a time, recovers the command. */
  lemma {:induction false} CommandRoundTrip(command: seq<bv8>)
    ensures DecodeBytes(DataLevels(WriteBytes(command))) == command
    decreases |command|
  {
    if command != [] {
      FirstByteLevels(command);
      DecodeFirst(command[0], DataLevels(WriteBytes(command[1..])));
      CommandRoundTrip(command[1..]);
      assert [command[0]] + command[1..] == command;
    }
  }

  /** The DD levels of a command start with the eight levels of its first byte. */
  lemma FirstByteLevels(command: seq<bv8>)
    requires command != []
    ensures DataLevels(WriteBytes(command)) == ShiftOut(command[0], 8) + DataLevels(WriteBytes(command[1..]))
  {
    WriteFrameObserved(ShiftOut(command[0], 8));
    ObserversAppend(WriteTrace(command[0]), WriteBytes(command[1..]));
  }

  /** Decoding levels that start with a byte's eight levels yields that byte first. */
  lemma DecodeFirst(b: bv8, rest: seq<bool>)
    ensures DecodeBytes(ShiftOut(b, 8) + rest) == [b] + DecodeBytes(rest)
  {
    var levels := ShiftOut(b, 8) + rest;
    assert levels[..8] == ShiftOut(b, 8);
    assert levels[8..] == rest;
    AssembleShiftOut(b);
  }

  /**
   * The command of an instruction with a 16-bit immediate carries the
   * immediate high-order byte first: a receiver that decodes the DD levels
   * finds the opcode, the instruction byte and then the immediate, which
   * the third and fourth bytes rebuild.
   */
  lemma ImmediateHighFirst(op: bv8, oc0: bv8, c0: bv16)
    ensures var received := DecodeBytes(DataLevels(WriteBytes([op, oc0, HighByte(c0), LowByte(c0)])));
            |received| == 4 && received[0] == op && received[1] == oc0 && Word(received[2], received[3]) == c0
  {
    CommandRoundTrip([op, oc0, HighByte(c0), LowByte(c0)]);
    WordOfBytes(c0);
  }

  /**
   * DD as the driver has left it: whether it is an output, and the level
   * last driven on it.
   */
  datatype DdState = DdState(output: bool, level: bool)

  /** How one event changes DD's direction and driven level. */
  function Next(s: DdState, e: Event): (s': DdState)
    ensures e.Drive? && e.line == DD ==> s' == s.(level := e.high)
    ensures e == RequestOutput(DD) ==> s' == DdState(true, false)
    ensures e == RequestInput(DD) ==> !s'.output
    ensures !(e.Drive? && e.line == DD) && !e.RequestOutput? && !e.RequestInput? ==> s' == s
  {
    match e
    case Drive(line, high) => if line == DD then s.(level := high) else s
    case RequestOutput(line) => if line == DD then DdState(true, false) else s
    case RequestInput(line) => if line == DD then s.(output := false) else s
    case _ => s
  }

  /** DD's state after the events `t`, starting from `s`. */
  function After(t: seq<Event>, s: DdState): (s': DdState)
  {
    if t == [] then s else After(t[1..], Next(s, t[0]))
  }

  /**
   * What the target clocks in from the driver: at every rising DC edge at
   * which the driver holds DD as an output, the level DD is driven at.
   * Rising edges while DD is an input (the ready pulses, the read loop)
   * contribute nothing, since there the target drives DD.
   */
  function Clocked(t: seq<Event>, s: DdState): (levels: seq<bool>)
  {
    if t == [] then []
    else (if t[0] == Drive(DC, true) && s.output then [s.level] else []) + Clocked(t[1..], Next(s, t[0]))
  }

  /** Clocking in is additive over consecutive steps, each starting where the last one left DD. */
  lemma {:induction false} ClockedAppend(a: seq<Event>, b: seq<Event>, s: DdState)
    ensures Clocked(a + b, s) == Clocked(a, s) + Clocked(b, After(a, s))
    ensures After(a + b, s) == After(b, After(a, s))
    decreases |a|
  {
    if a == [] {
      assert a + b == b;
    } else {
      assert (a + b)[0] == a[0] && (a + b)[1..] == a[1..] + b;
      ClockedAppend(a[1..], b, Next(s, a[0]));
      var h := if a[0] == Drive(DC, true) && s.output then [s.level] else [];
      assert h + (Clocked(a[1..], Next(s, a[0])) + Clocked(b, After(a, s)))
          == (h + Clocked(a[1..], Next(s, a[0]))) + Clocked(b, After(a, s));
    }
  }

  /** The first event of a step, unfolded. */
  lemma ClockedCons(e: Event, t: seq<Event>, s: DdState)
    ensures Clocked([e] + t, s) == (if e == Drive(DC, true) && s.output then [s.level] else []) + Clocked(t, Next(s, e))
    ensures After([e] + t, s) == After(t, Next(s, e))
  {
    assert ([e] + t)[0] == e && ([e] + t)[1..] == t;
  }

  /** One write-loop round with DD an output clocks in exactly its level. */
  lemma BitGroupClocked(level: bool, s: DdState)
    requires s.output
    ensures Clocked(BitGroup(level), s) == [level] && After(BitGroup(level), s) == DdState(true, level)
  {
    var s1 := s.(level := level);
    var t3: seq<Event> := [Drive(DC, false), Delay(WriteHold)];
    var t2: seq<Event> := [Delay(WriteHold)] + t3;
    var t1: seq<Event> := [Drive(DC, true)] + t2;
    assert BitGroup(level) == [Drive(DD, level)] + t1;
    ClockedCons(Drive(DD, level), t1, s);
    ClockedCons(Drive(DC, true), t2, s1);
    ClockedCons(Delay(WriteHold), t3, s1);
    ClockedCons(Drive(DC, false), [Delay(WriteHold)], s1);
    ClockedCons(Delay(WriteHold), [], s1);
    assert [Delay(WriteHold)] + [] == [Delay(WriteHold)];
  }

  /** The write loop with DD an output clocks in exactly the levels it drives, and DD stays an output. */
  lemma {:induction false} WriteFrameClocked(levels: seq<bool>, s: DdState)
    requires s.output
    ensures Clocked(WriteFrame(levels), s) == levels && After(WriteFrame(levels), s).output
    decreases |levels|
  {
    if levels != [] {
      BitGroupClocked(levels[0], s);
      ClockedAppend(BitGroup(levels[0]), WriteFrame(levels[1..]), s);
      WriteFrameClocked(levels[1..], DdState(true, levels[0]));
      assert [levels[0]] + levels[1..] == levels;
    }
  }

  /**
   * Consecutive write loops with DD an output clock in exactly the levels
   * they drive on DD, and DD stays an output.
   */
  lemma {:induction false} WriteBytesClocked(bytes: seq<bv8>, s: DdState)
    requires s.output
    ensures Clocked(WriteBytes(bytes), s) == DataLevels(WriteBytes(bytes))
    ensures After(WriteBytes(bytes), s).output
    decreases |bytes|
  {
    if bytes != [] {
      var w := WriteTrace(bytes[0]);
      WriteFrameClocked(ShiftOut(bytes[0], 8), s);
      WriteFrameObserved(ShiftOut(bytes[0], 8));
      ClockedAppend(w, WriteBytes(bytes[1..]), s);
      ObserversAppend(w, WriteBytes(bytes[1..]));
      WriteBytesClocked(bytes[1..], After(w, s));
    }
  }

  /** A direction change clocks nothing in and leaves DD in the requested direction. */
  lemma DirectionTraceClocked(isOutput: bool, toOutput: bool, s: DdState)
    requires s.output == isOutput
    ensures Clocked(DirectionTrace(isOutput, toOutput), s) == []
    ensures After(DirectionTrace(isOutput, toOutput), s).output == toOutput
  {
    if isOutput != toOutput {
      var request := if toOutput then RequestOutput(DD) else RequestInput(DD);
      var s1 := s.(level := false);
      assert DirectionTrace(isOutput, toOutput) == [Drive(DD, false)] + ([request] + [Drive(DD, false)]);
      ClockedCons(Drive(DD, false), [request] + [Drive(DD, false)], s);
      ClockedCons(request, [Drive(DD, false)], s1);
      ClockedCons(Drive(DD, false), [], Next(s1, request));
      assert [Drive(DD, false)] + [] == [Drive(DD, false)];
    }
  }

  /** Events that never request DD as an output. */
  predicate Listening(t: seq<Event>)
  {
    forall i :: 0 <= i < |t| ==> t[i] != RequestOutput(DD)
  }

  /** While DD is an input and is not re-requested as an output, nothing is clocked in. */
  lemma {:induction false} ListeningClocked(t: seq<Event>, s: DdState)
    requires !s.output && Listening(t)
    ensures Clocked(t, s) == [] && !After(t, s).output
    decreases |t|
  {
    if t != [] {
      assert Listening(t[1..]) by {
        forall i | 0 <= i < |t[1..]| ensures t[1..][i] != RequestOutput(DD) {
          assert t[1..][i] == t[i + 1];
        }
      }
      ListeningClocked(t[1..], Next(s, t[0]));
    }
  }

  lemma ListeningAppend(a: seq<Event>, b: seq<Event>)
    requires Listening(a) && Listening(b)
    ensures Listening(a + b)
  {
    forall i | 0 <= i < |a + b| ensures (a + b)[i] != RequestOutput(DD) {
      if i >= |a| {
        assert (a + b)[i] == b[i - |a|];
      }
    }
  }

  /** The read loops, the ready wait and the turn to input never request DD as an output. */
  lemma {:induction false} ReadBytesListening(replies: seq<seq<bool>>)
    ensures Listening(ReadBytes(replies))
    decreases |replies|
  {
    if replies != [] {
      ReadFrameListening(replies[0]);
      ReadBytesListening(replies[1..]);
      ListeningAppend(ReadFrame(replies[0]), ReadBytes(replies[1..]));
    }
  }

  lemma {:induction false} ReadFrameListening(levels: seq<bool>)
    ensures Listening(ReadFrame(levels))
    decreases |levels|
  {
    if levels != [] {
      ReadFrameListening(levels[1..]);
      ListeningAppend(SampleGroup(levels[0]), ReadFrame(levels[1..]));
    }
  }

  lemma {:induction false} ReadyPulsesListening(n: nat)
    ensures Listening(ReadyPulses(n))
    decreases n
  {
    if n > 0 {
      ReadyPulsesListening(n - 1);
      ListeningAppend(ReadyPulses(1), ReadyPulses(n - 1));
      assert ReadyPulses(n) == ReadyPulses(1) + ReadyPulses(n - 1);
    }
  }

  lemma ReadyWaitListening(arrived: bool)
    ensures Listening(ReadyWait(arrived))
  {
    ReadyPulsesListening(8);
    ListeningAppend(ReadyPulses(8), [Delay(Settle)]);
    ListeningAppend([Delay(Settle), EdgeWait(arrived)], if arrived then ReadyPulses(8) + [Delay(Settle)] else []);
  }

  /** The reply levels of several read loops, one after the other. */
  function Joined(replies: seq<seq<bool>>): (levels: seq<bool>)
  {
    if replies == [] then [] else replies[0] + Joined(replies[1..])
  }

  /** Write loops pulse the clock eight times per byte and sample nothing. */
  lemma {:induction false} WriteBytesObserved(bytes: seq<bv8>)
    ensures ClockPulses(WriteBytes(bytes)) == 8 * |bytes| && Samples(WriteBytes(bytes)) == []
    decreases |bytes|
  {
    if bytes != [] {
      WriteFrameObserved(ShiftOut(bytes[0], 8));
      WriteBytesObserved(bytes[1..]);
      ObserversAppend(WriteTrace(bytes[0]), WriteBytes(bytes[1..]));
    }
  }

  /** Read loops pulse the clock once per level read and sample exactly the replies, in order. */
  lemma {:induction false} ReadBytesObserved(replies: seq<seq<bool>>)
    ensures ClockPulses(ReadBytes(replies)) == |Joined(replies)| && Samples(ReadBytes(replies)) == Joined(replies)
    decreases |replies|
  {
    if replies != [] {
      ReadFrameObserved(replies[0]);
      ReadBytesObserved(replies[1..]);
      ObserversAppend(ReadFrame(replies[0]), ReadBytes(replies[1..]));
    }
  }

  /**
   * One debug instruction as the target sees it: it clocks in exactly the
   * command bytes, the driver samples exactly the reply levels, the clock
   * pulses eight times per command byte, eight more times only when the
   * ready wait found an edge, and once per reply level, and DD is an output
   * again at the end.
   */
  lemma TransactionObserved(isOutput: bool, command: seq<bv8>, arrived: bool, replies: seq<seq<bool>>, s: DdState)
    requires s.output == isOutput
    ensures DecodeBytes(Clocked(Transaction(isOutput, command, arrived, replies), s)) == command
    ensures Samples(Transaction(isOutput, command, arrived, replies)) == Joined(replies)
    ensures ClockPulses(Transaction(isOutput, command, arrived, replies))
         == 8 * |command| + (if arrived then 8 else 0) + |Joined(replies)|
    ensures After(Transaction(isOutput, command, arrived, replies), s).output
  {
    TransactionClocked(isOutput, command, arrived, replies, s);
    CommandRoundTrip(command);
    TransactionCounts(isOutput, command, arrived, replies);
  }

  /** Stage by stage: only the write loops clock anything in, since DD is an input from the turn to input on. */
  lemma TransactionClocked(isOutput: bool, command: seq<bv8>, arrived: bool, replies: seq<seq<bool>>, s: DdState)
    requires s.output == isOutput
    ensures Clocked(Transaction(isOutput, command, arrived, replies), s) == DataLevels(WriteBytes(command))
    ensures After(Transaction(isOutput, command, arrived, replies), s).output
  {
    var d0, w, d1 := DirectionTrace(isOutput, true), WriteBytes(command), DirectionTrace(true, false);
    var r, rb, d2 := ReadyWait(arrived), ReadBytes(replies), DirectionTrace(false, true);
    DirectionTraceClocked(isOutput, true, s);
    WriteBytesClocked(command, After(d0, s));
    ClockedAppend(d0, w, s);
    DirectionTraceClocked(true, false, After(d0 + w, s));
    ClockedAppend(d0 + w, d1, s);
    ReadyWaitListening(arrived);
    ListeningClocked(r, After(d0 + w + d1, s));
    ClockedAppend(d0 + w + d1, r, s);
    ReadBytesListening(replies);
    ListeningClocked(rb, After(d0 + w + d1 + r, s));
    ClockedAppend(d0 + w + d1 + r, rb, s);
    DirectionTraceClocked(false, true, After(d0 + w + d1 + r + rb, s));
    ClockedAppend(d0 + w + d1 + r + rb, d2, s);
  }

  /** Stage by stage: the samples and clock pulses of one instruction. */
  lemma TransactionCounts(isOutput: bool, command: seq<bv8>, arrived: bool, replies: seq<seq<bool>>)
    ensures Samples(Transaction(isOutput, command, arrived, replies)) == Joined(replies)
    ensures ClockPulses(Transaction(isOutput, command, arrived, replies))
         == 8 * |command| + (if arrived then 8 else 0) + |Joined(replies)|
  {
    var d0, w, d1 := DirectionTrace(isOutput, true), WriteBytes(command), DirectionTrace(true, false);
    var r, rb, d2 := ReadyWait(arrived), ReadBytes(replies), DirectionTrace(false, true);
    DirectionTraceObserved(isOutput, true);
    DirectionTraceObserved(true, false);
    DirectionTraceObserved(false, true);
    WriteBytesObserved(command);
    ReadyWaitObserved(arrived);
    ReadBytesObserved(replies);
    ObserversAppend(d0, w);
    ObserversAppend(d0 + w, d1);
    ObserversAppend(d0 + w + d1, r);
    ObserversAppend(d0 + w + d1 + r, rb);
    ObserversAppend(d0 + w + d1 + r + rb, d2);
  }


  /** One round of the write loop, unfolded. */
  lemma WriteFrameStep(data: bv8, n: nat)
    requires n > 0
    ensures WriteFrame(ShiftOut(data, n)) == BitGroup(data & 0x80 != 0) + WriteFrame(ShiftOut(data << 1, n - 1))
  {
    var levels := ShiftOut(data, n);
    assert levels[0] == (data & 0x80 != 0);
    assert levels[1..] == ShiftOut(data << 1, n - 1);
  }

  /** One round of the read loop, unfolded. */
  lemma ReadFrameStep(levels: seq<bool>, i: nat)
    requires i < |levels|
    ensures ReadFrame(levels[i..]) == SampleGroup(levels[i]) + ReadFrame(levels[i + 1..])
  {
    assert levels[i..][0] == levels[i];
    assert levels[i..][1..] == levels[i + 1..];
  }

  /** Write loops of one byte more. */
  lemma {:induction false} WriteBytesSnoc(bytes: seq<bv8>, b: bv8)
    ensures WriteBytes(bytes + [b]) == WriteBytes(bytes) + WriteTrace(b)
    decreases |bytes|
  {
    if bytes == [] {
      assert bytes + [b] == [b];
      assert [b][1..] == [];
    } else {
      assert (bytes + [b])[0] == bytes[0];
      assert (bytes + [b])[1..] == bytes[1..] + [b];
      WriteBytesSnoc(bytes[1..], b);
    }
  }

  /** Read loops of one byte more. */
  lemma {:induction false} ReadBytesSnoc(replies: seq<seq<bool>>, r: seq<bool>)
    ensures ReadBytes(replies + [r]) == ReadBytes(replies) + ReadFrame(r)
    decreases |replies|
  {
    if replies == [] {
      assert replies + [r] == [r];
      assert [r][1..] == [];
    } else {
      assert (replies + [r])[0] == replies[0];
      assert (replies + [r])[1..] == replies[1..] + [r];
      ReadBytesSnoc(replies[1..], r);
    }
  }

  lemma AppendAssoc(a: seq<Event>, b: seq<Event>, c: seq<Event>)
    ensures a + (b + c) == (a + b) + c
  {
  }

  lemma WriteBytesOne(a: bv8)
    ensures WriteBytes([a]) == WriteTrace(a)
  {
    assert [a][1..] == [];
  }

  lemma ReadBytesOne(r: seq<bool>)
    ensures ReadBytes([r]) == ReadFrame(r)
  {
    assert [r][1..] == [];
  }

  /** A transaction appended to a trace, split into the pieces the driver produces. */
  lemma TransactionUnfold(t: seq<Event>, isOutput: bool, command: seq<bv8>, arrived: bool, replies: seq<seq<bool>>)
    ensures t + Transaction(isOutput, command, arrived, replies)
            == t + DirectionTrace(isOutput, true) + WriteBytes(command) + DirectionTrace(true, false)
               + ReadyWait(arrived) + ReadBytes(replies) + DirectionTrace(false, true)
  {
    var a, b, c := DirectionTrace(isOutput, true), WriteBytes(command), DirectionTrace(true, false);
    var d, e, f := ReadyWait(arrived), ReadBytes(replies), DirectionTrace(false, true);
    AppendAssoc(t, a + b + c + d + e, f);
    AppendAssoc(t, a + b + c + d, e);
    AppendAssoc(t, a + b + c, d);
    AppendAssoc(t, a + b, c);
    AppendAssoc(t, a, b);
  }

  /**
   * A transaction assembled from the two stages the driver runs: the command
   * written with DD as an output, then the ready wait and the replies read
   * with DD as an input, after which DD is an output again.
   */
  lemma TransactionCompose(t0: seq<Event>, isOutput: bool, command: seq<bv8>, arrived: bool,
                           replies: seq<seq<bool>>, written: seq<Event>, done: seq<Event>)
    requires written == t0 + DirectionTrace(isOutput, true) + WriteBytes(command)
    requires done == written + DirectionTrace(true, false) + ReadyWait(arrived) + ReadBytes(replies)
                     + DirectionTrace(false, true)
    ensures done == t0 + Transaction(isOutput, command, arrived, replies)
  {
    TransactionUnfold(t0, isOutput, command, arrived, replies);
  }

  /** Write loops of one byte more, appended to a trace. */
  lemma WriteBytesPush(t: seq<Event>, sent: seq<bv8>, b: bv8)
    ensures t + WriteBytes(sent + [b]) == t + WriteBytes(sent) + WriteTrace(b)
  {
    WriteBytesSnoc(sent, b);
    AppendAssoc(t, WriteBytes(sent), WriteTrace(b));
  }

  /** Write loops of a command of one to four bytes, appended one at a time. */
  lemma WriteBytes1(t: seq<Event>, a: bv8)
    ensures t + WriteBytes([a]) == t + WriteTrace(a)
  {
    WriteBytesOne(a);
  }

  lemma WriteBytes2(t: seq<Event>, a: bv8, b: bv8)
    ensures t + WriteBytes([a, b]) == t + WriteTrace(a) + WriteTrace(b)
  {
    WriteBytes1(t, a);
    WriteBytesPush(t, [a], b);
    assert [a] + [b] == [a, b];
  }

  lemma WriteBytes3(t: seq<Event>, a: bv8, b: bv8, c: bv8)
    ensures t + WriteBytes([a, b, c]) == t + WriteTrace(a) + WriteTrace(b) + WriteTrace(c)
  {
    WriteBytes2(t, a, b);
    WriteBytesPush(t, [a, b], c);
    assert [a, b] + [c] == [a, b, c];
  }

  lemma WriteBytes4(t: seq<Event>, a: bv8, b: bv8, c: bv8, d: bv8)
    ensures t + WriteBytes([a, b, c, d]) == t + WriteTrace(a) + WriteTrace(b) + WriteTrace(c) + WriteTrace(d)
  {
    WriteBytes3(t, a, b, c);
    WriteBytesPush(t, [a, b, c], d);
    assert [a, b, c] + [d] == [a, b, c, d];
  }

  /** Read loops of a reply of one or two bytes, appended one at a time. */
  lemma ReadBytes1(t: seq<Event>, r: seq<bool>)
    ensures t + ReadBytes([r]) == t + ReadFrame(r)
  {
    ReadBytesOne(r);
  }

  lemma ReadBytes2(t: seq<Event>, r: seq<bool>, q: seq<bool>)
    ensures t + ReadBytes([r, q]) == t + ReadFrame(r) + ReadFrame(q)
  {
    ReadBytes1(t, r);
    ReadBytesSnoc([r], q);
    AppendAssoc(t, ReadBytes([r]), ReadFrame(q));
    assert [r] + [q] == [r, q];
  }
  /**
   * The trace after the driver's consecutive write calls for a command of
   * one to four bytes: only the first may re-request DD as an output.
   */
  lemma Written1(t: seq<Event>, isOutput: bool, a: bv8, w1: seq<Event>)
    requires w1 == t + DirectionTrace(isOutput, true) + WriteTrace(a)
    ensures w1 == t + DirectionTrace(isOutput, true) + WriteBytes([a])
  {
    WriteBytes1(t + DirectionTrace(isOutput, true), a);
  }

  lemma Written2(t: seq<Event>, isOutput: bool, a: bv8, b: bv8, w1: seq<Event>, w2: seq<Event>)
    requires w1 == t + DirectionTrace(isOutput, true) + WriteTrace(a)
    requires w2 == w1 + DirectionTrace(true, true) + WriteTrace(b)
    ensures w2 == t + DirectionTrace(isOutput, true) + WriteBytes([a, b])
  {
    assert w1 + DirectionTrace(true, true) == w1;
    WriteBytes2(t + DirectionTrace(isOutput, true), a, b);
  }

  lemma Written3(t: seq<Event>, isOutput: bool, a: bv8, b: bv8, c: bv8,
                 w1: seq<Event>, w2: seq<Event>, w3: seq<Event>)
    requires w1 == t + DirectionTrace(isOutput, true) + WriteTrace(a)
    requires w2 == w1 + DirectionTrace(true, true) + WriteTrace(b)
    requires w3 == w2 + DirectionTrace(true, true) + WriteTrace(c)
    ensures w3 == t + DirectionTrace(isOutput, true) + WriteBytes([a, b, c])
  {
    assert w1 + DirectionTrace(true, true) == w1;
    assert w2 + DirectionTrace(true, true) == w2;
    WriteBytes3(t + DirectionTrace(isOutput, true), a, b, c);
  }

  lemma Written4(t: seq<Event>, isOutput: bool, a: bv8, b: bv8, c: bv8, d: bv8,
                 w1: seq<Event>, w2: seq<Event>, w3: seq<Event>, w4: seq<Event>)
    requires w1 == t + DirectionTrace(isOutput, true) + WriteTrace(a)
    requires w2 == w1 + DirectionTrace(true, true) + WriteTrace(b)
    requires w3 == w2 + DirectionTrace(true, true) + WriteTrace(c)
    requires w4 == w3 + DirectionTrace(true, true) + WriteTrace(d)
    ensures w4 == t + DirectionTrace(isOutput, true) + WriteBytes([a, b, c, d])
  {
    assert w1 + DirectionTrace(true, true) == w1;
    assert w2 + DirectionTrace(true, true) == w2;
    assert w3 + DirectionTrace(true, true) == w3;
    WriteBytes4(t + DirectionTrace(isOutput, true), a, b, c, d);
  }

  /**
   * The trace after the driver's consecutive read calls for a reply of one
   * or two bytes: DD is an input already, so no read re-requests it.
   */
  lemma Received1(t: seq<Event>, r: seq<bool>, r1: seq<Event>)
    requires r1 == t + DirectionTrace(false, false) + ReadFrame(r)
    ensures r1 == t + ReadBytes([r])
  {
    assert t + DirectionTrace(false, false) == t;
    ReadBytes1(t, r);
  }

  lemma Received2(t: seq<Event>, r: seq<bool>, q: seq<bool>, r1: seq<Event>, r2: seq<Event>)
    requires r1 == t + DirectionTrace(false, false) + ReadFrame(r)
    requires r2 == r1 + DirectionTrace(false, false) + ReadFrame(q)
    ensures r2 == t + ReadBytes([r, q])
  {
    assert t + DirectionTrace(false, false) == t;
    assert r1 + DirectionTrace(false, false) == r1;
    ReadBytes2(t, r, q);
  }
}
