/**
 * Bit-level framing of the CC-Debug two-wire protocol.
 *
 * A byte travels over the DD line one bit per clock pulse on DC, most
 * significant bit first. The transmitter keeps the byte in an 8-bit register,
 * sends its bit 7 and shifts it one place to the left; the receiver shifts
 * its register one place to the left and ORs the sampled level into bit 0.
 * `bv8` gives both registers the truncation of C's `uint8_t`.
 */
module ByteCodec {

  /** Bit `k` of `b`, counting from the least significant bit. */
  function Bit(b: bv8, k: nat): (isSet: bool)
    requires k < 8
  {
    (b >> k) & 1 == 1
  }

  /**
   * The DD levels of `n` rounds of the transmit loop started with `data` in
   * the register: each round sends bit 7 and shifts the register left by one.
   */
  function ShiftOut(data: bv8, n: nat): (levels: seq<bool>)
    ensures |levels| == n
    decreases n
  {
    if n == 0 then [] else [data & 0x80 != 0] + ShiftOut(data << 1, n - 1)
  }

  /**
   * The register of the receive loop after it started with `data` and
   * sampled `levels` in order: each sample shifts the register left by one
   * and sets bit 0 when the level was high.
   */
  function ShiftIn(data: bv8, levels: seq<bool>): (b: bv8)
    decreases |levels|
  {
    if levels == [] then data
    else ShiftIn((data << 1) | (if levels[0] then 1 else 0), levels[1..])
  }

  /** The byte a full 8-pulse receive loop assembles, starting from 0. */
  function Assemble(levels: seq<bool>): (b: bv8)
  {
    ShiftIn(0, levels)
  }

  /** Shifting left by one moves every bit but bit 7 one place up. */
  lemma ShiftLeftBit(d: bv8, k: nat)
    requires k < 7
    ensures Bit(d << 1, k + 1) == Bit(d, k)
  {
  }

  /** Shifting left by one and OR-ing a level into bit 0. */
  lemma PushBit(d: bv8, level: bool, k: nat)
    requires k < 8
    ensures Bit((d << 1) | (if level then 1 else 0), k) == if k == 0 then level else Bit(d, k - 1)
  {
  }

  /** Two bytes that agree on all eight bits are equal. */
  lemma BitsDetermineByte(x: bv8, y: bv8)
    requires forall k :: 0 <= k < 8 ==> Bit(x, k) == Bit(y, k)
    ensures x == y
  {
    assert Bit(x, 0) == Bit(y, 0) && Bit(x, 1) == Bit(y, 1);
    assert Bit(x, 2) == Bit(y, 2) && Bit(x, 3) == Bit(y, 3);
    assert Bit(x, 4) == Bit(y, 4) && Bit(x, 5) == Bit(y, 5);
    assert Bit(x, 6) == Bit(y, 6) && Bit(x, 7) == Bit(y, 7);
  }

  /** The `i`-th level the transmit loop sends is bit `7 - i` of the byte it started with. */
  lemma {:induction false} ShiftOutMsbFirst(data: bv8, n: nat, i: nat)
    requires i < n <= 8
    ensures ShiftOut(data, n)[i] == Bit(data, 7 - i)
    decreases n
  {
    if i > 0 {
      ShiftOutMsbFirst(data << 1, n - 1, i - 1);
      ShiftLeftBit(data, 7 - i);
    }
  }

  /**
   * Bit `k` of the receive register after sampling `levels`: the most recent
   * samples occupy the low bits, the bits of the starting value move up.
   */
  lemma {:induction false} ShiftInBit(data: bv8, levels: seq<bool>, k: nat)
    requires k < 8
    ensures Bit(ShiftIn(data, levels), k)
            == if k < |levels| then levels[|levels| - 1 - k] else Bit(data, k - |levels|)
    decreases |levels|
  {
    if levels != [] {
      var next := (data << 1) | (if levels[0] then 1 else 0);
      ShiftInBit(next, levels[1..], k);
      if k >= |levels| - 1 {
        PushBit(data, levels[0], k - (|levels| - 1));
      }
    }
  }

  /** The byte assembled from eight samples has the `i`-th sample as bit `7 - i`. */
  lemma AssembleMsbFirst(levels: seq<bool>, i: nat)
    requires |levels| == 8 && i < 8
    ensures Bit(Assemble(levels), 7 - i) == levels[i]
  {
    ShiftInBit(0, levels, 7 - i);
  }

  /** Receiving the levels a byte was sent as gives the byte back. */
  lemma AssembleShiftOut(b: bv8)
    ensures Assemble(ShiftOut(b, 8)) == b
  {
    var levels := ShiftOut(b, 8);
    forall k | 0 <= k < 8
      ensures Bit(Assemble(levels), k) == Bit(b, k)
    {
      AssembleMsbFirst(levels, 7 - k);
      ShiftOutMsbFirst(b, 8, 7 - k);
    }
    BitsDetermineByte(Assemble(levels), b);
  }

  /** Sending the byte assembled from eight samples reproduces the samples. */
  lemma ShiftOutAssemble(levels: seq<bool>)
    requires |levels| == 8
    ensures ShiftOut(Assemble(levels), 8) == levels
  {
    forall i | 0 <= i < 8
      ensures ShiftOut(Assemble(levels), 8)[i] == levels[i]
    {
      ShiftOutMsbFirst(Assemble(levels), 8, i);
      AssembleMsbFirst(levels, i);
    }
  }

  /** The high byte of a 16-bit value, as `(c >> 8) & 0xFF` computes it. */
  function HighByte(c: bv16): (hi: bv8)
  {
    ((c >> 8) & 0xFF) as bv8
  }

  /** The low byte of a 16-bit value, as `c & 0xFF` computes it. */
  function LowByte(c: bv16): (lo: bv8)
  {
    (c & 0xFF) as bv8
  }

  /**
   * The 16-bit value assembled from two bytes read high-order first,
   * `(hi << 8) | lo` in an `unsigned short`.
   */
  function Word(hi: bv8, lo: bv8): (w: bv16)
    ensures HighByte(w) == hi && LowByte(w) == lo
  {
    ((hi as bv16) << 8) | (lo as bv16)
  }

  /**
   * A 16-bit value assembled from two received bytes, high-order first,
   * splits back into exactly the two level sequences that were sampled.
   */
  lemma WordOfReplies(high: seq<bool>, low: seq<bool>)
    requires |high| == 8 && |low| == 8
    ensures ShiftOut(HighByte(Word(Assemble(high), Assemble(low))), 8) == high
    ensures ShiftOut(LowByte(Word(Assemble(high), Assemble(low))), 8) == low
  {
    ShiftOutAssemble(high);
    ShiftOutAssemble(low);
  }

  /** Splitting a 16-bit value into its high and low bytes loses nothing. */
  lemma WordOfBytes(c: bv16)
    ensures Word(HighByte(c), LowByte(c)) == c
  {
  }
}
