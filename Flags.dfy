/** The feature-enable bits of a key switch: an 8-bit flag byte in which four
    bit positions switch double press, long press, auto repeat and the
    distinct repeat result on or off. The operations are the Arduino
    bitRead/bitSet/bitClear macros the library applies to that byte. */
module KeyFlags {

  /** A bit position inside one byte. */
  newtype BitPos = n: int | 0 <= n < 8

  const REPEAT_RESULT_ENABLE: BitPos := 3
  const DPRESS_ENABLE: BitPos := 2
  const LONGPRESS_ENABLE: BitPos := 1
  const REPEAT_ENABLE: BitPos := 0

  /** The four feature bits are four different positions of the byte. */
  lemma FeatureBitsDistinct()
    ensures REPEAT_RESULT_ENABLE != DPRESS_ENABLE && REPEAT_RESULT_ENABLE != LONGPRESS_ENABLE
    ensures REPEAT_RESULT_ENABLE != REPEAT_ENABLE && DPRESS_ENABLE != LONGPRESS_ENABLE
    ensures DPRESS_ENABLE != REPEAT_ENABLE && LONGPRESS_ENABLE != REPEAT_ENABLE
  {
  }

  /** bitRead: whether bit `n` of `x` is 1, that is, whether masking `x`
      with a one at position `n` leaves something. */
  predicate BitRead(x: bv8, n: BitPos)
    ensures BitRead(x, n) <==> x & (1 << (n as int)) != 0
  {
    (x >> (n as int)) & 1 == 1
  }

  /** bitSet: bit `n` becomes 1, every other bit keeps its value. */
  function BitSet(x: bv8, n: BitPos): (r: bv8)
    ensures BitRead(r, n)
    ensures forall m: BitPos :: m != n ==> BitRead(r, m) == BitRead(x, m)
  {
    x | (1 << (n as int))
  }

  /** bitClear: bit `n` becomes 0, every other bit keeps its value. */
  function BitClear(x: bv8, n: BitPos): (r: bv8)
    ensures !BitRead(r, n)
    ensures forall m: BitPos :: m != n ==> BitRead(r, m) == BitRead(x, m)
  {
    x & !(1 << (n as int))
  }

  /** The body shared by the enableX(f) setters: set the bit when `f`,
      clear it otherwise. */
  function WithBit(x: bv8, n: BitPos, f: bool): (r: bv8)
    ensures BitRead(r, n) == f
    ensures forall m: BitPos :: m != n ==> BitRead(r, m) == BitRead(x, m)
  {
    if f then BitSet(x, n) else BitClear(x, n)
  }

  /** Two bytes that agree on every bit are equal. */
  lemma {:induction false} BitsDetermineByte(x: bv8, y: bv8)
    requires forall m: BitPos :: BitRead(x, m) == BitRead(y, m)
    ensures x == y
  {
    assert BitRead(x, 0) == BitRead(y, 0) && BitRead(x, 1) == BitRead(y, 1);
    assert BitRead(x, 2) == BitRead(y, 2) && BitRead(x, 3) == BitRead(y, 3);
    assert BitRead(x, 4) == BitRead(y, 4) && BitRead(x, 5) == BitRead(y, 5);
    assert BitRead(x, 6) == BitRead(y, 6) && BitRead(x, 7) == BitRead(y, 7);
  }

  /** Setting a bit to the same value twice is the same as setting it once. */
  lemma WithBitIdempotent(x: bv8, n: BitPos, f: bool)
    ensures WithBit(WithBit(x, n, f), n, f) == WithBit(x, n, f)
  {
  }

  /** Only the last write to a bit matters: enabling and then disabling a
      feature leaves its bit clear, whatever its value was before, and
      the byte is the one a single disable would give. */
  lemma WithBitLastWins(x: bv8, n: BitPos, f: bool, g: bool)
    ensures WithBit(WithBit(x, n, f), n, g) == WithBit(x, n, g)
    ensures !BitRead(WithBit(WithBit(x, n, true), n, false), n)
  {
  }

  /** Writes to two different bits commute. */
  lemma WithBitCommutes(x: bv8, n: BitPos, f: bool, m: BitPos, g: bool)
    requires n != m
    ensures WithBit(WithBit(x, n, f), m, g) == WithBit(WithBit(x, m, g), n, f)
  {
  }
}
