/** The block counter of the cipher as a number: it counts blocks modulo 2^32. */
module BlockCounter {
  import opened ChaCha4

  function Bump(b: Byte, carry: bool): Byte {
    if carry then Byte(b.v + 1) else b
  }

  predicate Ones(w: Word, i: int) {
    ByteOf(w, i).v == 0xff
  }

  /** Adding one carries from byte to byte. */
  lemma CarryLow(w: Word)
    ensures var t := Add(w, Word(1));
            ByteOf(t, 0) == Bump(ByteOf(w, 0), true) && ByteOf(t, 1) == Bump(ByteOf(w, 1), Ones(w, 0))
  {
  }

  lemma CarryHigh(w: Word)
    ensures var t := Add(w, Word(1));
            && ByteOf(t, 2) == Bump(ByteOf(w, 2), Ones(w, 0) && Ones(w, 1))
            && ByteOf(t, 3) == Bump(ByteOf(w, 3), Ones(w, 0) && Ones(w, 1) && Ones(w, 2))
  {
  }

  ghost function ByteValue(): Byte -> int {
    (b: Byte) => b.v as int
  }

  /** What the carry needs of a byte's value. */
  ghost predicate Counts(value: Byte -> int, b: Byte) {
    && 0 <= value(b) <= 0xff && (b.v == 0xff <==> value(b) == 0xff)
    && value(Bump(b, true)) == if b.v == 0xff then 0 else value(b) + 1
  }

  lemma ValueCounts(b: Byte)
    ensures Counts(ByteValue(), b)
  {
  }

  /** The number a word stands for, least significant byte first. */
  ghost function Number(value: Byte -> int, w: Word): int {
    value(ByteOf(w, 0)) + 0x100 * value(ByteOf(w, 1))
    + 0x1_0000 * value(ByteOf(w, 2)) + 0x100_0000 * value(ByteOf(w, 3))
  }

  lemma NextNumber(value: Byte -> int, w: Word)
    requires forall b :: Counts(value, b)
    ensures 0 <= Number(value, w) < 0x1_0000_0000
    ensures Number(value, Add(w, Word(1))) == if Number(value, w) == 0xFFFF_FFFF then 0 else Number(value, w) + 1
  {
    CarryLow(w);
    CarryHigh(w);
    assert forall i :: 0 <= i < 4 ==> Counts(value, ByteOf(w, i));
  }

  lemma {:induction false} CountsUp(value: Byte -> int, n: nat)
    requires Number(value, Word(0)) == 0 && forall b :: Counts(value, b)
    ensures Number(value, CounterAt(n)) == n % 0x1_0000_0000
  {
    if n > 0 {
      CountsUp(value, n - 1);
      NextNumber(value, CounterAt(n - 1));
      NextRemainder(Number(value, CounterAt(n - 1)), n);
    }
  }

  lemma NextRemainder(x: int, n: nat)
    requires n > 0 && x == (n - 1) % 0x1_0000_0000
    ensures (if x == 0xFFFF_FFFF then 0 else x + 1) == n % 0x1_0000_0000
  {
  }

  /** Block `n` has counter `n` modulo 2^32. */
  lemma CounterWraps(n: nat)
    ensures Number(ByteValue(), CounterAt(n)) == n % 0x1_0000_0000
  {
    forall b ensures Counts(ByteValue(), b) {
      ValueCounts(b);
    }
    CountsUp(ByteValue(), n);
  }
}
