/** The four-round ChaCha stream cipher: a keystream read in chunks of any size through a leftover
    buffer, a whole-block path and a cached first round, all proved to show one reference keystream. */
module ChaCha4 {
  import opened Common
  import opened Buffers
  import opened ChaChaRounds

  datatype Byte = Byte(v: bv8)
  datatype Word = Word(v: bv32)

  const BLOCK: nat := 64
  const KEY_LEN: nat := 32
  const NONCE_LEN: nat := 12

  // ---- words and bytes -----------------------------------------------------------------------------

  /** Section 2.1 of RFC 8439. */
  function QuarterRound(a: Word, b: Word, c: Word, d: Word): (Word, Word, Word, Word) {
    var a1 := a.v + b.v;
    var d1 := (d.v ^ a1).RotateLeft(16);
    var c1 := c.v + d1;
    var b1 := (b.v ^ c1).RotateLeft(12);
    var a2 := a1 + b1;
    var d2 := (d1 ^ a2).RotateLeft(8);
    var c2 := c1 + d2;
    var b2 := (b1 ^ c2).RotateLeft(7);
    (Word(a2), Word(b2), Word(c2), Word(d2))
  }

  function Add(a: Word, b: Word): Word {
    Word(a.v + b.v)
  }

  function WordXor(a: Word, b: Word): Word {
    Word(a.v ^ b.v)
  }

  function ByteXor(a: Byte, b: Byte): Byte {
    Byte(a.v ^ b.v)
  }

  /** Byte `i` of a word, least significant first. */
  function ByteOf(w: Word, i: int): Byte {
    Byte(if i == 0 then (w.v & 0xff) as bv8
         else if i == 1 then ((w.v >> 8) & 0xff) as bv8
         else if i == 2 then ((w.v >> 16) & 0xff) as bv8
         else (w.v >> 24) as bv8)
  }

  function WordOf(a: Byte, b: Byte, c: Byte, d: Byte): Word {
    Word(a.v as bv32 | (b.v as bv32 << 8) | (c.v as bv32 << 16) | (d.v as bv32 << 24))
  }

  /** XORing a little-endian word is XORing its four bytes. */
  lemma XorWord(a: Byte, b: Byte, c: Byte, d: Byte, w: Word, i: nat)
    requires i < 4
    ensures ByteOf(WordXor(WordOf(a, b, c, d), w), i)
         == ByteXor(if i == 0 then a else if i == 1 then b else if i == 2 then c else d, ByteOf(w, i))
  {
  }

  function Words(b: seq<Byte>, n: nat): (r: seq<Word>)
    requires |b| == 4 * n
    ensures |r| == n
  {
    seq(n, i requires 0 <= i < n => WordOf(b[4 * i], b[4 * i + 1], b[4 * i + 2], b[4 * i + 3]))
  }

  // ---- the reference keystream ---------------------------------------------------------------------

  /** What a keystream depends on. The quarter round is that of section 2.1 of RFC 8439. */
  datatype Seed = Seed(qr: QR<Word>, key: seq<Word>, nonce: seq<Word>) {
    predicate Sized() {
      |key| == 8 && |nonce| == 3
    }

    /** The initial state of section 2.3 of RFC 8439. */
    function Init(counter: Word): (s: seq<Word>)
      requires Sized()
      ensures |s| == 16
    {
      [Word(0x61707865), Word(0x3320646e), Word(0x79622d32), Word(0x6b206574)] + key + [counter] + nonce
    }

    /** Byte `i` of a keystream block: section 2.3 of RFC 8439 at two double rounds. */
    ghost function KeyByte(counter: Word, i: nat): Byte
      requires Sized()
    {
      if i < 64 then SumByte(Rounds(qr, Init(counter), DOUBLE_ROUNDS), Init(counter), i) else Byte(0)
    }

    /** The keystream of section 2.4 of RFC 8439: the blocks one after another. */
    ghost function Stream(): Stream
      requires Sized()
    {
      (pos: nat) => KeyByte(CounterAt(pos / 64), pos % 64)
    }
  }

  /** Byte `i` of the words `x + y`. */
  ghost function SumByte(x: seq<Word>, y: seq<Word>, i: nat): Byte
    requires |x| == 16 && |y| == 16 && i < 64
  {
    ByteOf(Add(x[i / 4], y[i / 4]), i % 4)
  }

  /** The counter of block `n`: it wraps at 32 bits. */
  ghost function CounterAt(n: nat): Word {
    if n == 0 then Word(0) else Add(CounterAt(n - 1), Word(1))
  }

  /** Gives the keystream byte at each position. */
  type Stream = nat -> Byte

  /** Gives the counter of each block. */
  type Counters = nat -> Word

  /** Block `b` of the stream is the key block with that block's counter. */
  ghost predicate Agrees(seed: Seed, stream: Stream, count: Counters, b: nat)
    requires seed.Sized()
  {
    && (forall i :: 0 <= i < 64 ==> stream(64 * b + i) == seed.KeyByte(count(b), i))
    && count(b) == CounterAt(b)
  }

  ghost predicate Genuine(seed: Seed, stream: Stream, count: Counters) {
    && seed.Sized()
    && forall b: nat {:trigger Agrees(seed, stream, count, b)} :: Agrees(seed, stream, count, b)
  }

  lemma StreamGenuine(seed: Seed)
    requires seed.Sized()
    ensures Genuine(seed, seed.Stream(), CounterAt)
  {
    var at := (b: nat, i: nat) => seed.KeyByte(CounterAt(b), i);
    forall b: nat ensures Agrees(seed, seed.Stream(), CounterAt, b) {
      forall i | 0 <= i < 64 ensures seed.Stream()(64 * b + i) == seed.KeyByte(CounterAt(b), i) {
        BlockOf(seed.Stream(), at, b, i);
      }
    }
  }

  /** The cached words are right for every counter. */
  ghost predicate CacheFits(seed: Seed, p: Precomp<Word>)
    requires seed.Sized()
  {
    forall c {:trigger FitsAt(seed, p, c)} :: FitsAt(seed, p, c)
  }

  ghost predicate FitsAt(seed: Seed, p: Precomp<Word>, counter: Word)
    requires seed.Sized()
  {
    p == FirstColumns(seed.qr, seed.Init(counter))
  }

  method Precompute(seed: Seed) returns (p: Precomp<Word>)
    requires seed.Sized()
    ensures CacheFits(seed, p)
  {
    p := FirstColumns(seed.qr, seed.Init(Word(0)));
    forall c ensures FitsAt(seed, p, c) {
      assert forall i :: 0 <= i < 16 && i != 12 ==> seed.Init(c)[i] == seed.Init(Word(0))[i];
    }
  }

  /** `data` XORed with the keystream from `pos` on. */
  ghost function Xor(stream: Stream, pos: nat, data: seq<Byte>): (r: seq<Byte>)
    ensures |r| == |data|
  {
    Masked(ByteXor, stream, pos, data)
  }

  /** Applying the same stretch of keystream twice gives the data back. */
  lemma XorTwice(stream: Stream, pos: nat, data: seq<Byte>)
    ensures Xor(stream, pos, Xor(stream, pos, data)) == data
  {
    forall i | 0 <= i < |data| ensures Xor(stream, pos, Xor(stream, pos, data))[i] == data[i] {
      Cancel(data[i], stream(pos + i));
    }
  }

  lemma Cancel(a: Byte, k: Byte)
    ensures ByteXor(ByteXor(a, k), k) == a
  {
  }

  // ---- whole blocks --------------------------------------------------------------------------------

  /** Loads a word, XORs it with `a + b` and stores it. */
  method AddXor(dst: array<Byte>, d: nat, src: array<Byte>, s: nat, a: Word, b: Word, ghost f: Stream, ghost pos: nat)
    requires d + 4 <= dst.Length && s + 4 <= src.Length
    requires f(pos) == ByteOf(Add(a, b), 0) && f(pos + 1) == ByteOf(Add(a, b), 1)
    requires f(pos + 2) == ByteOf(Add(a, b), 2) && f(pos + 3) == ByteOf(Add(a, b), 3)
    modifies dst
    ensures Masks(ByteXor, f, pos, old(src[..]), s, 4, old(dst[..]), d, dst[..])
  {
    var w := WordXor(WordOf(src[s], src[s + 1], src[s + 2], src[s + 3]), Add(a, b));
    forall i: nat | i < 4 {
      XorWord(src[s], src[s + 1], src[s + 2], src[s + 3], Add(a, b), i);
    }
    Put(ByteXor, dst, d, src, s, ByteOf(w, 0), ByteOf(w, 1), ByteOf(w, 2), ByteOf(w, 3), f, pos);
  }

  /** Sixteen words at once. */
  method AddXorBlock(dst: array<Byte>, d: nat, src: array<Byte>, s: nat, x: seq<Word>, init: seq<Word>,
                     ghost f: Stream, ghost pos: nat)
    requires d + 64 <= dst.Length && s + 64 <= src.Length && Separate(dst, d, src, s, 64)
    requires |x| == 16 && |init| == 16
    requires forall i :: 0 <= i < 64 ==> f(pos + i) == SumByte(x, init, i)
    modifies dst
    ensures Masks(ByteXor, f, pos, old(src[..]), s, 64, old(dst[..]), d, dst[..])
  {
    ghost var was, wasDst := src[..], dst[..];
    for k := 0 to 16
      invariant Masks(ByteXor, f, pos, was, s, 4 * k, wasDst, d, dst[..])
      invariant src != dst ==> src[..] == was
    {
      FourBytes(f, pos, k, x, init);
      AddXorNext(dst, d, src, s, 4 * k, x[k], init[k], f, pos, was, wasDst);
    }
  }

  /** One word of a block of which `m` bytes are done. */
  method AddXorNext(dst: array<Byte>, d: nat, src: array<Byte>, s: nat, m: nat, a: Word, b: Word,
                    ghost f: Stream, ghost pos: nat, ghost was: seq<Byte>, ghost wasDst: seq<Byte>)
    requires m + 4 <= 64 && d + 64 <= dst.Length && s + 64 <= src.Length && Separate(dst, d, src, s, 64)
    requires f(pos + m) == ByteOf(Add(a, b), 0) && f(pos + m + 1) == ByteOf(Add(a, b), 1)
    requires f(pos + m + 2) == ByteOf(Add(a, b), 2) && f(pos + m + 3) == ByteOf(Add(a, b), 3)
    requires (src == dst ==> was == wasDst) && (src != dst ==> src[..] == was)
    requires Masks(ByteXor, f, pos, was, s, m, wasDst, d, dst[..])
    modifies dst
    ensures src != dst ==> src[..] == was
    ensures Masks(ByteXor, f, pos, was, s, m + 4, wasDst, d, dst[..])
  {
    ghost var mid, now := dst[..], src[..];
    AddXor(dst, d + m, src, s + m, a, b, f, pos + m);
    MasksFurther(ByteXor, f, pos, was, s, m, wasDst, d, mid, dst == src, now, 4, 64, dst[..]);
  }

  lemma FourBytes(f: Stream, pos: nat, k: nat, x: seq<Word>, y: seq<Word>)
    requires |x| == 16 && |y| == 16 && k < 16
    requires forall i :: 0 <= i < 64 ==> f(pos + i) == SumByte(x, y, i)
    ensures f(pos + 4 * k) == ByteOf(Add(x[k], y[k]), 0) && f(pos + 4 * k + 1) == ByteOf(Add(x[k], y[k]), 1)
    ensures f(pos + 4 * k + 2) == ByteOf(Add(x[k], y[k]), 2) && f(pos + 4 * k + 3) == ByteOf(Add(x[k], y[k]), 3)
  {
    OneByte(f, pos, 4 * k, k, 0, x, y);
    OneByte(f, pos, 4 * k + 1, k, 1, x, y);
    OneByte(f, pos, 4 * k + 2, k, 2, x, y);
    OneByte(f, pos, 4 * k + 3, k, 3, x, y);
  }

  lemma OneByte(f: Stream, pos: nat, i: nat, k: nat, r: nat, x: seq<Word>, y: seq<Word>)
    requires |x| == 16 && |y| == 16 && k < 16 && r < 4 && i == 4 * k + r
    requires forall i :: 0 <= i < 64 ==> f(pos + i) == SumByte(x, y, i)
    ensures f(pos + i) == ByteOf(Add(x[k], y[k]), r)
  {
    assert i / 4 == k && i % 4 == r;
    assert f(pos + i) == SumByte(x, y, i);
  }

  /** One block of keystream XORed in, from the cached first round; returns the next counter. */
  method XorKeyBlock(seed: Seed, counter: Word, p: Precomp<Word>, dst: array<Byte>, d: nat, src: array<Byte>, s: nat,
                     ghost stream: Stream, ghost count: Counters, ghost b: nat, ghost pos: nat)
    returns (next: Word)
    requires Genuine(seed, stream, count) && CacheFits(seed, p) && counter == count(b) && pos == 64 * b
    requires d + 64 <= dst.Length && s + 64 <= src.Length && Separate(dst, d, src, s, 64)
    modifies dst
    ensures next == count(b + 1)
    ensures Masks(ByteXor, stream, pos, old(src[..]), s, 64, old(dst[..]), d, dst[..])
  {
    next := NextCounter(seed, counter, stream, count, b);
    var init := seed.Init(counter);
    var x := BlockWords(seed, counter, p, stream, count, b);
    AddXorBlock(dst, d, src, s, x, init, stream, pos);
  }

  method BlockWords(seed: Seed, counter: Word, p: Precomp<Word>, ghost stream: Stream, ghost count: Counters,
                    ghost b: nat)
    returns (x: seq<Word>)
    requires Genuine(seed, stream, count) && CacheFits(seed, p) && counter == count(b)
    ensures |x| == 16 && forall i :: 0 <= i < 64 ==> stream(64 * b + i) == SumByte(x, seed.Init(counter), i)
  {
    assert FitsAt(seed, p, counter);
    x := FastRounds(seed.qr, seed.Init(counter), p);
    BlockBytes(seed, stream, count, b, x);
  }

  lemma BlockBytes(seed: Seed, stream: Stream, count: Counters, b: nat, x: seq<Word>)
    requires Genuine(seed, stream, count) && x == Rounds(seed.qr, seed.Init(count(b)), DOUBLE_ROUNDS)
    ensures forall i :: 0 <= i < 64 ==> stream(64 * b + i) == SumByte(x, seed.Init(count(b)), i)
  {
    assert Agrees(seed, stream, count, b);
    forall i | 0 <= i < 64 ensures stream(64 * b + i) == SumByte(x, seed.Init(count(b)), i) {
      assert stream(64 * b + i) == seed.KeyByte(count(b), i);
    }
  }

  method NextCounter(seed: Seed, counter: Word, ghost stream: Stream, ghost count: Counters, ghost b: nat)
    returns (next: Word)
    requires Genuine(seed, stream, count) && counter == count(b)
    ensures next == count(b + 1)
  {
    assert Agrees(seed, stream, count, b) && Agrees(seed, stream, count, b + 1);
    next := Add(counter, Word(1));
  }

  /** One more block behind `off` bytes already written. */
  method NextBlock(seed: Seed, counter: Word, p: Precomp<Word>, dst: array<Byte>, d: nat, src: array<Byte>, s: nat,
                   n: nat, off: nat, ghost was: seq<Byte>, ghost wasDst: seq<Byte>, ghost stream: Stream,
                   ghost count: Counters, ghost pos: nat, ghost b: nat)
    returns (next: Word)
    requires Genuine(seed, stream, count) && CacheFits(seed, p) && counter == count(b) && pos + off == 64 * b
    requires d + n <= dst.Length && s + n <= src.Length && Separate(dst, d, src, s, n) && off + 64 <= n
    requires (src == dst ==> was == wasDst) && (src != dst ==> src[..] == was)
    requires Masks(ByteXor, stream, pos, was, s, off, wasDst, d, dst[..])
    modifies dst
    ensures next == count(b + 1) && (src != dst ==> src[..] == was)
    ensures Masks(ByteXor, stream, pos, was, s, off + 64, wasDst, d, dst[..])
  {
    ghost var mid, now := dst[..], src[..];
    next := XorKeyBlock(seed, counter, p, dst, d + off, src, s + off, stream, count, b, pos + off);
    MasksFurther(ByteXor, stream, pos, was, s, off, wasDst, d, mid, dst == src, now, 64, n, dst[..]);
  }

  /** The largest multiple of the block size that fits. */
  function WholeBlocks(n: nat): (full: nat)
    ensures full % 64 == 0 && full <= n < full + 64
  {
    n - n % 64
  }

  class Cipher {
    const seed: Seed
    var counter: Word
    const buf: array<Byte>
    var len: nat
    var precomp: Option<Precomp<Word>>
    ghost const stream: Stream
    ghost const count: Counters
    ghost var blocks: nat

    /** Counter, cached words and keystream belong together. */
    ghost predicate Keyed()
      reads this
    {
      && Genuine(seed, stream, count) && counter == count(blocks)
      && (precomp.Some? ==> CacheFits(seed, precomp.value))
    }

    /** The leftover is the unread tail of the last block. */
    ghost predicate Valid()
      reads this, buf
    {
      && Keyed() && buf.Length == 64 && len < 64 && (len > 0 ==> blocks > 0)
      && forall i :: 64 - len <= i < 64 ==> buf[i] == stream(64 * (blocks - 1) + i)
    }

    /** How many keystream bytes have been used. */
    ghost function Pos(): nat
      requires len <= 64 * blocks
      reads this
    {
      64 * blocks - len
    }

    constructor (k: seq<Byte>, n: seq<Byte>)
      requires |k| == KEY_LEN && |n| == NONCE_LEN
      ensures Valid() && fresh(buf) && Pos() == 0
      ensures stream == Seed(QuarterRound, Words(k, 8), Words(n, 3)).Stream()
    {
      var start := Seed(QuarterRound, Words(k, 8), Words(n, 3));
      seed := start;
      counter, len, precomp := Word(0), 0, None;
      buf := new Byte[64](_ => Byte(0));
      stream, count, blocks := start.Stream(), CounterAt, 0;
      StreamGenuine(start);
    }

    /** Whole blocks. `dst` may be `src`, and may be the leftover buffer. */
    method Block(dst: array<Byte>, d: nat, src: array<Byte>, s: nat, n: nat)
      requires Keyed() && n % 64 == 0
      requires d + n <= dst.Length && s + n <= src.Length && Separate(dst, d, src, s, n)
      modifies this`counter, this`precomp, this`blocks, dst
      ensures Keyed() && 64 * blocks == 64 * old(blocks) + n
      ensures Masks(ByteXor, stream, 64 * old(blocks), old(src[..]), s, n, old(dst[..]), d, dst[..])
    {
      var p := precomp;
      if p.None? {
        var words := Precompute(seed);
        p, precomp := Some(words), Some(words);
      }
      ghost var was, wasDst, b := src[..], dst[..], blocks;
      var i, n64 := 0, n / 64;
      while i < n64
        invariant 0 <= i <= n64 && n == 64 * n64
        invariant Keyed() && precomp == p && blocks == b + i
        invariant Masks(ByteXor, stream, 64 * b, was, s, 64 * i, wasDst, d, dst[..])
        invariant src != dst ==> src[..] == was
      {
        OneBlock(p.value, dst, d, src, s, n, i, was, wasDst, b);
        i := i + 1;
      }
    }

    /** Block `i` of a run of whole blocks. */
    method OneBlock(p: Precomp<Word>, dst: array<Byte>, d: nat, src: array<Byte>, s: nat, n: nat, i: nat,
                    ghost was: seq<Byte>, ghost wasDst: seq<Byte>, ghost b: nat)
      requires Keyed() && precomp == Some(p) && blocks == b + i
      requires d + n <= dst.Length && s + n <= src.Length && Separate(dst, d, src, s, n) && 64 * i + 64 <= n
      requires (src == dst ==> was == wasDst) && (src != dst ==> src[..] == was)
      requires Masks(ByteXor, stream, 64 * b, was, s, 64 * i, wasDst, d, dst[..])
      modifies this`counter, this`blocks, dst
      ensures Keyed() && blocks == b + i + 1 && (src != dst ==> src[..] == was)
      ensures Masks(ByteXor, stream, 64 * b, was, s, 64 * i + 64, wasDst, d, dst[..])
    {
      counter := NextBlock(seed, counter, p, dst, d, src, s, n, 64 * i, was, wasDst, stream, count, 64 * b, b + i);
      blocks := blocks + 1;
    }

    /** Uses up to `n` leftover bytes. */
    method Leftover(dst: array<Byte>, d: nat, src: array<Byte>, s: nat, n: nat) returns (m: nat)
      requires Valid() && d + n <= dst.Length && s + n <= src.Length && Separate(dst, d, src, s, n)
      requires dst != buf && src != buf
      modifies this`len, dst
      ensures Valid() && m == (if n < old(len) then n else old(len)) && len == old(len) - m
      ensures Masks(ByteXor, stream, old(Pos()), old(src[..]), s, m, old(dst[..]), d, dst[..])
    {
      m := if n < len then n else len;
      var ks := buf[64 - len..64 - len + m];
      forall i | 0 <= i < m ensures ks[i] == stream(Pos() + i) {
        assert 64 * (blocks - 1) + (64 - len + i) == Pos() + i;
      }
      CombineLoop(ByteXor, dst, d, src, s, ks, stream, Pos());
      len := len - m;
    }

    /** The last, partial block goes through the buffer and leaves its tail there. */
    method Tail(dst: array<Byte>, d: nat, src: array<Byte>, s: nat, n: nat)
      requires Valid() && len == 0 && 0 < n < 64
      requires d + n <= dst.Length && s + n <= src.Length && dst != buf && src != buf
      modifies this, buf, dst
      ensures Valid() && Pos() == old(Pos()) + n
      ensures Masks(ByteXor, stream, old(Pos()), old(src[..]), s, n, old(dst[..]), d, dst[..])
    {
      ghost var pos := Pos();
      Refill(src, s, n);
      CopyOut(dst, d, src, s, n, pos);
    }

    /** One more block into the buffer, its first `n` bytes already XORed with data. */
    method Refill(src: array<Byte>, s: nat, n: nat)
      requires Valid() && len == 0 && 0 < n < 64 && s + n <= src.Length && src != buf
      modifies this, buf
      ensures Valid() && len == 64 - n && Pos() == old(Pos()) + n
      ensures forall i :: 0 <= i < n ==> buf[i] == ByteXor(src[s + i], stream(old(Pos()) + i))
    {
      ghost var b := blocks;
      Pad(src, s, n);
      BlockInPlace(n, b);
      len := 64 - n;
    }

    /** XORs the padded buffer with the next block. */
    method BlockInPlace(n: nat, ghost b: nat)
      requires Keyed() && blocks == b && buf.Length == 64 && n < 64
      requires forall i :: n <= i < 64 ==> buf[..][i] == Byte(0)
      modifies this`counter, this`precomp, this`blocks, buf
      ensures Keyed() && blocks == b + 1
      ensures forall i :: 0 <= i < n ==> buf[i] == ByteXor(old(buf[..])[i], stream(64 * b + i))
      ensures forall i :: n <= i < 64 ==> buf[i] == stream(64 * b + i)
    {
      ghost var padded := buf[..];
      Block(buf, 0, buf, 0, 64);
      PaddedParts(stream, 64 * b, padded, n, buf[..]);
    }

    /** Clears the buffer and puts `n` bytes at its front. */
    method Pad(src: array<Byte>, s: nat, n: nat)
      requires buf.Length == 64 && n < 64 && s + n <= src.Length && src != buf
      modifies buf
      ensures forall i :: 0 <= i < n ==> buf[..][i] == src[s + i]
      ensures forall i :: n <= i < 64 ==> buf[..][i] == Byte(0)
    {
      forall i | 0 <= i < 64 {
        buf[i] := if i < n then src[s + i] else Byte(0);
      }
    }

    method CopyOut(dst: array<Byte>, d: nat, src: array<Byte>, s: nat, n: nat, ghost pos: nat)
      requires buf.Length == 64 && n < 64 && d + n <= dst.Length && s + n <= src.Length && dst != buf
      requires forall i :: 0 <= i < n ==> buf[i] == ByteXor(src[s + i], stream(pos + i))
      modifies dst
      ensures Masks(ByteXor, stream, pos, old(src[..]), s, n, old(dst[..]), d, dst[..])
    {
      forall i | 0 <= i < n {
        dst[d + i] := buf[i];
      }
      forall j | 0 <= j < dst.Length
        ensures MaskedAt(ByteXor, stream, pos, old(src[..]), s, n, old(dst[..]), d, dst[..], j)
      {
        if d <= j < d + n {
          assert dst[d + (j - d)] == buf[j - d];
        }
      }
    }

    /** XORs `n` bytes of `src` into `dst`, in place or not: byte by byte with the keystream that
        continues from the previous call. */
    method XORKeyStream(dst: array<Byte>, d: nat, src: array<Byte>, s: nat, n: nat)
      requires Valid() && d + n <= dst.Length && s + n <= src.Length && Separate(dst, d, src, s, n)
      requires dst != buf && src != buf
      modifies this, buf, dst
      ensures Valid() && Pos() == old(Pos()) + n
      ensures Masks(ByteXor, stream, old(Pos()), old(src[..]), s, n, old(dst[..]), d, dst[..])
    {
      if n == 0 {
        return;
      }
      ghost var was, wasDst, pos := src[..], dst[..], Pos();
      var m := Leftover(dst, d, src, s, n);
      if m < n {
        m := Whole(dst, d, src, s, n, m, was, wasDst, pos);
        if m < n {
          Finish(dst, d, src, s, n, m, was, wasDst, pos);
        }
      }
    }

    /** The bytes behind the last whole block. */
    method Finish(dst: array<Byte>, d: nat, src: array<Byte>, s: nat, n: nat, m: nat, ghost was: seq<Byte>,
                  ghost wasDst: seq<Byte>, ghost pos: nat)
      requires Valid() && len == 0 && m < n < m + 64 && Pos() == pos + m
      requires d + n <= dst.Length && s + n <= src.Length && Separate(dst, d, src, s, n) && dst != buf && src != buf
      requires (src == dst ==> was == wasDst) && (src != dst ==> src[..] == was)
      requires Masks(ByteXor, stream, pos, was, s, m, wasDst, d, dst[..])
      modifies this, buf, dst
      ensures Valid() && Pos() == pos + n
      ensures Masks(ByteXor, stream, pos, was, s, n, wasDst, d, dst[..])
    {
      ghost var mid, now := dst[..], src[..];
      Tail(dst, d + m, src, s + m, n - m);
      MasksFurther(ByteXor, stream, pos, was, s, m, wasDst, d, mid, dst == src, now, n - m, n, dst[..]);
    }

    /** The whole blocks of what is left after `m` bytes. */
    method Whole(dst: array<Byte>, d: nat, src: array<Byte>, s: nat, n: nat, m: nat, ghost was: seq<Byte>,
                 ghost wasDst: seq<Byte>, ghost pos: nat)
      returns (r: nat)
      requires Valid() && len == 0 && m < n && Pos() == pos + m
      requires d + n <= dst.Length && s + n <= src.Length && Separate(dst, d, src, s, n) && dst != buf && src != buf
      requires (src == dst ==> was == wasDst) && (src != dst ==> src[..] == was)
      requires Masks(ByteXor, stream, pos, was, s, m, wasDst, d, dst[..])
      modifies this`counter, this`precomp, this`blocks, dst
      ensures Valid() && m <= r <= n < r + 64 && Pos() == pos + r && (src != dst ==> src[..] == was)
      ensures Masks(ByteXor, stream, pos, was, s, r, wasDst, d, dst[..])
    {
      var full := WholeBlocks(n - m);
      r := m + full;
      if full > 0 {
        Blocks(dst, d, src, s, n, m, full, was, wasDst, pos);
      }
    }

    /** `full` bytes in whole blocks behind the first `m`. */
    method Blocks(dst: array<Byte>, d: nat, src: array<Byte>, s: nat, n: nat, m: nat, full: nat, ghost was: seq<Byte>,
                  ghost wasDst: seq<Byte>, ghost pos: nat)
      requires Keyed() && 64 * blocks == pos + m && full % 64 == 0 && m + full <= n
      requires d + n <= dst.Length && s + n <= src.Length && Separate(dst, d, src, s, n)
      requires (src == dst ==> was == wasDst) && (src != dst ==> src[..] == was)
      requires Masks(ByteXor, stream, pos, was, s, m, wasDst, d, dst[..])
      modifies this`counter, this`precomp, this`blocks, dst
      ensures Keyed() && 64 * blocks == pos + m + full && (src != dst ==> src[..] == was)
      ensures Masks(ByteXor, stream, pos, was, s, m + full, wasDst, d, dst[..])
    {
      ghost var mid, now := dst[..], src[..];
      Block(dst, d + m, src, s + m, full);
      MasksFurther(ByteXor, stream, pos, was, s, m, wasDst, d, mid, dst == src, now, full, n, dst[..]);
    }
  }

  /** Data comes out XORed, zero padding as bare keystream. */
  lemma PaddedParts(stream: Stream, pos: nat, padded: seq<Byte>, n: nat, out: seq<Byte>)
    requires |padded| == 64 && (forall i :: n <= i < 64 ==> padded[i] == Byte(0))
    requires Masks(ByteXor, stream, pos, padded, 0, 64, padded, 0, out)
    ensures forall i :: 0 <= i < 64 ==> out[i] == ByteXor(padded[i], stream(pos + i))
    ensures forall i :: n <= i < 64 ==> out[i] == stream(pos + i)
  {
    MasksSlice(ByteXor, stream, pos, padded, 0, 64, padded, 0, out);
    forall i | n <= i < 64 ensures out[i] == stream(pos + i) {
      ZeroXor(stream(pos + i));
    }
  }

  lemma ZeroXor(k: Byte)
    ensures ByteXor(Byte(0), k) == k
  {
  }
}
