/** What the quarter round does to numbers, and the cipher's functions at the values printed in RFC 8439. */
module ChaChaVectors {
  import opened ChaChaRounds
  import opened ChaCha4

  // ---- the quarter round on numbers ------------------------------------------------------------------

  /** The number a word stands for. */
  ghost function Value(): bv32 -> int {
    (w: bv32) => w as int
  }

  /** A number below 2^32 rotated left by k bits: `up` is 2^k and `down` is 2^(32 - k). */
  ghost function Rotated(x: int, up: int, down: int): int
    requires down > 0
  {
    x * up % 0x1_0000_0000 + x / down
  }

  ghost predicate IsRotated(value: bv32 -> int, w: bv32, t: bv32, up: int, down: int)
    requires down > 0
  {
    value(t) == Rotated(value(w), up, down)
  }

  /** `w` is `low` with `high` behind it. */
  ghost predicate Joined(value: bv32 -> int, w: bv32, low: bv32, high: bv32, up: int, down: int) {
    value(w) == value(low) * up + value(high) && 0 <= value(low) < down && 0 <= value(high) < up
  }

  /** What the rotations join, there and back. */
  ghost predicate Splits(value: bv32 -> int, x: bv32) {
    && Joined(value, x.RotateLeft(16), x & 0xffff, x >> 16, 0x1_0000, 0x1_0000)
    && Joined(value, x.RotateLeft(12), x & 0xf_ffff, x >> 20, 0x1000, 0x10_0000)
    && Joined(value, x.RotateLeft(20), x & 0xfff, x >> 12, 0x10_0000, 0x1000)
    && Joined(value, x.RotateLeft(8), x & 0xff_ffff, x >> 24, 0x100, 0x100_0000)
    && Joined(value, x.RotateLeft(24), x & 0xff, x >> 8, 0x100_0000, 0x100)
    && Joined(value, x.RotateLeft(7), x & 0x1ff_ffff, x >> 25, 0x80, 0x200_0000)
    && Joined(value, x.RotateLeft(25), x & 0x7f, x >> 7, 0x200_0000, 0x80)
  }

  lemma Joined16(x: bv32)
    ensures Joined(Value(), x.RotateLeft(16), x & 0xffff, x >> 16, 0x1_0000, 0x1_0000)
  {
  }

  lemma Joined12(x: bv32)
    ensures Joined(Value(), x.RotateLeft(12), x & 0xf_ffff, x >> 20, 0x1000, 0x10_0000)
  {
  }

  lemma Joined20(x: bv32)
    ensures Joined(Value(), x.RotateLeft(20), x & 0xfff, x >> 12, 0x10_0000, 0x1000)
  {
  }

  lemma Joined8(x: bv32)
    ensures Joined(Value(), x.RotateLeft(8), x & 0xff_ffff, x >> 24, 0x100, 0x100_0000)
  {
  }

  lemma Joined24(x: bv32)
    ensures Joined(Value(), x.RotateLeft(24), x & 0xff, x >> 8, 0x100_0000, 0x100)
  {
  }

  lemma Joined7(x: bv32)
    ensures Joined(Value(), x.RotateLeft(7), x & 0x1ff_ffff, x >> 25, 0x80, 0x200_0000)
  {
  }

  lemma Joined25(x: bv32)
    ensures Joined(Value(), x.RotateLeft(25), x & 0x7f, x >> 7, 0x200_0000, 0x80)
  {
  }

  lemma WordsSplit(x: bv32)
    ensures Splits(Value(), x)
  {
    Joined16(x);
    Joined12(x);
    Joined20(x);
    Joined8(x);
    Joined24(x);
    Joined7(x);
    Joined25(x);
  }

  lemma Undone16(x: bv32)
    ensures var y := x.RotateLeft(16);
            y.RotateLeft(16) == x && y & 0xffff == x >> 16 && y >> 16 == x & 0xffff
  {
  }

  lemma Swapped16(x: int, y: int, high: int, low: int)
    requires x == high * 0x1_0000 + low && y == low * 0x1_0000 + high && 0 <= low < 0x1_0000 && 0 <= high < 0x1_0000
    ensures y == Rotated(x, 0x1_0000, 0x1_0000)
  {
    assert x * 0x1_0000 == high * 0x1_0000_0000 + low * 0x1_0000;
  }

  lemma Rotates16(value: bv32 -> int, w: bv32)
    requires forall x: bv32 {:trigger Splits(value, x)} :: Splits(value, x)
    ensures IsRotated(value, w, w.RotateLeft(16), 0x1_0000, 0x1_0000)
  {
    var t := w.RotateLeft(16);
    assert Splits(value, w) && Splits(value, t);
    Undone16(w);
    Swapped16(value(w), value(t), value(w >> 16), value(w & 0xffff));
  }

  lemma Undone12(x: bv32)
    ensures var y := x.RotateLeft(12);
            y.RotateLeft(20) == x && y & 0xfff == x >> 20 && y >> 12 == x & 0xf_ffff
  {
  }

  lemma Swapped12(x: int, y: int, high: int, low: int)
    requires x == high * 0x10_0000 + low && y == low * 0x1000 + high && 0 <= low < 0x10_0000 && 0 <= high < 0x1000
    ensures y == Rotated(x, 0x1000, 0x10_0000)
  {
    assert x * 0x1000 == high * 0x1_0000_0000 + low * 0x1000;
  }

  lemma Rotates12(value: bv32 -> int, w: bv32)
    requires forall x: bv32 {:trigger Splits(value, x)} :: Splits(value, x)
    ensures IsRotated(value, w, w.RotateLeft(12), 0x1000, 0x10_0000)
  {
    var t := w.RotateLeft(12);
    assert Splits(value, w) && Splits(value, t);
    Undone12(w);
    Swapped12(value(w), value(t), value(w >> 20), value(w & 0xf_ffff));
  }

  lemma Undone8(x: bv32)
    ensures var y := x.RotateLeft(8);
            y.RotateLeft(24) == x && y & 0xff == x >> 24 && y >> 8 == x & 0xff_ffff
  {
  }

  lemma Swapped8(x: int, y: int, high: int, low: int)
    requires x == high * 0x100_0000 + low && y == low * 0x100 + high && 0 <= low < 0x100_0000 && 0 <= high < 0x100
    ensures y == Rotated(x, 0x100, 0x100_0000)
  {
    assert x * 0x100 == high * 0x1_0000_0000 + low * 0x100;
  }

  lemma Rotates8(value: bv32 -> int, w: bv32)
    requires forall x: bv32 {:trigger Splits(value, x)} :: Splits(value, x)
    ensures IsRotated(value, w, w.RotateLeft(8), 0x100, 0x100_0000)
  {
    var t := w.RotateLeft(8);
    assert Splits(value, w) && Splits(value, t);
    Undone8(w);
    Swapped8(value(w), value(t), value(w >> 24), value(w & 0xff_ffff));
  }

  lemma Undone7(x: bv32)
    ensures var y := x.RotateLeft(7);
            y.RotateLeft(25) == x && y & 0x7f == x >> 25 && y >> 7 == x & 0x1ff_ffff
  {
  }

  lemma Swapped7(x: int, y: int, high: int, low: int)
    requires x == high * 0x200_0000 + low && y == low * 0x80 + high && 0 <= low < 0x200_0000 && 0 <= high < 0x80
    ensures y == Rotated(x, 0x80, 0x200_0000)
  {
    assert x * 0x80 == high * 0x1_0000_0000 + low * 0x80;
  }

  lemma Rotates7(value: bv32 -> int, w: bv32)
    requires forall x: bv32 {:trigger Splits(value, x)} :: Splits(value, x)
    ensures IsRotated(value, w, w.RotateLeft(7), 0x80, 0x200_0000)
  {
    var t := w.RotateLeft(7);
    assert Splits(value, w) && Splits(value, t);
    Undone7(w);
    Swapped7(value(w), value(t), value(w >> 25), value(w & 0x1ff_ffff));
  }

  /** The four rotations of a word, as numbers. */
  ghost predicate Rotates(value: bv32 -> int, w: bv32) {
    && IsRotated(value, w, w.RotateLeft(16), 0x1_0000, 0x1_0000)
    && IsRotated(value, w, w.RotateLeft(12), 0x1000, 0x10_0000)
    && IsRotated(value, w, w.RotateLeft(8), 0x100, 0x100_0000)
    && IsRotated(value, w, w.RotateLeft(7), 0x80, 0x200_0000)
  }

  lemma WordsRotate(value: bv32 -> int, w: bv32)
    requires forall x: bv32 {:trigger Splits(value, x)} :: Splits(value, x)
    ensures Rotates(value, w)
  {
    Rotates16(value, w);
    Rotates12(value, w);
    Rotates8(value, w);
    Rotates7(value, w);
  }

  /** Two shifts rotate a number. */
  lemma ShiftsRotate(w: bv32)
    ensures IsRotated(Value(), w, (w << 16) | (w >> 16), 0x1_0000, 0x1_0000)
    ensures IsRotated(Value(), w, (w << 12) | (w >> 20), 0x1000, 0x10_0000)
    ensures IsRotated(Value(), w, (w << 8) | (w >> 24), 0x100, 0x100_0000)
    ensures IsRotated(Value(), w, (w << 7) | (w >> 25), 0x80, 0x200_0000)
  {
    forall x: bv32 ensures Splits(Value(), x) {
      WordsSplit(x);
    }
    WordsRotate(Value(), w);
  }

  /** Four half steps, in each of which a word takes on another and a third is XORed with the sum and rotated: by
      16, 12, 8 and 7, each rotation written as two shifts. */
  function HalfSteps(a: Word, b: Word, c: Word, d: Word): (Word, Word, Word, Word) {
    var a1 := a.v + b.v;
    var w := d.v ^ a1;
    var d1 := (w << 16) | (w >> 16);
    var c1 := c.v + d1;
    var x := b.v ^ c1;
    var b1 := (x << 12) | (x >> 20);
    var a2 := a1 + b1;
    var y := d1 ^ a2;
    var d2 := (y << 8) | (y >> 24);
    var c2 := c1 + d2;
    var z := b1 ^ c2;
    var b2 := (z << 7) | (z >> 25);
    (Word(a2), Word(b2), Word(c2), Word(d2))
  }

  lemma QuarterIsHalfSteps(a: Word, b: Word, c: Word, d: Word)
    ensures QuarterRound(a, b, c, d) == HalfSteps(a, b, c, d)
  {
  }

  /** The example of section 2.1.1 of RFC 8439. */
  lemma QuarterVector()
    ensures QuarterRound(Word(0x11111111), Word(0x01020304), Word(0x9b8d6f43), Word(0x01234567))
         == (Word(0xea2a92f4), Word(0xcb1cf8ce), Word(0x4581472e), Word(0x5881c4bb))
  {
  }

  // ---- the rounds ------------------------------------------------------------------------------------------

  /** A state word by word. */
  datatype Grid = Grid(
    a: bv32, b: bv32, c: bv32, d: bv32, e: bv32, f: bv32, g: bv32, h: bv32,
    i: bv32, j: bv32, k: bv32, l: bv32, m: bv32, n: bv32, o: bv32, p: bv32)
  {
    function Words(): (s: seq<Word>)
      ensures |s| == 16
    {
      [Word(a), Word(b), Word(c), Word(d), Word(e), Word(f), Word(g), Word(h),
       Word(i), Word(j), Word(k), Word(l), Word(m), Word(n), Word(o), Word(p)]
    }
  }

  ghost predicate Quarter(qr: QR<Word>, a: bv32, b: bv32, c: bv32, d: bv32, w: bv32, x: bv32, y: bv32, z: bv32) {
    qr(Word(a), Word(b), Word(c), Word(d)) == (Word(w), Word(x), Word(y), Word(z))
  }

  ghost predicate Columns(qr: QR<Word>, s: Grid, t: Grid) {
    && Quarter(qr, s.a, s.e, s.i, s.m, t.a, t.e, t.i, t.m) && Quarter(qr, s.b, s.f, s.j, s.n, t.b, t.f, t.j, t.n)
    && Quarter(qr, s.c, s.g, s.k, s.o, t.c, t.g, t.k, t.o) && Quarter(qr, s.d, s.h, s.l, s.p, t.d, t.h, t.l, t.p)
  }

  ghost predicate Diagonals(qr: QR<Word>, s: Grid, t: Grid) {
    && Quarter(qr, s.a, s.f, s.k, s.p, t.a, t.f, t.k, t.p) && Quarter(qr, s.b, s.g, s.l, s.m, t.b, t.g, t.l, t.m)
    && Quarter(qr, s.c, s.h, s.i, s.n, t.c, t.h, t.i, t.n) && Quarter(qr, s.d, s.e, s.j, s.o, t.d, t.e, t.j, t.o)
  }

  lemma ColumnsAre(qr: QR<Word>, s: Grid, t: Grid)
    requires Columns(qr, s, t)
    ensures ColumnRound(qr, s.Words()) == t.Words()
  {
    ColumnWords(qr, s.Words());
  }

  lemma DiagonalsAre(qr: QR<Word>, s: Grid, t: Grid)
    requires Diagonals(qr, s, t)
    ensures DiagonalRound(qr, s.Words()) == t.Words()
  {
    DiagonalWords(qr, s.Words());
  }

  /** One more double round, from `x` by `y` to `z`. */
  lemma NextDouble(qr: QR<Word>, s: Grid, r: nat, x: Grid, y: Grid, z: Grid)
    requires Rounds(qr, s.Words(), r) == x.Words() && Columns(qr, x, y) && Diagonals(qr, y, z)
    ensures Rounds(qr, s.Words(), r + 1) == z.Words()
  {
    ColumnsAre(qr, x, y);
    DiagonalsAre(qr, y, z);
  }

  // ---- the example of section 2.3.2 of RFC 8439 --------------------------------------------------------------

  // The initial state, and the state after each round.

  const S0 := Grid(0x61707865, 0x3320646e, 0x79622d32, 0x6b206574, 0x03020100, 0x07060504, 0x0b0a0908, 0x0f0e0d0c,
                   0x13121110, 0x17161514, 0x1b1a1918, 0x1f1e1d1c, 0x00000001, 0x09000000, 0x4a000000, 0x00000000)
  const S1 := Grid(0xabbaa25c, 0x1efa51ea, 0x7354fbdf, 0x83d2dc69, 0x3a465196, 0x1c7e64f6, 0xb12fb628, 0xf05b6976,
                   0x6b3ca454, 0x08eb14b1, 0xbf8a9ac9, 0xe444df3b, 0xdec62ed2, 0x8862cc77, 0x6e35b345, 0x52a647f1)
  const S2 := Grid(0xcd52e917, 0x85ab03b4, 0xb3457395, 0xf96de7dd, 0xc4b7cd22, 0x5c2e187a, 0xc95eb461, 0x316c801a,
                   0x7bf7d740, 0x7eddd644, 0xf1a1bdf5, 0x761246ca, 0x6b0d58a3, 0x6798471a, 0xd737f167, 0xf173888d)
  const S3 := Grid(0xe3e1111b, 0xa6291491, 0x5a82b80c, 0x4500fd45, 0xd65b5b5b, 0xf56af099, 0x4ccc8103, 0xc94d29e2,
                   0xe67aec54, 0xf7a52d82, 0xdb470914, 0xdfb40f1d, 0x7be81c0d, 0x1d92d0fd, 0x13139f8c, 0x7a26ecaa)
  const S4 := Grid(0xcf1a7584, 0x048927ec, 0x54051fda, 0xc244ff28, 0x901d2f40, 0x7974b81c, 0x378dcfb4, 0xcd47fd0e,
                   0x2dafb216, 0x27c89cd6, 0xcd3c9aa0, 0x79fc89c7, 0x10aef18d, 0x16218765, 0x68f76705, 0x04d6ee22)
  const S5 := Grid(0xa22695f2, 0xa908cf6c, 0xe6ae05b2, 0xfe0ff04b, 0x1ece4458, 0xe82b726f, 0x5a21ab90, 0x87698c64,
                   0xf2d36da6, 0xf4dab980, 0x7baf5573, 0xa78c270d, 0x6fda6bf7, 0x65a4b0ce, 0x25e6d76e, 0x1b7b11ec)
  const S6 := Grid(0x03a14032, 0x66b15927, 0x9d6b6b42, 0xb84c4109, 0xa7143ae0, 0xa09b33dd, 0xa5daaf88, 0x2fd91a73,
                   0xc90c6b18, 0x5a202413, 0xc20e01b6, 0x72cd6b74, 0xba35d777, 0xb360f1bf, 0x8178315b, 0x2cd11b1a)
  const S7 := Grid(0xfecd0838, 0x160ab468, 0x9a0ddf4e, 0xbac7154a, 0xcedf6624, 0xb11de6c4, 0xbd7810ef, 0xd22b5643,
                   0x1d8a33ea, 0x87dc1ca9, 0x89bd34a5, 0x5505ef62, 0xa818b852, 0xb100446a, 0x9c1d70b1, 0xa1d1befa)
  const S8 := Grid(0x9a2d3589, 0x0b23fc4e, 0x40af3b6b, 0xceea8144, 0x0a1bffc6, 0x5e5993f7, 0x9904c2e7, 0x0d334718,
                   0xe46c6354, 0xc9503229, 0x04fef5aa, 0xf8933f72, 0x2687d476, 0x54e65231, 0x3594ffc5, 0x2b3bb2ca)
  const S9 := Grid(0x85e7824a, 0x4940cd9e, 0xfbe7684b, 0x7335d03d, 0x1c133ea1, 0xbba40b0f, 0x9413992a, 0xa4ab2040,
                   0xa3a66a86, 0xc0b4754f, 0x771b4ecb, 0x165151a1, 0xde008464, 0x34f0058b, 0x70846cfa, 0xa3271b09)
  const S10 := Grid(0xc53318c5, 0xca325d96, 0x7e7d11cb, 0x3404e2ca, 0x26d7cf73, 0x6088d379, 0xc0f0e9bd, 0xe310cdb9,
                    0xae2ca8db, 0x42f67c72, 0x71669aca, 0x975c171d, 0x9e5ec228, 0x7d85a9f3, 0x201d0756, 0x63fa6953)
  const S11 := Grid(0x9950b826, 0xcac7ccc6, 0x84a67673, 0xdb3109a6, 0x2121065a, 0xc12bdadb, 0xcae3acd1, 0x594616cb,
                    0x19078de2, 0x178ecc02, 0xe6adbdb2, 0x52a9d50e, 0x40ca72b3, 0x3b9bf852, 0x78690378, 0xe17d4902)
  const S12 := Grid(0x04a3131a, 0x66176309, 0x0415bab1, 0x61b880a2, 0x36cc86c7, 0xbf8a4465, 0xf77dd720, 0xfc0bdc90,
                    0x07d13aca, 0xeb0be9af, 0x61599491, 0x918512dc, 0x33b6686d, 0x795cc671, 0xc0049972, 0xa0a81bde)
  const S13 := Grid(0x57c5e6da, 0x35ce46a8, 0x0c041bb9, 0xfa91df79, 0x8e85d82f, 0xb4819d06, 0xb63be200, 0xacd221e4,
                    0x434b4749, 0x1d459c00, 0x111cfe2c, 0x55942604, 0x49ee03a6, 0xd11a5554, 0xa7202e04, 0x7d2215bc)
  const S14 := Grid(0x9b70f51f, 0x7ea8ac11, 0x21e54da9, 0xca393b2f, 0x93b08686, 0x6a4c50ae, 0x19212a5a, 0x9b032958,
                    0xd839165e, 0x4c06e28a, 0xd3fde99e, 0x26acc13d, 0xa609f555, 0x2c246549, 0x95151853, 0x2c847a0d)
  const S15 := Grid(0xc0b18aee, 0x087445ba, 0x36e52ad9, 0xa777426a, 0xdeb54e9c, 0x802c883b, 0x06e86889, 0x3c002680,
                    0xa82d65d4, 0x687f11eb, 0xe9d36207, 0x4242ddae, 0x4103c64e, 0x82816a91, 0xb584ca56, 0xfd0bd2b9)
  const S16 := Grid(0xca5c85dd, 0x93a4f90e, 0xd9f0df58, 0x26dd82dd, 0x982563f8, 0x712aa9ff, 0x279a61e8, 0x970f72bd,
                    0x1c25931a, 0x5180bb10, 0x779c27e7, 0x54077e08, 0xa9b751fb, 0x382f3ce2, 0x8db1757d, 0xcc38080b)
  const S17 := Grid(0x765c6e9c, 0x5ab09b11, 0x3ee7da04, 0x37c31203, 0x9046ecaa, 0x7b88d882, 0xb9b577dd, 0x156de7ed,
                    0x46fa091e, 0x5117e9b5, 0x862ff22b, 0xa3fcc7a6, 0x72a5aace, 0x5fa7f1c5, 0xda563e0a, 0x5263d7ca)
  const S18 := Grid(0xb6b87de6, 0x9a016148, 0x93859815, 0x4915e6cc, 0xdc33c122, 0x98e18fa3, 0x5ffbe8fc, 0xf7154b8b,
                    0x28c1fcb3, 0xc4b38f9d, 0x83e2f5d7, 0x7d24b98b, 0x21078b22, 0xb193e7a3, 0xb2f49389, 0x6cde6026)
  const S19 := Grid(0x8a07ff15, 0x0cadc51c, 0x017c8da9, 0x4afbe5df, 0x913768fe, 0x442a0c0c, 0x598fe3bb, 0x47d18828,
                    0x0a39aedc, 0xc1428029, 0x7b48135f, 0x5a5f1098, 0x2d4cfe3e, 0xe5466d1b, 0xe4ccdc13, 0x8ac92a18)
  const S20 := Grid(0x837778ab, 0xe238d763, 0xa67ae21e, 0x5950bb2f, 0xc4f2d0c7, 0xfc62bb2f, 0x8fa018fc, 0x3f5ec7b7,
                    0x335271c2, 0xf29489f3, 0xeabda8fc, 0x82e46ebd, 0xd19c12b4, 0xb04e16de, 0x9e83d0cb, 0x4e3c50a2)

  lemma Double1()
    ensures Columns(QuarterRound, S0, S1) && Diagonals(QuarterRound, S1, S2)
  {
  }

  lemma Double2()
    ensures Columns(QuarterRound, S2, S3) && Diagonals(QuarterRound, S3, S4)
  {
  }

  lemma Double3()
    ensures Columns(QuarterRound, S4, S5) && Diagonals(QuarterRound, S5, S6)
  {
  }

  lemma Double4()
    ensures Columns(QuarterRound, S6, S7) && Diagonals(QuarterRound, S7, S8)
  {
  }

  lemma Double5()
    ensures Columns(QuarterRound, S8, S9) && Diagonals(QuarterRound, S9, S10)
  {
  }

  lemma Double6()
    ensures Columns(QuarterRound, S10, S11) && Diagonals(QuarterRound, S11, S12)
  {
  }

  lemma Double7()
    ensures Columns(QuarterRound, S12, S13) && Diagonals(QuarterRound, S13, S14)
  {
  }

  lemma Double8()
    ensures Columns(QuarterRound, S14, S15) && Diagonals(QuarterRound, S15, S16)
  {
  }

  lemma Double9()
    ensures Columns(QuarterRound, S16, S17) && Diagonals(QuarterRound, S17, S18)
  {
  }

  lemma Double10()
    ensures Columns(QuarterRound, S18, S19) && Diagonals(QuarterRound, S19, S20)
  {
  }

  lemma FirstFive(qr: QR<Word>)
    requires Columns(qr, S0, S1) && Diagonals(qr, S1, S2)
    requires Columns(qr, S2, S3) && Diagonals(qr, S3, S4)
    requires Columns(qr, S4, S5) && Diagonals(qr, S5, S6)
    requires Columns(qr, S6, S7) && Diagonals(qr, S7, S8)
    requires Columns(qr, S8, S9) && Diagonals(qr, S9, S10)
    ensures Rounds(qr, S0.Words(), 5) == S10.Words()
  {
    NextDouble(qr, S0, 0, S0, S1, S2);
    NextDouble(qr, S0, 1, S2, S3, S4);
    NextDouble(qr, S0, 2, S4, S5, S6);
    NextDouble(qr, S0, 3, S6, S7, S8);
    NextDouble(qr, S0, 4, S8, S9, S10);
  }

  lemma LastFive(qr: QR<Word>)
    requires Rounds(qr, S0.Words(), 5) == S10.Words()
    requires Columns(qr, S10, S11) && Diagonals(qr, S11, S12)
    requires Columns(qr, S12, S13) && Diagonals(qr, S13, S14)
    requires Columns(qr, S14, S15) && Diagonals(qr, S15, S16)
    requires Columns(qr, S16, S17) && Diagonals(qr, S17, S18)
    requires Columns(qr, S18, S19) && Diagonals(qr, S19, S20)
    ensures Rounds(qr, S0.Words(), 10) == S20.Words()
  {
    NextDouble(qr, S0, 5, S10, S11, S12);
    NextDouble(qr, S0, 6, S12, S13, S14);
    NextDouble(qr, S0, 7, S14, S15, S16);
    NextDouble(qr, S0, 8, S16, S17, S18);
    NextDouble(qr, S0, 9, S18, S19, S20);
  }

  /** Ten double rounds lead where the example says. */
  lemma RoundsVector()
    ensures Rounds(QuarterRound, S0.Words(), 10) == S20.Words()
  {
    Double1();
    Double2();
    Double3();
    Double4();
    Double5();
    Double6();
    Double7();
    Double8();
    Double9();
    Double10();
    FirstFive(QuarterRound);
    LastFive(QuarterRound);
  }

  const SUM := Grid(0xe4e7f110, 0x15593bd1, 0x1fdd0f50, 0xc47120a3, 0xc7f4d1c7, 0x0368c033, 0x9aaa2204, 0x4e6cd4c3,
                    0x466482d2, 0x09aa9f07, 0x05d7c214, 0xa2028bd9, 0xd19c12b5, 0xb94e16de, 0xe883d0cb, 0x4e3c50a2)

  predicate Sums(x: bv32, y: bv32, z: bv32) {
    Add(Word(x), Word(y)) == Word(z)
  }

  /** The last state and the initial one are added up. */
  lemma SumVector()
    ensures Sums(S20.a, S0.a, SUM.a) && Sums(S20.b, S0.b, SUM.b) && Sums(S20.c, S0.c, SUM.c) && Sums(S20.d, S0.d, SUM.d)
    ensures Sums(S20.e, S0.e, SUM.e) && Sums(S20.f, S0.f, SUM.f) && Sums(S20.g, S0.g, SUM.g) && Sums(S20.h, S0.h, SUM.h)
    ensures Sums(S20.i, S0.i, SUM.i) && Sums(S20.j, S0.j, SUM.j) && Sums(S20.k, S0.k, SUM.k) && Sums(S20.l, S0.l, SUM.l)
    ensures Sums(S20.m, S0.m, SUM.m) && Sums(S20.n, S0.n, SUM.n) && Sums(S20.o, S0.o, SUM.o) && Sums(S20.p, S0.p, SUM.p)
  {
  }

  predicate InBytes(w: bv32, a: bv8, b: bv8, c: bv8, d: bv8) {
    && ByteOf(Word(w), 0) == Byte(a) && ByteOf(Word(w), 1) == Byte(b)
    && ByteOf(Word(w), 2) == Byte(c) && ByteOf(Word(w), 3) == Byte(d)
  }

  /** The serialized block. */
  lemma SerializedVector()
    ensures InBytes(SUM.a, 0x10, 0xf1, 0xe7, 0xe4) && InBytes(SUM.b, 0xd1, 0x3b, 0x59, 0x15)
    ensures InBytes(SUM.c, 0x50, 0x0f, 0xdd, 0x1f) && InBytes(SUM.d, 0xa3, 0x20, 0x71, 0xc4)
    ensures InBytes(SUM.e, 0xc7, 0xd1, 0xf4, 0xc7) && InBytes(SUM.f, 0x33, 0xc0, 0x68, 0x03)
    ensures InBytes(SUM.g, 0x04, 0x22, 0xaa, 0x9a) && InBytes(SUM.h, 0xc3, 0xd4, 0x6c, 0x4e)
    ensures InBytes(SUM.i, 0xd2, 0x82, 0x64, 0x46) && InBytes(SUM.j, 0x07, 0x9f, 0xaa, 0x09)
    ensures InBytes(SUM.k, 0x14, 0xc2, 0xd7, 0x05) && InBytes(SUM.l, 0xd9, 0x8b, 0x02, 0xa2)
    ensures InBytes(SUM.m, 0xb5, 0x12, 0x9c, 0xd1) && InBytes(SUM.n, 0xde, 0x16, 0x4e, 0xb9)
    ensures InBytes(SUM.o, 0xcb, 0xd0, 0x83, 0xe8) && InBytes(SUM.p, 0xa2, 0x50, 0x3c, 0x4e)
  {
  }

  const KEY := [Byte(0x00), Byte(0x01), Byte(0x02), Byte(0x03), Byte(0x04), Byte(0x05), Byte(0x06), Byte(0x07),
                Byte(0x08), Byte(0x09), Byte(0x0a), Byte(0x0b), Byte(0x0c), Byte(0x0d), Byte(0x0e), Byte(0x0f),
                Byte(0x10), Byte(0x11), Byte(0x12), Byte(0x13), Byte(0x14), Byte(0x15), Byte(0x16), Byte(0x17),
                Byte(0x18), Byte(0x19), Byte(0x1a), Byte(0x1b), Byte(0x1c), Byte(0x1d), Byte(0x1e), Byte(0x1f)]
  const NONCE := [Byte(0x00), Byte(0x00), Byte(0x00), Byte(0x09), Byte(0x00), Byte(0x00), Byte(0x00), Byte(0x4a),
                  Byte(0x00), Byte(0x00), Byte(0x00), Byte(0x00)]

  /** Four bytes make a word, least significant first. */
  lemma PackedVector()
    ensures WordOf(Byte(0x00), Byte(0x01), Byte(0x02), Byte(0x03)) == Word(0x03020100)
    ensures WordOf(Byte(0x04), Byte(0x05), Byte(0x06), Byte(0x07)) == Word(0x07060504)
    ensures WordOf(Byte(0x08), Byte(0x09), Byte(0x0a), Byte(0x0b)) == Word(0x0b0a0908)
    ensures WordOf(Byte(0x0c), Byte(0x0d), Byte(0x0e), Byte(0x0f)) == Word(0x0f0e0d0c)
    ensures WordOf(Byte(0x10), Byte(0x11), Byte(0x12), Byte(0x13)) == Word(0x13121110)
    ensures WordOf(Byte(0x14), Byte(0x15), Byte(0x16), Byte(0x17)) == Word(0x17161514)
    ensures WordOf(Byte(0x18), Byte(0x19), Byte(0x1a), Byte(0x1b)) == Word(0x1b1a1918)
    ensures WordOf(Byte(0x1c), Byte(0x1d), Byte(0x1e), Byte(0x1f)) == Word(0x1f1e1d1c)
    ensures WordOf(Byte(0x00), Byte(0x00), Byte(0x00), Byte(0x09)) == Word(0x09000000)
    ensures WordOf(Byte(0x00), Byte(0x00), Byte(0x00), Byte(0x4a)) == Word(0x4a000000)
    ensures WordOf(Byte(0x00), Byte(0x00), Byte(0x00), Byte(0x00)) == Word(0x00000000)
  {
  }

  lemma FirstKeyWords(w: seq<Word>, s: seq<Word>)
    requires w == Words(KEY, 8) && s == S0.Words()
    ensures w[0] == s[4] && w[1] == s[5]
  {
    PackedVector();
  }

  lemma NextKeyWords(w: seq<Word>, s: seq<Word>)
    requires w == Words(KEY, 8) && s == S0.Words()
    ensures w[2] == s[6] && w[3] == s[7]
  {
    PackedVector();
  }

  lemma LastKeyWords(w: seq<Word>, s: seq<Word>)
    requires w == Words(KEY, 8) && s == S0.Words()
    ensures w[4] == s[8] && w[5] == s[9] && w[6] == s[10] && w[7] == s[11]
  {
    PackedVector();
  }

  lemma KeyWords(w: seq<Word>, s: seq<Word>)
    requires w == Words(KEY, 8) && s == S0.Words()
    ensures w == s[4..12]
  {
    FirstKeyWords(w, s);
    NextKeyWords(w, s);
    LastKeyWords(w, s);
  }

  lemma NonceWords()
    ensures Words(NONCE, 3) == S0.Words()[13..]
  {
    PackedVector();
  }

  /** Key, counter and nonce make the initial state. */
  lemma InitVector()
    ensures Seed(QuarterRound, Words(KEY, 8), Words(NONCE, 3)).Init(Word(1)) == S0.Words()
  {
    KeyWords(Words(KEY, 8), S0.Words());
    NonceWords();
  }

  lemma SumAt(x: seq<Word>, y: seq<Word>, k: nat, r: nat)
    requires |x| == 16 && |y| == 16 && k < 16 && r < 4
    ensures SumByte(x, y, 4 * k + r) == ByteOf(Add(x[k], y[k]), r)
  {
    assert (4 * k + r) / 4 == k && (4 * k + r) % 4 == r;
  }

  /** From key, counter and nonce to the state after twenty rounds. */
  lemma BlockVector(qr: QR<Word>, init: seq<Word>)
    requires qr == QuarterRound && init == Seed(qr, Words(KEY, 8), Words(NONCE, 3)).Init(Word(1))
    ensures init == S0.Words() && Rounds(qr, init, 10) == S20.Words()
  {
    InitVector();
    RoundsVector();
  }

  lemma TwoDoubles<T>(qr: QR<T>, s: seq<T>)
    requires |s| == 16
    ensures Rounds(qr, s, 2) == DiagonalRound(qr, ColumnRound(qr, DiagonalRound(qr, ColumnRound(qr, s))))
  {
    assert Rounds(qr, s, 0) == s;
    assert Rounds(qr, s, 1) == DiagonalRound(qr, ColumnRound(qr, s));
  }

  lemma InBlock(seed: Seed, b: nat, i: nat)
    requires seed.Sized() && i < 64
    ensures seed.Stream()(64 * b + i) == seed.KeyByte(CounterAt(b), i)
  {
    StreamGenuine(seed);
    assert Agrees(seed, seed.Stream(), CounterAt, b);
  }

  /** The cipher takes two double rounds. */
  lemma FourRounds(seed: Seed, b: nat, i: nat, init: seq<Word>, half: seq<Word>, full: seq<Word>)
    requires seed.Sized() && i < 64 && init == seed.Init(CounterAt(b))
    requires half == DiagonalRound(seed.qr, ColumnRound(seed.qr, init))
    requires full == DiagonalRound(seed.qr, ColumnRound(seed.qr, half))
    ensures seed.Stream()(64 * b + i) == SumByte(full, init, i)
  {
    InBlock(seed, b, i);
    TwoDoubles(seed.qr, init);
  }
}
