/** The ChaCha round structure, for any quarter round: the textbook rounds on a 16-word state, and the
    scalar form that starts from a cached first column round. */
module ChaChaRounds {
  const DOUBLE_ROUNDS := 2

  type QR<!T> = (T, T, T, T) -> (T, T, T, T)

  // ---- the reference ---------------------------------------------------------------------------

  /** QUARTERROUND(x, y, z, w) on a state: section 2.2 of RFC 8439. */
  function QuarterOn<T>(qr: QR<T>, s: seq<T>, x: nat, y: nat, z: nat, w: nat): (r: seq<T>)
    requires |s| == 16 && x < 16 && y < 16 && z < 16 && w < 16
    ensures |r| == 16
  {
    var q := qr(s[x], s[y], s[z], s[w]);
    s[x := q.0][y := q.1][z := q.2][w := q.3]
  }

  function ColumnRound<T>(qr: QR<T>, s: seq<T>): (r: seq<T>)
    requires |s| == 16
    ensures |r| == 16
  {
    var s1 := QuarterOn(qr, s, 0, 4, 8, 12);
    var s2 := QuarterOn(qr, s1, 1, 5, 9, 13);
    var s3 := QuarterOn(qr, s2, 2, 6, 10, 14);
    QuarterOn(qr, s3, 3, 7, 11, 15)
  }

  function DiagonalRound<T>(qr: QR<T>, s: seq<T>): (r: seq<T>)
    requires |s| == 16
    ensures |r| == 16
  {
    var s1 := QuarterOn(qr, s, 0, 5, 10, 15);
    var s2 := QuarterOn(qr, s1, 1, 6, 11, 12);
    var s3 := QuarterOn(qr, s2, 2, 7, 8, 13);
    QuarterOn(qr, s3, 3, 4, 9, 14)
  }

  /** `n` double rounds: section 2.3 of RFC 8439, which takes ten. */
  function Rounds<T>(qr: QR<T>, s: seq<T>, n: nat): (r: seq<T>)
    requires |s| == 16
    ensures |r| == 16
  {
    if n == 0 then s else DiagonalRound(qr, ColumnRound(qr, Rounds(qr, s, n - 1)))
  }

  // ---- rounds word by word -----------------------------------------------------------------------

  lemma ColumnWords<T>(qr: QR<T>, s: seq<T>)
    requires |s| == 16
    ensures var a, b := qr(s[0], s[4], s[8], s[12]), qr(s[1], s[5], s[9], s[13]);
            var c, d := qr(s[2], s[6], s[10], s[14]), qr(s[3], s[7], s[11], s[15]);
            ColumnRound(qr, s) == [a.0, b.0, c.0, d.0, a.1, b.1, c.1, d.1, a.2, b.2, c.2, d.2, a.3, b.3, c.3, d.3]
  {
  }

  lemma DiagonalWords<T>(qr: QR<T>, s: seq<T>)
    requires |s| == 16
    ensures var a, b := qr(s[0], s[5], s[10], s[15]), qr(s[1], s[6], s[11], s[12]);
            var c, d := qr(s[2], s[7], s[8], s[13]), qr(s[3], s[4], s[9], s[14]);
            DiagonalRound(qr, s) == [a.0, b.0, c.0, d.0, d.1, a.1, b.1, c.1, c.2, d.2, a.2, b.2, b.3, c.3, d.3, a.3]
  {
  }

  // ---- the fast form ---------------------------------------------------------------------------------

  /** The three counter-independent quarters of the first column round. */
  datatype Precomp<T> = Precomp(one: (T, T, T, T), two: (T, T, T, T), three: (T, T, T, T))

  function FirstColumns<T>(qr: QR<T>, s: seq<T>): Precomp<T>
    requires |s| == 16
  {
    Precomp(qr(s[1], s[5], s[9], s[13]), qr(s[2], s[6], s[10], s[14]), qr(s[3], s[7], s[11], s[15]))
  }

  /** The cached words and the rest of the first column round, then the remaining rounds: the same
      words as the reference from the same state. */
  method FastRounds<T>(qr: QR<T>, s: seq<T>, p: Precomp<T>) returns (x: seq<T>)
    requires |s| == 16 && p == FirstColumns(qr, s)
    ensures x == Rounds(qr, s, DOUBLE_ROUNDS)
  {
    var (p1, p5, p9, p13) := p.one;
    var (p2, p6, p10, p14) := p.two;
    var (p3, p7, p11, p15) := p.three;
    var (f0, f4, f8, f12) := qr(s[0], s[4], s[8], s[12]);
    var (x0, x5, x10, x15) := qr(f0, p5, p10, p15);
    var (x1, x6, x11, x12) := qr(p1, p6, p11, f12);
    var (x2, x7, x8, x13) := qr(p2, p7, f8, p13);
    var (x3, x4, x9, x14) := qr(p3, f4, p9, p14);
    ColumnWords(qr, s);
    DiagonalWords(qr, ColumnRound(qr, s));
    x := [x0, x1, x2, x3, x4, x5, x6, x7, x8, x9, x10, x11, x12, x13, x14, x15];
    assert Rounds(qr, s, 0) == s;
    for i := 0 to DOUBLE_ROUNDS - 1
      invariant x == Rounds(qr, s, i + 1)
    {
      x := DoubleRound(qr, x);
    }
  }

  /** One pass of the remaining-rounds loop on named words. */
  method DoubleRound<T>(qr: QR<T>, s: seq<T>) returns (x: seq<T>)
    requires |s| == 16
    ensures x == DiagonalRound(qr, ColumnRound(qr, s))
  {
    var (x0, x4, x8, x12) := qr(s[0], s[4], s[8], s[12]);
    var (x1, x5, x9, x13) := qr(s[1], s[5], s[9], s[13]);
    var (x2, x6, x10, x14) := qr(s[2], s[6], s[10], s[14]);
    var (x3, x7, x11, x15) := qr(s[3], s[7], s[11], s[15]);
    var (y0, y5, y10, y15) := qr(x0, x5, x10, x15);
    var (y1, y6, y11, y12) := qr(x1, x6, x11, x12);
    var (y2, y7, y8, y13) := qr(x2, x7, x8, x13);
    var (y3, y4, y9, y14) := qr(x3, x4, x9, x14);
    ColumnWords(qr, s);
    DiagonalWords(qr, ColumnRound(qr, s));
    x := [y0, y1, y2, y3, y4, y5, y6, y7, y8, y9, y10, y11, y12, y13, y14, y15];
  }
}
