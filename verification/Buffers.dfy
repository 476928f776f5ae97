/** Combining a stretch of one array with a stream and writing it into another, or in place, for any
    element type. */
module Buffers {
  type Op<!T> = (T, T) -> T

  /** Element `i` of `b` is combined if it is in the stretch, and otherwise that of `a`. */
  ghost predicate MaskedAt<T>(op: Op<T>, f: nat -> T, pos: nat, was: seq<T>, s: nat, n: nat, a: seq<T>, d: nat,
                              b: seq<T>, i: int)
    requires |b| == |a| && s + n <= |was| && 0 <= i < |b|
  {
    b[i] == if d <= i < d + n then op(was[s + (i - d)], f(pos + (i - d))) else a[i]
  }

  /** `b` is `a`, with `was[s..s + n]` combined with the stream from `pos` on written at `d`. */
  ghost predicate Masks<T>(op: Op<T>, f: nat -> T, pos: nat, was: seq<T>, s: nat, n: nat, a: seq<T>, d: nat,
                           b: seq<T>)
  {
    && |b| == |a| && d + n <= |a| && s + n <= |was|
    && forall i {:trigger MaskedAt(op, f, pos, was, s, n, a, d, b, i)} ::
         0 <= i < |b| ==> MaskedAt(op, f, pos, was, s, n, a, d, b, i)
  }

  /** Two consecutive stretches are one: the stream continues where it stopped. `now` is the source when
      the second stretch is written; in place it is what the first stretch left. */
  lemma MasksFurther<T>(op: Op<T>, f: nat -> T, pos: nat, was: seq<T>, s: nat, n: nat, a: seq<T>, d: nat, mid: seq<T>,
                        inPlace: bool, now: seq<T>, m: nat, top: nat, end: seq<T>)
    requires n + m <= top && s + top <= |was|
    requires if inPlace then now == mid && was == a && (d == s || d + top <= s || s + top <= d) else now == was
    requires Masks(op, f, pos, was, s, n, a, d, mid) && Masks(op, f, pos + n, now, s + n, m, mid, d + n, end)
    ensures Masks(op, f, pos, was, s, n + m, a, d, end)
  {
    var all := n + m;
    forall i | 0 <= i < |end| ensures MaskedAt(op, f, pos, was, s, all, a, d, end, i) {
      assert MaskedAt(op, f, pos, was, s, n, a, d, mid, i);
      assert MaskedAt(op, f, pos + n, now, s + n, m, mid, d + n, end, i);
      if d + n <= i < d + n + m {
        assert s + n + (i - (d + n)) == s + (i - d) && pos + n + (i - (d + n)) == pos + (i - d);
        if inPlace {
          assert MaskedAt(op, f, pos, was, s, n, a, d, mid, s + (i - d));
        }
        assert now[s + (i - d)] == was[s + (i - d)];
      }
    }
  }

  /** `data` combined with the stream from `pos` on. */
  ghost function Masked<T>(op: Op<T>, f: nat -> T, pos: nat, data: seq<T>): (r: seq<T>)
    ensures |r| == |data|
  {
    seq(|data|, i requires 0 <= i < |data| => op(data[i], f(pos + i)))
  }

  lemma MasksSlice<T>(op: Op<T>, f: nat -> T, pos: nat, was: seq<T>, s: nat, n: nat, a: seq<T>, d: nat, b: seq<T>)
    requires Masks(op, f, pos, was, s, n, a, d, b)
    ensures b == a[..d] + Masked(op, f, pos, was[s..s + n]) + a[d + n..]
  {
    forall i | 0 <= i < |b| ensures b[i] == (a[..d] + Masked(op, f, pos, was[s..s + n]) + a[d + n..])[i] {
      assert MaskedAt(op, f, pos, was, s, n, a, d, b, i);
    }
  }

  lemma MaskedSplit<T>(op: Op<T>, f: nat -> T, pos: nat, a: seq<T>, b: seq<T>)
    ensures Masked(op, f, pos, a + b) == Masked(op, f, pos, a) + Masked(op, f, pos + |a|, b)
  {
  }

  /** The two ranges are the same or do not meet. */
  predicate Separate<T>(dst: array<T>, d: nat, src: array<T>, s: nat, n: nat) {
    dst != src || d == s || d + n <= s || s + n <= d
  }

  method CombineLoop<T>(op: Op<T>, dst: array<T>, d: nat, src: array<T>, s: nat, ks: seq<T>, ghost f: nat -> T,
                        ghost pos: nat)
    requires d + |ks| <= dst.Length && s + |ks| <= src.Length && Separate(dst, d, src, s, |ks|)
    requires forall i :: 0 <= i < |ks| ==> ks[i] == f(pos + i)
    modifies dst
    ensures Masks(op, f, pos, old(src[..]), s, |ks|, old(dst[..]), d, dst[..])
  {
    for i := 0 to |ks|
      invariant forall j :: 0 <= j < dst.Length ==>
                  dst[j] == if d <= j < d + i then op(old(src[..])[s + (j - d)], f(pos + (j - d))) else old(dst[..])[j]
      invariant dst != src ==> src[..] == old(src[..])
    {
      dst[d + i] := op(src[s + i], ks[i]);
    }
  }

  /** Four elements stored together. */
  method Put<T>(op: Op<T>, dst: array<T>, d: nat, src: array<T>, s: nat, a: T, b: T, c: T, e: T, ghost f: nat -> T,
                ghost pos: nat)
    requires d + 4 <= dst.Length && s + 4 <= src.Length
    requires a == op(src[s], f(pos)) && b == op(src[s + 1], f(pos + 1))
    requires c == op(src[s + 2], f(pos + 2)) && e == op(src[s + 3], f(pos + 3))
    modifies dst
    ensures Masks(op, f, pos, old(src[..]), s, 4, old(dst[..]), d, dst[..])
  {
    ghost var was, before := src[..], dst[..];
    dst[d], dst[d + 1], dst[d + 2], dst[d + 3] := a, b, c, e;
    PutMasks(op, f, pos, was, s, before, d, dst[..], a, b, c, e);
  }

  lemma PutMasks<T>(op: Op<T>, f: nat -> T, pos: nat, was: seq<T>, s: nat, before: seq<T>, d: nat, after: seq<T>, a: T,
                    b: T, c: T, e: T)
    requires |after| == |before| && d + 4 <= |before| && s + 4 <= |was|
    requires a == op(was[s], f(pos)) && b == op(was[s + 1], f(pos + 1))
    requires c == op(was[s + 2], f(pos + 2)) && e == op(was[s + 3], f(pos + 3))
    requires after == before[d := a][d + 1 := b][d + 2 := c][d + 3 := e]
    ensures Masks(op, f, pos, was, s, 4, before, d, after)
  {
    forall i | 0 <= i < |after| ensures MaskedAt(op, f, pos, was, s, 4, before, d, after, i) {
      assert i == d || i == d + 1 || i == d + 2 || i == d + 3 || after[i] == before[i];
    }
  }

  /** A stream laid out in blocks of 64. */
  lemma BlockOf<T>(f: nat -> T, g: (nat, nat) -> T, b: nat, i: nat)
    requires i < 64 && forall pos: nat :: f(pos) == g(pos / 64, pos % 64)
    ensures f(64 * b + i) == g(b, i)
  {
    assert (64 * b + i) / 64 == b && (64 * b + i) % 64 == i;
  }
}
