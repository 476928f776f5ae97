/** Length-prefixed frames over the stream cipher, with only the first bytes of a payload obfuscated if
    so configured: what the writer emits, what the reader makes of it, and that they stay in step. */
module Framing {
  import opened Buffers
  import opened ChaCha4
  import opened Octets

  const MAX_PACKET: nat := 65535

  // ---- the format ----------------------------------------------------------------------------------

  /** How many payload bytes are XORed. */
  function ObfsLen(head: int, n: nat): (m: nat)
    ensures m <= n
  {
    if 0 < head < n then head else n
  }

  /** A big-endian 16-bit length. */
  function Header(n: nat): (h: seq<Byte>)
    ensures |h| == 2
  {
    [Byte(((n / 256) % 256) as bv8), Byte((n % 256) as bv8)]
  }

  function Length(high: Byte, low: Byte): (n: nat)
    ensures n <= MAX_PACKET
  {
    (high.v as int) * 256 + low.v as int
  }

  /** High byte first. */
  lemma HeaderLayout(n: nat)
    ensures Header(n)[0].v as int == n / 256 % 256 && Header(n)[1].v as int == n % 256
  {
    ByteRoundTrip(n / 256 % 256);
    ByteRoundTrip(n % 256);
  }

  /** Exactly the lengths of packets survive their two bytes. */
  lemma HeaderRoundTrip(n: nat)
    ensures Length(Header(n)[0], Header(n)[1]) == n <==> n <= MAX_PACKET
  {
    HeaderLayout(n);
  }

  /** The frame of `p` when the keystream stands at `pos`. */
  ghost function FrameBytes(stream: Stream, pos: nat, head: int, p: seq<Byte>): (b: seq<Byte>)
    ensures |b| == 2 + |p|
  {
    var m := ObfsLen(head, |p|);
    Xor(stream, pos, Header(|p|)) + Xor(stream, pos + 2, p[..m]) + p[m..]
  }

  ghost function PosAfter(pos: nat, head: int, n: nat): nat {
    pos + 2 + ObfsLen(head, n)
  }

  /** Whether payload byte `i` is hidden: all are, unless a head length is set. */
  predicate Hidden(head: int, i: nat) {
    head <= 0 || i < head
  }

  /** A payload byte of a frame is XORed with its byte of the keystream if it is hidden, and in clear otherwise. */
  lemma FrameByte(stream: Stream, pos: nat, head: int, p: seq<Byte>, i: nat)
    requires i < |p|
    ensures FrameBytes(stream, pos, head, p)[2 + i]
         == if Hidden(head, i) then ByteXor(p[i], stream(pos + 2 + i)) else p[i]
  {
  }

  /** So are the two length bytes in front, always. */
  lemma FrameHeader(stream: Stream, pos: nat, head: int, p: seq<Byte>)
    ensures var b := FrameBytes(stream, pos, head, p);
            b[0] == ByteXor(Header(|p|)[0], stream(pos)) && b[1] == ByteXor(Header(|p|)[1], stream(pos + 1))
  {
  }

  /** How many of the first `n` payload bytes are hidden. */
  ghost function HiddenBytes(head: int, n: nat): nat {
    if n == 0 then 0 else HiddenBytes(head, n - 1) + if Hidden(head, n - 1) then 1 else 0
  }

  /** A frame takes two bytes of the keystream and one for each hidden byte. */
  lemma {:induction false} FrameAdvances(pos: nat, head: int, n: nat)
    ensures PosAfter(pos, head, n) == pos + 2 + HiddenBytes(head, n)
  {
    if n > 0 {
      FrameAdvances(pos, head, n - 1);
    }
  }

  /** What a reader makes of the bytes that arrive: a frame, a frame its buffer cannot hold, or the end. */
  datatype Reception = Got(payload: seq<Byte>, rest: seq<Byte>, pos: nat) | Short | Ended

  ghost function Receive(stream: Stream, pos: nat, head: int, input: seq<Byte>, room: nat): Reception {
    if room < 2 then Short
    else if |input| < 2 then Ended
    else
      var h, body := Xor(stream, pos, input[..2]), input[2..];
      var n := Length(h[0], h[1]);
      if n > room then Short
      else if |body| < n then Ended
      else
        var m := ObfsLen(head, n);
        Got(Xor(stream, pos + 2, body[..m]) + body[m..n], body[n..], PosAfter(pos, head, n))
  }

  /** One frame survives the trip, whatever follows it, and both ends have used the same keystream; only a buffer
      that cannot hold it refuses it. */
  lemma FrameRoundTrip(stream: Stream, pos: nat, head: int, p: seq<Byte>, rest: seq<Byte>, room: nat)
    requires |p| <= MAX_PACKET
    ensures Receive(stream, pos, head, FrameBytes(stream, pos, head, p) + rest, room)
         == if room < 2 || room < |p| then Short else Got(p, rest, PosAfter(pos, head, |p|))
  {
    var n, m, input := |p|, ObfsLen(head, |p|), FrameBytes(stream, pos, head, p) + rest;
    FrameParts(stream, pos, head, p, rest);
    XorTwice(stream, pos, Header(n));
    HeaderRoundTrip(n);
    XorTwice(stream, pos + 2, p[..m]);
    assert p[..m] + p[m..] == p;
  }

  lemma FrameParts(stream: Stream, pos: nat, head: int, p: seq<Byte>, rest: seq<Byte>)
    ensures var n, m, input := |p|, ObfsLen(head, |p|), FrameBytes(stream, pos, head, p) + rest;
            && input[..2] == Xor(stream, pos, Header(n)) && |input[2..]| >= n
            && input[2..][..m] == Xor(stream, pos + 2, p[..m])
            && input[2..][m..n] == p[m..] && input[2..][n..] == rest
  {
    var m := ObfsLen(head, |p|);
    FourParts(Xor(stream, pos, Header(|p|)), Xor(stream, pos + 2, p[..m]), p[m..], rest);
  }

  lemma FourParts<T>(a: seq<T>, b: seq<T>, c: seq<T>, d: seq<T>)
    ensures var all := a + b + c + d;
            && all[..|a|] == a && |all[|a|..]| == |b| + |c| + |d| && all[|a|..][..|b|] == b
            && all[|a|..][|b|..|b| + |c|] == c && all[|a|..][|b| + |c|..] == d
  {
  }

  // ---- whole streams -------------------------------------------------------------------------------

  ghost function StreamBytes(stream: Stream, pos: nat, head: int, frames: seq<seq<Byte>>): seq<Byte>
    decreases |frames|
  {
    if frames == [] then []
    else
      FrameBytes(stream, pos, head, frames[0])
      + StreamBytes(stream, PosAfter(pos, head, |frames[0]|), head, frames[1..])
  }

  /** Everything a reader gets before the stream ends. */
  ghost function Received(stream: Stream, pos: nat, head: int, input: seq<Byte>, room: nat): seq<seq<Byte>>
    decreases |input|
  {
    var r := Receive(stream, pos, head, input, room);
    if r.Got? then [r.payload] + Received(stream, r.pos, head, r.rest, room) else []
  }

  /** For every head length, all frames arrive, in order, and nothing else does. */
  lemma {:induction false} StreamRoundTrip(stream: Stream, pos: nat, head: int, frames: seq<seq<Byte>>, room: nat)
    requires room >= MAX_PACKET && forall i :: 0 <= i < |frames| ==> |frames[i]| <= MAX_PACKET
    ensures Received(stream, pos, head, StreamBytes(stream, pos, head, frames), room) == frames
    decreases |frames|
  {
    if frames != [] {
      var p, next := frames[0], PosAfter(pos, head, |frames[0]|);
      FrameRoundTrip(stream, pos, head, p, StreamBytes(stream, next, head, frames[1..]), room);
      StreamRoundTrip(stream, next, head, frames[1..], room);
      assert [p] + frames[1..] == frames;
    }
  }

  ghost function PosAfterAll(pos: nat, head: int, frames: seq<seq<Byte>>): nat
    decreases |frames|
  {
    if frames == [] then pos else PosAfterAll(PosAfter(pos, head, |frames[0]|), head, frames[1..])
  }

  /** Frames written in several batches are the frames written in one. */
  lemma {:induction false} StreamJoin(stream: Stream, pos: nat, head: int, a: seq<seq<Byte>>, b: seq<seq<Byte>>)
    ensures StreamBytes(stream, pos, head, a + b)
         == StreamBytes(stream, pos, head, a) + StreamBytes(stream, PosAfterAll(pos, head, a), head, b)
    ensures PosAfterAll(pos, head, a + b) == PosAfterAll(PosAfterAll(pos, head, a), head, b)
    decreases |a|
  {
    if a == [] {
      assert a + b == b;
    } else {
      assert (a + b)[1..] == a[1..] + b;
      StreamJoin(stream, PosAfter(pos, head, |a[0]|), head, a[1..], b);
    }
  }

  /** With no head limit a frame is what separate writes of header and payload would emit. */
  lemma HeadZeroIsPlain(stream: Stream, pos: nat, p: seq<Byte>)
    ensures FrameBytes(stream, pos, 0, p) == Xor(stream, pos, Header(|p|) + p)
    ensures PosAfter(pos, 0, |p|) == pos + |Header(|p|) + p|
  {
    MaskedSplit(ByteXor, stream, pos, Header(|p|), p);
    assert p[..|p|] == p && p[|p|..] == [];
  }

  // ---- the writer ----------------------------------------------------------------------------------

  lemma FrameLayout(stream: Stream, pos: nat, head: int, p: seq<Byte>, b1: seq<Byte>, b2: seq<Byte>, b3: seq<Byte>)
    requires |b1| >= 2 + |p| && b1[..2] == Xor(stream, pos, Header(|p|))
    requires Masks(ByteXor, stream, pos + 2, p, 0, ObfsLen(head, |p|), b1, 2, b2)
    requires |b3| == |b2| && forall i :: 0 <= i < 2 + ObfsLen(head, |p|) ==> b3[i] == b2[i]
    requires forall i :: ObfsLen(head, |p|) <= i < |p| ==> b3[2 + i] == p[i]
    ensures b3[..2 + |p|] == FrameBytes(stream, pos, head, p)
  {
    var m := ObfsLen(head, |p|);
    MasksSlice(ByteXor, stream, pos + 2, p, 0, m, b1, 2, b2);
    assert p[0..m] == p[..m];
    assert b2[..2] == b1[..2];
    assert Xor(stream, pos + 2, p[..m]) == b2[2..2 + m];
    assert b3[..2] == b1[..2] && b3[2..2 + m] == b2[2..2 + m] && b3[2 + m..2 + |p|] == p[m..];
    assert b3[..2 + |p|] == b3[..2] + b3[2..2 + m] + b3[2 + m..2 + |p|];
  }

  class FrameWriter {
    const c: Cipher
    const head: int
    var buf: array<Byte>
    /** What the underlying writer has taken. */
    var sent: seq<Byte>

    ghost predicate Valid()
      reads this, c, c.buf
    {
      c.Valid() && buf != c.buf
    }

    constructor (cipher: Cipher, head: int)
      requires cipher.Valid()
      ensures Valid() && c == cipher && this.head == head && sent == [] && fresh(buf)
    {
      c, this.head, sent := cipher, head, [];
      buf := new Byte[0](_ => Byte(0));
    }

    /** One frame through the reused scratch buffer; the writer below takes `taken` bytes of it, and an
        error is reported exactly when it does not take them all. */
    method WriteFrame(p: array<Byte>, taken: nat) returns (ok: bool)
      requires Valid() && p.Length <= MAX_PACKET && p != buf && p != c.buf
      modifies this, buf, c, c.buf
      ensures Valid() && c.Pos() == PosAfter(old(c.Pos()), head, p.Length)
      ensures ok <==> taken >= 2 + p.Length
      ensures sent == old(sent)
                      + FrameBytes(c.stream, old(c.Pos()), head, old(p[..]))[..if ok then 2 + p.Length else taken]
      ensures buf == old(buf) || fresh(buf)
    {
      var need := 2 + p.Length;
      if buf.Length < need {
        buf := new Byte[need](_ => Byte(0));
      }
      Build(p);
      ok := taken >= need;
      sent := sent + buf[..need][..if ok then need else taken];
    }

    /** Builds the frame in the scratch buffer. */
    method Build(p: array<Byte>)
      requires Valid() && 2 + p.Length <= buf.Length && p != buf && p != c.buf
      modifies buf, c, c.buf
      ensures Valid() && c.Pos() == PosAfter(old(c.Pos()), head, p.Length)
      ensures buf[..2 + p.Length] == FrameBytes(c.stream, old(c.Pos()), head, p[..])
    {
      ghost var pos := c.Pos();
      BuildHeader(p.Length);
      ghost var b1 := buf[..];
      var m := ObfsLen(head, p.Length);
      c.XORKeyStream(buf, 2, p, 0, m);
      ghost var b2 := buf[..];
      CopyTail(buf, p, m);
      FrameLayout(c.stream, pos, head, p[..], b1, b2, buf[..]);
    }

    /** The obfuscated length at the front of the scratch buffer. */
    method BuildHeader(n: nat)
      requires Valid() && 2 <= buf.Length
      modifies buf, c, c.buf
      ensures Valid() && c.Pos() == old(c.Pos()) + 2
      ensures buf[..][..2] == Xor(c.stream, old(c.Pos()), Header(n))
    {
      ghost var pos := c.Pos();
      var h := Header(n);
      buf[0], buf[1] := h[0], h[1];
      ghost var b0 := buf[..];
      c.XORKeyStream(buf, 0, buf, 0, 2);
      MasksSlice(ByteXor, c.stream, pos, b0, 0, 2, b0, 0, buf[..]);
      assert b0[0..2] == h;
    }

    /** The whole of `p` XORed into the scratch buffer. */
    method Mask(p: array<Byte>)
      requires Valid() && p.Length <= buf.Length && p != buf && p != c.buf
      modifies buf, c, c.buf
      ensures Valid() && c.Pos() == old(c.Pos()) + p.Length
      ensures buf[..p.Length] == Xor(c.stream, old(c.Pos()), p[..])
    {
      ghost var pos, data, b0 := c.Pos(), p[..], buf[..];
      c.XORKeyStream(buf, 0, p, 0, p.Length);
      MasksSlice(ByteXor, c.stream, pos, data, 0, p.Length, b0, 0, buf[..]);
      assert data[0..p.Length] == data;
    }

    /** Everything XORed, no framing; the writer below takes `taken` bytes, and an error is reported exactly
        when it does not take them all. */
    method Write(p: array<Byte>, taken: nat) returns (n: nat, ok: bool)
      requires Valid() && p != buf && p != c.buf
      modifies this, buf, c, c.buf
      ensures Valid() && c.Pos() == old(c.Pos()) + p.Length
      ensures (ok <==> taken >= p.Length) && n == if ok then p.Length else taken
      ensures sent == old(sent) + Xor(c.stream, old(c.Pos()), old(p[..]))[..n]
      ensures buf == old(buf) || fresh(buf)
    {
      if buf.Length < p.Length {
        buf := new Byte[p.Length](_ => Byte(0));
      }
      Mask(p);
      ok := taken >= p.Length;
      n := if ok then p.Length else taken;
      sent := sent + buf[..p.Length][..n];
    }
  }

  method CopyTail(dst: array<Byte>, p: array<Byte>, m: nat)
    requires m <= p.Length && 2 + p.Length <= dst.Length && dst != p
    modifies dst
    ensures forall i :: 0 <= i < 2 + m ==> dst[..][i] == old(dst[..])[i]
    ensures forall i :: m <= i < p.Length ==> dst[..][2 + i] == p[..][i]
  {
    forall i | m <= i < p.Length {
      dst[2 + i] := p[i];
    }
  }

  /** The entry point: refuses a packet the length field cannot hold, and otherwise delegates to a writer that
      takes `taken` bytes. */
  method SendFrame(w: FrameWriter, p: array<Byte>, taken: nat) returns (ok: bool)
    requires w.Valid() && p != w.buf && p != w.c.buf
    modifies w, w.buf, w.c, w.c.buf
    ensures w.Valid() && (ok <==> p.Length <= MAX_PACKET && taken >= 2 + p.Length)
    ensures w.buf == old(w.buf) || fresh(w.buf)
    ensures p.Length > MAX_PACKET ==> w.sent == old(w.sent) && w.c.Pos() == old(w.c.Pos())
    ensures p.Length <= MAX_PACKET ==>
              && w.c.Pos() == PosAfter(old(w.c.Pos()), w.head, p.Length)
              && w.sent == old(w.sent)
                   + FrameBytes(w.c.stream, old(w.c.Pos()), w.head, old(p[..]))[..if ok then 2 + p.Length else taken]
  {
    if p.Length > MAX_PACKET {
      return false;
    }
    ok := w.WriteFrame(p, taken);
  }

  /** What has been sent after two writes of which the writer takes `first` and `second` bytes. */
  ghost function Grown(was: seq<Byte>, a: seq<Byte>, b: seq<Byte>, first: nat, second: nat): seq<Byte> {
    if first < |a| then was + a[..first] else was + a[..|a|] + b[..if second < |b| then second else |b|]
  }

  /** One write after another, as far as the first succeeds. */
  method SendBoth(w: FrameWriter, a: array<Byte>, b: array<Byte>, first: nat, second: nat) returns (ok: bool)
    requires w.Valid() && a != w.buf && a != w.c.buf && b != w.buf && b != w.c.buf
    modifies w, w.buf, w.c, w.c.buf
    ensures w.Valid() && (ok <==> first >= a.Length && second >= b.Length)
    ensures ok ==> w.c.Pos() == old(w.c.Pos()) + a.Length + b.Length
    ensures w.sent == Grown(old(w.sent), Xor(w.c.stream, old(w.c.Pos()), old(a[..])),
                            Xor(w.c.stream, old(w.c.Pos()) + a.Length, old(b[..])), first, second)
  {
    var n;
    n, ok := w.Write(a, first);
    if ok {
      n, ok := w.Write(b, second);
    }
  }

  /** What was sent has grown by as much of the frame as the two writes took. */
  ghost predicate Begins(frame: seq<Byte>, was: seq<Byte>, sent: seq<Byte>, first: nat, second: nat) {
    var k := if first < 2 then first else 2 + second;
    sent == was + if k < |frame| then frame[..k] else frame
  }

  lemma GrownBegins(was: seq<Byte>, a: seq<Byte>, b: seq<Byte>, first: nat, second: nat)
    requires |a| == 2
    ensures Begins(a + b, was, Grown(was, a, b, first, second), first, second)
  {
    if first < 2 {
      assert (a + b)[..first] == a[..first];
    } else if second < |b| {
      assert (a + b)[..2 + second] == a[..2] + b[..second];
    } else {
      assert a + b == a[..2] + b[..|b|];
    }
  }

  lemma PlainFrame(stream: Stream, pos: nat, p: seq<Byte>)
    requires |p| <= MAX_PACKET
    ensures FrameBytes(stream, pos, 0, p) == Xor(stream, pos, Header(|p|)) + Xor(stream, pos + 2, p)
    ensures PosAfter(pos, 0, |p|) == pos + 2 + |p|
  {
    HeadZeroIsPlain(stream, pos, p);
    MaskedSplit(ByteXor, stream, pos, Header(|p|), p);
  }

  method MakeHeader(n: nat) returns (hdr: array<Byte>)
    requires n <= MAX_PACKET
    ensures fresh(hdr) && hdr[..] == Header(n)
  {
    var h := Header(n);
    hdr := new Byte[2](i requires 0 <= i < 2 => h[i]);
    assert hdr[..] == h;
  }

  /** The path for writers that cannot frame: header and payload as two writes. What gets out is the frame
      with head zero, or a beginning of it. */
  method SendPlain(w: FrameWriter, p: array<Byte>, first: nat, second: nat) returns (ok: bool)
    requires w.Valid() && p != w.buf && p != w.c.buf
    modifies w, w.buf, w.c, w.c.buf
    ensures w.Valid() && (ok <==> p.Length <= MAX_PACKET && first >= 2 && second >= p.Length)
    ensures if p.Length > MAX_PACKET then w.sent == old(w.sent)
            else Begins(FrameBytes(w.c.stream, old(w.c.Pos()), 0, old(p[..])), old(w.sent), w.sent, first, second)
    ensures ok ==> w.c.Pos() == PosAfter(old(w.c.Pos()), 0, p.Length)
  {
    if p.Length > MAX_PACKET {
      return false;
    }
    ghost var stream, pos, h, data := w.c.stream, w.c.Pos(), Header(p.Length), p[..];
    var hdr := MakeHeader(p.Length);
    ok := SendBoth(w, hdr, p, first, second);
    PlainFrame(stream, pos, data);
    GrownBegins(old(w.sent), Xor(stream, pos, h), Xor(stream, pos + 2, data), first, second);
  }

  // ---- the reader ----------------------------------------------------------------------------------

  class FrameReader {
    const c: Cipher
    const head: int
    /** What the underlying reader still has to give. */
    var input: seq<Byte>

    ghost predicate Valid()
      reads this, c, c.buf
    {
      c.Valid()
    }

    constructor (cipher: Cipher, head: int, bytes: seq<Byte>)
      requires cipher.Valid()
      ensures Valid() && c == cipher && this.head == head && input == bytes
    {
      c, this.head, input := cipher, head, bytes;
    }

    /** Fills the front of `buf`, or runs out. */
    method ReadFull(buf: array<Byte>, n: nat) returns (ok: bool)
      requires n <= buf.Length
      modifies this`input, buf
      ensures ok <==> n <= |old(input)|
      ensures ok ==> input == old(input)[n..] && forall i :: 0 <= i < n ==> buf[..][i] == old(input)[i]
    {
      ok := n <= |input|;
      var k := if ok then n else |input|;
      forall i | 0 <= i < k {
        buf[i] := input[i];
      }
      input := input[k..];
    }

    /** The length, de-obfuscated at the front of `buf`. */
    method ReadLength(buf: array<Byte>) returns (n: nat, ok: bool)
      requires Valid() && buf != c.buf && buf.Length >= 2
      modifies this`input, buf, c, c.buf
      ensures ok <==> |old(input)| >= 2
      ensures ok ==> Valid() && c.Pos() == old(c.Pos()) + 2 && input == old(input)[2..]
      ensures ok ==> n == Length(Xor(c.stream, old(c.Pos()), old(input)[..2])[0],
                                 Xor(c.stream, old(c.Pos()), old(input)[..2])[1])
    {
      ghost var pos, start := c.Pos(), input;
      n := 0;
      ok := ReadFull(buf, 2);
      if ok {
        ghost var b0 := buf[..];
        c.XORKeyStream(buf, 0, buf, 0, 2);
        HeaderRead(c.stream, pos, start, b0, buf[..]);
        n := Length(buf[0], buf[1]);
      }
    }

    /** The payload, its head de-obfuscated. */
    method ReadPayload(buf: array<Byte>, n: nat) returns (ok: bool)
      requires Valid() && buf != c.buf && n <= buf.Length
      modifies this`input, buf, c, c.buf
      ensures ok <==> |old(input)| >= n
      ensures ok ==> Valid() && c.Pos() == old(c.Pos()) + ObfsLen(head, n) && input == old(input)[n..]
      ensures var m := ObfsLen(head, n);
              ok ==> buf[..n] == Xor(c.stream, old(c.Pos()), old(input)[..m]) + old(input)[m..n]
    {
      ghost var pos, start := c.Pos(), input;
      ok := ReadFull(buf, n);
      if ok {
        ghost var b1 := buf[..];
        var m := ObfsLen(head, n);
        c.XORKeyStream(buf, 0, buf, 0, m);
        PayloadRead(c.stream, pos, start, n, m, b1, buf[..]);
      }
    }

    /** Reads one frame: what `Receive` says, with the payload at the front of `buf`. */
    method ReadFrame(buf: array<Byte>) returns (n: nat, ghost r: Reception, ok: bool)
      requires Valid() && buf != c.buf
      modifies this`input, buf, c, c.buf
      ensures r == Receive(c.stream, old(c.Pos()), head, old(input), buf.Length) && (ok <==> r.Got?)
      ensures ok ==> n <= buf.Length && buf[..n] == r.payload && input == r.rest && Valid() && c.Pos() == r.pos
    {
      ghost var start, pos := input, c.Pos();
      r := Receive(c.stream, pos, head, start, buf.Length);
      n, ok := 0, false;
      if buf.Length < 2 {
        return;
      }
      n, ok := ReadLength(buf);
      if !ok {
        return;
      }
      ReceiveLength(c.stream, pos, head, start, buf.Length, n);
      if n > buf.Length {
        return n, r, false;
      }
      ok := ReadPayload(buf, n);
    }
  }

  /** What `Receive` makes of a length that has been read. */
  lemma ReceiveLength(stream: Stream, pos: nat, head: int, input: seq<Byte>, room: nat, n: nat)
    requires room >= 2 && |input| >= 2
    requires n == Length(Xor(stream, pos, input[..2])[0], Xor(stream, pos, input[..2])[1])
    ensures Receive(stream, pos, head, input, room)
         == if n > room then Short
            else if |input[2..]| < n then Ended
            else Got(Xor(stream, pos + 2, input[2..][..ObfsLen(head, n)]) + input[2..][ObfsLen(head, n)..n],
                     input[2..][n..], pos + 2 + ObfsLen(head, n))
  {
  }

  lemma HeaderRead(stream: Stream, pos: nat, input: seq<Byte>, b0: seq<Byte>, b1: seq<Byte>)
    requires |input| >= 2 && |b0| >= 2 && (forall i :: 0 <= i < 2 ==> b0[i] == input[i])
    requires Masks(ByteXor, stream, pos, b0, 0, 2, b0, 0, b1)
    ensures var h := Xor(stream, pos, input[..2]); b1[0] == h[0] && b1[1] == h[1]
  {
    assert b0[0..2] == input[..2];
    MasksSlice(ByteXor, stream, pos, b0, 0, 2, b0, 0, b1);
  }

  lemma PayloadRead(stream: Stream, pos: nat, input: seq<Byte>, n: nat, m: nat, b1: seq<Byte>, b2: seq<Byte>)
    requires m <= n <= |b1| && n <= |input| && (forall i :: 0 <= i < n ==> b1[i] == input[i])
    requires Masks(ByteXor, stream, pos, b1, 0, m, b1, 0, b2)
    ensures b2[..n] == Xor(stream, pos, input[..m]) + input[m..n]
  {
    MasksSlice(ByteXor, stream, pos, b1, 0, m, b1, 0, b2);
    assert b1[0..m] == input[..m] && b1[m..n] == input[m..n];
    assert b2[..n] == b2[..m] + b2[m..n];
  }
}
