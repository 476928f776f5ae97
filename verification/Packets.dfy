/** Sealed datagrams and the routing envelope, and what a whole sender-to-receiver trip delivers. */
module Packets {
  import opened Common
  import opened Buffers
  import opened ChaCha4
  import opened Framing

  ghost function StreamFor(key: seq<Byte>, nonce: seq<Byte>): Stream
    requires |key| == KEY_LEN && |nonce| == NONCE_LEN
  {
    Seed(QuarterRound, Words(key, 8), Words(nonce, 3)).Stream()
  }

  // ---- datagrams -----------------------------------------------------------------------------------

  ghost function Sealed(key: seq<Byte>, head: int, nonce: seq<Byte>, payload: seq<Byte>): (d: seq<Byte>)
    requires |key| == KEY_LEN && |nonce| == NONCE_LEN
    ensures |d| == NONCE_LEN + |payload|
  {
    var n := ObfsLen(head, |payload|);
    nonce + Xor(StreamFor(key, nonce), 0, payload[..n]) + payload[n..]
  }

  ghost function Opened(key: seq<Byte>, head: int, datagram: seq<Byte>): Option<seq<Byte>>
    requires |key| == KEY_LEN
  {
    if |datagram| < NONCE_LEN then None
    else
      var body := datagram[NONCE_LEN..];
      var n := ObfsLen(head, |body|);
      Some(Xor(StreamFor(key, datagram[..NONCE_LEN]), 0, body[..n]) + body[n..])
  }

  /** A datagram is the nonce and then the payload, each byte hidden or in clear. */
  lemma SealedByte(key: seq<Byte>, head: int, nonce: seq<Byte>, payload: seq<Byte>, i: nat)
    requires |key| == KEY_LEN && |nonce| == NONCE_LEN && i < |payload|
    ensures var d := Sealed(key, head, nonce, payload);
            && d[..NONCE_LEN] == nonce
            && d[NONCE_LEN + i] == if Hidden(head, i) then ByteXor(payload[i], StreamFor(key, nonce)(i)) else payload[i]
  {
  }

  /** Opening a sealed datagram gives the payload back, for any nonce and head length. */
  lemma OpenSealed(key: seq<Byte>, head: int, nonce: seq<Byte>, payload: seq<Byte>)
    requires |key| == KEY_LEN && |nonce| == NONCE_LEN
    ensures Opened(key, head, Sealed(key, head, nonce, payload)) == Some(payload)
  {
    var n, d := ObfsLen(head, |payload|), Sealed(key, head, nonce, payload);
    Parts(nonce, Xor(StreamFor(key, nonce), 0, payload[..n]), payload[n..]);
    XorTwice(StreamFor(key, nonce), 0, payload[..n]);
    assert payload[..n] + payload[n..] == payload;
  }

  lemma Parts<T>(a: seq<T>, b: seq<T>, c: seq<T>)
    ensures var d := a + b + c; d[..|a|] == a && d[|a|..][..|b|] == b && d[|a|..][|b|..] == c && |d[|a|..]| == |b| + |c|
  {
  }

  lemma Assemble(stream: Stream, nonce: seq<Byte>, payload: seq<Byte>, n: nat, s: nat, was: seq<Byte>, a: seq<Byte>,
                 b: seq<Byte>)
    requires |nonce| == NONCE_LEN && n <= |payload| && |a| >= NONCE_LEN + |payload| && s + |payload| <= |was|
    requires Masks(ByteXor, stream, 0, was, s, n, a, NONCE_LEN, b) && was[s..s + |payload|] == payload
    requires a[..NONCE_LEN] == nonce && a[NONCE_LEN + n..NONCE_LEN + |payload|] == payload[n..]
    ensures b[..NONCE_LEN + |payload|] == nonce + Xor(stream, 0, payload[..n]) + payload[n..]
  {
    MasksSlice(ByteXor, stream, 0, was, s, n, a, NONCE_LEN, b);
    assert was[s..s + n] == payload[..n];
  }

  method WriteNonce(dst: array<Byte>, nonce: seq<Byte>)
    requires |nonce| == NONCE_LEN <= dst.Length
    modifies dst
    ensures dst[..NONCE_LEN] == nonce && dst[NONCE_LEN..] == old(dst[NONCE_LEN..])
  {
    forall i | 0 <= i < NONCE_LEN {
      dst[i] := nonce[i];
    }
  }

  method CopyBody(dst: array<Byte>, payload: array<Byte>)
    requires NONCE_LEN + payload.Length <= dst.Length && dst != payload
    modifies dst
    ensures dst[..NONCE_LEN] == old(dst[..NONCE_LEN]) && dst[NONCE_LEN..NONCE_LEN + payload.Length] == payload[..]
  {
    forall i | 0 <= i < payload.Length {
      dst[NONCE_LEN + i] := payload[i];
    }
  }

  /** Seals into `dst` if it is large enough, else into a new buffer. */
  method Seal(key: seq<Byte>, head: int, nonce: seq<Byte>, dst: array<Byte>, payload: array<Byte>)
    returns (out: array<Byte>)
    requires |key| == KEY_LEN && |nonce| == NONCE_LEN && dst != payload
    modifies dst
    ensures out == dst || fresh(out)
    ensures out.Length >= NONCE_LEN + payload.Length
    ensures out[..NONCE_LEN + payload.Length] == Sealed(key, head, nonce, payload[..])
  {
    var need := NONCE_LEN + payload.Length;
    out := dst;
    if dst.Length < need {
      out := new Byte[need](_ => Byte(0));
    }
    WriteNonce(out, nonce);
    CopyBody(out, payload);
    ghost var a, data := out[..], payload[..];
    var n := ObfsLen(head, payload.Length);
    var c := new Cipher(key, nonce);
    c.XORKeyStream(out, NONCE_LEN, payload, 0, n);
    assert a[..NONCE_LEN] == nonce && a[NONCE_LEN + n..need] == a[NONCE_LEN..need][n..];
    assert data[0..|data|] == data;
    Assemble(c.stream, nonce, data, n, 0, data, a, out[..]);
  }

  /** Seals a datagram whose body already sits behind the nonce: the same bytes as `Seal`. */
  method SealInPlace(key: seq<Byte>, head: int, nonce: seq<Byte>, region: array<Byte>) returns (ok: bool)
    requires |key| == KEY_LEN && |nonce| == NONCE_LEN
    modifies region
    ensures ok <==> region.Length >= NONCE_LEN
    ensures ok ==> region[..] == Sealed(key, head, nonce, old(region[..])[NONCE_LEN..])
    ensures !ok ==> region[..] == old(region[..])
  {
    if region.Length < NONCE_LEN {
      return false;
    }
    ghost var body := region[..][NONCE_LEN..];
    WriteNonce(region, nonce);
    ghost var a := region[..];
    assert a[NONCE_LEN..] == body;
    var n := ObfsLen(head, region.Length - NONCE_LEN);
    var c := new Cipher(key, nonce);
    c.XORKeyStream(region, NONCE_LEN, region, NONCE_LEN, n);
    assert a[NONCE_LEN + n..NONCE_LEN + |body|] == body[n..] && a[NONCE_LEN..NONCE_LEN + |body|] == body;
    Assemble(c.stream, nonce, body, n, NONCE_LEN, a, a, region[..]);
    assert region[..NONCE_LEN + |body|] == region[..];
    ok := true;
  }

  /** Opens a datagram in place. */
  method Open(key: seq<Byte>, head: int, datagram: array<Byte>) returns (ok: bool)
    requires |key| == KEY_LEN
    modifies datagram
    ensures ok <==> Opened(key, head, old(datagram[..])).Some?
    ensures ok ==> datagram.Length >= NONCE_LEN
    ensures ok ==> datagram[..][NONCE_LEN..] == Opened(key, head, old(datagram[..])).value
  {
    if datagram.Length < NONCE_LEN {
      return false;
    }
    ghost var a := datagram[..];
    var nonce := datagram[..][..NONCE_LEN];
    var n := ObfsLen(head, datagram.Length - NONCE_LEN);
    var c := new Cipher(key, nonce);
    c.XORKeyStream(datagram, NONCE_LEN, datagram, NONCE_LEN, n);
    OpenLayout(c.stream, a, n, datagram[..]);
    ok := true;
  }

  lemma OpenLayout(stream: Stream, a: seq<Byte>, n: nat, b: seq<Byte>)
    requires |a| >= NONCE_LEN + n && Masks(ByteXor, stream, 0, a, NONCE_LEN, n, a, NONCE_LEN, b)
    ensures |b| == |a| && b[NONCE_LEN..] == Xor(stream, 0, a[NONCE_LEN..][..n]) + a[NONCE_LEN..][n..]
  {
    MasksSlice(ByteXor, stream, 0, a, NONCE_LEN, n, a, NONCE_LEN, b);
    assert a[NONCE_LEN..][..n] == a[NONCE_LEN..NONCE_LEN + n] && a[NONCE_LEN..][n..] == a[NONCE_LEN + n..];
  }

  // ---- the envelope --------------------------------------------------------------------------------

  const OWNER_LEN: nat := 4
  const ENVELOPE_LEN: nat := 5

  datatype Envelope = Envelope(owner: seq<Byte>, processed: bool)

  function PutEnvelope(e: Envelope, inner: seq<Byte>): (b: seq<Byte>)
    requires |e.owner| == OWNER_LEN
    ensures |b| == ENVELOPE_LEN + |inner|
  {
    e.owner + [Byte(if e.processed then 1 else 0)] + inner
  }

  function ParseEnvelope(blob: seq<Byte>): Option<(Envelope, seq<Byte>)> {
    if |blob| < ENVELOPE_LEN then None
    else Some((Envelope(blob[..OWNER_LEN], blob[OWNER_LEN].v & 1 != 0), blob[ENVELOPE_LEN..]))
  }

  lemma EnvelopeRoundTrip(e: Envelope, inner: seq<Byte>)
    requires |e.owner| == OWNER_LEN
    ensures ParseEnvelope(PutEnvelope(e, inner)) == Some((e, inner))
  {
    var b := PutEnvelope(e, inner);
    assert b[..OWNER_LEN] == e.owner && b[ENVELOPE_LEN..] == inner;
    assert (1 as bv8) & 1 != 0 && (0 as bv8) & 1 == 0;
  }

  /** The owner's four bytes, a byte that is one exactly for a processed packet, and the packet. */
  lemma EnvelopeLayout(e: Envelope, inner: seq<Byte>)
    requires |e.owner| == 4
    ensures var b := PutEnvelope(e, inner);
            b[..4] == e.owner && (b[4] == if e.processed then Byte(1) else Byte(0)) && b[5..] == inner
  {
  }

  /** Re-enveloping a parsed blob gives it back exactly when its flag byte carries no other bit. */
  lemma EnvelopeCanonical(blob: seq<Byte>)
    requires |blob| >= ENVELOPE_LEN
    ensures PutEnvelope(ParseEnvelope(blob).value.0, ParseEnvelope(blob).value.1) == blob
       <==> blob[OWNER_LEN].v == 0 || blob[OWNER_LEN].v == 1
  {
    var parsed := ParseEnvelope(blob).value;
    var b := PutEnvelope(parsed.0, parsed.1);
    assert b[OWNER_LEN] == Byte(if blob[OWNER_LEN].v & 1 != 0 then 1 else 0);
    FlagBit(blob[OWNER_LEN].v);
    if blob[OWNER_LEN].v == 0 || blob[OWNER_LEN].v == 1 {
      assert blob == blob[..OWNER_LEN] + [blob[OWNER_LEN]] + blob[ENVELOPE_LEN..];
    }
  }

  lemma FlagBit(v: bv8)
    ensures (if v & 1 != 0 then 1 else 0 as bv8) == v <==> v == 0 || v == 1
  {
  }
}
