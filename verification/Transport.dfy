/** A stream link end to end: envelopes batched by the write buffer, framed and obfuscated, then read,
    de-obfuscated and parsed at the far end. */
module Transport {
  import opened Common
  import opened ChaCha4
  import opened Framing
  import opened Packets
  import opened WriteBuffer

  /** The largest payload whose envelope still fits a frame. */
  const MAX_PAYLOAD: nat := 65530

  datatype Message = Message(envelope: Envelope, inner: seq<Byte>)

  predicate Fits(m: Message) {
    |m.envelope.owner| == OWNER_LEN && |m.inner| <= MAX_PAYLOAD
  }

  // ---- sending -------------------------------------------------------------------------------------

  /** The writer below takes the whole frame of a view. */
  predicate Goes(v: seq<Byte>, taken: nat) {
    |v| <= MAX_PACKET && 2 + |v| <= taken
  }

  /** How many views are framed whole: all before the first that is too large or written short. */
  ghost function Whole(views: seq<seq<Byte>>, taken: seq<nat>): (k: nat)
    requires |taken| == |views|
    ensures k <= |views| && (forall i :: 0 <= i < k ==> Goes(views[i], taken[i]))
    ensures k < |views| ==> !Goes(views[k], taken[k])
    decreases |views|
  {
    if views == [] || !Goes(views[0], taken[0]) then 0 else 1 + Whole(views[1..], taken[1..])
  }

  /** What is on the wire of the first `k` views, and of the one after them as much as the writer took. */
  ghost function CutStream(stream: Stream, pos: nat, head: int, views: seq<seq<Byte>>, taken: seq<nat>, k: nat)
    : seq<Byte>
    requires k <= |views| == |taken|
  {
    StreamBytes(stream, pos, head, views[..k]) +
    if k == |views| then []
    else Cut(views[k], FrameBytes(stream, PosAfterAll(pos, head, views[..k]), head, views[k]), taken[k])
  }

  /** What is written of a view's frame: nothing if it is too large, otherwise as much as the writer takes. */
  ghost function Cut(v: seq<Byte>, frame: seq<Byte>, taken: nat): seq<Byte> {
    if |v| > MAX_PACKET then [] else if taken < |frame| then frame[..taken] else frame
  }

  /** The flush function of a connected stream: frames every view, in order, and stops at one that is too large or
      is written short, with a beginning of its frame on the wire; `taken` is what the writer below takes of each. */
  method FlushViews(w: FrameWriter, views: seq<seq<Byte>>, taken: seq<nat>) returns (ok: bool)
    requires w.Valid() && |taken| == |views|
    modifies w, w.buf, w.c, w.c.buf
    ensures ok <==> Whole(views, taken) == |views|
    ensures w.sent == old(w.sent) + CutStream(w.c.stream, old(w.c.Pos()), w.head, views, taken, Whole(views, taken))
    ensures ok ==> w.Valid() && w.c.Pos() == PosAfterAll(old(w.c.Pos()), w.head, views)
  {
    ghost var pos, sent := w.c.Pos(), w.sent;
    for i := 0 to |views|
      invariant (w.buf == old(w.buf) || fresh(w.buf)) && FlushedTo(w, pos, sent, views[..i])
      invariant i <= Whole(views, taken)
    {
      var whole := NextView(w, pos, sent, views, taken, i);
      if !whole {
        return false;
      }
    }
    assert views[..|views|] == views;
    ok := true;
  }

  /** `w` has sent the frames of `views` since it stood at `pos` with `sent` on the wire. */
  ghost predicate FlushedTo(w: FrameWriter, pos: nat, sent: seq<Byte>, views: seq<seq<Byte>>)
    reads w, w.c, w.c.buf
  {
    && w.Valid() && w.sent == sent + StreamBytes(w.c.stream, pos, w.head, views)
    && w.c.Pos() == PosAfterAll(pos, w.head, views)
  }

  method NextView(w: FrameWriter, ghost pos: nat, ghost sent: seq<Byte>, views: seq<seq<Byte>>, taken: seq<nat>, i: nat)
    returns (ok: bool)
    requires i < |views| == |taken| && FlushedTo(w, pos, sent, views[..i])
    modifies w, w.buf, w.c, w.c.buf
    ensures (w.buf == old(w.buf) || fresh(w.buf)) && (ok <==> Goes(views[i], taken[i]))
    ensures ok ==> FlushedTo(w, pos, sent, views[..i + 1])
    ensures !ok ==> w.sent == sent + CutStream(w.c.stream, pos, w.head, views, taken, i)
  {
    ghost var frame := FrameBytes(w.c.stream, w.c.Pos(), w.head, views[i]);
    OneMore(w.c.stream, pos, w.head, views, i);
    ok := SendView(w, views[i], taken[i]);
    if ok {
      Regroup(sent, StreamBytes(w.c.stream, pos, w.head, views[..i]), frame);
    } else {
      Regroup(sent, StreamBytes(w.c.stream, pos, w.head, views[..i]), Cut(views[i], frame, taken[i]));
    }
  }

  method SendView(w: FrameWriter, v: seq<Byte>, taken: nat) returns (ok: bool)
    requires w.Valid()
    modifies w, w.buf, w.c, w.c.buf
    ensures w.Valid() && (w.buf == old(w.buf) || fresh(w.buf)) && (ok <==> Goes(v, taken))
    ensures w.sent == old(w.sent) + Cut(v, FrameBytes(w.c.stream, old(w.c.Pos()), w.head, v), taken)
    ensures ok ==> w.c.Pos() == PosAfter(old(w.c.Pos()), w.head, |v|)
  {
    var p := new Byte[|v|](k requires 0 <= k < |v| => v[k]);
    assert p[..] == v;
    ok := SendFrame(w, p, taken);
  }

  lemma OneMore(stream: Stream, pos: nat, head: int, views: seq<seq<Byte>>, i: nat)
    requires i < |views|
    ensures StreamBytes(stream, pos, head, views[..i + 1])
         == StreamBytes(stream, pos, head, views[..i])
            + FrameBytes(stream, PosAfterAll(pos, head, views[..i]), head, views[i])
    ensures PosAfterAll(pos, head, views[..i + 1]) == PosAfter(PosAfterAll(pos, head, views[..i]), head, |views[i]|)
  {
    assert views[..i + 1] == views[..i] + [views[i]];
    StreamJoin(stream, pos, head, views[..i], [views[i]]);
    OneFrame(stream, PosAfterAll(pos, head, views[..i]), head, views[i]);
  }

  lemma OneFrame(stream: Stream, pos: nat, head: int, p: seq<Byte>)
    ensures StreamBytes(stream, pos, head, [p]) == FrameBytes(stream, pos, head, p)
    ensures PosAfterAll(pos, head, [p]) == PosAfter(pos, head, |p|)
  {
    assert [p][1..] == [];
    assert StreamBytes(stream, PosAfter(pos, head, |p|), head, []) == [];
    assert PosAfterAll(PosAfter(pos, head, |p|), head, []) == PosAfter(pos, head, |p|);
  }

  /** The bytes of successive flushes. */
  ghost function WireBytes(stream: Stream, pos: nat, head: int, batches: seq<seq<seq<Byte>>>): seq<Byte>
    decreases |batches|
  {
    if batches == [] then []
    else
      var k := |batches| - 1;
      WireBytes(stream, pos, head, batches[..k])
      + StreamBytes(stream, PosAfterAll(pos, head, Flatten(batches[..k])), head, batches[k])
  }

  /** How packets were batched does not show on the wire. */
  lemma {:induction false} BatchingInvisible(stream: Stream, pos: nat, head: int, batches: seq<seq<seq<Byte>>>)
    ensures WireBytes(stream, pos, head, batches) == StreamBytes(stream, pos, head, Flatten(batches))
    decreases |batches|
  {
    if batches != [] {
      var k := |batches| - 1;
      BatchingInvisible(stream, pos, head, batches[..k]);
      StreamJoin(stream, pos, head, Flatten(batches[..k]), batches[k]);
    }
  }

  /** What a connection puts on the wire: its nonce, then its flushes. */
  ghost function Connection(key: seq<Byte>, nonce: seq<Byte>, head: int, batches: seq<seq<seq<Byte>>>): seq<Byte>
    requires |key| == KEY_LEN && |nonce| == NONCE_LEN
  {
    nonce + WireBytes(StreamFor(key, nonce), 0, head, batches)
  }

  // ---- receiving -----------------------------------------------------------------------------------

  /** The messages in a run of frames; a frame too short for an envelope is dropped. */
  ghost function Parsed(frames: seq<seq<Byte>>): seq<Message> {
    if frames == [] then []
    else
      var rest, m := Parsed(frames[1..]), ParseEnvelope(frames[0]);
      if m.Some? then [Message(m.value.0, m.value.1)] + rest else rest
  }

  ghost function Delivered(key: seq<Byte>, head: int, input: seq<Byte>, room: nat): seq<Message>
    requires |key| == KEY_LEN
  {
    if |input| < NONCE_LEN then []
    else Parsed(Received(StreamFor(key, input[..NONCE_LEN]), 0, head, input[NONCE_LEN..], room))
  }

  function Blob(m: Message): seq<Byte>
    requires Fits(m)
  {
    PutEnvelope(m.envelope, m.inner)
  }

  ghost function Blobs(ms: seq<Message>): (b: seq<seq<Byte>>)
    requires forall i :: 0 <= i < |ms| ==> Fits(ms[i])
    ensures |b| == |ms|
  {
    seq(|ms|, i requires 0 <= i < |ms| => Blob(ms[i]))
  }

  lemma {:induction false} ParsedBlobs(ms: seq<Message>)
    requires forall i :: 0 <= i < |ms| ==> Fits(ms[i])
    ensures Parsed(Blobs(ms)) == ms
    decreases |ms|
  {
    if ms != [] {
      EnvelopeRoundTrip(ms[0].envelope, ms[0].inner);
      assert Blobs(ms)[1..] == Blobs(ms[1..]);
      ParsedBlobs(ms[1..]);
    }
  }

  /** Any messages, put through the envelope, the batching writer in any interleaving, and the framing
      with any head length, are recovered in order as far as they have been flushed. */
  lemma EndToEnd(key: seq<Byte>, nonce: seq<Byte>, head: int, ms: seq<Message>, s: State, events: seq<Event>, t: State,
                 room: nat)
    requires |key| == KEY_LEN && |nonce| == NONCE_LEN && room >= MAX_PACKET
    requires forall i :: 0 <= i < |ms| ==> Fits(ms[i])
    requires Initial(s) && Reaches(s, events, t) && t.committed == Blobs(ms)
    ensures |Flatten(t.flushed)| + |t.views| == |ms|
    ensures Delivered(key, head, Connection(key, nonce, head, t.flushed), room) == ms[..|Flatten(t.flushed)|]
  {
    WriterConserves(s, events, t);
    FirstBlobs(ms, Flatten(t.flushed), Contents(t));
    Arrives(key, nonce, head, t.flushed, room);
    ParsedBlobs(ms[..|Flatten(t.flushed)|]);
  }

  lemma FirstBlobs(ms: seq<Message>, frames: seq<seq<Byte>>, rest: seq<seq<Byte>>)
    requires (forall i :: 0 <= i < |ms| ==> Fits(ms[i])) && frames + rest == Blobs(ms)
    ensures |frames| + |rest| == |ms| && frames == Blobs(ms[..|frames|])
    ensures forall i :: 0 <= i < |frames| ==> |frames[i]| <= MAX_PACKET
  {
    assert frames == Blobs(ms)[..|frames|];
    assert Blobs(ms)[..|frames|] == Blobs(ms[..|frames|]);
  }

  /** The receiver reads exactly the frames of the flushed batches. */
  lemma Arrives(key: seq<Byte>, nonce: seq<Byte>, head: int, batches: seq<seq<seq<Byte>>>, room: nat)
    requires |key| == KEY_LEN && |nonce| == NONCE_LEN && room >= MAX_PACKET
    requires forall i :: 0 <= i < |Flatten(batches)| ==> |Flatten(batches)[i]| <= MAX_PACKET
    ensures Delivered(key, head, Connection(key, nonce, head, batches), room) == Parsed(Flatten(batches))
  {
    var input, stream := Connection(key, nonce, head, batches), StreamFor(key, nonce);
    assert input[..NONCE_LEN] == nonce && input[NONCE_LEN..] == WireBytes(stream, 0, head, batches);
    BatchingInvisible(stream, 0, head, batches);
    StreamRoundTrip(stream, 0, head, Flatten(batches), room);
  }
}
