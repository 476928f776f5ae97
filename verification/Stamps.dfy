/** Control datagrams: the stamp every sender draws, and the authenticated layout that carries it. */
module Stamps {
  import opened Common
  import opened ChaCha4
  import opened Octets

  // ---- the stamp ---------------------------------------------------------------------------------------

  /** Stamps are 64-bit words. */
  const LIMIT: nat := 0x1_0000_0000_0000_0000

  /** One caller of the stamp function: outside, with the clock read, or with the last stamp loaded too. */
  datatype Caller = Outside | Ready(now: nat) | Loaded(now: nat, prev: nat)

  /** `returned` lists the stamps handed out and `read` the clock readings of their callers; `wrapped` records a
      stamp that overflowed. */
  datatype State = State(last: nat, callers: map<nat, Caller>, returned: seq<nat>, read: seq<nat>, wrapped: bool)

  datatype Event = Enter(c: nat, now: nat) | Load(c: nat) | Swap(c: nat)

  function At(s: State, c: nat): Caller {
    if c in s.callers then s.callers[c] else Outside
  }

  function Candidate(now: nat, prev: nat): nat {
    if now <= prev then (prev + 1) % LIMIT else now
  }

  predicate Enabled(s: State, e: Event) {
    match e
    case Enter(c, now) => At(s, c).Outside? && now < LIMIT
    case Load(c) => At(s, c).Ready?
    case Swap(c) => At(s, c).Loaded?
  }

  /** The swap succeeds only if nobody stored a stamp in between, and otherwise starts over. */
  function Step(s: State, e: Event): State
    requires Enabled(s, e)
  {
    match e
    case Enter(c, now) => s.(callers := s.callers[c := Ready(now)])
    case Load(c) => s.(callers := s.callers[c := Loaded(At(s, c).now, s.last)])
    case Swap(c) =>
      var a := At(s, c);
      var ts := Candidate(a.now, a.prev);
      if s.last == a.prev then
        s.(last := ts, returned := s.returned + [ts], read := s.read + [a.now], callers := s.callers[c := Outside],
           wrapped := s.wrapped || (a.now <= a.prev && a.prev + 1 == LIMIT))
      else s.(callers := s.callers[c := Ready(a.now)])
  }

  ghost predicate Reaches(s: State, events: seq<Event>, t: State)
    decreases |events|
  {
    if events == [] then s == t else Enabled(s, events[0]) && Reaches(Step(s, events[0]), events[1..], t)
  }

  /** A stamp is the clock reading if that is ahead of the stamp before, and otherwise the next number. */
  ghost predicate FollowsClock(prev: nat, now: nat, ts: nat) {
    if now > prev then ts == now else if prev == LIMIT - 1 then ts == 0 else ts == prev + 1
  }

  /** Each of the stamps follows the clock, after the one before it. */
  ghost predicate AllFollow(stamps: seq<nat>, read: seq<nat>) {
    |stamps| == |read| + 1 && forall i :: 0 <= i < |read| ==> FollowsClock(stamps[i], read[i], stamps[i + 1])
  }

  /** The stamps end with the last one, rise unless one wrapped, and follow the clock. */
  ghost predicate Drawn(stamps: seq<nat>, read: seq<nat>, last: nat, wrapped: bool) {
    AllFollow(stamps, read) && last == stamps[|read|] < LIMIT && (Ascends(stamps) <==> !wrapped)
  }

  /** `from` is the stamp the run started from. */
  ghost predicate Inv(s: State, from: nat) {
    && (forall c :: c in s.callers && s.callers[c].Loaded? ==> s.callers[c].now < LIMIT && s.callers[c].prev < LIMIT)
    && (forall c :: c in s.callers && s.callers[c].Ready? ==> s.callers[c].now < LIMIT)
    && Drawn([from] + s.returned, s.read, s.last, s.wrapped)
  }

  lemma RisesSnoc(stamps: seq<nat>, ts: nat)
    requires stamps != []
    ensures Ascends(stamps + [ts]) <==> Ascends(stamps) && stamps[|stamps| - 1] < ts
  {
    if Ascends(stamps) && stamps[|stamps| - 1] < ts {
      AscendsSnoc(stamps, ts);
    }
    if Ascends(stamps + [ts]) {
      assert forall i :: 0 <= i < |stamps| ==> (stamps + [ts])[i] == stamps[i];
      assert (stamps + [ts])[|stamps| - 1] < (stamps + [ts])[|stamps|];
    }
  }

  lemma FollowSnoc(stamps: seq<nat>, read: seq<nat>, now: nat, ts: nat)
    requires AllFollow(stamps, read) && FollowsClock(stamps[|read|], now, ts)
    ensures AllFollow(stamps + [ts], read + [now])
  {
  }

  lemma CandidateFollows(now: nat, last: nat)
    requires now < LIMIT && last < LIMIT
    ensures FollowsClock(last, now, Candidate(now, last)) && Candidate(now, last) < LIMIT
    ensures last < Candidate(now, last) <==> !(now <= last && last + 1 == LIMIT)
  {
  }

  lemma OneMore(stamps: seq<nat>, read: seq<nat>, last: nat, wrapped: bool, now: nat)
    requires Drawn(stamps, read, last, wrapped) && now < LIMIT
    ensures Drawn(stamps + [Candidate(now, last)], read + [now], Candidate(now, last),
                  wrapped || (now <= last && last + 1 == LIMIT))
  {
    var ts := Candidate(now, last);
    CandidateFollows(now, last);
    RisesSnoc(stamps, ts);
    FollowSnoc(stamps, read, now, ts);
  }

  lemma StepKeeps(s: State, e: Event, from: nat)
    requires Inv(s, from) && Enabled(s, e)
    ensures Inv(Step(s, e), from)
  {
    if e.Swap? && s.last == At(s, e.c).prev {
      var now := At(s, e.c).now;
      OneMore([from] + s.returned, s.read, s.last, s.wrapped, now);
      assert [from] + (s.returned + [Candidate(now, s.last)]) == [from] + s.returned + [Candidate(now, s.last)];
    }
  }

  lemma {:induction false} RunKeeps(s: State, events: seq<Event>, t: State, from: nat)
    requires Inv(s, from) && Reaches(s, events, t)
    ensures Inv(t, from)
    decreases |events|
  {
    if events != [] {
      StepKeeps(s, events[0], from);
      RunKeeps(Step(s, events[0]), events[1..], t, from);
    }
  }

  /** However concurrent callers interleave, each stamp exceeds all before it, exactly as long as none has been
      drawn after the largest 64-bit stamp with the clock not ahead of it; and each stamp is its caller's clock
      reading whenever that is ahead of the stamp before. */
  lemma StampsRise(s: State, events: seq<Event>, t: State)
    requires s.last < LIMIT && s.callers == map[] && s.returned == [] && s.read == [] && !s.wrapped
    requires Reaches(s, events, t)
    ensures Ascends([s.last] + t.returned) <==> !t.wrapped
    ensures AllFollow([s.last] + t.returned, t.read)
  {
    RunKeeps(s, events, t, s.last);
  }

  // ---- the layout --------------------------------------------------------------------------------------

  const TAG_LEN: nat := 8
  const CONTROL_LEN: nat := 22

  datatype Control = Control(kind: Byte, id: seq<Byte>, flags: Byte, ts: nat)

  /** The keyed tag over everything before it; nothing is assumed of it but its length. */
  type Tagger = (seq<Byte>, seq<Byte>) -> seq<Byte>

  ghost predicate WellSized(tag: Tagger) {
    forall key, body :: |tag(key, body)| == TAG_LEN
  }

  /** `n` in `k` big-endian bytes. */
  function BigEndian(n: nat, k: nat): (b: seq<Byte>)
    ensures |b| == k
  {
    if k == 0 then [] else BigEndian(n / 256, k - 1) + [Byte((n % 256) as bv8)]
  }

  function Value(b: seq<Byte>): nat {
    if b == [] then 0 else Value(b[..|b| - 1]) * 256 + b[|b| - 1].v as int
  }

  function Pow256(k: nat): nat {
    if k == 0 then 1 else 256 * Pow256(k - 1)
  }

  lemma {:induction false} ValueOfBytes(n: nat, k: nat)
    requires n < Pow256(k)
    ensures Value(BigEndian(n, k)) == n
  {
    if k > 0 {
      ValueOfBytes(n / 256, k - 1);
      ByteRoundTrip(n % 256);
      var b := BigEndian(n, k);
      assert b[..|b| - 1] == BigEndian(n / 256, k - 1);
    }
  }

  lemma {:induction false} BytesOfValue(b: seq<Byte>)
    ensures BigEndian(Value(b), |b|) == b && Value(b) < Pow256(|b|)
  {
    if b != [] {
      var k := |b| - 1;
      BytesOfValue(b[..k]);
      Shifted(Value(b[..k]), b[k].v as int);
      assert b == b[..k] + [b[k]];
    }
  }

  lemma Shifted(high: nat, low: nat)
    requires low < 256
    ensures (high * 256 + low) / 256 == high && (high * 256 + low) % 256 == low
  {
  }

  lemma EightBytes()
    ensures Pow256(8) == LIMIT
  {
    assert Pow256(1) == 256;
    assert Pow256(2) == 65536;
    assert Pow256(3) == 0x100_0000;
    assert Pow256(4) == 0x1_0000_0000;
    assert Pow256(5) == 0x100_0000_0000;
    assert Pow256(6) == 0x1_0000_0000_0000;
    assert Pow256(7) == 0x100_0000_0000_0000;
  }

  /** `n` without its last `k` bytes. */
  ghost function Above(n: nat, k: nat): nat {
    if k == 0 then n else Above(n / 256, k - 1)
  }

  /** Byte `i` of `k` has `k - 1 - i` bytes below it. */
  lemma {:induction false} BigEndianAt(n: nat, k: nat, i: nat)
    requires i < k
    ensures BigEndian(n, k)[i].v as int == Above(n, k - 1 - i) % 256
  {
    if i == k - 1 {
      ByteRoundTrip(n % 256);
    } else {
      BigEndianAt(n / 256, k - 1, i);
    }
  }

  function Body(c: Control): seq<Byte> {
    [c.kind] + c.id + [c.flags] + BigEndian(c.ts, 8)
  }

  function EncodeControl(c: Control, key: seq<Byte>, tag: Tagger): seq<Byte> {
    Body(c) + tag(key, Body(c))
  }

  function DecodeControl(data: seq<Byte>, key: seq<Byte>, tag: Tagger): Option<Control> {
    if |data| != CONTROL_LEN then None
    else
      var body := data[..CONTROL_LEN - TAG_LEN];
      if tag(key, body) != data[CONTROL_LEN - TAG_LEN..] then None
      else Some(Control(body[0], body[1..5], body[5], Value(body[6..])))
  }

  lemma BodyParts(c: Control)
    requires |c.id| == 4
    ensures |Body(c)| == CONTROL_LEN - TAG_LEN
    ensures Body(c)[0] == c.kind && Body(c)[1..5] == c.id && Body(c)[5] == c.flags && Body(c)[6..] == BigEndian(c.ts, 8)
  {
  }

  /** Kind, id, flags, the stamp with its high byte first, and the tag over all of it. */
  lemma ControlLayout(c: Control, key: seq<Byte>, tag: Tagger, i: nat)
    requires |c.id| == 4 && WellSized(tag) && i < 8
    ensures var d := EncodeControl(c, key, tag);
            && |d| == 22 && d[0] == c.kind && d[1..5] == c.id && d[5] == c.flags && d[14..] == tag(key, d[..14])
            && d[6 + i].v as int == Above(c.ts, 7 - i) % 256
  {
    BodyParts(c);
    BigEndianAt(c.ts, 8, i);
    var d := EncodeControl(c, key, tag);
    assert d[..14] == Body(c) && d[14..] == tag(key, Body(c));
    assert d[6 + i] == Body(c)[6..][i];
  }

  /** What is encoded is decoded, stamp and all. */
  lemma ControlRoundTrip(c: Control, key: seq<Byte>, tag: Tagger)
    requires |c.id| == 4 && c.ts < LIMIT && WellSized(tag)
    ensures DecodeControl(EncodeControl(c, key, tag), key, tag) == Some(c)
  {
    BodyParts(c);
    EightBytes();
    ValueOfBytes(c.ts, 8);
    var data := EncodeControl(c, key, tag);
    assert data[..CONTROL_LEN - TAG_LEN] == Body(c) && data[CONTROL_LEN - TAG_LEN..] == tag(key, Body(c));
  }

  /** Only encodings are decoded: the tag covers every field, so nothing else can be read out. */
  lemma OnlyEncodings(data: seq<Byte>, key: seq<Byte>, tag: Tagger)
    requires DecodeControl(data, key, tag).Some?
    ensures var c := DecodeControl(data, key, tag).value;
            |c.id| == 4 && c.ts < LIMIT && EncodeControl(c, key, tag) == data
  {
    var body, c := data[..CONTROL_LEN - TAG_LEN], DecodeControl(data, key, tag).value;
    BytesOfValue(body[6..]);
    EightBytes();
    assert body == [body[0]] + body[1..5] + [body[5]] + body[6..];
    assert Body(c) == body;
  }
}
