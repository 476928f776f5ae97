/** The finalizer in front of an egress: remembers where each flow's replies go, by inner source address. */
module Finalizer {
  import opened Common

  type Owner = nat
  /** A connection that takes replies. */
  type Target = string
  type Addr = nat

  datatype Entry = Entry(owner: Owner, target: Target, lastSeen: int)

  /** A packet as the finalizer sees it: a healthcheck ping, or data with the addresses it could parse. */
  datatype Packet = Ping | Data(src: Option<Addr>, dst: Option<Addr>)

  /** What leaves: a packet to the internet, or a processed packet to its reply target. */
  datatype Output = Egressed(p: Packet) | Replied(target: Target, owner: Owner, p: Packet)

  // ---- what each operation does to the table -----------------------------------------------------------

  function Submitted(track: map<Addr, Entry>, maxTrack: int, clock: int, owner: Owner, target: Target, p: Packet)
    : map<Addr, Entry>
  {
    if p.Ping? || p.src.None? then track
    else if p.src.value in track || maxTrack <= 0 || |track| < maxTrack then
      track[p.src.value := Entry(owner, target, clock)]
    else track
  }

  /** A reply keeps its flow alive. */
  function Touched(track: map<Addr, Entry>, clock: int, a: Addr): map<Addr, Entry> {
    if a in track then track[a := track[a].(lastSeen := clock)] else track
  }

  ghost predicate Collected(track: map<Addr, Entry>, cutoff: int, after: map<Addr, Entry>) {
    && (forall a :: a in after <==> a in track && track[a].lastSeen >= cutoff)
    && (forall a :: a in after ==> after[a] == track[a])
  }

  class Tracker {
    const ttl: int
    const maxTrack: int
    var clock: int
    var track: map<Addr, Entry>

    constructor (ttl: int, maxTrack: int, now: int)
      ensures this.ttl == ttl && this.maxTrack == maxTrack && clock == now && track == map[]
    {
      this.ttl, this.maxTrack, clock, track := ttl, maxTrack, now, map[];
    }

    /** The read-locked look: an unchanged, current mapping needs no write. */
    predicate UpToDate(owner: Owner, target: Target, src: Addr)
      reads this
    {
      src in track && track[src] == Entry(owner, target, clock)
    }

    /** A ping is reflected at once; data is egressed and its reply path remembered. */
    method Submit(owner: Owner, target: Target, p: Packet) returns (out: Output)
      modifies this`track
      ensures track == Submitted(old(track), maxTrack, clock, owner, target, p)
      ensures out == if p.Ping? then Replied(target, owner, p) else Egressed(p)
    {
      if p.Ping? {
        return Replied(target, owner, p);
      }
      if p.src.Some? {
        var src := p.src.value;
        if !UpToDate(owner, target, src) {
          if src in track {
            track := track[src := Entry(owner, target, clock)];
          } else if maxTrack <= 0 || |track| < maxTrack {
            track := track[src := Entry(owner, target, clock)];
          }
        } else {
          assert track == track[src := Entry(owner, target, clock)];
        }
      }
      out := Egressed(p);
    }

    /** One packet read back from the egress goes to whoever last sent from its destination address. */
    method Reply(p: Packet) returns (out: Option<Output>)
      modifies this`track
      ensures track == if p.Data? && p.dst.Some? then Touched(old(track), clock, p.dst.value) else old(track)
      ensures out == if p.Data? && p.dst.Some? && p.dst.value in old(track)
                     then Some(Replied(old(track)[p.dst.value].target, old(track)[p.dst.value].owner, p)) else None
    {
      out := None;
      if p.Data? && p.dst.Some? && p.dst.value in track {
        var dst := p.dst.value;
        var e := track[dst];
        if e.lastSeen != clock {
          track := track[dst := e.(lastSeen := clock)];
        } else {
          assert track == track[dst := e.(lastSeen := clock)];
        }
        out := Some(Replied(e.target, e.owner, p));
      }
    }

    /** Drops exactly the flows idle beyond the ttl. */
    method GC(now: int) returns (n: nat)
      modifies this`track
      ensures Collected(old(track), now - ttl, track) && n == |old(track)| - |track|
    {
      n := 0;
      var cutoff, todo := now - ttl, track.Keys;
      while todo != {}
        invariant todo <= track.Keys && n + |track| == |old(track)|
        invariant forall a :: a in track <==> a in old(track) && (a in todo || old(track)[a].lastSeen >= cutoff)
        invariant forall a :: a in track ==> track[a] == old(track)[a]
        decreases todo
      {
        var a :| a in todo;
        todo := todo - {a};
        if track[a].lastSeen < cutoff {
          OneFewer(track, a);
          track := track - {a};
          n := n + 1;
        }
      }
    }
  }

  lemma OneFewer(m: map<Addr, Entry>, a: Addr)
    requires a in m
    ensures |m - {a}| == |m| - 1
  {
    assert (m - {a}).Keys == m.Keys - {a};
  }

  // ---- whole runs --------------------------------------------------------------------------------------

  datatype Event =
    | Submit(owner: Owner, target: Target, p: Packet) | Reply(p: Packet) | Clock(now: int)
    | Collect(now: int, after: map<Addr, Entry>)

  datatype State = State(ttl: int, maxTrack: int, clock: int, track: map<Addr, Entry>)

  /** What was seen of each address: its most recent non-ping Submit, as owner and target, and the clock at
      the last packet from or to it. */
  datatype History = History(writer: map<Addr, (Owner, Target)>, heard: map<Addr, int>)

  ghost predicate Enabled(s: State, e: Event) {
    match e
    case Clock(now) => now >= s.clock
    case Collect(now, after) => Collected(s.track, now - s.ttl, after)
    case Submit(_, _, _) => true
    case Reply(_) => true
  }

  ghost function Next(s: State, e: Event): State {
    match e
    case Submit(o, t, p) => s.(track := Submitted(s.track, s.maxTrack, s.clock, o, t, p))
    case Reply(p) => if p.Data? && p.dst.Some? then s.(track := Touched(s.track, s.clock, p.dst.value)) else s
    case Clock(now) => s.(clock := now)
    case Collect(_, after) => s.(track := after)
  }

  ghost function NextHistory(h: History, clock: int, e: Event): History {
    match e
    case Submit(o, t, Data(Some(a), _)) => History(h.writer[a := (o, t)], h.heard[a := clock])
    case Reply(Data(_, Some(a))) => h.(heard := h.heard[a := clock])
    case _ => h
  }

  ghost predicate Reaches(s: State, h: History, events: seq<Event>, t: State, g: History)
    decreases |events|
  {
    if events == [] then s == t && h == g
    else
      && Enabled(s, events[0])
      && Reaches(Next(s, events[0]), NextHistory(h, s.clock, events[0]), events[1..], t, g)
  }

  ghost predicate EntryInv(a: Addr, e: Entry, h: History, clock: int) {
    && a in h.writer && h.writer[a] == (e.owner, e.target)
    && a in h.heard && h.heard[a] == e.lastSeen <= clock
  }

  /** Every entry is its address's last writer and was last seen when the address was last heard of; the
      cap holds. */
  ghost predicate Inv(s: State, h: History) {
    && (forall a :: a in s.track ==> EntryInv(a, s.track[a], h, s.clock))
    && (s.maxTrack > 0 ==> |s.track| <= s.maxTrack)
  }

  lemma SubmitKeeps(s: State, h: History, e: Event)
    requires Inv(s, h) && e.Submit?
    ensures Inv(Next(s, e), NextHistory(h, s.clock, e))
  {
    if e.p.Data? && e.p.src.Some? {
      SizeAfter(s.track, e.p.src.value, Entry(e.owner, e.target, s.clock));
    }
  }

  lemma ReplyKeeps(s: State, h: History, e: Event)
    requires Inv(s, h) && e.Reply?
    ensures Inv(Next(s, e), NextHistory(h, s.clock, e))
  {
    var t := Next(s, e).track;
    assert t.Keys == s.track.Keys;
    assert |t| == |t.Keys| && |s.track| == |s.track.Keys|;
  }

  lemma CollectKeeps(s: State, h: History, e: Event)
    requires Inv(s, h) && e.Collect? && Enabled(s, e)
    ensures Inv(Next(s, e), NextHistory(h, s.clock, e))
  {
    assert e.after.Keys <= s.track.Keys;
    FewerMembers(e.after.Keys, s.track.Keys);
    assert |e.after| == |e.after.Keys| && |s.track| == |s.track.Keys|;
  }

  lemma StepKeeps(s: State, h: History, e: Event)
    requires Inv(s, h) && Enabled(s, e)
    ensures Inv(Next(s, e), NextHistory(h, s.clock, e))
  {
    match e
    case Submit(_, _, _) => SubmitKeeps(s, h, e);
    case Reply(_) => ReplyKeeps(s, h, e);
    case Clock(_) =>
    case Collect(_, _) => CollectKeeps(s, h, e);
  }

  lemma {:induction false} RunKeeps(s: State, h: History, events: seq<Event>, t: State, g: History)
    requires Inv(s, h) && Reaches(s, h, events, t, g)
    ensures Inv(t, g)
    decreases |events|
  {
    if events != [] {
      StepKeeps(s, h, events[0]);
      RunKeeps(Next(s, events[0]), NextHistory(h, s.clock, events[0]), events[1..], t, g);
    }
  }

  const NOTHING := History(map[], map[])

  /** In any run an entry holds the owner and target of the most recent non-ping Submit from its address,
      and a positive cap is never exceeded. */
  lemma TracksLastWriter(s: State, events: seq<Event>, t: State, g: History)
    requires s.track == map[] && Reaches(s, NOTHING, events, t, g)
    ensures forall a :: a in t.track ==> a in g.writer && g.writer[a] == (t.track[a].owner, t.track[a].target)
    ensures t.maxTrack > 0 ==> |t.track| <= t.maxTrack
  {
    RunKeeps(s, NOTHING, events, t, g);
    assert forall a :: a in t.track ==> EntryInv(a, t.track[a], g, t.clock);
  }

  /** After any run, a collection drops exactly the flows whose address was last heard of, in either
      direction, longer than the ttl ago. */
  lemma SilentFlowsDropped(s: State, events: seq<Event>, t: State, g: History, now: int, after: map<Addr, Entry>)
    requires s.track == map[] && Reaches(s, NOTHING, events, t, g) && Enabled(t, Collect(now, after))
    ensures forall a :: a in t.track ==> a in g.heard && (a in after <==> now - g.heard[a] <= t.ttl)
  {
    RunKeeps(s, NOTHING, events, t, g);
    assert forall a :: a in t.track ==> EntryInv(a, t.track[a], g, t.clock);
  }

  /** An established flow is always rebound, full table or not; only a brand-new one can be refused. */
  lemma EstablishedSurvive(s: State, o: Owner, t: Target, a: Addr, dst: Option<Addr>)
    ensures a in Next(s, Submit(o, t, Data(Some(a), dst))).track
       <==> a in s.track || s.maxTrack <= 0 || |s.track| < s.maxTrack
    ensures forall b :: b in s.track ==> b in Next(s, Submit(o, t, Data(Some(a), dst))).track
  {
  }
}
