/** The batching write buffer: packets built in place at the tail of one arena by several producers, and
    flushed by a full batch, by a caller or by the ticker, under one lock. */
module WriteBuffer {
  import opened Common
  import opened ChaCha4

  /** A committed packet: a range of the arena. */
  datatype View = View(lo: nat, hi: nat)

  datatype State = State(
    arena: seq<Byte>, used: nat, views: seq<View>, maxPackets: nat,
    holder: Option<nat>, room: nat,
    flushed: seq<seq<seq<Byte>>>, committed: seq<seq<Byte>>)

  // ---- what each operation does ----------------------------------------------------------------------

  predicate InArena(s: State) {
    forall i :: 0 <= i < |s.views| ==> s.views[i].lo <= s.views[i].hi <= |s.arena|
  }

  /** The packets the views show. */
  function Gather(arena: seq<Byte>, views: seq<View>): (batch: seq<seq<Byte>>)
    requires forall i :: 0 <= i < |views| ==> views[i].lo <= views[i].hi <= |arena|
    ensures |batch| == |views|
  {
    seq(|views|, i requires 0 <= i < |views| => arena[views[i].lo..views[i].hi])
  }

  function Contents(s: State): (c: seq<seq<Byte>>)
    requires InArena(s)
    ensures |c| == |s.views|
  {
    Gather(s.arena, s.views)
  }

  /** Hands the batch to the flush function and rewinds the buffer. */
  function Flushed(s: State): State
    requires InArena(s)
  {
    if s.views == [] then s else s.(flushed := s.flushed + [Contents(s)], views := [], used := 0)
  }

  function Reserved(s: State, p: nat, max: nat): State
    requires InArena(s)
  {
    var t := if |s.views| == s.maxPackets || s.used + max > |s.arena| then Flushed(s) else s;
    t.(holder := Some(p), room := max)
  }

  function Written(s: State, i: nat, b: Byte): State
    requires s.used + i < |s.arena|
  {
    s.(arena := s.arena[s.used + i := b])
  }

  function Appended(s: State, n: nat): State
    requires s.used + n <= |s.arena|
  {
    s.(views := s.views + [View(s.used, s.used + n)], used := s.used + n,
       committed := s.committed + [s.arena[s.used..s.used + n]])
  }

  function Committed(s: State, n: nat): State
    requires InArena(s) && s.used + n <= |s.arena|
  {
    var t := Appended(s, n);
    (if |t.views| == t.maxPackets || t.used == |t.arena| then Flushed(t) else t).(holder := None)
  }

  // ---- the invariant -----------------------------------------------------------------------------------

  /** The views lie side by side from the start of the arena up to what is used. */
  ghost predicate Tiles(views: seq<View>, used: nat) {
    if views == [] then used == 0
    else var v := views[|views| - 1]; v.lo <= v.hi == used && Tiles(views[..|views| - 1], v.lo)
  }

  /** Nothing lost, nothing reordered: what was flushed, then what is buffered, is what was committed. */
  ghost predicate Conserves(s: State)
    requires InArena(s)
  {
    Flatten(s.flushed) + Contents(s) == s.committed
  }

  ghost predicate Bounded(s: State) {
    && s.maxPackets > 0 && s.used <= |s.arena| && |s.views| < s.maxPackets
    && (s.holder.Some? ==> s.used + s.room <= |s.arena|)
    && BatchesFit(s.flushed, s.maxPackets, |s.arena|)
  }

  /** Every batch handed over is non-empty and within the limits. */
  ghost predicate BatchesFit(batches: seq<seq<seq<Byte>>>, maxPackets: nat, cap: nat) {
    forall b :: b in batches ==> 0 < |b| <= maxPackets && Total(b) <= cap
  }

  ghost function Total(b: seq<seq<Byte>>): nat {
    if b == [] then 0 else Total(b[..|b| - 1]) + |b[|b| - 1]|
  }

  ghost predicate Inv(s: State) {
    Bounded(s) && Tiles(s.views, s.used) && InArena(s) && Conserves(s)
  }

  lemma {:induction false} TilesBelow(views: seq<View>, used: nat)
    requires Tiles(views, used)
    ensures forall i :: 0 <= i < |views| ==> views[i].lo <= views[i].hi <= used
  {
    if views != [] {
      TilesBelow(views[..|views| - 1], views[|views| - 1].lo);
    }
  }

  /** A batch holds exactly the used bytes. */
  lemma {:induction false} TilesTotal(s: State)
    requires Tiles(s.views, s.used) && InArena(s)
    ensures Total(Contents(s)) == s.used
    decreases |s.views|
  {
    if s.views != [] {
      var k := |s.views| - 1;
      var t := s.(views := s.views[..k], used := s.views[k].lo);
      TilesTotal(t);
      assert Contents(s)[..k] == Contents(t);
    }
  }

  lemma FlushedKeeps(s: State)
    requires Tiles(s.views, s.used) && InArena(s) && Conserves(s) && s.used <= |s.arena| && |s.views| <= s.maxPackets
    requires BatchesFit(s.flushed, s.maxPackets, |s.arena|)
    ensures var t := Flushed(s);
            && Tiles(t.views, t.used) && InArena(t) && Conserves(t) && t.views == [] && t.used == 0
            && BatchesFit(t.flushed, t.maxPackets, |t.arena|)
  {
    var t := Flushed(s);
    if s.views != [] {
      TilesTotal(s);
      assert t.flushed[..|s.flushed|] == s.flushed && t.flushed[|s.flushed|] == Contents(s);
      assert Contents(t) == [];
    }
  }

  lemma ReserveKeeps(s: State, p: nat, max: nat)
    requires Inv(s) && s.holder.None? && max <= |s.arena|
    ensures Inv(Reserved(s, p, max))
  {
    FlushedKeeps(s);
    var t := if |s.views| == s.maxPackets || s.used + max > |s.arena| then Flushed(s) else s;
    assert Contents(Reserved(s, p, max)) == Contents(t);
  }

  /** Building a packet touches nothing that is already committed. */
  lemma WriteKeeps(s: State, i: nat, b: Byte)
    requires Inv(s) && s.holder.Some? && i < s.room
    ensures Inv(Written(s, i, b))
  {
    TilesBelow(s.views, s.used);
    var t := Written(s, i, b);
    forall k | 0 <= k < |s.views| ensures Contents(t)[k] == Contents(s)[k] {
      assert s.views[k].hi <= s.used;
    }
  }

  lemma GatherSnoc(arena: seq<Byte>, views: seq<View>, v: View)
    requires forall i :: 0 <= i < |views| ==> views[i].lo <= views[i].hi <= |arena|
    requires v.lo <= v.hi <= |arena|
    ensures Gather(arena, views + [v]) == Gather(arena, views) + [arena[v.lo..v.hi]]
  {
  }

  lemma AppendedTiles(s: State, n: nat)
    requires Tiles(s.views, s.used) && InArena(s) && Conserves(s)
    requires s.used + n <= |s.arena| && |s.views| < s.maxPackets
    ensures var t := Appended(s, n);
            Tiles(t.views, t.used) && InArena(t) && Conserves(t) && t.used <= |t.arena| && |t.views| <= t.maxPackets
  {
    TilesSnoc(s.views, s.used, n);
    AppendedConserves(s, n);
  }

  lemma AppendedConserves(s: State, n: nat)
    requires InArena(s) && Conserves(s) && s.used + n <= |s.arena|
    ensures InArena(Appended(s, n)) && Conserves(Appended(s, n))
  {
    GatherSnoc(s.arena, s.views, View(s.used, s.used + n));
    Regroup(Flatten(s.flushed), Contents(s), [s.arena[s.used..s.used + n]]);
  }

  lemma TilesSnoc(views: seq<View>, used: nat, n: nat)
    requires Tiles(views, used)
    ensures Tiles(views + [View(used, used + n)], used + n)
  {
    assert (views + [View(used, used + n)])[..|views|] == views;
  }

  /** Who holds the lock is not part of what is conserved. */
  lemma Released(s: State)
    requires Tiles(s.views, s.used) && InArena(s) && Conserves(s) && s.used <= |s.arena| && |s.views| < s.maxPackets
    requires BatchesFit(s.flushed, s.maxPackets, |s.arena|)
    ensures Inv(s.(holder := None))
  {
    assert Contents(s.(holder := None)) == Contents(s);
  }

  lemma CommitKeeps(s: State, n: nat)
    requires Inv(s) && s.holder.Some? && n <= s.room
    ensures Inv(Committed(s, n))
  {
    AppendedTiles(s, n);
    var t := Appended(s, n);
    FlushedKeeps(t);
    Released(if |t.views| == t.maxPackets || t.used == |t.arena| then Flushed(t) else t);
  }

  lemma FlushKeeps(s: State)
    requires Inv(s)
    ensures s.holder.None? ==> Inv(Flushed(s))
  {
    FlushedKeeps(s);
  }

  // ---- every interleaving -------------------------------------------------------------------------------

  /** What can happen next: a producer `p`, a caller of Flush, or the ticker. */
  datatype Event =
    Reserve(p: nat, max: nat) | Write(p: nat, i: nat, b: Byte) | Commit(p: nat, n: nat) | Flush | TryFlush

  /** The lock decides who may move; the ticker may always, and skips a held writer. */
  ghost predicate Enabled(s: State, e: Event) {
    match e
    case Reserve(_, max) => s.holder.None? && max <= |s.arena|
    case Write(p, i, _) => s.holder == Some(p) && i < s.room
    case Commit(p, n) => s.holder == Some(p) && n <= s.room
    case Flush => s.holder.None?
    case TryFlush => true
  }

  ghost function Step(s: State, e: Event): State
    requires Inv(s) && Enabled(s, e)
  {
    match e
    case Reserve(p, max) => Reserved(s, p, max)
    case Write(_, i, b) => Written(s, i, b)
    case Commit(_, n) => Committed(s, n)
    case Flush => Flushed(s)
    case TryFlush => if s.holder.Some? then s else Flushed(s)
  }

  lemma StepKeeps(s: State, e: Event)
    requires Inv(s) && Enabled(s, e)
    ensures Inv(Step(s, e))
  {
    match e
    case Reserve(p, max) => ReserveKeeps(s, p, max);
    case Write(_, i, b) => WriteKeeps(s, i, b);
    case Commit(_, n) => CommitKeeps(s, n);
    case Flush => FlushKeeps(s);
    case TryFlush => FlushKeeps(s);
  }

  /** A batch is handed over exactly when it has to be: a reservation finds no room behind it, a commit fills it, or
      somebody flushes a writer that is not held. */
  lemma FlushesExactly(s: State, e: Event)
    requires Inv(s) && Enabled(s, e)
    ensures Step(s, e).flushed != s.flushed <==>
              match e
              case Reserve(_, max) => s.views != [] && s.used + max > |s.arena|
              case Write(_, _, _) => false
              case Commit(_, n) => |s.views| + 1 == s.maxPackets || s.used + n == |s.arena|
              case Flush => s.views != []
              case TryFlush => s.views != [] && s.holder.None?
  {
    var t := Step(s, e);
    assert |t.flushed| == |s.flushed| ==> t.flushed == s.flushed;
  }

  /** `t` is reached from `s` by some interleaving of `events`. */
  ghost predicate Reaches(s: State, events: seq<Event>, t: State)
    decreases |events|
  {
    if events == [] then s == t
    else Inv(s) && Enabled(s, events[0]) && Reaches(Step(s, events[0]), events[1..], t)
  }

  /** Each event is enabled when its turn comes. */
  ghost predicate InTurn(s: State, events: seq<Event>)
    decreases |events|
  {
    events != [] ==> Enabled(s, events[0]) && (Inv(s) ==> InTurn(Step(s, events[0]), events[1..]))
  }

  /** The invariant cuts no run short: every sequence of enabled events is one. */
  lemma {:induction false} EnabledRuns(s: State, events: seq<Event>) returns (t: State)
    requires Inv(s) && InTurn(s, events)
    ensures Reaches(s, events, t)
    decreases |events|
  {
    t := s;
    if events != [] {
      StepKeeps(s, events[0]);
      t := EnabledRuns(Step(s, events[0]), events[1..]);
    }
  }

  // ---- what is committed -----------------------------------------------------------------------------------

  /** The bytes written into the packet being built, by position. */
  ghost function Draft(d: map<nat, Byte>, e: Event): map<nat, Byte> {
    match e
    case Reserve(_, _) => map[]
    case Write(_, i, b) => d[i := b]
    case _ => d
  }

  ghost predicate Builds(s: State, d: map<nat, Byte>, events: seq<Event>, t: State, end: map<nat, Byte>)
    decreases |events|
  {
    if events == [] then s == t && d == end
    else Inv(s) && Enabled(s, events[0]) && Builds(Step(s, events[0]), Draft(d, events[0]), events[1..], t, end)
  }

  /** While a producer holds the writer, the arena holds its draft. */
  ghost predicate Drafted(s: State, d: map<nat, Byte>) {
    s.holder.Some? ==> forall i :: i in d ==> i < s.room && s.used + i < |s.arena| && s.arena[s.used + i] == d[i]
  }

  lemma DraftStep(s: State, d: map<nat, Byte>, e: Event)
    requires Inv(s) && Drafted(s, d) && Enabled(s, e)
    ensures Drafted(Step(s, e), Draft(d, e))
  {
  }

  lemma {:induction false} BuildsKeeps(s: State, d: map<nat, Byte>, events: seq<Event>, t: State, end: map<nat, Byte>)
    requires Inv(s) && Drafted(s, d) && Builds(s, d, events, t, end)
    ensures Inv(t) && Drafted(t, end)
    decreases |events|
  {
    if events != [] {
      StepKeeps(s, events[0]);
      DraftStep(s, d, events[0]);
      BuildsKeeps(Step(s, events[0]), Draft(d, events[0]), events[1..], t, end);
    }
  }

  /** Each byte of the packet that was written is the one written last. */
  ghost predicate Shows(packet: seq<Byte>, d: map<nat, Byte>) {
    forall i :: 0 <= i < |packet| && i in d ==> packet[i] == d[i]
  }

  lemma DraftShows(s: State, d: map<nat, Byte>, n: nat)
    requires Drafted(s, d) && s.holder.Some? && s.used + n <= |s.arena|
    ensures Shows(s.arena[s.used..s.used + n], d)
  {
  }

  lemma CommitsOne(s: State, p: nat, n: nat) returns (packet: seq<Byte>)
    requires Inv(s) && Enabled(s, Commit(p, n))
    ensures s.used + n <= |s.arena| && packet == s.arena[s.used..s.used + n]
    ensures Step(s, Commit(p, n)).committed == s.committed + [packet]
  {
    packet := s.arena[s.used..s.used + n];
  }

  lemma InitialInv(s: State)
    requires Initial(s)
    ensures Inv(s)
  {
    assert Contents(s) == [];
  }

  /** After any run a commit adds one packet of the given length, which shows what was written since the
      reservation. */
  lemma CommitsDraft(s: State, events: seq<Event>, t: State, d: map<nat, Byte>, p: nat, n: nat)
    returns (packet: seq<Byte>)
    requires Initial(s) && Builds(s, map[], events, t, d) && Enabled(t, Commit(p, n))
    ensures Inv(t) && Step(t, Commit(p, n)).committed == t.committed + [packet] && |packet| == n && Shows(packet, d)
  {
    InitialInv(s);
    BuildsKeeps(s, map[], events, t, d);
    packet := CommitsOne(t, p, n);
    DraftShows(t, d, n);
  }

  ghost predicate Initial(s: State) {
    s.views == [] && s.used == 0 && s.holder.None? && s.flushed == [] && s.committed == [] && s.maxPackets > 0
  }

  lemma {:induction false} ReachesKeeps(s: State, events: seq<Event>, t: State)
    requires Inv(s) && Reaches(s, events, t)
    ensures Inv(t) && |t.arena| == |s.arena| && t.maxPackets == s.maxPackets
    decreases |events|
  {
    if events != [] {
      StepKeeps(s, events[0]);
      ReachesKeeps(Step(s, events[0]), events[1..], t);
    }
  }

  /** In every interleaving of producers, ticker and Flush the batches handed over, followed by the
      buffered views, are the committed packets in commit order; views tile the arena within its bounds. */
  lemma WriterConserves(s: State, events: seq<Event>, t: State)
    requires Initial(s) && Reaches(s, events, t)
    ensures InArena(t) && Flatten(t.flushed) + Contents(t) == t.committed
    ensures Tiles(t.views, t.used) && t.used <= |s.arena| && |t.views| < s.maxPackets
    ensures forall b :: b in t.flushed ==> 0 < |b| <= s.maxPackets && Total(b) <= |s.arena|
  {
    InitialInv(s);
    ReachesKeeps(s, events, t);
  }

  lemma StepGrows(s: State, e: Event)
    requires Inv(s) && Enabled(s, e)
    ensures s.committed <= Step(s, e).committed && s.flushed <= Step(s, e).flushed
  {
  }

  /** Commits are appended and never taken back, and so are flushed batches. */
  lemma {:induction false} CommittedGrows(s: State, events: seq<Event>, t: State)
    requires Inv(s) && Reaches(s, events, t)
    ensures s.committed <= t.committed && s.flushed <= t.flushed
    decreases |events|
  {
    if events != [] {
      var next := Step(s, events[0]);
      StepKeeps(s, events[0]);
      StepGrows(s, events[0]);
      CommittedGrows(next, events[1..], t);
      PrefixTrans(s.committed, next.committed, t.committed);
      PrefixTrans(s.flushed, next.flushed, t.flushed);
    }
  }

  lemma PrefixTrans<T>(a: seq<T>, b: seq<T>, c: seq<T>)
    requires a <= b <= c
    ensures a <= c
  {
  }

  // ---- the writer itself --------------------------------------------------------------------------------

  class Writer {
    const arena: array<Byte>
    const maxPackets: nat
    var used: nat
    var views: seq<View>
    var holder: Option<nat>
    var room: nat
    ghost var flushed: seq<seq<seq<Byte>>>
    ghost var committed: seq<seq<Byte>>

    ghost function St(): State
      reads this, arena
    {
      State(arena[..], used, views, maxPackets, holder, room, flushed, committed)
    }

    constructor (arenaCap: nat, maxPackets: nat)
      requires maxPackets > 0
      ensures Initial(St()) && arena.Length == arenaCap && this.maxPackets == maxPackets && fresh(arena)
    {
      arena := new Byte[arenaCap](_ => Byte(0));
      this.maxPackets := maxPackets;
      used, views, holder, room, flushed, committed := 0, [], None, 0, [], [];
    }

    /** Returns the batch it hands to the flush function. */
    method FlushLocked() returns (batch: seq<seq<Byte>>)
      requires InArena(St())
      modifies this`used, this`views, this`flushed
      ensures St() == Flushed(old(St())) && batch == old(Contents(St()))
    {
      batch := Gather(arena[..], views);
      if |views| == 0 {
        return;
      }
      flushed := flushed + [batch];
      used, views := 0, [];
    }

    /** Takes the lock and makes room, flushing if it must; the room starts at the returned offset. */
    method Reserve(p: nat, max: nat) returns (start: nat)
      requires Inv(St()) && holder.None? && max <= arena.Length
      modifies this`used, this`views, this`holder, this`room, this`flushed
      ensures Inv(St()) && St() == Reserved(old(St()), p, max)
      ensures start == used && start + max <= arena.Length
    {
      ReserveKeeps(St(), p, max);
      if |views| == maxPackets || used + max > arena.Length {
        var batch := FlushLocked();
      }
      holder, room, start := Some(p), max, used;
    }

    /** The producer builds its packet in the reserved room. */
    method Put(p: nat, i: nat, b: Byte)
      requires Inv(St()) && holder == Some(p) && i < room
      modifies arena
      ensures Inv(St()) && St() == Written(old(St()), i, b)
    {
      WriteKeeps(St(), i, b);
      arena[used + i] := b;
    }

    /** Records the packet, flushes a full batch, releases the lock. */
    method Commit(p: nat, n: nat)
      requires Inv(St()) && holder == Some(p) && n <= room
      modifies this`used, this`views, this`holder, this`flushed, this`committed
      ensures Inv(St()) && St() == Committed(old(St()), n)
    {
      CommitKeeps(St(), n);
      AppendedTiles(St(), n);
      Append(n);
      if |views| == maxPackets || used == arena.Length {
        var batch := FlushLocked();
      }
      holder := None;
    }

    method Append(n: nat)
      requires used + n <= arena.Length
      modifies this`used, this`views, this`committed
      ensures St() == Appended(old(St()), n)
    {
      committed := committed + [arena[..][used..used + n]];
      views := views + [View(used, used + n)];
      used := used + n;
    }

    method Flush()
      requires Inv(St()) && holder.None?
      modifies this`used, this`views, this`flushed
      ensures Inv(St()) && St() == Flushed(old(St())) && views == []
    {
      FlushKeeps(St());
      FlushedKeeps(St());
      var batch := FlushLocked();
    }

    /** Skips a writer whose lock is held. */
    method TryFlush()
      requires Inv(St())
      modifies this`used, this`views, this`flushed
      ensures Inv(St()) && St() == Step(old(St()), Event.TryFlush)
    {
      FlushKeeps(St());
      if holder.None? {
        var batch := FlushLocked();
      }
    }
  }

  /** The writers one ticker serves. */
  class FlushGroup {
    var writers: set<Writer>

    constructor ()
      ensures writers == {}
    {
      writers := {};
    }

    method Add(w: Writer)
      modifies this
      ensures writers == old(writers) + {w}
    {
      writers := writers + {w};
    }

    method Remove(w: Writer)
      modifies this
      ensures writers == old(writers) - {w}
    {
      writers := writers - {w};
    }

    /** One tick: every registered writer whose lock is free is flushed, the others are left alone. */
    method FlushAll()
      requires forall w :: w in writers ==> Inv(w.St())
      modifies writers
      ensures forall w :: w in writers ==> Ticked(old(w.St()), w.St())
    {
      var scratch := writers;
      while scratch != {}
        invariant scratch <= writers
        invariant forall w :: w in scratch ==> w.St() == old(w.St())
        invariant forall w :: w in writers && w !in scratch ==> Ticked(old(w.St()), w.St())
        decreases scratch
      {
        var w :| w in scratch;
        Tick(w);
        scratch := scratch - {w};
      }
    }

    method Tick(w: Writer)
      requires Inv(w.St())
      modifies w
      ensures Ticked(old(w.St()), w.St())
    {
      w.TryFlush();
    }
  }

  ghost predicate Ticked(s: State, t: State) {
    Inv(s) && Inv(t) && t == Step(s, Event.TryFlush)
  }
}
