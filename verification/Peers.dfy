/** The peer registry of a listening sender: peers found by id and by transport key, refreshed by stamped
    control messages, capped and garbage-collected. */
module Peers {
  import opened Common

  /** A routing identity; zero is "none". */
  type Id = nat
  type Key = string
  /** Where a peer's packets go. */
  type Sink = nat

  datatype Record = Record(key: Key, sink: Sink, lastSeen: int, lastTS: nat)

  datatype State = State(
    multiple: bool, ttl: int, maxPeers: int,
    byID: map<Id, Record>, byKey: map<Key, Id>, single: Option<Record>, singleTS: nat)

  /** A register or keepalive as it arrives: claimed id, transport key, stamp and reply path. */
  datatype Message = Message(claimed: Id, key: Key, ts: nat, sink: Sink)

  // ---- what registering does -------------------------------------------------------------------------

  /** The id a message is about; `minted` is used only if none is claimed or known. */
  function Resolve(s: State, m: Message, minted: Id): Id {
    if m.claimed != 0 then m.claimed else if m.key in s.byKey then s.byKey[m.key] else minted
  }

  predicate Full(s: State) {
    s.maxPeers > 0 && |s.byID| >= s.maxPeers
  }

  predicate Accepted(s: State, m: Message, minted: Id) {
    if !s.multiple then m.ts == 0 || m.ts > s.singleTS
    else
      var id := Resolve(s, m, minted);
      if id !in s.byID then !Full(s) else m.ts == 0 || m.ts > s.byID[id].lastTS
  }

  /** A peer that does not exist yet starts with the empty key. */
  function KeyOf(s: State, id: Id): Key {
    if id in s.byID then s.byID[id].key else ""
  }

  function Rebind(s: State, id: Id, key: Key): map<Key, Id> {
    if KeyOf(s, id) == key then s.byKey else (s.byKey - {KeyOf(s, id)})[key := id]
  }

  function Registered(s: State, m: Message, minted: Id, now: int): State {
    if !Accepted(s, m, minted) then s
    else if !s.multiple then s.(singleTS := m.ts, single := Some(Record("", m.sink, now, m.ts)))
    else
      var id := Resolve(s, m, minted);
      s.(byID := s.byID[id := Record(m.key, m.sink, now, m.ts)], byKey := Rebind(s, id, m.key))
  }

  predicate Idle(s: State, id: Id, now: int)
    requires id in s.byID
  {
    s.byID[id].lastSeen < now - s.ttl
  }

  /** Drops `id`, and its key only while the key still leads to it. */
  function Dropped(s: State, id: Id): State
    requires id in s.byID
  {
    var key := s.byID[id].key;
    s.(byID := s.byID - {id}, byKey := if key in s.byKey && s.byKey[key] == id then s.byKey - {key} else s.byKey)
  }

  ghost predicate Collected(s: State, now: int, t: State) {
    if !s.multiple then t == s
    else
      && t == s.(byID := t.byID, byKey := t.byKey)
      && (forall id :: id in t.byID <==> id in s.byID && !Idle(s, id, now))
      && (forall id :: id in t.byID ==> t.byID[id] == s.byID[id])
      && (forall k :: k in t.byKey <==> k in s.byKey && !(s.byKey[k] in s.byID && Idle(s, s.byKey[k], now)))
      && (forall k :: k in t.byKey ==> t.byKey[k] == s.byKey[k])
  }

  // ---- index consistency -----------------------------------------------------------------------------

  /** Every key leads to a live peer that carries it. */
  ghost predicate Consistent(s: State) {
    forall k :: k in s.byKey ==> s.byKey[k] in s.byID && s.byID[s.byKey[k]].key == k
  }

  ghost predicate Capped(s: State) {
    s.maxPeers > 0 ==> |s.byID| <= s.maxPeers
  }

  lemma RegisterConsistent(s: State, m: Message, minted: Id, now: int)
    requires Consistent(s)
    ensures Consistent(Registered(s, m, minted, now))
  {
    var id, t := Resolve(s, m, minted), Registered(s, m, minted, now);
    if s.multiple && Accepted(s, m, minted) {
      forall k | k in t.byKey ensures t.byKey[k] in t.byID && t.byID[t.byKey[k]].key == k {
        if k != m.key {
          assert k in s.byKey && s.byID[s.byKey[k]].key == k;
        }
      }
    }
  }

  lemma RegisterCapped(s: State, m: Message, minted: Id, now: int)
    requires Capped(s)
    ensures Capped(Registered(s, m, minted, now))
  {
    SizeAfter(s.byID, Resolve(s, m, minted), Record(m.key, m.sink, now, m.ts));
  }

  lemma CollectConsistent(s: State, now: int, t: State)
    requires Consistent(s) && Capped(s) && Collected(s, now, t)
    ensures Consistent(t) && Capped(t)
  {
    if s.multiple {
      assert t.byID.Keys <= s.byID.Keys;
      FewerMembers(t.byID.Keys, s.byID.Keys);
      assert |t.byID| == |t.byID.Keys| && |s.byID| == |s.byID.Keys|;
    }
  }

  /** The converse: every live peer is found by its key. */
  ghost predicate Findable(s: State) {
    forall id :: id in s.byID ==> s.byID[id].key in s.byKey && s.byKey[s.byID[id].key] == id
  }

  /** The register takes no key from another peer, and deletes none but its own. */
  predicate TakesNoKey(s: State, id: Id, key: Key) {
    if id in s.byID then s.byID[id].key == key || key !in s.byKey
    else key != "" && key !in s.byKey && "" !in s.byKey
  }

  /** Findability is not an invariant; an accepted register keeps it exactly when it takes nobody's key. */
  lemma FindableStep(s: State, m: Message, minted: Id, now: int)
    requires s.multiple && Consistent(s) && Findable(s) && Accepted(s, m, minted)
    ensures Findable(Registered(s, m, minted, now)) <==> TakesNoKey(s, Resolve(s, m, minted), m.key)
  {
    var id, t := Resolve(s, m, minted), Registered(s, m, minted, now);
    if TakesNoKey(s, id, m.key) {
      forall x | x in t.byID ensures t.byID[x].key in t.byKey && t.byKey[t.byID[x].key] == x {
        if x != id {
          assert s.byID[x].key in s.byKey && s.byKey[s.byID[x].key] == x;
        }
      }
    } else {
      NotFindable(s, m, id, t);
    }
  }

  /** A collection always keeps it. */
  lemma CollectFindable(s: State, now: int, t: State)
    requires Findable(s) && Collected(s, now, t)
    ensures Findable(t)
  {
    forall id | id in t.byID ensures t.byID[id].key in t.byKey && t.byKey[t.byID[id].key] == id {
      assert id in s.byID && s.byKey[s.byID[id].key] == id;
    }
  }

  lemma NotFindable(s: State, m: Message, id: Id, t: State)
    requires Consistent(s) && Findable(s) && !TakesNoKey(s, id, m.key)
    requires forall x :: x in s.byID && x != id ==> x in t.byID && t.byID[x] == s.byID[x]
    requires id in t.byID && t.byID[id].key == m.key && t.byKey == Rebind(s, id, m.key)
    ensures !Findable(t)
  {
    if m.key in s.byKey {
      var other := s.byKey[m.key];
      if other != id {
        assert other in t.byID && t.byID[other].key == m.key;
      }
    } else if "" in s.byKey && m.key != "" {
      var other := s.byKey[""];
      assert other in t.byID && t.byID[other].key == "";
    }
  }

  // ---- freshness over a lossy, duplicating, reordering network -----------------------------------------

  /** What can happen to a registry: any message ever sent arrives, any number of times and in any
      order, or idle peers are collected. `after` is the state a collection leaves. */
  datatype Event = Arrives(m: Message, minted: Id, now: int) | Collects(now: int, after: State)

  /** The messages accepted since the last stamp of zero, which skips the check and starts over, oldest first:
      for each live peer since it was last evicted, and for the one peer of a single-mode registry. `times` is
      when the last message of each live peer was accepted. */
  datatype History = History(peers: map<Id, seq<Message>>, times: map<Id, int>, single: seq<Message>)

  ghost predicate Possible(s: State, e: Event) {
    match e
    case Arrives(_, minted, _) => minted != 0 && minted !in s.byID
    case Collects(now, after) => Collected(s, now, after)
  }

  ghost function Next(s: State, e: Event): State {
    match e
    case Arrives(m, minted, now) => Registered(s, m, minted, now)
    case Collects(_, after) => after
  }

  ghost function NextHistory(s: State, h: History, e: Event): History {
    match e
    case Arrives(m, minted, now) =>
      if !Accepted(s, m, minted) then h
      else if !s.multiple then h.(single := (if m.ts == 0 then [] else h.single) + [m])
      else
        var id := Resolve(s, m, minted);
        h.(peers := h.peers[id := (if m.ts != 0 && id in h.peers then h.peers[id] else []) + [m]],
           times := h.times[id := now])
    case Collects(_, after) =>
      h.(peers := map id | id in h.peers && id in after.byID :: h.peers[id],
         times := map id | id in h.times && id in after.byID :: h.times[id])
  }

  ghost predicate Rising(ms: seq<Message>) {
    Ascends(seq(|ms|, i requires 0 <= i < |ms| => ms[i].ts))
  }

  /** A live peer is bound to the last message accepted for it, which is the newest. */
  ghost predicate BoundToNewest(s: State, h: History, id: Id)
    requires id in s.byID
  {
    && id in h.peers && h.peers[id] != [] && Rising(h.peers[id])
    && id in h.times && h.times[id] == s.byID[id].lastSeen
    && var last := h.peers[id][|h.peers[id]| - 1];
       s.byID[id].lastTS == last.ts && s.byID[id].sink == last.sink
  }

  /** The one peer of a single-mode registry is bound to the newest message accepted. */
  ghost predicate SingleNewest(s: State, ms: seq<Message>) {
    && Rising(ms) && (s.single.None? <==> ms == [])
    && s.singleTS == (if ms == [] then 0 else ms[|ms| - 1].ts)
    && (ms != [] ==> s.single.value.sink == ms[|ms| - 1].sink)
  }

  ghost predicate Fresh(s: State, h: History) {
    if s.multiple then
      h.peers.Keys == h.times.Keys == s.byID.Keys && forall id :: id in s.byID ==> BoundToNewest(s, h, id)
    else SingleNewest(s, h.single)
  }

  lemma ArrivalFresh(s: State, h: History, m: Message, minted: Id, now: int)
    requires Fresh(s, h)
    ensures Fresh(Registered(s, m, minted, now), NextHistory(s, h, Arrives(m, minted, now)))
  {
    if Accepted(s, m, minted) {
      if s.multiple {
        PeerFresh(s, h, m, minted, now);
      } else {
        RisingSnoc(if m.ts == 0 then [] else h.single, m);
      }
    }
  }

  lemma PeerFresh(s: State, h: History, m: Message, minted: Id, now: int)
    requires Fresh(s, h) && s.multiple && Accepted(s, m, minted)
    ensures Fresh(Registered(s, m, minted, now), NextHistory(s, h, Arrives(m, minted, now)))
  {
    var id, t, g := Resolve(s, m, minted), Registered(s, m, minted, now), NextHistory(s, h, Arrives(m, minted, now));
    if id in s.byID && m.ts != 0 {
      assert BoundToNewest(s, h, id);
      RisingSnoc(h.peers[id], m);
    } else {
      assert g.peers[id] == [m];
    }
    forall x | x in t.byID ensures BoundToNewest(t, g, x) {
      if x != id {
        assert BoundToNewest(s, h, x);
      }
    }
  }

  lemma RisingSnoc(ms: seq<Message>, m: Message)
    requires Rising(ms) && (ms != [] ==> ms[|ms| - 1].ts < m.ts)
    ensures Rising(ms + [m])
  {
    var xs := seq(|ms|, i requires 0 <= i < |ms| => ms[i].ts);
    AscendsSnoc(xs, m.ts);
    assert xs + [m.ts] == seq(|ms + [m]|, i requires 0 <= i < |ms + [m]| => (ms + [m])[i].ts);
  }

  lemma CollectFresh(s: State, h: History, now: int, t: State)
    requires Fresh(s, h) && Collected(s, now, t)
    ensures Fresh(t, NextHistory(s, h, Collects(now, t)))
  {
    forall id | s.multiple && id in t.byID ensures BoundToNewest(t, NextHistory(s, h, Collects(now, t)), id) {
      assert BoundToNewest(s, h, id);
    }
  }

  ghost predicate Reaches(s: State, h: History, events: seq<Event>, t: State, g: History)
    decreases |events|
  {
    if events == [] then s == t && h == g
    else Possible(s, events[0]) && Reaches(Next(s, events[0]), NextHistory(s, h, events[0]), events[1..], t, g)
  }

  /** Everything a run keeps. */
  ghost predicate Inv(s: State, h: History) {
    Consistent(s) && Capped(s) && Fresh(s, h)
  }

  lemma {:induction false} RunKeeps(s: State, h: History, events: seq<Event>, t: State, g: History)
    requires Inv(s, h) && Reaches(s, h, events, t, g)
    ensures Inv(t, g)
    decreases |events|
  {
    if events != [] {
      match events[0]
      case Arrives(m, minted, now) =>
        RegisterConsistent(s, m, minted, now);
        RegisterCapped(s, m, minted, now);
        ArrivalFresh(s, h, m, minted, now);
        RunKeeps(Next(s, events[0]), NextHistory(s, h, events[0]), events[1..], t, g);
      case Collects(now, after) =>
        CollectConsistent(s, now, after);
        CollectFresh(s, h, now, after);
        RunKeeps(Next(s, events[0]), NextHistory(s, h, events[0]), events[1..], t, g);
    }
  }

  ghost predicate Empty(s: State) {
    s.byID == map[] && s.byKey == map[] && s.single.None? && s.singleTS == 0
  }

  const UNHEARD := History(map[], map[], [])

  /** Whatever the network does: keys lead to live peers that carry them, the cap
      holds, no stamp is accepted twice for a peer between evictions and zero stamps, and each peer is bound
      to the sink of the newest message accepted for it. The same holds of the peer of a single-mode registry. */
  lemma RegistrySafe(s: State, events: seq<Event>, t: State, g: History)
    requires Empty(s) && Reaches(s, UNHEARD, events, t, g)
    ensures Consistent(t) && Capped(t)
    ensures t.multiple ==> forall id :: id in t.byID ==> BoundToNewest(t, g, id)
    ensures !t.multiple ==> SingleNewest(t, g.single)
  {
    RunKeeps(s, UNHEARD, events, t, g);
  }

  lemma ReachesMore(s: State, h: History, e: Event, events: seq<Event>, t: State, g: History)
    requires Possible(s, e) && Reaches(Next(s, e), NextHistory(s, h, e), events, t, g)
    ensures Reaches(s, h, [e] + events, t, g)
  {
    assert ([e] + events)[1..] == events;
  }

  ghost function Claims(id: Id, key: Key, ts: nat): Event {
    Arrives(Message(id, key, ts, 0), 9, 0)
  }

  /** Two peers behind one address: the second takes the key, and when the first moves away the key is
      deleted although it leads to the second. */
  lemma LostKey() returns (s: State, events: seq<Event>, t: State, g: History)
    ensures Empty(s) && Reaches(s, UNHEARD, events, t, g)
    ensures 2 in t.byID && t.byID[2].key !in t.byKey
  {
    s := State(true, 60, 0, map[], map[], None, 0);
    var a, b, c := Claims(1, "a", 1), Claims(2, "a", 1), Claims(1, "b", 2);
    var s1, h1 := Next(s, a), NextHistory(s, UNHEARD, a);
    var s2, h2 := Next(s1, b), NextHistory(s1, h1, b);
    t, g := Next(s2, c), NextHistory(s2, h2, c);
    ReachesMore(s2, h2, c, [], t, g);
    ReachesMore(s1, h1, b, [c] + [], t, g);
    events := [a] + ([b] + ([c] + []));
    ReachesMore(s, UNHEARD, a, [b] + ([c] + []), t, g);
  }

  /** The messages accepted so far for whatever a message is about. */
  ghost function Heard(s: State, h: History, m: Message, minted: Id): seq<Message> {
    if !s.multiple then h.single
    else
      var id := Resolve(s, m, minted);
      if id in h.peers then h.peers[id] else []
  }

  lemma NewestIsLast(ms: seq<Message>, x: Message)
    requires Rising(ms) && x in ms
    ensures x.ts <= ms[|ms| - 1].ts
  {
    var xs := seq(|ms|, i requires 0 <= i < |ms| => ms[i].ts);
    var i :| 0 <= i < |ms| && ms[i] == x;
    assert xs[i] <= xs[|ms| - 1];
  }

  /** Newer than everything heard; a stamp of zero skips the check. */
  ghost predicate Newer(m: Message, heard: seq<Message>) {
    m.ts == 0 || forall x :: x in heard ==> x.ts < m.ts
  }

  /** There is room for one more peer. */
  predicate Room(s: State) {
    s.multiple && s.maxPeers > 0 ==> |s.byID| < s.maxPeers
  }

  lemma FreshDecides(s: State, h: History, m: Message, minted: Id)
    requires Fresh(s, h)
    ensures var heard := Heard(s, h, m, minted);
            Accepted(s, m, minted) <==> if heard == [] then Room(s) else Newer(m, heard)
  {
    var heard := Heard(s, h, m, minted);
    if s.multiple && Resolve(s, m, minted) in s.byID {
      assert BoundToNewest(s, h, Resolve(s, m, minted));
    }
    if heard != [] {
      assert heard[|heard| - 1] in heard;
      forall x | x in heard ensures x.ts <= heard[|heard| - 1].ts {
        NewestIsLast(heard, x);
      }
    }
  }

  /** After any run, a message for a peer that has been heard of is accepted exactly if it is newer than
      everything accepted for that peer, and one for a new peer exactly if there is room. */
  lemma NoReplay(s: State, events: seq<Event>, t: State, g: History, m: Message, minted: Id)
    requires Empty(s) && Reaches(s, UNHEARD, events, t, g)
    ensures var heard := Heard(t, g, m, minted);
            Accepted(t, m, minted) <==> if heard == [] then Room(t) else Newer(m, heard)
  {
    RunKeeps(s, UNHEARD, events, t, g);
    FreshDecides(t, g, m, minted);
  }

  /** After any run, a collection keeps a live peer exactly if a message of it was accepted within the ttl. */
  lemma SilentPeersDropped(s: State, events: seq<Event>, t: State, g: History, now: int, after: State)
    requires Empty(s) && s.multiple && Reaches(s, UNHEARD, events, t, g) && Collected(t, now, after)
    ensures g.times.Keys == t.byID.Keys
    ensures forall id :: id in after.byID <==> id in t.byID && g.times[id] >= now - s.ttl
  {
    RunKeeps(s, UNHEARD, events, t, g);
    SettingsStay(s, UNHEARD, events, t, g);
    forall id ensures id in after.byID <==> id in t.byID && g.times[id] >= now - s.ttl {
      if id in t.byID {
        assert BoundToNewest(t, g, id);
      }
    }
  }

  lemma {:induction false} SettingsStay(s: State, h: History, events: seq<Event>, t: State, g: History)
    requires Reaches(s, h, events, t, g)
    ensures t.multiple == s.multiple && t.ttl == s.ttl && t.maxPeers == s.maxPeers
    decreases |events|
  {
    if events != [] {
      SettingsStay(Next(s, events[0]), NextHistory(s, h, events[0]), events[1..], t, g);
    }
  }

  // ---- whose message it is -------------------------------------------------------------------------------

  /** A claimed id is adopted, whatever the key: that peer gets the message's sink, and no other is touched. */
  lemma ClaimAdopted(s: State, m: Message, minted: Id, now: int)
    requires s.multiple && m.claimed != 0 && Accepted(s, m, minted)
    ensures var t := Registered(s, m, minted, now);
            && m.claimed in t.byID && t.byID[m.claimed] == Record(m.key, m.sink, now, m.ts)
            && t.byID - {m.claimed} == s.byID - {m.claimed}
  {
  }

  /** A register without an id that is sent again gets the id of the first one, exactly if it has a key or the
      empty key already led somewhere. */
  lemma MintIdempotent(s: State, m: Message, minted: Id, now: int, again: Message, other: Id)
    requires s.multiple && Consistent(s) && Accepted(s, m, minted) && minted !in s.byID && other != minted
    requires m.claimed == 0 && again.claimed == 0 && again.key == m.key
    requires other !in s.byID
    ensures Resolve(Registered(s, m, minted, now), again, other) == Resolve(s, m, minted)
       <==> m.key != "" || "" in s.byKey
  {
  }

  // ---- the registry itself -----------------------------------------------------------------------------

  class Peer {
    const id: Id
    var key: Key
    var sink: Sink
    var lastSeen: int
    var lastTS: nat

    constructor (id: Id)
      ensures this.id == id && Rec() == Record("", 0, 0, 0)
    {
      this.id, key, sink, lastSeen, lastTS := id, "", 0, 0, 0;
    }

    function Rec(): Record
      reads this
    {
      Record(key, sink, lastSeen, lastTS)
    }
  }

  class Registry {
    const multiple: bool
    const ttl: int
    const maxPeers: int
    var byID: map<Id, Peer>
    var byKey: map<Key, Peer>
    var single: Option<Record>
    var singleTS: nat

    /** The same registry with ids for pointers. */
    ghost var st: State

    /** Ids are their map keys, and a key's entry is the very peer its id leads to. */
    ghost predicate Valid()
      reads this, byID.Values, byKey.Values
    {
      && st.multiple == multiple && st.ttl == ttl && st.maxPeers == maxPeers && st.single == single
      && st.singleTS == singleTS
      && byID.Keys == st.byID.Keys && byKey.Keys == st.byKey.Keys
      && (forall id :: id in byID ==> byID[id].id == id && byID[id].Rec() == st.byID[id])
      && (forall k :: k in byKey ==> st.byKey[k] in byID && byID[st.byKey[k]] == byKey[k] && byKey[k].key == k)
    }

    constructor (multiple: bool, ttl: int, maxPeers: int)
      ensures Valid() && st == State(multiple, ttl, maxPeers, map[], map[], None, 0)
    {
      this.multiple, this.ttl, this.maxPeers := multiple, ttl, maxPeers;
      byID, byKey, single, singleTS := map[], map[], None, 0;
      st := State(multiple, ttl, maxPeers, map[], map[], None, 0);
    }

    /** Records or refreshes a peer; refuses a stale stamp, and a new peer over the cap. */
    method Register(m: Message, minted: Id, now: int) returns (id: Id, ok: bool)
      requires Valid() && minted != 0 && minted !in byID
      modifies this, byID.Values
      ensures Valid() && st == Registered(old(st), m, minted, now)
      ensures ok == Accepted(old(st), m, minted)
      ensures id == if ok && multiple then Resolve(old(st), m, minted) else 0
    {
      if !multiple {
        ok := RegisterSingle(m, now);
        return 0, ok;
      }
      id := ResolveId(m, minted);
      ghost var s := st;
      ok := Admit(id, m.ts);
      if !ok {
        return 0, false;
      }
      AdmittedFirst(s, st, m, minted, now);
      Refresh(byID[id], m, now);
    }

    method ResolveId(m: Message, minted: Id) returns (id: Id)
      requires Valid()
      ensures id == Resolve(st, m, minted)
    {
      id := m.claimed;
      if id == 0 {
        id := if m.key in byKey then byKey[m.key].id else minted;
      }
    }

    /** Finds or creates the peer; refuses a stale stamp, and a new peer over the cap. */
    method Admit(id: Id, ts: nat) returns (ok: bool)
      requires Valid() && multiple
      modifies this`byID, this`st
      ensures ok == if id in old(st).byID then ts == 0 || ts > old(st).byID[id].lastTS else !Full(old(st))
      ensures Valid() && (ok ==> id in byID && (byID[id] in old(byID.Values) || fresh(byID[id])))
      ensures st == if ok && id !in old(st).byID then old(st).(byID := old(st).byID[id := Record("", 0, 0, 0)])
                    else old(st)
    {
      assert |st.byID| == |st.byID.Keys| == |byID|;
      if id !in byID {
        if maxPeers > 0 && |byID| >= maxPeers {
          return false;
        }
        Insert(id);
      } else if ts != 0 && ts <= byID[id].lastTS {
        return false;
      }
      return true;
    }

    /** The one peer of a single-mode registry is superseded. */
    method RegisterSingle(m: Message, now: int) returns (ok: bool)
      requires Valid() && !multiple
      modifies this`single, this`singleTS, this`st
      ensures Valid() && ok == (m.ts == 0 || m.ts > old(singleTS))
      ensures st == if ok then old(st).(singleTS := m.ts, single := Some(Record("", m.sink, now, m.ts))) else old(st)
    {
      if m.ts != 0 && m.ts <= singleTS {
        return false;
      }
      singleTS := m.ts;
      single := Some(Record("", m.sink, now, m.ts));
      st := st.(singleTS := m.ts, single := single);
      return true;
    }

    /** A brand-new peer. */
    method Insert(id: Id)
      requires Valid() && id !in byID
      modifies this`byID, this`st
      ensures Valid() && id in byID && fresh(byID[id])
      ensures st == old(st).(byID := old(st).byID[id := Record("", 0, 0, 0)])
    {
      var p := new Peer(id);
      byID := byID[id := p];
      st := st.(byID := st.byID[id := Record("", 0, 0, 0)]);
    }

    method Refresh(p: Peer, m: Message, now: int)
      requires Valid() && p.id in byID && byID[p.id] == p
      modifies this`byKey, this`st, p
      ensures Valid()
      ensures st == old(st).(byID := old(st).byID[p.id := Record(m.key, m.sink, now, m.ts)],
                             byKey := Rebind(old(st), p.id, m.key))
    {
      ghost var s, r := st, Record(m.key, p.sink, p.lastSeen, p.lastTS);
      if p.key != m.key {
        Rekey(p, m.key);
      }
      RekeyedFirst(s, st, p.id, r, Record(m.key, m.sink, now, m.ts));
      Touch(p, m, now);
    }

    method Touch(p: Peer, m: Message, now: int)
      requires Valid() && p.id in byID && byID[p.id] == p && p.key == m.key
      modifies this`st, p`sink, p`lastSeen, p`lastTS
      ensures Valid() && st == old(st).(byID := old(st).byID[p.id := Record(m.key, m.sink, now, m.ts)])
    {
      p.sink := m.sink;
      p.lastSeen := now;
      p.lastTS := m.ts;
      st := st.(byID := st.byID[p.id := Record(m.key, m.sink, now, m.ts)]);
    }

    /** Moves a peer to another transport key, deleting whatever its old key led to. */
    method Rekey(p: Peer, key: Key)
      requires Valid() && p.id in byID && byID[p.id] == p && p.key != key
      modifies this`byKey, this`st, p`key
      ensures Valid() && p.key == key
      ensures st == old(st).(byID := old(st).byID[p.id := p.Rec()], byKey := Rebind(old(st), p.id, key))
    {
      ghost var next := Rebind(st, p.id, key);
      byKey := (byKey - {p.key})[key := p];
      p.key := key;
      st := st.(byID := st.byID[p.id := p.Rec()], byKey := next);
    }

    predicate Accepts(owner: Id)
      reads this
    {
      if multiple then owner in byID else single.Some?
    }

    /** The sink a packet for `owner` goes to. */
    method SinkFor(owner: Id) returns (sink: Option<Sink>)
      requires Valid()
      ensures sink.Some? <==> Accepts(owner)
      ensures sink.Some? ==> sink.value == if multiple then st.byID[owner].sink else st.single.value.sink
    {
      if multiple {
        return if owner in byID then Some(byID[owner].sink) else None;
      }
      return if single.Some? then Some(single.value.sink) else None;
    }

    /** Drops exactly the idle peers, and the keys that led to them. */
    method GC(now: int) returns (n: nat)
      requires Valid()
      modifies this`byID, this`byKey, this`st
      ensures Valid() && Collected(old(st), now, st)
      ensures multiple ==> n == |old(st).byID| - |st.byID|
    {
      n := 0;
      if !multiple {
        return;
      }
      ghost var start := st;
      var todo := byID.Keys;
      NoneVisited(st, now);
      ValidConsistent();
      while todo != {}
        invariant Valid() && todo <= byID.Keys && PartlyCollected(start, now, st, todo)
        invariant n + |st.byID| == |start.byID|
        decreases todo
      {
        var id :| id in todo;
        var rest := todo - {id};
        PutBack(todo, id);
        var dropped := Visit(id, now, start, rest);
        n := n + if dropped then 1 else 0;
        todo := rest;
      }
      AllVisited(start, now, st);
    }

    lemma ValidConsistent()
      requires Valid()
      ensures Consistent(st)
    {
    }

    /** Drops `id` if it is idle. */
    method Visit(id: Id, now: int, ghost start: State, ghost todo: set<Id>) returns (dropped: bool)
      requires Valid() && id in byID && id !in todo && Consistent(start)
      requires PartlyCollected(start, now, st, todo + {id})
      modifies this`byID, this`byKey, this`st
      ensures Valid() && PartlyCollected(start, now, st, todo)
      ensures byID.Keys == old(byID.Keys) - if dropped then {id} else {}
      ensures |st.byID| + (if dropped then 1 else 0) == |old(st).byID|
    {
      dropped := byID[id].lastSeen < now - ttl;
      if dropped {
        DropStep(start, now, st, todo, id);
        Drop(id);
      } else {
        KeepStep(start, now, st, todo, id);
      }
    }

    method Drop(id: Id)
      requires Valid() && id in byID
      modifies this`byID, this`byKey, this`st
      ensures Valid() && st == Dropped(old(st), id) && byID.Keys == old(byID.Keys) - {id}
      ensures |st.byID| == |old(st).byID| - 1
    {
      ghost var s := st;
      DroppedKeys(st, id);
      ValidConsistent();
      DroppedLinks(st, id);
      Unkey(byID[id]);
      Remove(id);
      assert st == Dropped(s, id);
    }

    /** Deletes the peer's key while it still leads to it. */
    method Unkey(p: Peer)
      requires Valid() && p.id in byID && byID[p.id] == p
      modifies this`byKey, this`st
      ensures Valid() && st == old(st).(byKey := Dropped(old(st), p.id).byKey)
    {
      ghost var next := Dropped(st, p.id).byKey;
      if p.key in byKey && byKey[p.key] == p {
        byKey := byKey - {p.key};
      }
      st := st.(byKey := next);
    }

    method Remove(id: Id)
      requires Valid() && id in byID && forall k :: k in st.byKey ==> st.byKey[k] != id
      modifies this`byID, this`st
      ensures Valid() && st == old(st).(byID := old(st).byID - {id}) && byID.Keys == old(byID.Keys) - {id}
    {
      byID := byID - {id};
      st := st.(byID := st.byID - {id});
    }
  }

  /** No key that is left leads to the dropped peer. */
  lemma DroppedLinks(s: State, id: Id)
    requires id in s.byID && Consistent(s)
    ensures forall k :: k in Dropped(s, id).byKey ==>
              k in s.byKey && Dropped(s, id).byKey[k] == s.byKey[k] && s.byKey[k] != id
  {
    forall k | k in Dropped(s, id).byKey ensures s.byKey[k] != id {
      assert s.byID[s.byKey[k]].key == k;
    }
  }

  lemma DroppedKeys(s: State, id: Id)
    requires id in s.byID
    ensures Dropped(s, id).byID.Keys == s.byID.Keys - {id} && |Dropped(s, id).byID| == |s.byID| - 1
  {
    assert Dropped(s, id).byID.Keys == s.byID.Keys - {id};
    assert |Dropped(s, id).byID| == |Dropped(s, id).byID.Keys| && |s.byID| == |s.byID.Keys|;
  }

  /** Creating the peer first and then refreshing it registers the message. */
  lemma AdmittedFirst(s: State, t: State, m: Message, minted: Id, now: int)
    requires s.multiple && Accepted(s, m, minted)
    requires var id := Resolve(s, m, minted);
             t == if id in s.byID then s else s.(byID := s.byID[id := Record("", 0, 0, 0)])
    ensures var id := Resolve(s, m, minted);
            t.(byID := t.byID[id := Record(m.key, m.sink, now, m.ts)], byKey := Rebind(t, id, m.key))
            == Registered(s, m, minted, now)
  {
  }

  lemma RekeyedFirst(s: State, mid: State, id: Id, r: Record, rec: Record)
    requires mid == if KeyOf(s, id) == rec.key then s else s.(byID := s.byID[id := r], byKey := Rebind(s, id, rec.key))
    ensures mid.(byID := mid.byID[id := rec]) == s.(byID := s.byID[id := rec], byKey := Rebind(s, id, rec.key))
  {
  }

  lemma PutBack(ids: set<Id>, id: Id)
    requires id in ids
    ensures ids - {id} + {id} == ids
  {
  }

  lemma AllVisited(s: State, now: int, t: State)
    requires s.multiple && PartlyCollected(s, now, t, {})
    ensures Collected(s, now, t)
  {
  }

  lemma NoneVisited(s: State, now: int)
    ensures PartlyCollected(s, now, s, s.byID.Keys)
  {
  }

  /** Collected as far as the ids in `todo` allow. */
  ghost predicate PartlyCollected(s: State, now: int, t: State, todo: set<Id>) {
    && t == s.(byID := t.byID, byKey := t.byKey)
    && (forall id :: id in t.byID <==> id in s.byID && (id in todo || !Idle(s, id, now)))
    && (forall id :: id in t.byID ==> t.byID[id] == s.byID[id])
    && (forall k :: k in t.byKey <==>
          k in s.byKey && (s.byKey[k] !in s.byID || s.byKey[k] in todo || !Idle(s, s.byKey[k], now)))
    && (forall k :: k in t.byKey ==> t.byKey[k] == s.byKey[k])
  }

  lemma DropStep(s: State, now: int, t: State, todo: set<Id>, id: Id)
    requires PartlyCollected(s, now, t, todo + {id}) && id !in todo && id in t.byID && Idle(s, id, now) && Consistent(s)
    ensures PartlyCollected(s, now, Dropped(t, id), todo)
  {
    forall k | k in s.byKey && s.byKey[k] == id ensures k == t.byID[id].key {
      assert s.byID[s.byKey[k]].key == k;
    }
  }

  lemma KeepStep(s: State, now: int, t: State, todo: set<Id>, id: Id)
    requires PartlyCollected(s, now, t, todo + {id}) && id !in todo && id in t.byID && !Idle(s, id, now)
    ensures PartlyCollected(s, now, t, todo)
  {
  }
}
