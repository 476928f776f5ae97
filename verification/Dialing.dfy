/** The reconnecting stream sender: flushes that never dial, one background dial at a time, reconnects and
    close, in every interleaving. Each lock region is one step. */
module Dialing {
  import opened Common

  type Socket = nat

  const BACKOFF: nat := 1

  /** `inFlight` counts dial goroutines; `dialed` and `shut` record every socket obtained and closed. */
  datatype State = State(
    conn: Option<Socket>, connected: bool, dialing: bool, closed: bool, nextRetry: nat,
    inFlight: nat, dialed: set<Socket>, shut: multiset<Socket>)

  /** What a dial came to: an error, or a socket whose cipher could or could not be set up. */
  datatype DialResult = Failed | Dialed(socket: Socket, wrapped: bool)

  // ---- the lock regions ------------------------------------------------------------------------------

  function Reset(s: State): State {
    s.(conn := None, connected := false, shut := if s.conn.Some? then s.shut + multiset{s.conn.value} else s.shut)
  }

  predicate MayDial(s: State, now: nat) {
    !s.dialing && !s.closed && now >= s.nextRetry
  }

  /** Kicks a dial if disconnected; a write error drops the connection and backs off. */
  function Flushed(s: State, writeOk: bool, now: nat): State {
    if !s.connected then
      if MayDial(s, now) then s.(dialing := true, inFlight := s.inFlight + 1) else s
    else if writeOk then s
    else Reset(s).(nextRetry := now + BACKOFF)
  }

  function Finished(s: State, r: DialResult, now: nat): State
    requires s.inFlight > 0
  {
    var t := s.(dialing := false, inFlight := s.inFlight - 1);
    match r
    case Failed => t.(nextRetry := now + BACKOFF)
    case Dialed(k, wrapped) =>
      var u := t.(dialed := t.dialed + {k});
      if s.closed then u.(shut := u.shut + multiset{k})
      else if !wrapped then u.(shut := u.shut + multiset{k}, nextRetry := now + BACKOFF)
      else u.(conn := Some(k), connected := true)
  }

  function Reconnected(s: State): State {
    Reset(s).(nextRetry := 0)
  }

  function Closed(s: State): State {
    Reset(s.(closed := true))
  }

  // ---- the invariant -----------------------------------------------------------------------------------

  /** At most one dial, never while connected; nothing connected once closed; every dialed socket is the
      installed one or has been closed, once. */
  ghost predicate Inv(s: State) {
    && s.inFlight == (if s.dialing then 1 else 0)
    && (s.dialing ==> !s.connected)
    && (s.connected <==> s.conn.Some?)
    && (s.closed ==> !s.connected)
    && (forall k :: k in s.dialed <==> s.shut[k] == 1 || s.conn == Some(k))
    && (forall k :: s.shut[k] <= 1 && (s.conn == Some(k) ==> s.shut[k] == 0))
  }

  datatype Event = Flush(writeOk: bool, now: nat) | Finish(r: DialResult, now: nat) | Reconnect | Close

  /** A dial can finish only if one runs, and a new socket is new. */
  predicate Enabled(s: State, e: Event) {
    match e
    case Finish(r, _) => s.inFlight > 0 && (r.Dialed? ==> r.socket !in s.dialed)
    case Flush(_, _) => true
    case Reconnect => true
    case Close => true
  }

  function Step(s: State, e: Event): State
    requires Enabled(s, e)
  {
    match e
    case Flush(ok, now) => Flushed(s, ok, now)
    case Finish(r, now) => Finished(s, r, now)
    case Reconnect => Reconnected(s)
    case Close => Closed(s)
  }

  lemma StepKeeps(s: State, e: Event)
    requires Inv(s) && Enabled(s, e)
    ensures Inv(Step(s, e))
  {
  }

  ghost predicate Reaches(s: State, events: seq<Event>, t: State)
    decreases |events|
  {
    if events == [] then s == t else Enabled(s, events[0]) && Reaches(Step(s, events[0]), events[1..], t)
  }

  ghost predicate Initial(s: State) {
    s == State(None, false, false, false, 0, 0, {}, multiset{})
  }

  lemma {:induction false} RunKeeps(s: State, events: seq<Event>, t: State)
    requires Inv(s) && Reaches(s, events, t)
    ensures Inv(t) && (s.closed ==> t.closed)
    decreases |events|
  {
    if events != [] {
      StepKeeps(s, events[0]);
      RunKeeps(Step(s, events[0]), events[1..], t);
    }
  }

  /** In every interleaving of flushes, dial completions, write errors, reconnects and closes. */
  lemma DialSafe(s: State, events: seq<Event>, t: State)
    requires Initial(s) && Reaches(s, events, t)
    ensures t.inFlight <= 1 && (t.inFlight == 1 <==> t.dialing) && (t.dialing ==> !t.connected)
    ensures t.closed ==> !t.connected && forall k :: k in t.dialed ==> t.shut[k] == 1
    ensures forall k :: k in t.dialed ==> (t.conn == Some(k) && t.shut[k] == 0) || (t.conn != Some(k) && t.shut[k] == 1)
  {
    RunKeeps(s, events, t);
  }

  /** Once closed, always closed: a dial that completes later installs nothing. */
  lemma StaysClosed(s: State, events: seq<Event>, t: State)
    requires Inv(s) && s.closed && Reaches(s, events, t)
    ensures t.closed && !t.connected && t.conn.None?
  {
    RunKeeps(s, events, t);
  }

  // ---- when it dials -------------------------------------------------------------------------------------

  /** The time of the last failure since the last reconnect, if there was one: a broken write, a failed dial, or
      one whose cipher could not be set up. */
  ghost function LastFailure(s: State, last: Option<nat>, e: Event): Option<nat> {
    match e
    case Flush(ok, now) => if s.connected && !ok then Some(now) else last
    case Finish(Failed, now) => Some(now)
    case Finish(Dialed(_, wrapped), now) => if !s.closed && !wrapped then Some(now) else last
    case Reconnect => None
    case Close => last
  }

  ghost predicate Runs(s: State, last: Option<nat>, events: seq<Event>, t: State, end: Option<nat>)
    decreases |events|
  {
    if events == [] then s == t && last == end
    else
      && Enabled(s, events[0])
      && Runs(Step(s, events[0]), LastFailure(s, last, events[0]), events[1..], t, end)
  }

  /** The sender waits for one backoff after the last failure. */
  ghost predicate Waits(s: State, last: Option<nat>) {
    s.nextRetry == if last.Some? then last.value + BACKOFF else 0
  }

  lemma {:induction false} RunWaits(s: State, last: Option<nat>, events: seq<Event>, t: State, end: Option<nat>)
    requires Inv(s) && Waits(s, last) && Runs(s, last, events, t, end)
    ensures Inv(t) && Waits(t, end)
    decreases |events|
  {
    if events != [] {
      StepKeeps(s, events[0]);
      RunWaits(Step(s, events[0]), LastFailure(s, last, events[0]), events[1..], t, end);
    }
  }

  /** After any run a flush starts a dial exactly if the sender is open and disconnected, no dial runs, and a backoff
      has passed since the last failure, if there was one since the last reconnect. */
  lemma FlushDials(s: State, events: seq<Event>, t: State, end: Option<nat>, ok: bool, now: nat)
    requires Initial(s) && Runs(s, None, events, t, end)
    ensures Step(t, Flush(ok, now)).inFlight == t.inFlight + 1
       <==> !t.closed && t.conn.None? && t.inFlight == 0 && (end.None? || now >= end.value + BACKOFF)
  {
    RunWaits(s, None, events, t, end);
  }

  /** After any run a dial that finishes is installed exactly if it got a socket and a cipher and the sender is
      still open, and a connection lasts until a write breaks, a reconnect or a close. */
  lemma DialInstalls(s: State, events: seq<Event>, t: State, e: Event, k: Socket)
    requires Initial(s) && Reaches(s, events, t) && Enabled(t, e)
    ensures Step(t, e).conn == Some(k)
       <==> if t.conn == Some(k) then e.Finish? || (e.Flush? && e.writeOk)
            else !t.closed && e.Finish? && e.r == Dialed(k, true)
  {
    RunKeeps(s, events, t);
  }

  // ---- the sender itself -------------------------------------------------------------------------------

  class Sender {
    var conn: Option<Socket>
    var connected: bool
    var dialing: bool
    var closed: bool
    var nextRetry: nat
    ghost var inFlight: nat
    ghost var dialed: set<Socket>
    ghost var shut: multiset<Socket>

    ghost function St(): State
      reads this
    {
      State(conn, connected, dialing, closed, nextRetry, inFlight, dialed, shut)
    }

    constructor ()
      ensures Initial(St())
    {
      conn, connected, dialing, closed, nextRetry := None, false, false, false, 0;
      inFlight, dialed, shut := 0, {}, multiset{};
    }

    /** `fails` says at which view, if any, the write breaks, and `emits` whether the buffered rest gets out. */
    method Flush(views: nat, fails: Option<nat>, emits: bool, now: nat) returns (written: nat, ok: bool)
      requires Inv(St())
      modifies this
      ensures var fine := (fails.None? || fails.value >= views) && emits;
              Inv(St()) && St() == Flushed(old(St()), fine, now) && (ok <==> old(connected) && fine)
      ensures written == if !old(connected) then 0
                         else if fails.Some? && fails.value < views then fails.value else views
    {
      StepKeeps(St(), Event.Flush((fails.None? || fails.value >= views) && emits, now));
      written := 0;
      if !connected {
        KickDial(now);
        return 0, false;
      }
      while written < views
        invariant written <= views && (fails.Some? ==> written <= fails.value) && connected
        invariant St() == old(St())
      {
        if fails == Some(written) {
          ResetLocked();
          nextRetry := now + BACKOFF;
          return written, false;
        }
        written := written + 1;
      }
      if !emits {
        ResetLocked();
        nextRetry := now + BACKOFF;
        return written, false;
      }
      ok := true;
    }

    method KickDial(now: nat)
      modifies this`dialing, this`inFlight
      ensures St() == if MayDial(old(St()), now) then old(St()).(dialing := true, inFlight := old(inFlight) + 1)
                      else old(St())
    {
      if dialing || closed || now < nextRetry {
        return;
      }
      dialing, inFlight := true, inFlight + 1;
    }

    method ResetLocked()
      modifies this`conn, this`connected, this`shut
      ensures St() == Reset(old(St()))
    {
      if conn.Some? {
        shut := shut + multiset{conn.value};
      }
      conn, connected := None, false;
    }

    /** The end of a dial goroutine. */
    method DialDone(r: DialResult, now: nat)
      requires Inv(St()) && Enabled(St(), Event.Finish(r, now))
      modifies this
      ensures Inv(St()) && St() == Finished(old(St()), r, now)
    {
      StepKeeps(St(), Event.Finish(r, now));
      dialing, inFlight := false, inFlight - 1;
      match r
      case Failed =>
        nextRetry := now + BACKOFF;
      case Dialed(k, wrapped) =>
        dialed := dialed + {k};
        if closed {
          shut := shut + multiset{k};
          return;
        }
        if !wrapped {
          shut := shut + multiset{k};
          nextRetry := now + BACKOFF;
          return;
        }
        conn, connected := Some(k), true;
    }

    method Reconnect()
      requires Inv(St())
      modifies this
      ensures Inv(St()) && St() == Reconnected(old(St()))
    {
      StepKeeps(St(), Event.Reconnect);
      ResetLocked();
      nextRetry := 0;
    }

    method Close()
      requires Inv(St())
      modifies this
      ensures Inv(St()) && St() == Closed(old(St())) && !connected
    {
      StepKeeps(St(), Event.Close);
      closed := true;
      ResetLocked();
    }
  }
}
