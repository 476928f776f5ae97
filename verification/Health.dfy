/** The end-to-end healthcheck: a driver ticked by a clock, fed by returning packets and sent data, that
    decides when a path is healthy and when its links are reconnected. Times are integers. */
module Health {
  import opened Common

  /** The interval is negative to disable, zero for lazy, positive for a fixed cadence. */
  datatype Config = Config(interval: int, timeout: int, upGrace: int)

  datatype State = State(
    lastSeen: int, lastSent: int, sentTick: bool,
    healthy: bool, lastObserved: int, candidateSince: Option<int>, wasActive: bool, activeSince: Option<int>)

  /** What a tick does to the outside: probe, reconnect the links, fire a health edge. */
  datatype Outcome = Outcome(probe: bool, reconnect: bool, edge: Option<bool>)

  // ---- one tick --------------------------------------------------------------------------------------

  function Initial(s: State, now: int): State {
    s.(lastSeen := now, lastObserved := now, candidateSince := None, wasActive := false, activeSince := None,
       healthy := false)
  }

  predicate Active(c: Config, s: State, now: int) {
    c.interval > 0 || now - s.lastSent < c.timeout
  }

  /** When the current probing window began. */
  function Since(c: Config, s: State, now: int): Option<int> {
    if Active(c, s, now) && !s.wasActive then Some(now) else s.activeSince
  }

  /** The instant silence is counted from: in lazy mode no earlier than the probing window. */
  function Heard(c: Config, s: State, now: int): int {
    var since := Since(c, s, now);
    if c.interval == 0 && since.Some? && since.value > s.lastSeen then since.value else s.lastSeen
  }

  predicate Silent(c: Config, s: State, now: int) {
    Active(c, s, now) && now - Heard(c, s, now) > c.timeout
  }

  predicate Fresh(s: State) {
    s.lastSeen != s.lastObserved
  }

  /** Where the current run of fresh ticks began, this one included. */
  function Candidate(s: State, now: int): int {
    if s.candidateSince.Some? then s.candidateSince.value else now
  }

  predicate Rises(c: Config, s: State, now: int) {
    !s.healthy && Fresh(s) && now - Candidate(s, now) >= c.upGrace
  }

  /** A tick; after silence it ends with the reconnects, and `Rebased` follows them. */
  function Ticked(c: Config, s: State, now: int): State {
    var t := s.(wasActive := Active(c, s, now), activeSince := Since(c, s, now));
    if Silent(c, s, now) then t.(healthy := false, candidateSince := None)
    else t.(lastObserved := s.lastSeen, sentTick := if c.interval > 0 then s.sentTick else false,
            healthy := s.healthy || Rises(c, s, now),
            candidateSince := if s.healthy then s.candidateSince
                              else if Fresh(s) then Some(Candidate(s, now)) else None)
  }

  /** Silence is counted anew from the tick that reconnected, whatever has returned since. */
  function Rebased(s: State, tick: int): State {
    s.(lastSeen := tick, lastObserved := tick)
  }

  function Effect(c: Config, s: State, now: int): Outcome {
    if Silent(c, s, now) then Outcome(false, true, if s.healthy then Some(false) else None)
    else Outcome(c.interval > 0 || s.sentTick, false, if Rises(c, s, now) then Some(true) else None)
  }

  class Driver {
    const cfg: Config
    var lastSeen: int
    var lastSent: int
    var sentTick: bool
    var healthy: bool
    var lastObserved: int
    var candidateSince: Option<int>
    var wasActive: bool
    var activeSince: Option<int>

    function St(): State
      reads this
    {
      State(lastSeen, lastSent, sentTick, healthy, lastObserved, candidateSince, wasActive, activeSince)
    }

    constructor (cfg: Config)
      ensures this.cfg == cfg && St() == State(0, 0, false, false, 0, None, false, None)
    {
      this.cfg := cfg;
      lastSeen, lastSent, sentTick, healthy, lastObserved := 0, 0, false, false, 0;
      candidateSince, wasActive, activeSince := None, false, None;
    }

    method Init(now: int) returns (edge: Option<bool>)
      modifies this
      ensures St() == Initial(old(St()), now) && edge == if old(healthy) then Some(false) else None
    {
      lastSeen, lastObserved, candidateSince, wasActive, activeSince := now, now, None, false, None;
      edge := SetHealthy(false);
    }

    method Seen(now: int)
      modifies this`lastSeen
      ensures St() == old(St()).(lastSeen := now)
    {
      lastSeen := now;
    }

    method SentData(now: int)
      modifies this`lastSent, this`sentTick
      ensures St() == old(St()).(lastSent := now, sentTick := true)
    {
      lastSent, sentTick := now, true;
    }

    /** Fires only on a change. */
    method SetHealthy(h: bool) returns (edge: Option<bool>)
      modifies this`healthy
      ensures St() == old(St()).(healthy := h) && edge == if h != old(healthy) then Some(h) else None
    {
      edge := None;
      if h != healthy {
        healthy, edge := h, Some(h);
      }
    }

    /** The slow way up: liveness has to last for the grace period, and a stalled tick starts it over. */
    method Recover(isFresh: bool, now: int) returns (edge: Option<bool>)
      modifies this`healthy, this`candidateSince
      ensures candidateSince == if old(healthy) then old(candidateSince)
                                else if !isFresh then None else Some(Candidate(old(St()), now))
      ensures edge == if healthy != old(healthy) then Some(true) else None
      ensures healthy == (old(healthy) || (isFresh && now - Candidate(old(St()), now) >= cfg.upGrace))
    {
      edge := None;
      if !healthy {
        if isFresh {
          if candidateSince.None? {
            candidateSince := Some(now);
          }
          if now - candidateSince.value >= cfg.upGrace {
            edge := SetHealthy(true);
          }
        } else {
          candidateSince := None;
        }
      }
    }

    /** The end of a tick that found silence, once the links have been reconnected. */
    method Rebase(tick: int)
      modifies this`lastSeen, this`lastObserved
      ensures St() == Rebased(old(St()), tick)
    {
      lastSeen := tick;
      lastObserved := lastSeen;
    }

    /** Opens or closes the probing window, and looks for silence in it. */
    method Listen(now: int) returns (silent: bool)
      modifies this`wasActive, this`activeSince
      ensures wasActive == Active(cfg, old(St()), now) && activeSince == Since(cfg, old(St()), now)
      ensures silent == Silent(cfg, old(St()), now)
    {
      var active := cfg.interval > 0 || now - lastSent < cfg.timeout;
      if active && !wasActive {
        activeSince := Some(now);
      }
      wasActive := active;
      var effectiveSeen := lastSeen;
      if cfg.interval == 0 && activeSince.Some? && activeSince.value > effectiveSeen {
        effectiveSeen := activeSince.value;
      }
      silent := active && now - effectiveSeen > cfg.timeout;
    }

    method Step(now: int) returns (o: Outcome)
      modifies this
      ensures St() == Ticked(cfg, old(St()), now) && o == Effect(cfg, old(St()), now)
    {
      var seen := lastSeen;
      var silent := Listen(now);
      if silent {
        var down := SetHealthy(false);
        candidateSince := None;
        return Outcome(false, true, down);
      }
      var isFresh := seen != lastObserved;
      lastObserved := seen;
      var edge := Recover(isFresh, now);
      var probe := cfg.interval > 0;
      if !probe {
        probe, sentTick := sentTick, false;
      }
      return Outcome(probe, false, edge);
    }
  }

  // ---- whole runs --------------------------------------------------------------------------------------

  /** Returns and sent data come at any time, also while a tick reconnects the links. */
  datatype Event = Tick(now: int) | Rebase(now: int) | Seen(now: int) | SentData(now: int)

  /** What really happened: the time; the tick that is reconnecting, if one is; the run of ticks that each saw a
      new return; whether something returned since the last tick; the last return, whether it came during
      reconnects, and the last reconnect, or the start; what the last tick saw as the latest sign of life; the
      last data sent, and whether any was since the last tick that did not reconnect; the first of the unbroken
      row of probing ticks up to now; and the edges fired. */
  datatype Log = Log(
    clock: int, busy: Option<int>, streak: seq<int>, returned: bool, lastReturn: int, overwritten: bool,
    lastReconnect: int, observed: int, lastData: int, unprobed: bool, window: Option<int>, edges: seq<bool>)

  /** The probing window of a tick, if it probes: always at a fixed cadence, otherwise while data was sent
      less than the timeout ago. */
  ghost function Probing(c: Config, log: Log, now: int): Option<int> {
    if c.interval <= 0 && now - log.lastData >= c.timeout then None
    else if log.window.Some? then log.window else Some(now)
  }

  /** The latest sign of life that counts: a return during reconnects does not. */
  ghost function Latest(log: Log): int {
    if log.overwritten || log.lastReturn <= log.lastReconnect then log.lastReconnect else log.lastReturn
  }

  ghost predicate NewReturn(log: Log) {
    Latest(log) != log.observed
  }

  ghost function Next(c: Config, s: State, log: Log, e: Event): State {
    match e
    case Tick(now) => Ticked(c, s, now)
    case Rebase(_) => if log.busy.Some? then Rebased(s, log.busy.value) else s
    case Seen(now) => s.(lastSeen := now)
    case SentData(now) => s.(lastSent := now, sentTick := true)
  }

  ghost function AfterTick(c: Config, s: State, log: Log, now: int): Log {
    var o := Effect(c, s, now);
    log.(clock := now, returned := false, window := Probing(c, log, now), observed := Latest(log),
         busy := if o.reconnect then Some(now) else None,
         lastReconnect := if o.reconnect then now else log.lastReconnect, unprobed := o.reconnect && log.unprobed,
         streak := if o.reconnect || !NewReturn(log) then [] else log.streak + [now],
         edges := if o.edge.Some? then log.edges + [o.edge.value] else log.edges)
  }

  ghost function NextLog(c: Config, s: State, log: Log, e: Event): Log {
    match e
    case Tick(now) => AfterTick(c, s, log, now)
    case Rebase(now) => log.(clock := now, busy := None, returned := false, observed := Latest(log))
    case Seen(now) => log.(clock := now, returned := true, lastReturn := now, overwritten := log.busy.Some?)
    case SentData(now) => log.(clock := now, lastData := now, unprobed := true)
  }

  /** The run starts at time `t0`. */
  ghost predicate Starts(c: Config, s: State, log: Log, t0: int) {
    && (exists s0: State :: !s0.healthy && s == Initial(s0, t0))
    && log == Log(t0, None, [], false, t0, false, t0, t0, s.lastSent, s.sentTick, None, [])
  }

  /** Time does not run backwards, and a tick waits for the reconnects of the one before. */
  ghost predicate Enabled(log: Log, e: Event) {
    e.now >= log.clock && (e.Tick? ==> log.busy.None?) && (e.Rebase? ==> log.busy.Some?)
  }

  ghost predicate Reaches(c: Config, s: State, log: Log, events: seq<Event>, t: State, end: Log)
    decreases |events|
  {
    if events == [] then s == t && log == end
    else
      && Enabled(log, events[0])
      && Reaches(c, Next(c, s, log, events[0]), NextLog(c, s, log, events[0]), events[1..], t, end)
  }

  ghost predicate Alternates(edges: seq<bool>) {
    forall i :: 0 <= i < |edges| ==> edges[i] == (i % 2 == 0)
  }

  /** `streak` is a run of tick times in order. */
  ghost predicate Ordered(xs: seq<int>, clock: int) {
    forall i, j :: 0 <= i <= j < |xs| ==> xs[i] <= xs[j] <= clock
  }

  /** Between ticks the driver knows the latest sign of life and what it saw of it last. */
  ghost predicate Knows(s: State, log: Log) {
    s.lastSeen == Latest(log) && s.lastObserved == log.observed && (NewReturn(log) ==> log.returned)
  }

  ghost predicate Inv(c: Config, s: State, log: Log) {
    && log.lastReturn <= log.clock && log.lastReconnect <= log.clock
    && (log.busy.None? ==> Knows(s, log))
    && (log.busy.Some? ==> log.busy.value == log.lastReconnect)
    && (log.busy.Some? && log.lastReturn > log.lastReconnect ==> log.overwritten)
    && (c.interval <= 0 ==> s.sentTick == log.unprobed)
    && s.lastSent == log.lastData && s.wasActive == log.window.Some? && (s.wasActive ==> s.activeSince == log.window)
    && (!s.healthy ==> s.candidateSince == if log.streak == [] then None else Some(log.streak[0]))
    && Ordered(log.streak, log.clock)
    && Alternates(log.edges) && s.healthy == (|log.edges| % 2 == 1)
  }

  lemma StepKeeps(c: Config, s: State, log: Log, e: Event)
    requires Inv(c, s, log) && Enabled(log, e)
    ensures Inv(c, Next(c, s, log, e), NextLog(c, s, log, e))
  {
    if e.Tick? {
      var o := Effect(c, s, e.now);
      if o.edge.Some? {
        EdgeKeeps(s.healthy, log.edges, o.edge.value);
      }
      if Silent(c, s, e.now) {
        SilentKeeps(c, s, log, e.now);
      } else {
        HeardKeeps(c, s, log, e.now);
      }
    }
  }

  lemma EdgeKeeps(healthy: bool, edges: seq<bool>, up: bool)
    requires Alternates(edges) && healthy == (|edges| % 2 == 1) && up == !healthy
    ensures Alternates(edges + [up]) && up == (|edges + [up]| % 2 == 1)
  {
  }

  lemma SilentKeeps(c: Config, s: State, log: Log, now: int)
    requires Inv(c, s, log) && log.busy.None? && now >= log.clock && Silent(c, s, now)
    requires s.healthy ==> Alternates(log.edges + [false]) && |log.edges + [false]| % 2 == 0
    ensures Inv(c, Ticked(c, s, now), AfterTick(c, s, log, now))
  {
  }

  lemma HeardKeeps(c: Config, s: State, log: Log, now: int)
    requires Inv(c, s, log) && log.busy.None? && now >= log.clock && !Silent(c, s, now)
    requires Rises(c, s, now) ==> Alternates(log.edges + [true]) && |log.edges + [true]| % 2 == 1
    ensures Inv(c, Ticked(c, s, now), AfterTick(c, s, log, now))
  {
    StreakGrows(log.streak, log.clock, now);
  }

  lemma StreakGrows(streak: seq<int>, clock: int, now: int)
    requires Ordered(streak, clock) && now >= clock
    ensures Ordered(streak, now) && Ordered(streak + [now], now)
    ensures (streak + [now])[0] == if streak == [] then now else streak[0]
  {
  }

  lemma {:induction false} RunKeeps(c: Config, s: State, log: Log, events: seq<Event>, t: State, end: Log)
    requires Inv(c, s, log) && Reaches(c, s, log, events, t, end)
    ensures Inv(c, t, end)
    decreases |events|
  {
    if events != [] {
      StepKeeps(c, s, log, events[0]);
      RunKeeps(c, Next(c, s, log, events[0]), NextLog(c, s, log, events[0]), events[1..], t, end);
    }
  }

  /** An up edge is earned: after any run a tick fires it exactly if the path is down, the tick does not
      reconnect, something new has returned, and the unbroken row of ticks that each saw a new return, this one
      included, spans the grace period. */
  lemma UpEdgeEarned(c: Config, s: State, log: Log, events: seq<Event>, t: State, end: Log, t0: int, now: int)
    requires Starts(c, s, log, t0) && Reaches(c, s, log, events, t, end) && Enabled(end, Tick(now))
    ensures var row, o := end.streak + [now], Effect(c, t, now);
            && Ordered(row, now)
            && (o.edge == Some(true) <==> !t.healthy && !o.reconnect && NewReturn(end) && now - row[0] >= c.upGrace)
            && (o.edge == Some(true) ==> end.returned && AfterTick(c, t, end, now).streak == row)
  {
    RunKeeps(c, s, log, events, t, end);
    StreakGrows(end.streak, end.clock, now);
  }

  /** Reconnects and down edges come only after more than the timeout of probed silence: no reconnect has
      happened, nothing has returned, unless during the last reconnects, and in lazy mode probing has been going
      on for longer. */
  lemma DownOnlyAfterSilence(c: Config, s: State, log: Log, events: seq<Event>, t: State, end: Log, t0: int, now: int)
    requires Starts(c, s, log, t0) && Reaches(c, s, log, events, t, end) && Enabled(end, Tick(now))
    requires Effect(c, t, now).reconnect || Effect(c, t, now).edge == Some(false)
    ensures now - end.lastReconnect > c.timeout && (now - end.lastReturn > c.timeout || end.overwritten)
    ensures Probing(c, end, now).Some? && (c.interval == 0 ==> now - Probing(c, end, now).value > c.timeout)
  {
    RunKeeps(c, s, log, events, t, end);
  }

  /** The exception is real: a return during the reconnects is forgotten, and the path is failed again although
      it answered within the timeout. */
  lemma LateReturnForgotten() returns (c: Config, s: State, log: Log, events: seq<Event>, t: State, end: Log)
    ensures Starts(c, s, log, 0) && Reaches(c, s, log, events, t, end) && Enabled(end, Tick(12))
    ensures Effect(c, t, 12).reconnect && 12 - end.lastReturn <= c.timeout
  {
    c := Config(6, 5, 0);
    s := State(0, 0, false, false, 0, None, false, None);
    assert s == Initial(s, 0);
    log := Log(0, None, [], false, 0, false, 0, 0, 0, false, None, []);
    var a, b, d := Tick(6), Seen(8), Rebase(8);
    var s1, l1 := Next(c, s, log, a), NextLog(c, s, log, a);
    var s2, l2 := Next(c, s1, l1, b), NextLog(c, s1, l1, b);
    t, end := Next(c, s2, l2, d), NextLog(c, s2, l2, d);
    ReachesMore(c, s2, l2, d, [], t, end);
    ReachesMore(c, s1, l1, b, [d] + [], t, end);
    events := [a] + ([b] + ([d] + []));
    ReachesMore(c, s, log, a, [b] + ([d] + []), t, end);
  }

  lemma ReachesMore(c: Config, s: State, log: Log, e: Event, events: seq<Event>, t: State, end: Log)
    requires Enabled(log, e) && Reaches(c, Next(c, s, log, e), NextLog(c, s, log, e), events, t, end)
    ensures Reaches(c, s, log, [e] + events, t, end)
  {
    assert ([e] + events)[1..] == events;
  }

  /** A lazy window that has just resumed never fails on its first tick. */
  lemma ResumedWindowSurvives(c: Config, s: State, now: int)
    requires c.interval == 0 && c.timeout >= 0 && Active(c, s, now) && !s.wasActive
    ensures !Effect(c, s, now).reconnect && Effect(c, s, now).edge != Some(false)
  {
  }

  /** After any run a tick probes exactly if it does not reconnect and either the cadence is fixed or data has been
      sent since the last tick that did not reconnect. */
  lemma TickProbes(c: Config, s: State, log: Log, events: seq<Event>, t: State, end: Log, t0: int, now: int)
    requires Starts(c, s, log, t0) && Reaches(c, s, log, events, t, end) && Enabled(end, Tick(now))
    ensures var o := Effect(c, t, now); o.probe <==> !o.reconnect && (c.interval > 0 || end.unprobed)
  {
    RunKeeps(c, s, log, events, t, end);
  }

  /** Edges alternate, up first, and the last one is the current state. */
  lemma EdgesAlternate(c: Config, s: State, log: Log, events: seq<Event>, t: State, end: Log, t0: int)
    requires Starts(c, s, log, t0) && Reaches(c, s, log, events, t, end)
    ensures Alternates(end.edges) && t.healthy == (end.edges != [] && end.edges[|end.edges| - 1])
  {
    RunKeeps(c, s, log, events, t, end);
  }

  /** Since when a tick's window has been silent: the latest sign of life, and in lazy mode no earlier than the
      window itself. */
  ghost function SilentSince(c: Config, log: Log, window: int): int {
    if c.interval == 0 && window > Latest(log) then window else Latest(log)
  }

  /** A silent path is noticed, and only a silent one: a tick reconnects exactly if it probes and its window
      has been silent for longer than the timeout; the path goes down exactly if it was up then. */
  lemma SilenceReconnects(c: Config, s: State, log: Log, events: seq<Event>, t: State, end: Log, t0: int, now: int)
    requires Starts(c, s, log, t0) && Reaches(c, s, log, events, t, end) && Enabled(end, Tick(now))
    ensures var window, o := Probing(c, end, now), Effect(c, t, now);
            && (o.reconnect <==> window.Some? && now - SilentSince(c, end, window.value) > c.timeout)
            && (o.edge == Some(false) <==> o.reconnect && t.healthy)
  {
    RunKeeps(c, s, log, events, t, end);
  }
}
