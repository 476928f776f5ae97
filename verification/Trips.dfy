/** Packets crossing several nodes, over any tables the router accepts: whether they have been to the
    internet, how often, and whose reply comes back. */
module Trips {
  import opened Common
  import opened Schema
  import opened Compile
  import opened NetworkCompiler
  import opened Routing
  import opened Orientation
  import Mesh
  import UpPath
  import Router
  import Finalizer

  // ---- when compiled tables draw a warning ---------------------------------------------------------------

  /** The router of a node: built from its compiled rows over its connections, each with the kind it was
      compiled to. */
  ghost predicate Runs(cfg: NodeConfig, s: Router.Setup, sources: seq<Name>, c: Router.Compiled) {
    && (forall x :: x in s.conns ==> (s.conns[x] <==> Sends(cfg.connections, x)))
    && (forall i :: 0 <= i < |cfg.routes| ==> Router.RuleOk(cfg.routes[i], s))
    && Router.CompiledFor(c, cfg.routes, sources, s)
  }

  /** A router reports no dead rule exactly if every row's target can send. */
  lemma WarnsOfDeadRows(cfg: NodeConfig, s: Router.Setup, sources: seq<Name>, c: Router.Compiled)
    requires Runs(cfg, s, sources, c)
    ensures c.warnings == [] <==> forall r :: r in cfg.routes ==> Sends(cfg.connections, r.target)
  {
    if c.warnings != [] {
      var i := c.warnings[0];
      assert i in c.warnings;
      assert cfg.routes[i] in cfg.routes;
    }
    forall r | c.warnings == [] && r in cfg.routes ensures Sends(cfg.connections, r.target) {
      var i :| 0 <= i < |cfg.routes| && cfg.routes[i] == r;
      assert i !in c.warnings && Router.RuleOk(cfg.routes[i], s);
    }
  }

  ghost predicate AllRun(n: Network, setups: map<Name, Router.Setup>, sources: map<Name, seq<Name>>,
                         routers: map<Name, Router.Compiled>)
    requires GatewaysHaveLinks(n)
  {
    && setups.Keys == sources.Keys == routers.Keys == n.nodes.Keys
    && forall node :: node in n.nodes ==> Runs(CompiledNode(n, node), setups[node], sources[node], routers[node])
  }

  lemma NoDeadRules(n: Network, setups: map<Name, Router.Setup>, sources: map<Name, seq<Name>>,
                    routers: map<Name, Router.Compiled>)
    requires Validated(n) && GatewaysHaveLinks(n) && Compilable(n) && ReplyTargetsSend(n)
    requires AllRun(n, setups, sources, routers)
    ensures forall node :: node in routers ==> routers[node].warnings == []
  {
    RowsOriented(n);
    forall node | node in routers ensures routers[node].warnings == [] {
      WarnsOfDeadRows(CompiledNode(n, node), setups[node], sources[node], routers[node]);
    }
  }

  lemma GatewayWarns(n: Network, setups: map<Name, Router.Setup>, sources: map<Name, seq<Name>>,
                     routers: map<Name, Router.Compiled>, p: nat, b: nat)
    requires GatewaysHaveLinks(n) && AllFacts(n) && Mesh.CleanNet(n) && UpPath.ConditionsNamed(n)
    requires AllRun(n, setups, sources, routers)
    requires NoWayBack(n, p, b) && !SendsReplies(n, n.paths[p].routes[b].gateway, PathTun(n, n.paths[p]))
    ensures var gw := n.paths[p].routes[b].gateway; gw in routers && routers[gw].warnings != []
  {
    var br := n.paths[p].routes[b];
    assert BranchFacts(n, p, b) && br.up[|br.up| - 1] in br.up;
    var r := GatewayRow(n, p, b);
    SortedKeeps(n.nodes[br.gateway], Emitted(Rules(n), br.gateway), r);
    WarnsOfDeadRows(CompiledNode(n, br.gateway), setups[br.gateway], sources[br.gateway], routers[br.gateway]);
  }

  /** No router of a compiled network reports a dead rule exactly if no gateway is left with a reply target
      it cannot send on. */
  lemma DeadRulesExactly(n: Network, setups: map<Name, Router.Setup>, sources: map<Name, seq<Name>>,
                         routers: map<Name, Router.Compiled>)
    requires Validated(n) && GatewaysHaveLinks(n) && Compilable(n) && Mesh.CleanNet(n)
    requires AllRun(n, setups, sources, routers)
    ensures (forall node :: node in routers ==> routers[node].warnings == []) <==> ReplyTargetsSend(n)
  {
    if ReplyTargetsSend(n) {
      NoDeadRules(n, setups, sources, routers);
    } else {
      UpPath.CompiledIsBuilt(n);
      var p, b :| NoWayBack(n, p, b) && !SendsReplies(n, n.paths[p].routes[b].gateway, PathTun(n, n.paths[p]));
      GatewayWarns(n, setups, sources, routers, p, b);
    }
  }

  // ---- many packets under way ----------------------------------------------------------------------------

  type Id = nat

  /** A finalizer: one per egress of a node. */
  datatype Site = Site(node: Name, egress: Name)

  /** What became of a packet handed to a finalizer: nothing yet, egressed without a source address to
      answer to, or egressed from an address by the submission with this number. */
  datatype Fate = Inside | Unanswerable | Egressed(site: Site, from: Finalizer.Addr, at: nat)

  datatype Flight = Flight(owner: Finalizer.Owner, p: Finalizer.Packet, processed: bool, finalized: nat, fate: Fate)

  /** A data packet with a source address entering a finalizer. */
  datatype Submission = Submission(site: Site, from: Finalizer.Addr, owner: Finalizer.Owner, target: Name)

  datatype Tracked = Tracked(s: Finalizer.State, h: Finalizer.History)

  /** All packets, every finalizer with what it has seen, and all submissions in order. */
  datatype State = State(flights: map<Id, Flight>, sites: map<Site, Tracked>, log: seq<Submission>)

  ghost predicate Initial(s: State) {
    && s.flights == map[] && s.log == []
    && forall x :: x in s.sites ==> s.sites[x].s.track == map[] && s.sites[x].h == Finalizer.NOTHING
  }

  /** Every node's table is one the router accepted. */
  ghost predicate AllAccepted(tables: map<Name, seq<Route>>, setups: map<Name, Router.Setup>) {
    forall node :: node in tables ==>
      node in setups && forall i :: 0 <= i < |tables[node]| ==> Router.RuleOk(tables[node][i], setups[node])
  }

  /** A tun stamps a packet; a node forwards one or hands it to a finalizer; a reply to an egressed packet
      comes back as a packet of its own; a finalizer's clock moves or its table is collected. */
  datatype Event =
    | Enter(id: Id, owner: Finalizer.Owner, p: Finalizer.Packet)
    | Relay(id: Id, node: Name, source: Name, o: Oracle)
    | Finalize(id: Id, node: Name, source: Name, o: Oracle)
    | Answer(id: Id, reply: Id)
    | Upkeep(site: Site, e: Finalizer.Event)

  ghost function Choice(tables: map<Name, seq<Route>>, f: Flight, node: Name, source: Name, o: Oracle): Option<Route> {
    if node in tables then Select(tables[node], source, f.processed, o) else None
  }

  ghost predicate Answerable(s: State, id: Id) {
    && id in s.flights && s.flights[id].fate.Egressed? && s.flights[id].fate.site in s.sites
    && s.flights[id].fate.from in s.sites[s.flights[id].fate.site].s.track
  }

  ghost predicate Enabled(tables: map<Name, seq<Route>>, s: State, e: Event) {
    match e
    case Enter(id, _, _) => id !in s.flights
    case Relay(id, node, source, o) =>
      && id in s.flights && s.flights[id].fate.Inside?
      && var r := Choice(tables, s.flights[id], node, source, o); r.Some? && r.value.egress == ""
    case Finalize(id, node, source, o) =>
      && id in s.flights && s.flights[id].fate.Inside?
      && var r := Choice(tables, s.flights[id], node, source, o);
         r.Some? && r.value.egress != "" && Site(node, r.value.egress) in s.sites
    case Answer(id, reply) => Answerable(s, id) && reply !in s.flights
    case Upkeep(x, u) => x in s.sites && (u.Clock? || u.Collect?) && Finalizer.Enabled(s.sites[x].s, u)
  }

  ghost function Advance(k: Tracked, e: Finalizer.Event): Tracked {
    Tracked(Finalizer.Next(k.s, e), Finalizer.NextHistory(k.h, k.s.clock, e))
  }

  /** A ping returns at once; data leaves, and is logged if it has a source address. */
  ghost function Finalized(s: State, id: Id, x: Site, target: Name): State
    requires id in s.flights && x in s.sites
  {
    var f := s.flights[id];
    var sites := s.sites[x := Advance(s.sites[x], Finalizer.Submit(f.owner, target, f.p))];
    if f.p.Ping? then
      State(s.flights[id := f.(processed := true, finalized := f.finalized + 1)], sites, s.log)
    else if f.p.src.None? then
      State(s.flights[id := f.(finalized := f.finalized + 1, fate := Unanswerable)], sites, s.log)
    else
      State(s.flights[id := f.(finalized := f.finalized + 1, fate := Egressed(x, f.p.src.value, |s.log|))], sites,
            s.log + [Submission(x, f.p.src.value, f.owner, target)])
  }

  /** The reply carries the owner the finalizer remembers for the address. */
  ghost function Answered(s: State, id: Id, reply: Id): State
    requires Answerable(s, id)
  {
    var f := s.flights[id];
    var x, a := f.fate.site, f.fate.from;
    var p := Finalizer.Data(None, Some(a));
    State(s.flights[reply := Flight(s.sites[x].s.track[a].owner, p, true, f.finalized, Inside)],
          s.sites[x := Advance(s.sites[x], Finalizer.Reply(p))], s.log)
  }

  ghost function Step(tables: map<Name, seq<Route>>, s: State, e: Event): State
    requires Enabled(tables, s, e)
  {
    match e
    case Enter(id, owner, p) => s.(flights := s.flights[id := Flight(owner, p, false, 0, Inside)])
    case Relay(_, _, _, _) => s
    case Finalize(id, node, source, o) =>
      var r := Choice(tables, s.flights[id], node, source, o).value;
      Finalized(s, id, Site(node, r.egress), r.target)
    case Answer(id, reply) => Answered(s, id, reply)
    case Upkeep(x, u) => s.(sites := s.sites[x := Advance(s.sites[x], u)])
  }

  ghost predicate Reaches(tables: map<Name, seq<Route>>, s: State, events: seq<Event>, t: State)
    decreases |events|
  {
    if events == [] then s == t
    else Enabled(tables, s, events[0]) && Reaches(tables, Step(tables, s, events[0]), events[1..], t)
  }

  // ---- finalize at most once -----------------------------------------------------------------------------

  /** A finalize row matches unprocessed packets only. */
  lemma FinalizeNeedsUnprocessed(tables: map<Name, seq<Route>>, setups: map<Name, Router.Setup>, s: State, e: Event)
    requires AllAccepted(tables, setups) && e.Finalize? && Enabled(tables, s, e)
    ensures !s.flights[e.id].processed
  {
    var table, p := tables[e.node], Eligibility(e.source, s.flights[e.id].processed, e.o);
    FirstFound(table, p);
    var r := First(table, p).value;
    var i :| 0 <= i < |table| && table[i] == r;
    assert Router.RuleOk(table[i], setups[e.node]);
    assert p(r);
  }

  /** The submission from this address, the newest. */
  ghost function Newest(log: seq<Submission>, x: Site, a: Finalizer.Addr): Option<Submission> {
    if log == [] then None
    else if log[|log| - 1].site == x && log[|log| - 1].from == a then Some(log[|log| - 1])
    else Newest(log[..|log| - 1], x, a)
  }

  ghost predicate FlightInv(f: Flight, log: seq<Submission>) {
    && f.finalized == (if f.processed || !f.fate.Inside? then 1 else 0)
    && (f.fate.Egressed? ==> f.fate.at < |log| && var l := log[f.fate.at];
                             l.site == f.fate.site && l.from == f.fate.from && l.owner == f.owner)
  }

  /** A finalizer's writers are the newest submissions to it. */
  ghost predicate SiteInv(x: Site, k: Tracked, log: seq<Submission>) {
    && Finalizer.Inv(k.s, k.h)
    && forall a :: a in k.h.writer ==> Newest(log, x, a) == Some(Submission(x, a, k.h.writer[a].0, k.h.writer[a].1))
  }

  ghost predicate Inv(s: State) {
    && (forall id :: id in s.flights ==> FlightInv(s.flights[id], s.log))
    && (forall x :: x in s.sites ==> SiteInv(x, s.sites[x], s.log))
  }

  lemma NewestSnoc(log: seq<Submission>, l: Submission, x: Site, a: Finalizer.Addr)
    ensures Newest(log + [l], x, a) == if l.site == x && l.from == a then Some(l) else Newest(log, x, a)
  {
    assert (log + [l])[..|log|] == log;
  }

  lemma SiteSubmits(x: Site, k: Tracked, log: seq<Submission>, e: Finalizer.Event)
    requires SiteInv(x, k, log) && e.Submit?
    ensures e.p.Data? && e.p.src.Some? ==>
              SiteInv(x, Advance(k, e), log + [Submission(x, e.p.src.value, e.owner, e.target)])
    ensures e.p.Ping? || e.p.src.None? ==> SiteInv(x, Advance(k, e), log)
  {
    Finalizer.StepKeeps(k.s, k.h, e);
    if e.p.Data? && e.p.src.Some? {
      var l := Submission(x, e.p.src.value, e.owner, e.target);
      forall a | a in Advance(k, e).h.writer
        ensures var w := Advance(k, e).h.writer[a]; Newest(log + [l], x, a) == Some(Submission(x, a, w.0, w.1))
      {
        NewestSnoc(log, l, x, a);
      }
    }
  }

  /** A submission to another finalizer changes nothing here. */
  lemma SiteIdle(x: Site, k: Tracked, log: seq<Submission>, l: Submission)
    requires SiteInv(x, k, log) && l.site != x
    ensures SiteInv(x, k, log + [l])
  {
    forall a | a in k.h.writer ensures Newest(log + [l], x, a) == Newest(log, x, a) {
      NewestSnoc(log, l, x, a);
    }
  }

  lemma LongerLog(f: Flight, log: seq<Submission>, longer: seq<Submission>)
    requires FlightInv(f, log) && log <= longer
    ensures FlightInv(f, longer)
  {
  }

  lemma FinalizedFlights(s: State, id: Id, x: Site, target: Name)
    requires Inv(s) && id in s.flights && x in s.sites && !s.flights[id].processed && s.flights[id].fate.Inside?
    ensures var t := Finalized(s, id, x, target); forall i :: i in t.flights ==> FlightInv(t.flights[i], t.log)
  {
    var t := Finalized(s, id, x, target);
    forall i | i in t.flights ensures FlightInv(t.flights[i], t.log) {
      FinalizedFlight(s, id, x, target, i);
    }
  }

  lemma FinalizedFlight(s: State, id: Id, x: Site, target: Name, i: Id)
    requires id in s.flights && x in s.sites && !s.flights[id].processed && s.flights[id].fate.Inside?
    requires i in s.flights && FlightInv(s.flights[i], s.log)
    ensures var t := Finalized(s, id, x, target); FlightInv(t.flights[i], t.log)
  {
    if i != id {
      LongerLog(s.flights[i], s.log, Finalized(s, id, x, target).log);
    }
  }

  lemma FinalizedSites(s: State, id: Id, x: Site, target: Name)
    requires Inv(s) && id in s.flights && x in s.sites
    ensures var t := Finalized(s, id, x, target); forall y :: y in t.sites ==> SiteInv(y, t.sites[y], t.log)
  {
    var t := Finalized(s, id, x, target);
    forall y | y in t.sites ensures SiteInv(y, t.sites[y], t.log) {
      FinalizedSite(s, id, x, target, y);
    }
  }

  lemma FinalizedSite(s: State, id: Id, x: Site, target: Name, y: Site)
    requires id in s.flights && x in s.sites && y in s.sites && SiteInv(y, s.sites[y], s.log)
    ensures var t := Finalized(s, id, x, target); SiteInv(y, t.sites[y], t.log)
  {
    var f := s.flights[id];
    if y == x {
      SiteSubmits(x, s.sites[x], s.log, Finalizer.Submit(f.owner, target, f.p));
    } else if f.p.Data? && f.p.src.Some? {
      SiteIdle(y, s.sites[y], s.log, Submission(x, f.p.src.value, f.owner, target));
    }
  }

  lemma FinalizeKeeps(tables: map<Name, seq<Route>>, setups: map<Name, Router.Setup>, s: State, e: Event)
    requires Inv(s) && AllAccepted(tables, setups) && e.Finalize? && Enabled(tables, s, e)
    ensures Inv(Step(tables, s, e))
  {
    FinalizeNeedsUnprocessed(tables, setups, s, e);
    var r := Choice(tables, s.flights[e.id], e.node, e.source, e.o).value;
    FinalizedFlights(s, e.id, Site(e.node, r.egress), r.target);
    FinalizedSites(s, e.id, Site(e.node, r.egress), r.target);
  }

  lemma StepKeeps(tables: map<Name, seq<Route>>, setups: map<Name, Router.Setup>, s: State, e: Event)
    requires Inv(s) && AllAccepted(tables, setups) && Enabled(tables, s, e)
    ensures Inv(Step(tables, s, e))
  {
    match e
    case Enter(_, _, _) =>
    case Relay(_, _, _, _) =>
    case Finalize(_, _, _, _) => FinalizeKeeps(tables, setups, s, e);
    case Answer(id, reply) => AnswerKeeps(s, id, reply);
    case Upkeep(x, u) => SiteMoves(x, s.sites[x], s.log, u);
  }

  /** A step of a finalizer that is no Submit. */
  lemma SiteMoves(x: Site, k: Tracked, log: seq<Submission>, e: Finalizer.Event)
    requires SiteInv(x, k, log) && !e.Submit? && Finalizer.Enabled(k.s, e)
    ensures SiteInv(x, Advance(k, e), log)
  {
    Finalizer.StepKeeps(k.s, k.h, e);
  }

  lemma AnswerKeeps(s: State, id: Id, reply: Id)
    requires Inv(s) && Answerable(s, id) && reply !in s.flights
    ensures Inv(Answered(s, id, reply))
  {
    var x := s.flights[id].fate.site;
    assert SiteInv(x, s.sites[x], s.log) && FlightInv(s.flights[id], s.log);
    SiteMoves(x, s.sites[x], s.log, Finalizer.Reply(Finalizer.Data(None, Some(s.flights[id].fate.from))));
  }

  /** Owners stay and flags do not fall. */
  ghost predicate Settled(s: State, t: State) {
    forall id :: id in s.flights ==>
      && id in t.flights && t.flights[id].owner == s.flights[id].owner
      && (s.flights[id].processed ==> t.flights[id].processed)
  }

  lemma StepSettles(tables: map<Name, seq<Route>>, s: State, e: Event)
    requires Enabled(tables, s, e)
    ensures Settled(s, Step(tables, s, e))
  {
  }

  lemma {:induction false} RunKeeps(tables: map<Name, seq<Route>>, setups: map<Name, Router.Setup>, s: State,
                                    events: seq<Event>, t: State)
    requires Inv(s) && AllAccepted(tables, setups) && Reaches(tables, s, events, t)
    ensures Inv(t) && Settled(s, t)
    decreases |events|
  {
    if events != [] {
      var u := Step(tables, s, events[0]);
      StepKeeps(tables, setups, s, events[0]);
      StepSettles(tables, s, events[0]);
      RunKeeps(tables, setups, u, events[1..], t);
    }
  }

  /** However packets travel, each is handed to a finalizer at most once, and a packet is processed only
      after that; from any point on its owner never changes and its flag never falls. */
  lemma FinalizedAtMostOnce(tables: map<Name, seq<Route>>, setups: map<Name, Router.Setup>, s: State,
                            events: seq<Event>, t: State, more: seq<Event>, u: State)
    requires AllAccepted(tables, setups) && Initial(s)
    requires Reaches(tables, s, events, t) && Reaches(tables, t, more, u)
    ensures forall id :: id in u.flights ==>
              u.flights[id].finalized <= 1 && (u.flights[id].processed ==> u.flights[id].finalized == 1)
    ensures Settled(t, u)
  {
    RunKeeps(tables, setups, s, events, t);
    RunKeeps(tables, setups, t, more, u);
    assert forall id :: id in u.flights ==> FlightInv(u.flights[id], u.log);
  }

  // ---- whose reply it is ---------------------------------------------------------------------------------

  /** After submission `at`, somebody else submitted from the same address of the same finalizer, and the
      first owner has not done so since. */
  ghost predicate Rebound(log: seq<Submission>, at: nat)
    requires at < |log|
  {
    exists k :: at < k < |log| && Rival(log[k], log[at])
             && forall j :: k < j < |log| ==> !Again(log[j], log[at])
  }

  ghost predicate Rival(l: Submission, mine: Submission) {
    l.site == mine.site && l.from == mine.from && l.owner != mine.owner
  }

  ghost predicate Again(l: Submission, mine: Submission) {
    l.site == mine.site && l.from == mine.from && l.owner == mine.owner
  }

  lemma {:induction false} NewestAt(log: seq<Submission>, at: nat) returns (k: nat)
    requires at < |log|
    ensures at <= k < |log| && Newest(log, log[at].site, log[at].from) == Some(log[k])
    ensures log[k].site == log[at].site && log[k].from == log[at].from
    ensures forall j :: k < j < |log| ==> log[j].site != log[at].site || log[j].from != log[at].from
  {
    k := |log| - 1;
    if at < k && (log[k].site != log[at].site || log[k].from != log[at].from) {
      k := NewestAt(log[..k], at);
    }
  }

  /** The newest submission is the owner's own exactly if nobody has rebound the address. */
  lemma ReboundExactly(log: seq<Submission>, at: nat)
    requires at < |log|
    ensures Newest(log, log[at].site, log[at].from).Some?
    ensures Newest(log, log[at].site, log[at].from).value.owner == log[at].owner <==> !Rebound(log, at)
  {
    var k := NewestAt(log, at);
    if log[k].owner != log[at].owner {
      assert Rival(log[k], log[at]);
    }
    if Rebound(log, at) {
      var i :| at < i < |log| && Rival(log[i], log[at]) && forall j :: i < j < |log| ==> !Again(log[j], log[at]);
      assert !Again(log[k], log[at]);
    }
  }

  /** In any run, a reply goes to the owner of the packet it answers exactly if that owner's last submission
      from the address has not been followed by somebody else's. */
  lemma ReplyOwner(tables: map<Name, seq<Route>>, setups: map<Name, Router.Setup>, s: State, events: seq<Event>,
                   t: State, id: Id, reply: Id)
    requires AllAccepted(tables, setups) && Initial(s) && Reaches(tables, s, events, t)
    requires Enabled(tables, t, Answer(id, reply))
    ensures t.flights[id].fate.at < |t.log|
    ensures Step(tables, t, Answer(id, reply)).flights[reply].owner == t.flights[id].owner
       <==> !Rebound(t.log, t.flights[id].fate.at)
  {
    RunKeeps(tables, setups, s, events, t);
    var f := t.flights[id];
    var k := t.sites[f.fate.site];
    assert FlightInv(f, t.log) && SiteInv(f.fate.site, k, t.log);
    assert Finalizer.EntryInv(f.fate.from, k.s.track[f.fate.from], k.h, k.s.clock);
    ReboundExactly(t.log, f.fate.at);
  }

  // ---- two owners behind one address -----------------------------------------------------------------------

  const GATE := Site("n", "e")
  const ROW := Route(Some(false), "s", [], "e", "s")
  const PACKET := Finalizer.Data(Some(9), None)

  ghost function AllYes(): Oracle {
    Oracle(_ => true, _ => true, _ => true)
  }

  ghost function Fresh(): State {
    State(map[], map[GATE := Tracked(Finalizer.State(60, 0, 0, map[]), Finalizer.NOTHING)], [])
  }

  ghost function Flies(id: Id, owner: Finalizer.Owner): (Event, Event) {
    (Enter(id, owner, PACKET), Finalize(id, "n", "s", AllYes()))
  }

  /** Both owners send from address 9 before the first is answered. */
  ghost function Shared(): seq<Event> {
    [Flies(0, 1).0] + ([Flies(0, 1).1] + ([Flies(1, 2).0] + ([Flies(1, 2).1] + ([Answer(0, 2)] + []))))
  }

  ghost function Sent(owner: Finalizer.Owner, at: nat): Flight {
    Flight(owner, PACKET, false, 1, Egressed(GATE, 9, at))
  }

  lemma RowChosen(f: Flight)
    requires !f.processed
    ensures Choice(map["n" := [ROW]], f, "n", "s", AllYes()) == Some(ROW)
  {
    assert Eligible(ROW, "s", false, AllYes());
  }

  lemma SubmitsAs(s: State, id: Id, owner: Finalizer.Owner)
    requires id in s.flights && s.flights[id] == Flight(owner, PACKET, false, 0, Inside) && GATE in s.sites
    requires s.sites[GATE].s.maxTrack == 0
    ensures var t := Step(map["n" := [ROW]], s, Finalize(id, "n", "s", AllYes()));
            && t.flights == s.flights[id := Sent(owner, |s.log|)]
            && t.log == s.log + [Submission(GATE, 9, owner, "s")]
            && t.sites == s.sites[GATE := Advance(s.sites[GATE], Finalizer.Submit(owner, "s", PACKET))]
            && 9 in t.sites[GATE].s.track && t.sites[GATE].s.track[9].owner == owner && t.sites[GATE].s.maxTrack == 0
  {
  }

  lemma ReachesMore(tables: map<Name, seq<Route>>, s: State, e: Event, events: seq<Event>, t: State)
    requires Enabled(tables, s, e) && Reaches(tables, Step(tables, s, e), events, t)
    ensures Reaches(tables, s, [e] + events, t)
  {
    assert ([e] + events)[1..] == events;
  }

  ghost function After(s: State, id: Id, owner: Finalizer.Owner): State
    requires id !in s.flights && GATE in s.sites
  {
    var tables, e := map["n" := [ROW]], Flies(id, owner);
    var s1 := Step(tables, s, e.0);
    RowChosen(s1.flights[id]);
    Step(tables, s1, e.1)
  }

  /** A packet enters and is finalized. */
  lemma Leaves(s: State, id: Id, owner: Finalizer.Owner, rest: seq<Event>, t: State)
    requires id !in s.flights && GATE in s.sites && Reaches(map["n" := [ROW]], After(s, id, owner), rest, t)
    ensures Reaches(map["n" := [ROW]], s, [Flies(id, owner).0] + ([Flies(id, owner).1] + rest), t)
  {
    var tables, e := map["n" := [ROW]], Flies(id, owner);
    var s1 := Step(tables, s, e.0);
    RowChosen(s1.flights[id]);
    ReachesMore(tables, s1, e.1, rest, t);
    ReachesMore(tables, s, e.0, [e.1] + rest, t);
  }

  lemma LeftAs(s: State, id: Id, owner: Finalizer.Owner)
    requires id !in s.flights && GATE in s.sites && s.sites[GATE].s.maxTrack == 0
    ensures var t := After(s, id, owner);
            && t.flights == s.flights[id := Sent(owner, |s.log|)] && t.log == s.log + [Submission(GATE, 9, owner, "s")]
            && GATE in t.sites && t.sites[GATE].s.maxTrack == 0
            && 9 in t.sites[GATE].s.track && t.sites[GATE].s.track[9].owner == owner
  {
    var s1 := Step(map["n" := [ROW]], s, Flies(id, owner).0);
    RowChosen(s1.flights[id]);
    SubmitsAs(s1, id, owner);
  }

  lemma AnsweredTo(s: State, owner: Finalizer.Owner) returns (t: State)
    requires 0 in s.flights && s.flights[0] == Sent(1, 0) && 2 !in s.flights
    requires GATE in s.sites && 9 in s.sites[GATE].s.track && s.sites[GATE].s.track[9].owner == owner
    ensures Reaches(map["n" := [ROW]], s, [Answer(0, 2)] + [], t)
    ensures 0 in t.flights && t.flights[0].owner == 1 && 2 in t.flights && t.flights[2].owner == owner
  {
    t := Step(map["n" := [ROW]], s, Answer(0, 2));
    ReachesMore(map["n" := [ROW]], s, Answer(0, 2), [], t);
  }

  /** The owner is not kept in general: with two owners behind one address, the reply to the first owner's
      packet goes to the second. */
  lemma TwoOwnersOneAddress() returns (setups: map<Name, Router.Setup>, t: State)
    ensures AllAccepted(map["n" := [ROW]], setups) && Initial(Fresh())
    ensures Reaches(map["n" := [ROW]], Fresh(), Shared(), t)
    ensures 0 in t.flights && t.flights[0].owner == 1 && 2 in t.flights && t.flights[2].owner == 2
  {
    setups := map["n" := Router.Setup(map["s" := true], map[], {"e"})];
    var s2 := After(Fresh(), 0, 1);
    LeftAs(Fresh(), 0, 1);
    LeftAs(s2, 1, 2);
    t := AnsweredTo(After(s2, 1, 2), 2);
    Leaves(s2, 1, 2, [Answer(0, 2)] + [], t);
    Leaves(Fresh(), 0, 1, [Flies(1, 2).0] + ([Flies(1, 2).1] + ([Answer(0, 2)] + [])), t);
  }
}
