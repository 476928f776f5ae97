/** Networks that load and compile and still lose packets: one for each demand the mesh theorems make of a
    schema beyond what compiling checks. */
module Limits {
  import opened Common
  import opened Schema
  import opened Compile
  import opened NetworkCompiler
  import opened Routing
  import opened Tables
  import opened Mesh
  import opened UpPath
  import opened Orientation
  import opened Concrete

  /** A run over at least one link goes on from where that link ends. */
  lemma FollowsOn(n: Network, w: World, t: nat, node: Name, source: Name, pkt: Packet, trace: seq<Name>, at: Name,
                  end: Verdict)
    requires GatewaysHaveLinks(n) && trace != [] && trace[0] in LinkMap(n.links)
    requires Follows(n, w, t, node, source, false, pkt, trace, at, end)
    ensures Follows(n, w, t + 1, TargetOf(LinkMap(n.links)[trace[0]]), trace[0], false, pkt, trace[1..], at, end)
  {
  }

  /** A run does first what its node decides. */
  lemma FollowsHop(n: Network, w: World, t: nat, node: Name, source: Name, pkt: Packet, trace: seq<Name>, at: Name,
                   end: Verdict)
    requires GatewaysHaveLinks(n) && node in n.nodes && Follows(n, w, t, node, source, false, pkt, trace, at, end)
    ensures Hop(n, w, t, node, source, false, pkt) == if trace == [] then end else Forwarded(trace[0])
  {
  }

  /** A branch over one link is not taken if its gateway does otherwise. */
  lemma Strays(n: Network, w: World, t: nat, pkt: Packet, path: Path, br: Branch, v: Verdict)
    requires GatewaysHaveLinks(n) && br.gateway != "" && |br.up| == 1
    requires br.up[0] in LinkMap(n.links) && TargetOf(LinkMap(n.links)[br.up[0]]) in n.nodes
    requires Hop(n, w, t + 1, TargetOf(LinkMap(n.links)[br.up[0]]), br.up[0], false, pkt) == v != UpEnd(br)
    ensures !TakesBranch(n, w, t, pkt, path, br)
  {
    if TakesBranch(n, w, t, pkt, path, br) {
      FollowsOn(n, w, t, path.node, PathTun(n, path), pkt, br.up, br.gateway, UpEnd(br));
    }
  }

  /** What a run over at least three links does where its second one ends. */
  lemma SecondHop(n: Network, w: World, t: nat, node: Name, source: Name, pkt: Packet, trace: seq<Name>, at: Name,
                  end: Verdict)
    requires GatewaysHaveLinks(n) && |trace| > 2 && trace[0] in LinkMap(n.links) && trace[1] in LinkMap(n.links)
    requires TargetOf(LinkMap(n.links)[trace[1]]) in n.nodes
    requires Follows(n, w, t, node, source, false, pkt, trace, at, end)
    ensures Hop(n, w, t + 2, TargetOf(LinkMap(n.links)[trace[1]]), trace[1], false, pkt) == Forwarded(trace[2])
  {
    var one, two := TargetOf(LinkMap(n.links)[trace[0]]), TargetOf(LinkMap(n.links)[trace[1]]);
    FollowsOn(n, w, t, node, source, pkt, trace, at, end);
    FollowsOn(n, w, t + 1, one, trace[0], pkt, trace[1..], at, end);
    FollowsHop(n, w, t + 2, two, trace[1], pkt, trace[1..][1..], at, end);
  }

  /** A branch is not taken if the node at the end of its second link does otherwise. */
  lemma Astray(n: Network, w: World, t: nat, pkt: Packet, path: Path, br: Branch, v: Verdict)
    requires GatewaysHaveLinks(n) && br.gateway != "" && |br.up| > 2
    requires br.up[0] in LinkMap(n.links) && br.up[1] in LinkMap(n.links)
    requires TargetOf(LinkMap(n.links)[br.up[1]]) in n.nodes
    requires Hop(n, w, t + 2, TargetOf(LinkMap(n.links)[br.up[1]]), br.up[1], false, pkt) == v != Forwarded(br.up[2])
    ensures !TakesBranch(n, w, t, pkt, path, br)
  {
    if TakesBranch(n, w, t, pkt, path, br) {
      SecondHop(n, w, t, path.node, PathTun(n, path), pkt, br.up, br.gateway, UpEnd(br));
    }
  }

  // ---- a gateway branch without down-links ---------------------------------------------------------------

  const U := Link("u", "a", "g", ToAcceptor, false, "")
  const STRAY := Link("t", "h", "g", ToAcceptor, false, "")
  const NO_REPLY := Branch([], "e", ["u"], [], "g")

  /** Origin `a` with tun `t`; its gateway `g` also receives on an unrelated link that is named `t`. */
  ghost predicate Stranded(n: Network) {
    && n.nodes == map["a" := NodeSpec(false, [Conn("t", true, true)], {}), "g" := NodeSpec(false, [], {"e"}),
                      "h" := NodeSpec(false, [], {})]
    && n.links == [U, STRAY] && n.paths == [Path("p", "a", [NO_REPLY])] && n.conditions == map[]
  }

  ghost function StrandedRules(): seq<PendingRule> {
    [PendingRule("a", Route(Some(false), "t", [], "", "u"), false, []),
     PendingRule("g", Route(Some(false), "u", [], "e", "t"), true, [])]
  }

  lemma StrandedLinks(n: Network)
    requires Stranded(n)
    ensures LinkMap(n.links) == map["u" := U, "t" := STRAY] && PathTun(n, n.paths[0]) == "t"
    ensures OriginTun(n.nodes["a"]) == Some("t")
  {
    assert n.links[..1] == [U] && n.links[..1][..0] == [];
    assert LinkMap(n.links[..1][..0]) == map[];
    assert LinkMap(n.links[..1]) == map["u" := U];
    assert LastCapture(n.nodes["a"].conns) == "t";
  }

  lemma StrandedTidy(n: Network)
    requires Stranded(n)
    ensures Tidy(n)
  {
  }

  lemma StrandedLoads(n: Network)
    requires Stranded(n)
    ensures Validated(n) && GatewaysHaveLinks(n) && Tidy(n)
  {
    StrandedTidy(n);
    StrandedLinks(n);
    assert n.paths[0].routes[0].when == [];
    assert GatewayOf(NO_REPLY, LinkMap(n.links)) == Ok("g");
    assert PathLoads(n, n.paths[0]);
    TidyLoads(n);
  }

  lemma StrandedClean(n: Network)
    requires Stranded(n)
    ensures CleanNet(n)
  {
    StrandedLinks(n);
    assert Clean("t") && Clean("u") && Clean("e");
  }

  lemma StrandedDerives(n: Network)
    requires Stranded(n) && GatewaysHaveLinks(n)
    ensures Pending(n, 1) == StrandedRules() && AllOriented(n)
  {
    StrandedLinks(n);
    var p := n.paths[0];
    assert UpRules(NO_REPLY, "t", LinkMap(n.links)) == [StrandedRules()[1]];
    assert DownRules("a", NO_REPLY, "t", LinkMap(n.links)) == [];
    assert PathRules(n, p, 0) == [];
    assert PathRules(n, p, 1) == PathRules(n, p, 0) + BranchRules("a", NO_REPLY, "t", LinkMap(n.links));
    assert Pending(n, 0) == [];
    assert Oriented("a", NO_REPLY, LinkMap(n.links));
  }

  lemma StrandedFits(n: Network)
    requires Stranded(n)
    ensures AllFit(n, StrandedRules()) && NoneAlone(n, map["a" := "u", "g" := "u", "h" := "t"])
  {
    assert U in n.links && STRAY in n.links && n.nodes["a"].conns[0] in n.nodes["a"].conns;
    assert HasTun(n, "a", "t");
  }

  lemma StrandedAlike(rules: seq<PendingRule>)
    requires rules == StrandedRules()
    ensures Unguarded(rules) && NoClash(rules)
  {
  }

  lemma StrandedCompiles(n: Network)
    requires Stranded(n)
    ensures Validated(n) && GatewaysHaveLinks(n) && Compilable(n) && Rules(n) == StrandedRules()
  {
    StrandedLoads(n);
    StrandedDerives(n);
    StrandedFits(n);
    StrandedAlike(StrandedRules());
    PlainCompiles(n, StrandedRules(), map["a" := "u", "g" := "u", "h" := "t"]);
  }

  lemma StrandedGateway(n: Network)
    requires Stranded(n)
    ensures !Sends(Connections(n, "g"), "t")
  {
    SendsExactly(n, "g", "t");
  }

  lemma StrandedHop(n: Network, w: World, t: nat, pkt: Packet)
    requires Stranded(n) && GatewaysHaveLinks(n) && Rules(n) == StrandedRules() && !Sends(Connections(n, "g"), "t")
    ensures Hop(n, w, t, "g", "u", false, pkt) == Dropped
  {
    var o, routes := OracleAt(n, w, t, "g", pkt), CompiledNode(n, "g").routes;
    FirstFound(routes, Eligibility("u", false, o));
    forall r | r in routes ensures !Eligible(r, "u", false, o) {
      SortedMembers(n.nodes["g"], Emitted(Rules(n), "g"), r);
      EmittedSound(Rules(n), "g", r);
    }
  }

  /** It compiles, and the gateway's finalize row has a target it only receives on: the row is dead, and
      everything the origin sends is dropped there. */
  lemma NoDownLinksStrand(n: Network, w: World, t: nat, pkt: Packet)
    requires Stranded(n)
    ensures Validated(n) && GatewaysHaveLinks(n) && Compilable(n) && !AllRowsOriented(n)
    ensures Hop(n, w, t, "g", "u", false, pkt) == Dropped
    ensures Chosen(n, w, t, pkt, n.paths[0], 0) && !TakesBranch(n, w, t, pkt, n.paths[0], NO_REPLY)
  {
    StrandedCompiles(n);
    StrandedClean(n);
    StrandedDead(n);
    StrandedGateway(n);
    StrandedHop(n, w, t, pkt);
    StrandedLost(n, w, t, pkt);
  }

  lemma StrandedDead(n: Network)
    requires Stranded(n) && Validated(n) && GatewaysHaveLinks(n) && Compilable(n) && CleanNet(n)
    ensures !AllRowsOriented(n)
  {
    StrandedGateway(n);
    StrandedLinks(n);
    assert NoWayBack(n, 0, 0) && !SendsReplies(n, "g", "t");
    OrientedExactly(n);
  }

  lemma StrandedLost(n: Network, w: World, t: nat, pkt: Packet)
    requires Stranded(n) && GatewaysHaveLinks(n) && Rules(n) == StrandedRules()
    ensures Chosen(n, w, t, pkt, n.paths[0], 0) && !TakesBranch(n, w, t, pkt, n.paths[0], NO_REPLY)
  {
    StrandedLinks(n);
    StrandedGateway(n);
    StrandedHop(n, w, t + 1, pkt);
    Strays(n, w, t, pkt, n.paths[0], NO_REPLY, Dropped);
  }

  // ---- a separator inside names --------------------------------------------------------------------------

  const BARRED := Link("x|y", "a", "g", ToAcceptor, false, "")
  const D := Link("d", "a", "g", ToDialer, false, "")
  const LOCAL := Branch(["|"], "x", [], [], "")
  const REST := Branch([], "e", ["x|y"], ["d"], "g")

  /** Origin `a` with tun `y`: destinations in `|` leave locally by `x`, the rest over up-link `x|y`. */
  ghost predicate Merged(n: Network) {
    && n.nodes == map["a" := NodeSpec(false, [Conn("y", true, true)], {"x"}), "g" := NodeSpec(false, [], {"e"})]
    && n.links == [BARRED, D] && n.paths == [Path("p", "a", [LOCAL, REST])] && n.conditions == map["|" := DstIn]
  }

  ghost function MergedRules(): seq<PendingRule> {
    [PendingRule("a", Route(Some(false), "y", ["|"], "x", "y"), false, []),
     PendingRule("a", Route(Some(false), "y", [], "", "x|y"), false, []),
     PendingRule("g", Route(Some(false), "x|y", [], "e", "d"), true, []),
     PendingRule("a", Route(Some(true), "d", [], "", "y"), false, [])]
  }

  lemma MergedLinks(n: Network)
    requires Merged(n)
    ensures LinkMap(n.links) == map["x|y" := BARRED, "d" := D] && PathTun(n, n.paths[0]) == "y"
    ensures OriginTun(n.nodes["a"]) == Some("y")
  {
    assert n.links[..1] == [BARRED] && n.links[..1][..0] == [];
    assert LinkMap(n.links[..1][..0]) == map[];
    assert LinkMap(n.links[..1]) == map["x|y" := BARRED];
    assert LastCapture(n.nodes["a"].conns) == "y";
  }

  lemma MergedTidy(n: Network)
    requires Merged(n)
    ensures Tidy(n)
  {
  }

  lemma MergedLoads(n: Network)
    requires Merged(n)
    ensures Validated(n) && GatewaysHaveLinks(n) && Tidy(n)
  {
    MergedTidy(n);
    MergedLinks(n);
    assert n.paths[0].routes[1].when == [];
    assert GatewayOf(LOCAL, LinkMap(n.links)) == Ok("") && GatewayOf(REST, LinkMap(n.links)) == Ok("g");
    assert PathLoads(n, n.paths[0]);
    TidyLoads(n);
  }

  lemma MergedDerives(n: Network)
    requires Merged(n) && GatewaysHaveLinks(n)
    ensures Pending(n, 1) == MergedRules() && AllOriented(n)
  {
    MergedLinks(n);
    var p := n.paths[0];
    assert BranchRules("a", LOCAL, "y", LinkMap(n.links)) == [MergedRules()[0]];
    assert UpRules(REST, "y", LinkMap(n.links)) == [MergedRules()[2]];
    assert DownRules("a", REST, "y", LinkMap(n.links)) == [MergedRules()[3]];
    assert PathRules(n, p, 0) == [];
    assert PathRules(n, p, 1) == PathRules(n, p, 0) + BranchRules("a", LOCAL, "y", LinkMap(n.links));
    assert PathRules(n, p, 2) == PathRules(n, p, 1) + BranchRules("a", REST, "y", LinkMap(n.links));
    assert Pending(n, 0) == [];
    assert Oriented("a", LOCAL, LinkMap(n.links)) && Oriented("a", REST, LinkMap(n.links));
  }

  lemma MergedFits(n: Network)
    requires Merged(n)
    ensures AllFit(n, MergedRules()) && NoneAlone(n, map["a" := "d", "g" := "d"])
  {
    assert BARRED in n.links && D in n.links && n.nodes["a"].conns[0] in n.nodes["a"].conns;
    assert HasTun(n, "a", "y");
  }

  lemma MergedAlike(rules: seq<PendingRule>)
    requires rules == MergedRules()
    ensures Unguarded(rules) && NoClash(rules)
  {
  }

  lemma MergedCompiles(n: Network)
    requires Merged(n)
    ensures Validated(n) && GatewaysHaveLinks(n) && Compilable(n) && Rules(n) == MergedRules()
  {
    MergedLoads(n);
    MergedDerives(n);
    MergedFits(n);
    MergedAlike(MergedRules());
    PlainCompiles(n, MergedRules(), map["a" := "d", "g" := "d"]);
  }

  /** Both rows of the origin have one dedup key. */
  lemma OneKey()
    ensures RouteKey(MergedRules()[0].route) == RouteKey(MergedRules()[1].route)
  {
    assert RouteKey(MergedRules()[0].route) == "false|y|||x|y";
    assert RouteKey(MergedRules()[1].route) == "false|y|||x|y";
  }

  lemma SecondDropped(rules: seq<PendingRule>)
    requires rules == MergedRules()
    ensures rules[1].route !in Emitted(rules, "a")
  {
    OneKey();
    var a, b, c := rules[..1], rules[..2], rules[..3];
    assert rules[..4] == rules && c[..2] == b && b[..1] == a && a[..0] == [];
    assert Emitted(a[..0], "a") == [] && Seen(a[..0]) == {};
    assert Emitted(a, "a") == [rules[0].route] && ("a", RouteKey(rules[0].route)) in Seen(a);
    assert Emitted(b, "a") == Emitted(a, "a");
    assert Emitted(c, "a") == Emitted(b, "a");
  }

  lemma MergedRow(rules: seq<PendingRule>, r: Route)
    requires rules == MergedRules() && r in Emitted(rules, "a")
    ensures r.processed == Some(true) || "|" in r.conditions
  {
    SecondDropped(rules);
    EmittedSound(rules, "a", r);
    assert rules[0].route.conditions[0] == "|";
  }

  lemma MergedHop(n: Network, w: World, t: nat, pkt: Packet)
    requires Merged(n) && GatewaysHaveLinks(n) && Rules(n) == MergedRules() && !Holds(n, w, t, pkt, "|")
    ensures Hop(n, w, t, "a", "y", false, pkt) == Dropped
  {
    var o, routes := OracleAt(n, w, t, "a", pkt), CompiledNode(n, "a").routes;
    FirstFound(routes, Eligibility("y", false, o));
    forall r | r in routes ensures !Eligible(r, "y", false, o) {
      SortedMembers(n.nodes["a"], Emitted(Rules(n), "a"), r);
      MergedRow(Rules(n), r);
    }
  }

  /** It compiles, and the origin's two rows merge into one, so that whatever the local branch does not want is
      lost at once instead of taking the default branch. */
  lemma BarLosesTraffic(n: Network, w: World, t: nat, pkt: Packet)
    requires Merged(n) && !Holds(n, w, t, pkt, "|")
    ensures Validated(n) && GatewaysHaveLinks(n) && Compilable(n)
    ensures Chosen(n, w, t, pkt, n.paths[0], 1) && Hop(n, w, t, "a", "y", false, pkt) == Dropped
    ensures !TakesBranch(n, w, t, pkt, n.paths[0], REST)
  {
    MergedCompiles(n);
    MergedHop(n, w, t, pkt);
    MergedChosen(n, w, t, pkt);
  }

  lemma MergedChosen(n: Network, w: World, t: nat, pkt: Packet)
    requires Merged(n) && !Holds(n, w, t, pkt, "|")
    requires Hop(n, w, t, "a", "y", false, pkt) == Dropped
    ensures Chosen(n, w, t, pkt, n.paths[0], 1) && !TakesBranch(n, w, t, pkt, n.paths[0], REST)
  {
    MergedLinks(n);
    assert "|" in LOCAL.when;
  }

  // ---- two paths that relay one link differently ---------------------------------------------------------

  const L := Link("l", "a", "g", ToAcceptor, false, "")
  const K := Link("k", "b", "a", ToAcceptor, false, "")
  const R := Link("r", "a", "b", ToAcceptor, false, "")
  const NEAR := Branch([], "e", ["l"], ["d"], "g")
  const FAR := Branch([], "f", ["k", "l", "d"], ["r"], "a")

  /** Origin `a` leaves at gateway `g`; origin `b` sends through `a` and `g` and back to gateway `a`. */
  ghost predicate Crossed(n: Network) {
    && n.nodes == map["a" := NodeSpec(false, [Conn("t", true, true)], {"f"}),
                      "b" := NodeSpec(false, [Conn("s", true, true)], {}), "g" := NodeSpec(false, [], {"e"})]
    && n.links == [L, D, K, R] && n.conditions == map[]
    && n.paths == [Path("p", "a", [NEAR]), Path("q", "b", [FAR])]
  }

  ghost function CrossedRules(): seq<PendingRule> {
    [PendingRule("a", Route(Some(false), "t", [], "", "l"), false, []),
     PendingRule("g", Route(Some(false), "l", [], "e", "d"), true, []),
     PendingRule("a", Route(Some(true), "d", [], "", "t"), false, []),
     PendingRule("b", Route(Some(false), "s", [], "", "k"), false, []),
     PendingRule("a", Route(Some(false), "k", [], "", "l"), true, []),
     PendingRule("g", Route(Some(false), "l", [], "", "d"), true, []),
     PendingRule("a", Route(Some(false), "d", [], "f", "r"), true, []),
     PendingRule("b", Route(Some(true), "r", [], "", "s"), false, [])]
  }

  lemma CrossedLinks(n: Network)
    requires Crossed(n)
    ensures LinkMap(n.links) == map["l" := L, "d" := D, "k" := K, "r" := R]
  {
    assert n.links[..3] == [L, D, K] && n.links[..3][..2] == [L, D] && [L, D][..1] == [L] && [L][..0] == [];
    assert LinkMap([L][..0]) == map[];
    assert LinkMap([L]) == map["l" := L];
    assert LinkMap([L, D]) == map["l" := L, "d" := D];
    assert LinkMap([L, D, K]) == map["l" := L, "d" := D, "k" := K];
  }

  lemma CrossedTuns(n: Network)
    requires Crossed(n)
    ensures PathTun(n, n.paths[0]) == "t" && OriginTun(n.nodes["a"]) == Some("t")
    ensures PathTun(n, n.paths[1]) == "s" && OriginTun(n.nodes["b"]) == Some("s")
  {
    assert LastCapture(n.nodes["a"].conns) == "t" && LastCapture(n.nodes["b"].conns) == "s";
  }

  lemma CrossedPaths(n: Network)
    requires Crossed(n)
    ensures PathLoads(n, n.paths[0]) && PathLoads(n, n.paths[1])
  {
    CrossedLinks(n);
    CrossedTuns(n);
    assert n.paths[0].routes[0].when == [] && n.paths[1].routes[0].when == [];
    assert GatewayOf(NEAR, LinkMap(n.links)) == Ok("g") && GatewayOf(FAR, LinkMap(n.links)) == Ok("a");
  }

  lemma CrossedTidy(n: Network)
    requires Crossed(n)
    ensures Tidy(n)
  {
    assert TidyLink(n, L) && TidyLink(n, D) && TidyLink(n, K) && TidyLink(n, R);
    assert TidyNode(n, "a") && TidyNode(n, "b") && TidyNode(n, "g");
  }

  lemma CrossedLoads(n: Network)
    requires Crossed(n)
    ensures Validated(n) && GatewaysHaveLinks(n) && Tidy(n)
  {
    CrossedPaths(n);
    CrossedTidy(n);
    TidyLoads(n);
  }

  lemma NearDerives(n: Network, links: map<Name, Link>)
    requires Crossed(n) && links == LinkMap(n.links)
    ensures PathRules(n, n.paths[0], 1) == CrossedRules()[..3] && Oriented("a", NEAR, links)
  {
    CrossedLinks(n);
    CrossedTuns(n);
    var p, rules := n.paths[0], CrossedRules();
    assert UpRules(NEAR, "t", links) == [rules[1]] && DownRules("a", NEAR, "t", links) == [rules[2]];
    assert PathRules(n, p, 0) == [];
    assert PathRules(n, p, 1) == PathRules(n, p, 0) + BranchRules("a", NEAR, "t", links);
  }

  lemma FarUp(links: map<Name, Link>)
    requires links == map["l" := L, "d" := D, "k" := K, "r" := R]
    ensures UpRules(FAR, "s", links) == CrossedRules()[4..7] && DownRules("b", FAR, "s", links) == CrossedRules()[7..]
    ensures Oriented("b", FAR, links)
  {
    var rules := CrossedRules();
    assert UpRule(FAR, "s", links, 0) == rules[4] && UpRule(FAR, "s", links, 1) == rules[5];
    assert UpRule(FAR, "s", links, 2) == rules[6] && DownRule("b", FAR, "s", links, 0) == rules[7];
    assert RelayOk(FAR.up, links, 0) && RelayOk(FAR.up, links, 1);
  }

  lemma FarDerives(n: Network, links: map<Name, Link>)
    requires Crossed(n) && links == LinkMap(n.links)
    ensures PathRules(n, n.paths[1], 1) == CrossedRules()[3..] && Oriented("b", FAR, links)
  {
    CrossedLinks(n);
    CrossedTuns(n);
    var p, rules := n.paths[1], CrossedRules();
    FarUp(links);
    assert PathRules(n, p, 0) == [];
    assert PathRules(n, p, 1) == PathRules(n, p, 0) + BranchRules("b", FAR, "s", links);
  }

  lemma CrossedDerives(n: Network)
    requires Crossed(n) && GatewaysHaveLinks(n)
    ensures Pending(n, 2) == CrossedRules() && AllOriented(n)
  {
    NearDerives(n, LinkMap(n.links));
    FarDerives(n, LinkMap(n.links));
    assert Pending(n, 0) == [];
    assert Pending(n, 1) == Pending(n, 0) + PathRules(n, n.paths[0], 1);
    assert CrossedRules() == CrossedRules()[..3] + CrossedRules()[3..];
  }

  lemma CrossedFit(n: Network, k: nat)
    requires Crossed(n) && k < 8
    ensures Fits(n, CrossedRules()[k])
  {
    assert L in n.links && D in n.links && K in n.links && R in n.links;
    assert n.nodes["a"].conns[0] in n.nodes["a"].conns && n.nodes["b"].conns[0] in n.nodes["b"].conns;
    assert HasTun(n, "a", "t") && HasTun(n, "b", "s");
  }

  lemma CrossedFits(n: Network)
    requires Crossed(n)
    ensures AllFit(n, CrossedRules()) && NoneAlone(n, map["a" := "l", "b" := "k", "g" := "l"])
  {
    forall k | 0 <= k < 8 ensures Fits(n, CrossedRules()[k]) {
      CrossedFit(n, k);
    }
    assert L in n.links && K in n.links;
  }

  lemma CrossedAlike(rules: seq<PendingRule>)
    requires rules == CrossedRules()
    ensures Unguarded(rules) && NoClash(rules)
  {
    forall i, j | 0 <= i < j < 8 ensures FinalizesAlike(rules[i], rules[j]) {
      assert rules[i].route.egress != "" <==> i == 1 || i == 6;
      assert rules[1].node != rules[6].node;
    }
  }

  lemma CrossedCompiles(n: Network)
    requires Crossed(n)
    ensures Validated(n) && GatewaysHaveLinks(n) && Compilable(n) && Rules(n) == CrossedRules()
  {
    CrossedLoads(n);
    CrossedDerives(n);
    CrossedFits(n);
    CrossedAlike(CrossedRules());
    PlainCompiles(n, CrossedRules(), map["a" := "l", "b" := "k", "g" := "l"]);
  }

  lemma CrossedEmits(rules: seq<PendingRule>)
    requires rules == CrossedRules()
    ensures Emitted(rules, "g") != [] && Emitted(rules, "g")[0] == rules[1].route
  {
    var a, b := rules[..1], rules[..2];
    assert b[..1] == a && a[..0] == [];
    assert Emitted(a[..0], "g") == [] && Seen(a[..0]) == {};
    assert Emitted(a, "g") == [];
    assert Emitted(b, "g") == [rules[1].route];
    EmittedPrefix(rules, "g", 2);
  }

  lemma CrossedHop(n: Network, w: World, t: nat, pkt: Packet)
    requires Crossed(n) && GatewaysHaveLinks(n) && Rules(n) == CrossedRules()
    ensures Hop(n, w, t, "g", "l", false, pkt) == Finalized("e", "d")
  {
    CrossedEmits(Rules(n));
    assert D in n.links;
    SendsExactly(n, "g", "d");
    TunNamedExactly(n, "g", "d");
    assert Eligible(Rules(n)[1].route, "l", false, OracleAt(n, w, t, "g", pkt));
  }

  /** It compiles, and the path derived first wins: a packet of `b` leaves at `g`, by the egress and with the
      reply link of `a`, instead of going on to its own gateway. */
  lemma CrossedPathsMislead(n: Network, w: World, t: nat, pkt: Packet)
    requires Crossed(n)
    ensures Validated(n) && GatewaysHaveLinks(n) && Compilable(n)
    ensures Hop(n, w, t, "g", "l", false, pkt) == Finalized("e", "d")
    ensures Chosen(n, w, t, pkt, n.paths[1], 0) && !TakesBranch(n, w, t, pkt, n.paths[1], FAR)
  {
    CrossedCompiles(n);
    CrossedHop(n, w, t, pkt);
    CrossedLost(n, w, t, pkt);
  }

  lemma CrossedLost(n: Network, w: World, t: nat, pkt: Packet)
    requires Crossed(n) && GatewaysHaveLinks(n) && Rules(n) == CrossedRules()
    ensures !TakesBranch(n, w, t, pkt, n.paths[1], FAR)
  {
    CrossedLinks(n);
    CrossedHop(n, w, t + 2, pkt);
    FarAstray(n, w, t, pkt, n.paths[1], FAR);
  }

  lemma FarAstray(n: Network, w: World, t: nat, pkt: Packet, path: Path, br: Branch)
    requires GatewaysHaveLinks(n) && br.gateway != "" && |br.up| > 2 && "g" in n.nodes
    requires br.up[0] in LinkMap(n.links) && br.up[1] in LinkMap(n.links) && TargetOf(LinkMap(n.links)[br.up[1]]) == "g"
    requires Hop(n, w, t + 2, "g", br.up[1], false, pkt) == Finalized("e", "d")
    ensures !TakesBranch(n, w, t, pkt, path, br)
  {
    Astray(n, w, t, pkt, path, br, Finalized("e", "d"));
  }

  // ---- an arrow inside names -----------------------------------------------------------------------------

  const ARROWED := Link("x\U{2192}d", "g", "h", ToAcceptor, false, "")
  const HOME := Link("r", "h", "a", ToAcceptor, false, "")
  const ONWARD := Branch(["c"], "e", ["u", "x\U{2192}d"], ["r"], "h")
  const HERE := Branch([], "\U{2192}x", ["u"], ["d"], "g")

  /** Destinations in `c` go on from `g` to `h`; the rest leaves at `g`, by an egress that begins with the arrow. */
  ghost predicate Disguised(n: Network) {
    && n.nodes == map["a" := NodeSpec(false, [Conn("t", true, true)], {}), "g" := NodeSpec(false, [], {"\U{2192}x"}),
                      "h" := NodeSpec(false, [], {"e"})]
    && n.links == [U, ARROWED, D, HOME] && n.paths == [Path("p", "a", [ONWARD, HERE])]
    && n.conditions == map["c" := DstIn]
  }

  ghost function DisguisedRules(): seq<PendingRule> {
    [PendingRule("a", Route(Some(false), "t", ["c"], "", "u"), false, []),
     PendingRule("g", Route(Some(false), "u", [], "", "x\U{2192}d"), true, ["c"]),
     PendingRule("h", Route(Some(false), "x\U{2192}d", [], "e", "r"), true, ["c"]),
     PendingRule("a", Route(Some(true), "r", [], "", "t"), false, []),
     PendingRule("a", Route(Some(false), "t", [], "", "u"), false, []),
     PendingRule("g", Route(Some(false), "u", [], "\U{2192}x", "d"), true, []),
     PendingRule("a", Route(Some(true), "d", [], "", "t"), false, [])]
  }

  lemma DisguisedLinks(n: Network)
    requires Disguised(n)
    ensures LinkMap(n.links) == map["u" := U, "x\U{2192}d" := ARROWED, "d" := D, "r" := HOME]
  {
    assert n.links[..3] == [U, ARROWED, D] && n.links[..3][..2] == [U, ARROWED];
    assert [U, ARROWED][..1] == [U] && [U][..0] == [];
    assert LinkMap([U][..0]) == map[];
    assert LinkMap([U]) == map["u" := U];
    assert LinkMap([U, ARROWED]) == map["u" := U, "x\U{2192}d" := ARROWED];
    assert LinkMap([U, ARROWED, D]) == map["u" := U, "x\U{2192}d" := ARROWED, "d" := D];
  }

  lemma DisguisedTun(n: Network)
    requires Disguised(n)
    ensures PathTun(n, n.paths[0]) == "t" && OriginTun(n.nodes["a"]) == Some("t")
  {
    assert LastCapture(n.nodes["a"].conns) == "t";
  }

  lemma DisguisedTidy(n: Network)
    requires Disguised(n)
    ensures Tidy(n)
  {
    assert TidyLink(n, U) && TidyLink(n, ARROWED) && TidyLink(n, D) && TidyLink(n, HOME);
    assert TidyNode(n, "a") && TidyNode(n, "g") && TidyNode(n, "h");
  }

  lemma DisguisedPath(n: Network)
    requires Disguised(n)
    ensures PathLoads(n, n.paths[0])
  {
    DisguisedLinks(n);
    DisguisedTun(n);
    assert n.paths[0].routes[1].when == [];
    assert GatewayOf(ONWARD, LinkMap(n.links)) == Ok("h") && GatewayOf(HERE, LinkMap(n.links)) == Ok("g");
  }

  lemma DisguisedLoads(n: Network)
    requires Disguised(n)
    ensures Validated(n) && GatewaysHaveLinks(n) && Tidy(n)
  {
    DisguisedTidy(n);
    DisguisedPath(n);
    TidyLoads(n);
  }

  lemma DisguisedBranches(links: map<Name, Link>)
    requires links == map["u" := U, "x\U{2192}d" := ARROWED, "d" := D, "r" := HOME]
    ensures BranchRules("a", ONWARD, "t", links) == DisguisedRules()[..4] && Oriented("a", ONWARD, links)
    ensures BranchRules("a", HERE, "t", links) == DisguisedRules()[4..] && Oriented("a", HERE, links)
  {
    var rules := DisguisedRules();
    assert UpRules(ONWARD, "t", links) == [rules[1], rules[2]] && DownRules("a", ONWARD, "t", links) == [rules[3]];
    assert UpRules(HERE, "t", links) == [rules[5]] && DownRules("a", HERE, "t", links) == [rules[6]];
    assert RelayOk(ONWARD.up, links, 0);
  }

  lemma DisguisedDerives(n: Network)
    requires Disguised(n) && GatewaysHaveLinks(n)
    ensures Pending(n, 1) == DisguisedRules() && AllOriented(n)
  {
    DisguisedLinks(n);
    DisguisedTun(n);
    DisguisedBranches(LinkMap(n.links));
    var p := n.paths[0];
    assert PathRules(n, p, 0) == [];
    assert PathRules(n, p, 1) == PathRules(n, p, 0) + BranchRules("a", ONWARD, "t", LinkMap(n.links));
    assert PathRules(n, p, 2) == PathRules(n, p, 1) + BranchRules("a", HERE, "t", LinkMap(n.links));
    assert Pending(n, 0) == [];
    assert DisguisedRules() == DisguisedRules()[..4] + DisguisedRules()[4..];
  }

  lemma DisguisedFits(n: Network)
    requires Disguised(n)
    ensures AllFit(n, DisguisedRules()) && NoneAlone(n, map["a" := "u", "g" := "u", "h" := "r"])
  {
    assert U in n.links && ARROWED in n.links && D in n.links && HOME in n.links;
    assert n.nodes["a"].conns[0] in n.nodes["a"].conns && HasTun(n, "a", "t");
    forall k | 0 <= k < 7 ensures Fits(n, DisguisedRules()[k]) {
    }
  }

  /** Relaying over `x->d` and finalizing by `->x` with replies over `d` have one action key. */
  lemma OneAction(rules: seq<PendingRule>)
    requires rules == DisguisedRules()
    ensures ActionKey(rules[1].route) == ActionKey(rules[5].route)
  {
    assert ActionKey(rules[1].route) == "\U{2192}x\U{2192}d";
    assert ActionKey(rules[5].route) == "\U{2192}x\U{2192}d";
  }

  lemma SingleAction(rules: seq<PendingRule>, i: nat, key: string)
    requires i < |rules|
    requires forall k :: 0 <= k < |rules| && rules[k].relay && Arrival(rules[k]) == Arrival(rules[i]) ==>
               ActionKey(rules[k].route) == key
    ensures !Diverges(rules, rules[i])
  {
    var acts := Actions(rules, Arrival(rules[i]));
    assert acts <= {key};
    FewerMembers(acts, {key});
  }

  lemma DisguisedUnguarded(rules: seq<PendingRule>)
    requires rules == DisguisedRules()
    ensures Unguarded(rules)
  {
    OneAction(rules);
    assert Arrival(rules[1])[0] == 'g' && Arrival(rules[5])[0] == 'g' && Arrival(rules[2])[0] == 'h';
    SingleAction(rules, 1, ActionKey(rules[1].route));
    SingleAction(rules, 2, ActionKey(rules[2].route));
  }

  lemma DisguisedAlike(rules: seq<PendingRule>)
    requires rules == DisguisedRules()
    ensures NoClash(rules)
  {
    forall i, j | 0 <= i < j < 7 ensures FinalizesAlike(rules[i], rules[j]) {
      assert rules[i].route.egress != "" <==> i == 2 || i == 5;
      assert rules[2].node != rules[5].node;
    }
  }

  lemma DisguisedCompiles(n: Network)
    requires Disguised(n)
    ensures Validated(n) && GatewaysHaveLinks(n) && Compilable(n) && Rules(n) == DisguisedRules()
  {
    DisguisedLoads(n);
    DisguisedDerives(n);
    DisguisedFits(n);
    DisguisedUnguarded(DisguisedRules());
    DisguisedAlike(DisguisedRules());
    PlainCompiles(n, DisguisedRules(), map["a" := "u", "g" := "u", "h" := "r"]);
  }

  lemma DisguisedEmits(rules: seq<PendingRule>)
    requires rules == DisguisedRules()
    ensures Emitted(rules, "g") != [] && Emitted(rules, "g")[0] == rules[1].route
  {
    var a, b := rules[..1], rules[..2];
    assert b[..1] == a && a[..0] == [];
    assert Emitted(a[..0], "g") == [] && Seen(a[..0]) == {};
    assert Emitted(a, "g") == [];
    assert Emitted(b, "g") == [rules[1].route];
    EmittedPrefix(rules, "g", 2);
  }

  lemma DisguisedHop(n: Network, w: World, t: nat, pkt: Packet)
    requires Disguised(n) && GatewaysHaveLinks(n) && Rules(n) == DisguisedRules()
    ensures Hop(n, w, t, "g", "u", false, pkt) == Forwarded("x\U{2192}d")
  {
    DisguisedEmits(Rules(n));
    assert ARROWED in n.links;
    SendsExactly(n, "g", "x\U{2192}d");
    TunNamedExactly(n, "g", "x\U{2192}d");
    assert Eligible(Rules(n)[1].route, "u", false, OracleAt(n, w, t, "g", pkt));
  }

  lemma DisguisedLost(n: Network, w: World, t: nat, pkt: Packet)
    requires Disguised(n) && GatewaysHaveLinks(n) && Rules(n) == DisguisedRules()
    ensures !TakesBranch(n, w, t, pkt, n.paths[0], HERE)
  {
    DisguisedLinks(n);
    DisguisedTun(n);
    DisguisedHop(n, w, t + 1, pkt);
    Strays(n, w, t, pkt, n.paths[0], HERE, Forwarded("x\U{2192}d"));
  }

  /** It compiles, and the two branches are not seen to diverge, so that the gateway relays the default branch's
      packets too. */
  lemma ArrowHidesDivergence(n: Network, w: World, t: nat, pkt: Packet)
    requires Disguised(n) && !Holds(n, w, t, pkt, "c")
    ensures Validated(n) && GatewaysHaveLinks(n) && Compilable(n)
    ensures Hop(n, w, t, "g", "u", false, pkt) == Forwarded("x\U{2192}d")
    ensures Chosen(n, w, t, pkt, n.paths[0], 1) && !TakesBranch(n, w, t, pkt, n.paths[0], HERE)
  {
    DisguisedCompiles(n);
    DisguisedHop(n, w, t, pkt);
    DisguisedLost(n, w, t, pkt);
    assert "c" in ONWARD.when;
  }
}
