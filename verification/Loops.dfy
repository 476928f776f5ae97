/** Networks that load and compile and send packets round for ever, because a branch uses a link twice. */
module Loops {
  import opened Common
  import opened Schema
  import opened Compile
  import opened NetworkCompiler
  import opened Routing
  import opened Tables
  import opened Mesh
  import opened UpPath
  import opened Orientation
  import opened Concrete
  import opened Limits

  /** No run from here comes to an end. */
  ghost predicate Endless(n: Network, w: World, t: nat, node: Name, source: Name, processed: bool, pkt: Packet)
    requires GatewaysHaveLinks(n)
  {
    forall trace, at, end: Verdict ::
      !end.Forwarded? ==> !Follows(n, w, t, node, source, processed, pkt, trace, at, end)
  }

  /** Whenever a packet arrives at `node` over `source`, it goes on over `next`. */
  ghost predicate AlwaysTo(n: Network, w: World, node: Name, source: Name, processed: bool, pkt: Packet, next: Name)
    requires GatewaysHaveLinks(n)
  {
    && node in n.nodes && next in LinkMap(n.links)
    && forall t: nat :: Hop(n, w, t, node, source, processed, pkt) == Forwarded(next)
  }

  lemma {:induction false} NoEnd(n: Network, w: World, t: nat, a: Name, la: Name, b: Name, lb: Name, processed: bool,
                                 pkt: Packet, trace: seq<Name>, at: Name, end: Verdict)
    requires GatewaysHaveLinks(n)
    requires AlwaysTo(n, w, a, la, processed, pkt, lb) && AlwaysTo(n, w, b, lb, processed, pkt, la)
    requires TargetOf(LinkMap(n.links)[la]) == a && TargetOf(LinkMap(n.links)[lb]) == b && !end.Forwarded?
    ensures !Follows(n, w, t, a, la, processed, pkt, trace, at, end)
    decreases |trace|
  {
    assert Hop(n, w, t, a, la, processed, pkt) == Forwarded(lb);
    if trace != [] && trace[0] == lb {
      NoEnd(n, w, t + 1, b, lb, a, la, processed, pkt, trace[1..], at, end);
    }
  }

  /** Two nodes that send a packet to each other never let it go. */
  lemma RoundForever(n: Network, w: World, t: nat, a: Name, la: Name, b: Name, lb: Name, processed: bool, pkt: Packet)
    requires GatewaysHaveLinks(n)
    requires AlwaysTo(n, w, a, la, processed, pkt, lb) && AlwaysTo(n, w, b, lb, processed, pkt, la)
    requires TargetOf(LinkMap(n.links)[la]) == a && TargetOf(LinkMap(n.links)[lb]) == b
    ensures Endless(n, w, t, a, la, processed, pkt)
  {
    forall trace, at, end: Verdict | !end.Forwarded? ensures !Follows(n, w, t, a, la, processed, pkt, trace, at, end) {
      NoEnd(n, w, t, a, la, b, lb, processed, pkt, trace, at, end);
    }
  }

  predicate Applies(pr: PendingRule, node: Name, source: Name, processed: bool) {
    pr.node == node && pr.route.source == source && pr.route.processed == Some(processed)
  }

  /** Every rule that applies acts as rule `k` does. */
  ghost predicate OnlyChoice(rules: seq<PendingRule>, node: Name, source: Name, processed: bool, k: nat)
    requires k < |rules|
  {
    forall j :: 0 <= j < |rules| && Applies(rules[j], node, source, processed) ==>
      rules[j].route.egress == rules[k].route.egress && rules[j].route.target == rules[k].route.target
  }

  ghost predicate CleanRules(rules: seq<PendingRule>) {
    forall j :: 0 <= j < |rules| ==> CleanRoute(rules[j].route) && rules[j].route.source != ""
  }

  /** A node does what its only applicable rule says, if it can send on the rule's target. */
  lemma OnlyRow(n: Network, w: World, t: nat, pkt: Packet, rules: seq<PendingRule>, k: nat, processed: bool)
    requires GatewaysHaveLinks(n) && rules == Rules(n) && k < |rules| && CleanRules(rules)
    requires var pr := rules[k];
             && pr.node in n.nodes && pr.route.processed == Some(processed) && pr.route.conditions == []
             && OnlyChoice(rules, pr.node, pr.route.source, processed, k)
             && Accepts(Connections(n, pr.node), w, pr.node, pr.route.target, pkt.owner)
    ensures Hop(n, w, t, rules[k].node, rules[k].route.source, processed, pkt)
         == Act(Connections(n, rules[k].node), Some(rules[k].route))
  {
    var node, mine := rules[k].node, rules[k].route;
    var o, routes := OracleAt(n, w, t, node, pkt), CompiledNode(n, node).routes;
    EmittedComplete(rules, node, k);
    SortedKeeps(n.nodes[node], Emitted(rules, node), mine);
    FirstFound(routes, Eligibility(mine.source, processed, o));
    assert Eligible(mine, mine.source, processed, o);
    var r := First(routes, Eligibility(mine.source, processed, o)).value;
    SortedMembers(n.nodes[node], Emitted(rules, node), r);
    EmittedSound(rules, node, r);
  }

  // ---- an up-link used twice -----------------------------------------------------------------------------

  const V := Link("v", "g", "a", ToAcceptor, false, "")
  const W := Link("w", "g", "h", ToAcceptor, false, "")
  const BACK := Link("d", "h", "a", ToAcceptor, false, "")
  const LOOP := Branch([], "e", ["u", "v", "u", "w"], ["d"], "h")

  /** Origin `a` sends to `g`, has the packet back, and sends it there again, from where it goes on to `h`. */
  ghost predicate Looped(n: Network) {
    && n.nodes == map["a" := NodeSpec(false, [Conn("t", true, true)], {}), "g" := NodeSpec(false, [], {}),
                      "h" := NodeSpec(false, [], {"e"})]
    && n.links == [U, V, W, BACK] && n.paths == [Path("p", "a", [LOOP])] && n.conditions == map[]
  }

  ghost function LoopedRules(): seq<PendingRule> {
    [PendingRule("a", Route(Some(false), "t", [], "", "u"), false, []),
     PendingRule("g", Route(Some(false), "u", [], "", "v"), true, []),
     PendingRule("a", Route(Some(false), "v", [], "", "u"), true, []),
     PendingRule("g", Route(Some(false), "u", [], "", "w"), true, []),
     PendingRule("h", Route(Some(false), "w", [], "e", "d"), true, []),
     PendingRule("a", Route(Some(true), "d", [], "", "t"), false, [])]
  }

  lemma LoopedLinks(n: Network)
    requires Looped(n)
    ensures LinkMap(n.links) == map["u" := U, "v" := V, "w" := W, "d" := BACK]
  {
    assert n.links[..3] == [U, V, W] && n.links[..3][..2] == [U, V] && [U, V][..1] == [U] && [U][..0] == [];
    assert LinkMap([U][..0]) == map[];
    assert LinkMap([U]) == map["u" := U];
    assert LinkMap([U, V]) == map["u" := U, "v" := V];
    assert LinkMap([U, V, W]) == map["u" := U, "v" := V, "w" := W];
  }

  lemma LoopedTun(n: Network)
    requires Looped(n)
    ensures PathTun(n, n.paths[0]) == "t" && OriginTun(n.nodes["a"]) == Some("t")
  {
    assert LastCapture(n.nodes["a"].conns) == "t";
  }

  lemma LoopedTidy(n: Network)
    requires Looped(n)
    ensures Tidy(n)
  {
    assert TidyLink(n, U) && TidyLink(n, V) && TidyLink(n, W) && TidyLink(n, BACK);
    assert TidyNode(n, "a") && TidyNode(n, "g") && TidyNode(n, "h");
  }

  lemma LoopedLoads(n: Network)
    requires Looped(n)
    ensures Validated(n) && GatewaysHaveLinks(n) && Tidy(n)
  {
    LoopedTidy(n);
    LoopedLinks(n);
    LoopedTun(n);
    assert n.paths[0].routes[0].when == [];
    assert GatewayOf(LOOP, LinkMap(n.links)) == Ok("h");
    assert PathLoads(n, n.paths[0]);
    TidyLoads(n);
  }

  lemma LoopUp(links: map<Name, Link>)
    requires links == map["u" := U, "v" := V, "w" := W, "d" := BACK]
    ensures UpRules(LOOP, "t", links) == LoopedRules()[1..5] && DownRules("a", LOOP, "t", links) == LoopedRules()[5..]
    ensures Oriented("a", LOOP, links)
  {
    var rules := LoopedRules();
    assert UpRule(LOOP, "t", links, 0) == rules[1] && UpRule(LOOP, "t", links, 1) == rules[2];
    assert UpRule(LOOP, "t", links, 2) == rules[3] && UpRule(LOOP, "t", links, 3) == rules[4];
    assert DownRule("a", LOOP, "t", links, 0) == rules[5];
    assert RelayOk(LOOP.up, links, 0) && RelayOk(LOOP.up, links, 1) && RelayOk(LOOP.up, links, 2);
  }

  lemma LoopedDerives(n: Network)
    requires Looped(n) && GatewaysHaveLinks(n)
    ensures Pending(n, 1) == LoopedRules() && AllOriented(n)
  {
    LoopedLinks(n);
    LoopedTun(n);
    LoopUp(LinkMap(n.links));
    var p := n.paths[0];
    assert PathRules(n, p, 0) == [];
    assert PathRules(n, p, 1) == PathRules(n, p, 0) + BranchRules("a", LOOP, "t", LinkMap(n.links));
    assert Pending(n, 0) == [];
    assert LoopedRules() == [LoopedRules()[0]] + (LoopedRules()[1..5] + LoopedRules()[5..]);
  }

  lemma LoopedFits(n: Network)
    requires Looped(n)
    ensures AllFit(n, LoopedRules()) && NoneAlone(n, map["a" := "u", "g" := "u", "h" := "w"])
  {
    assert U in n.links && V in n.links && W in n.links && BACK in n.links;
    assert n.nodes["a"].conns[0] in n.nodes["a"].conns && HasTun(n, "a", "t");
    forall k | 0 <= k < 6 ensures Fits(n, LoopedRules()[k]) {
    }
  }

  lemma LoopedAlike(rules: seq<PendingRule>)
    requires rules == LoopedRules()
    ensures Unguarded(rules) && NoClash(rules)
  {
    forall i, j | 0 <= i < j < 6 ensures FinalizesAlike(rules[i], rules[j]) {
      assert rules[i].route.egress != "" <==> i == 4;
    }
  }

  lemma LoopedCompiles(n: Network)
    requires Looped(n)
    ensures Validated(n) && GatewaysHaveLinks(n) && Compilable(n) && Rules(n) == LoopedRules()
  {
    LoopedLoads(n);
    LoopedDerives(n);
    LoopedFits(n);
    LoopedAlike(LoopedRules());
    PlainCompiles(n, LoopedRules(), map["a" := "u", "g" := "u", "h" := "w"]);
  }

  lemma LoopedEmits(rules: seq<PendingRule>)
    requires rules == LoopedRules()
    ensures Emitted(rules, "g") != [] && Emitted(rules, "g")[0] == rules[1].route
  {
    var a, b := rules[..1], rules[..2];
    assert b[..1] == a && a[..0] == [];
    assert Emitted(a[..0], "g") == [] && Seen(a[..0]) == {};
    assert Emitted(a, "g") == [];
    assert Emitted(b, "g") == [rules[1].route];
    EmittedPrefix(rules, "g", 2);
  }

  lemma LoopedThere(n: Network, w: World, pkt: Packet)
    requires Looped(n) && GatewaysHaveLinks(n) && Rules(n) == LoopedRules()
    ensures AlwaysTo(n, w, "g", "u", false, pkt, "v")
  {
    LoopedEmits(Rules(n));
    LoopedLinks(n);
    assert V in n.links;
    SendsExactly(n, "g", "v");
    TunNamedExactly(n, "g", "v");
    forall t: nat ensures Hop(n, w, t, "g", "u", false, pkt) == Forwarded("v") {
      assert Eligible(Rules(n)[1].route, "u", false, OracleAt(n, w, t, "g", pkt));
    }
  }

  lemma LoopedClean(rules: seq<PendingRule>)
    requires rules == LoopedRules()
    ensures CleanRules(rules) && OnlyChoice(rules, "a", "v", false, 2)
  {
  }

  lemma LoopedSends(n: Network)
    requires Looped(n)
    ensures Sends(Connections(n, "a"), "u") && !TunNamed(Connections(n, "a"), "u")
  {
    assert U in n.links;
    SendsExactly(n, "a", "u");
    TunNamedExactly(n, "a", "u");
  }

  lemma LoopedBack(n: Network, w: World, pkt: Packet)
    requires Looped(n) && GatewaysHaveLinks(n) && Rules(n) == LoopedRules()
    ensures AlwaysTo(n, w, "a", "v", false, pkt, "u")
  {
    LoopedClean(Rules(n));
    LoopedLinks(n);
    LoopedSends(n);
    forall t: nat ensures Hop(n, w, t, "a", "v", false, pkt) == Forwarded("u") {
      OnlyRow(n, w, t, pkt, Rules(n), 2, false);
    }
  }

  lemma LoopedEndless(n: Network, w: World, t: nat, pkt: Packet)
    requires Looped(n) && GatewaysHaveLinks(n) && Rules(n) == LoopedRules()
    ensures Endless(n, w, t, "g", "u", false, pkt)
  {
    LoopedThere(n, w, pkt);
    LoopedBack(n, w, pkt);
    LoopedLinks(n);
    RoundForever(n, w, t, "g", "u", "a", "v", false, pkt);
  }

  lemma NotTaken(n: Network, w: World, t: nat, pkt: Packet, path: Path, br: Branch)
    requires GatewaysHaveLinks(n) && br.gateway != "" && br.up != [] && br.up[0] in LinkMap(n.links)
    requires Endless(n, w, t + 1, TargetOf(LinkMap(n.links)[br.up[0]]), br.up[0], false, pkt)
    ensures !TakesBranch(n, w, t, pkt, path, br)
  {
    if TakesBranch(n, w, t, pkt, path, br) {
      FollowsOn(n, w, t, path.node, PathTun(n, path), pkt, br.up, br.gateway, UpEnd(br));
    }
  }

  /** It compiles, and a packet that has reached `g` goes round for ever: its run has no end. */
  lemma RepeatedLinkLoops(n: Network, w: World, t: nat, pkt: Packet)
    requires Looped(n)
    ensures Validated(n) && GatewaysHaveLinks(n) && Compilable(n)
    ensures Endless(n, w, t + 1, "g", "u", false, pkt)
    ensures Chosen(n, w, t, pkt, n.paths[0], 0) && !TakesBranch(n, w, t, pkt, n.paths[0], LOOP)
  {
    LoopedCompiles(n);
    LoopedEndless(n, w, t + 1, pkt);
    LoopedLost(n, w, t, pkt, n.paths[0], LOOP);
  }

  lemma LoopedLost(n: Network, w: World, t: nat, pkt: Packet, path: Path, br: Branch)
    requires Looped(n) && GatewaysHaveLinks(n) && br.gateway != "" && br.up != [] && br.up[0] == "u"
    requires Endless(n, w, t + 1, "g", "u", false, pkt)
    ensures !TakesBranch(n, w, t, pkt, path, br)
  {
    LoopedLinks(n);
    NotTaken(n, w, t, pkt, path, br);
  }

  // ---- a down-link used twice ----------------------------------------------------------------------------

  const OUT := Link("d", "g", "h", ToAcceptor, false, "")
  const IN := Link("x", "h", "g", ToAcceptor, false, "")
  const LAST := Link("y", "h", "a", ToAcceptor, false, "")
  const CIRCLE := Branch([], "e", ["u"], ["d", "x", "d", "y"], "g")

  /** Replies go from gateway `g` to `h`, back to `g`, to `h` again, and from there home. */
  ghost predicate Circling(n: Network) {
    && n.nodes == map["a" := NodeSpec(false, [Conn("t", true, true)], {}), "g" := NodeSpec(false, [], {"e"}),
                      "h" := NodeSpec(false, [], {})]
    && n.links == [U, OUT, IN, LAST] && n.paths == [Path("p", "a", [CIRCLE])] && n.conditions == map[]
  }

  ghost function CirclingRules(): seq<PendingRule> {
    [PendingRule("a", Route(Some(false), "t", [], "", "u"), false, []),
     PendingRule("g", Route(Some(false), "u", [], "e", "d"), true, []),
     PendingRule("h", Route(Some(true), "d", [], "", "x"), false, []),
     PendingRule("g", Route(Some(true), "x", [], "", "d"), false, []),
     PendingRule("h", Route(Some(true), "d", [], "", "y"), false, []),
     PendingRule("a", Route(Some(true), "y", [], "", "t"), false, [])]
  }

  lemma CirclingLinks(n: Network)
    requires Circling(n)
    ensures LinkMap(n.links) == map["u" := U, "d" := OUT, "x" := IN, "y" := LAST]
  {
    assert n.links[..3] == [U, OUT, IN] && n.links[..3][..2] == [U, OUT] && [U, OUT][..1] == [U] && [U][..0] == [];
    assert LinkMap([U][..0]) == map[];
    assert LinkMap([U]) == map["u" := U];
    assert LinkMap([U, OUT]) == map["u" := U, "d" := OUT];
    assert LinkMap([U, OUT, IN]) == map["u" := U, "d" := OUT, "x" := IN];
  }

  lemma CirclingTun(n: Network)
    requires Circling(n)
    ensures PathTun(n, n.paths[0]) == "t" && OriginTun(n.nodes["a"]) == Some("t")
  {
    assert LastCapture(n.nodes["a"].conns) == "t";
  }

  lemma CirclingTidy(n: Network)
    requires Circling(n)
    ensures Tidy(n)
  {
    assert TidyLink(n, U) && TidyLink(n, OUT) && TidyLink(n, IN) && TidyLink(n, LAST);
    assert TidyNode(n, "a") && TidyNode(n, "g") && TidyNode(n, "h");
  }

  lemma CirclingPath(n: Network)
    requires Circling(n)
    ensures PathLoads(n, n.paths[0])
  {
    CirclingLinks(n);
    CirclingTun(n);
    assert n.paths[0].routes[0].when == [];
    assert GatewayOf(CIRCLE, LinkMap(n.links)) == Ok("g");
  }

  lemma CircleDown(links: map<Name, Link>)
    requires links == map["u" := U, "d" := OUT, "x" := IN, "y" := LAST]
    ensures UpRules(CIRCLE, "t", links) == CirclingRules()[1..2]
    ensures DownRules("a", CIRCLE, "t", links) == CirclingRules()[2..] && Oriented("a", CIRCLE, links)
  {
    var rules := CirclingRules();
    assert UpRule(CIRCLE, "t", links, 0) == rules[1];
    assert DownRule("a", CIRCLE, "t", links, 0) == rules[2] && DownRule("a", CIRCLE, "t", links, 1) == rules[3];
    assert DownRule("a", CIRCLE, "t", links, 2) == rules[4] && DownRule("a", CIRCLE, "t", links, 3) == rules[5];
    assert RelayOk(CIRCLE.down, links, 0) && RelayOk(CIRCLE.down, links, 1) && RelayOk(CIRCLE.down, links, 2);
  }

  lemma CirclingDerives(n: Network)
    requires Circling(n) && GatewaysHaveLinks(n)
    ensures Pending(n, 1) == CirclingRules() && AllOriented(n)
  {
    CirclingLinks(n);
    CirclingTun(n);
    CircleDown(LinkMap(n.links));
    var p := n.paths[0];
    assert PathRules(n, p, 0) == [];
    assert PathRules(n, p, 1) == PathRules(n, p, 0) + BranchRules("a", CIRCLE, "t", LinkMap(n.links));
    assert Pending(n, 0) == [];
    assert CirclingRules() == [CirclingRules()[0]] + (CirclingRules()[1..2] + CirclingRules()[2..]);
  }

  lemma CirclingFits(n: Network)
    requires Circling(n)
    ensures AllFit(n, CirclingRules()) && NoneAlone(n, map["a" := "u", "g" := "u", "h" := "d"])
  {
    assert U in n.links && OUT in n.links && IN in n.links && LAST in n.links;
    assert n.nodes["a"].conns[0] in n.nodes["a"].conns && HasTun(n, "a", "t");
    forall k | 0 <= k < 6 ensures Fits(n, CirclingRules()[k]) {
    }
  }

  lemma CirclingAlike(rules: seq<PendingRule>)
    requires rules == CirclingRules()
    ensures Unguarded(rules) && NoClash(rules)
  {
    forall i, j | 0 <= i < j < 6 ensures FinalizesAlike(rules[i], rules[j]) {
      assert rules[i].route.egress != "" <==> i == 1;
    }
  }

  lemma CirclingCompiles(n: Network)
    requires Circling(n)
    ensures Validated(n) && GatewaysHaveLinks(n) && Compilable(n) && Rules(n) == CirclingRules()
  {
    CirclingTidy(n);
    CirclingPath(n);
    TidyLoads(n);
    CirclingDerives(n);
    CirclingFits(n);
    CirclingAlike(CirclingRules());
    PlainCompiles(n, CirclingRules(), map["a" := "u", "g" := "u", "h" := "d"]);
  }

  lemma CirclingEmits(rules: seq<PendingRule>)
    requires rules == CirclingRules()
    ensures Emitted(rules, "h") != [] && Emitted(rules, "h")[0] == rules[2].route
  {
    var a, b, c := rules[..1], rules[..2], rules[..3];
    assert c[..2] == b && b[..1] == a && a[..0] == [];
    assert Emitted(a[..0], "h") == [] && Emitted(a, "h") == [] && Emitted(b, "h") == [];
    assert Seen(a[..0]) == {} && Seen(a) == {("a", RouteKey(rules[0].route))};
    assert Seen(b) == Seen(a) + {("g", RouteKey(rules[1].route))};
    assert Emitted(c, "h") == [rules[2].route];
    EmittedPrefix(rules, "h", 3);
  }

  lemma CirclingThere(n: Network, w: World, pkt: Packet)
    requires Circling(n) && GatewaysHaveLinks(n) && Rules(n) == CirclingRules()
    ensures AlwaysTo(n, w, "h", "d", true, pkt, "x")
  {
    CirclingEmits(Rules(n));
    CirclingLinks(n);
    assert IN in n.links;
    SendsExactly(n, "h", "x");
    TunNamedExactly(n, "h", "x");
    forall t: nat ensures Hop(n, w, t, "h", "d", true, pkt) == Forwarded("x") {
      assert Eligible(Rules(n)[2].route, "d", true, OracleAt(n, w, t, "h", pkt));
    }
  }

  lemma CirclingSends(n: Network)
    requires Circling(n)
    ensures Sends(Connections(n, "g"), "d") && !TunNamed(Connections(n, "g"), "d")
  {
    assert OUT in n.links;
    SendsExactly(n, "g", "d");
    TunNamedExactly(n, "g", "d");
  }

  lemma CirclingClean(rules: seq<PendingRule>)
    requires rules == CirclingRules()
    ensures CleanRules(rules) && OnlyChoice(rules, "g", "x", true, 3)
  {
  }

  lemma CirclingBack(n: Network, w: World, pkt: Packet)
    requires Circling(n) && GatewaysHaveLinks(n) && Rules(n) == CirclingRules()
    ensures AlwaysTo(n, w, "g", "x", true, pkt, "d")
  {
    CirclingClean(Rules(n));
    CirclingLinks(n);
    CirclingSends(n);
    forall t: nat ensures Hop(n, w, t, "g", "x", true, pkt) == Forwarded("d") {
      OnlyRow(n, w, t, pkt, Rules(n), 3, true);
    }
  }

  /** It compiles, and no reply ever comes home: from where the first down-link ends, its run has no end. */
  lemma RepeatedDownLinkLoops(n: Network, w: World, t: nat, pkt: Packet)
    requires Circling(n)
    ensures Validated(n) && GatewaysHaveLinks(n) && Compilable(n)
    ensures Endless(n, w, t, "h", "d", true, pkt)
  {
    CirclingCompiles(n);
    CirclingEndless(n, w, t, pkt);
  }

  lemma CirclingEndless(n: Network, w: World, t: nat, pkt: Packet)
    requires Circling(n) && GatewaysHaveLinks(n) && Rules(n) == CirclingRules()
    ensures Endless(n, w, t, "h", "d", true, pkt)
  {
    CirclingThere(n, w, pkt);
    CirclingBack(n, w, pkt);
    CirclingLinks(n);
    RoundForever(n, w, t, "h", "d", "g", "x", true, pkt);
  }
}
