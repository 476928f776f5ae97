/** Two small networks that meet everything the mesh theorems ask: an origin that sends some destinations out
    locally and the rest through a gateway, and one whose two branches share an up-link and are told apart
    again at the gateway. */
module Example {
  import opened Common
  import opened Schema
  import opened Compile
  import opened NetworkCompiler
  import opened Routing
  import opened Tables
  import opened Mesh
  import opened UpPath
  import opened DownPath
  import opened Concrete

  const UP := Link("u", "a", "g", ToAcceptor, false, "")
  const DOWN := Link("d", "a", "g", ToDialer, false, "")

  /** An origin and a gateway with a link each way, and one path with two branches. */
  ghost predicate Pair(n: Network, here: set<Name>, there: set<Name>, first: Branch, second: Branch) {
    && n.nodes == map["a" := NodeSpec(false, [Conn("t", true, true)], here), "g" := NodeSpec(false, [], there)]
    && n.links == [UP, DOWN] && n.paths == [Path("p", "a", [first, second])] && n.conditions == map["c" := DstIn]
  }

  ghost predicate IsPair(n: Network, first: Branch, second: Branch) {
    exists here, there :: Pair(n, here, there, first, second)
  }

  lemma Links(n: Network, first: Branch, second: Branch)
    requires IsPair(n, first, second)
    ensures LinkMap(n.links) == map["u" := UP, "d" := DOWN]
  {
    assert n.links[..1] == [UP] && n.links[..1][..0] == [];
    assert LinkMap(n.links[..1][..0]) == map[];
    assert LinkMap(n.links[..1]) == map["u" := UP];
  }

  lemma Tun(n: Network, first: Branch, second: Branch)
    requires IsPair(n, first, second)
    ensures "a" in n.nodes && OriginTun(n.nodes["a"]) == Some("t") && PathTun(n, n.paths[0]) == "t"
  {
    assert LastCapture(n.nodes["a"].conns) == "t";
  }

  lemma PairTidy(n: Network, first: Branch, second: Branch)
    requires IsPair(n, first, second)
    ensures Tidy(n)
  {
    assert TidyLink(n, UP) && TidyLink(n, DOWN) && TidyNode(n, "a") && TidyNode(n, "g");
  }

  lemma Loads(n: Network, first: Branch, second: Branch)
    requires IsPair(n, first, second) && first.when == ["c"] && second.when == []
    requires UserspaceBranchOk(n, first) && UserspaceBranchOk(n, second)
    requires GatewayOf(first, LinkMap(n.links)) == Ok(first.gateway)
    requires GatewayOf(second, LinkMap(n.links)) == Ok(second.gateway)
    ensures Validated(n) && GatewaysHaveLinks(n) && Tidy(n)
  {
    PairTidy(n, first, second);
    Tun(n, first, second);
    assert n.paths[0].routes[1].when == [];
    assert PathLoads(n, n.paths[0]);
    TidyLoads(n);
  }

  lemma Derives(n: Network, first: Branch, second: Branch)
    requires IsPair(n, first, second) && GatewaysHaveLinks(n)
    ensures first.gateway != "" ==> first.up != []
    ensures second.gateway != "" ==> second.up != []
    ensures var links := LinkMap(n.links);
            Pending(n, 1) == BranchRules("a", first, "t", links) + BranchRules("a", second, "t", links)
  {
    Tun(n, first, second);
    var p, links := n.paths[0], LinkMap(n.links);
    assert p.routes[0] == first && p.routes[1] == second;
    assert PathRules(n, p, 0) == [];
    assert PathRules(n, p, 1) == PathRules(n, p, 0) + BranchRules("a", first, "t", links);
    assert PathRules(n, p, 2) == PathRules(n, p, 1) + BranchRules("a", second, "t", links);
    assert Pending(n, 0) == [];
  }

  lemma OneTun(n: Network, w: World, first: Branch, second: Branch)
    requires IsPair(n, first, second)
    ensures IdsDistinct(n, w)
  {
    forall node, s | node in n.nodes && TunNamed(Connections(n, node), s) ensures node == "a" && s == "t" {
      TunNamedExactly(n, node, s);
    }
  }

  lemma PairAttached(n: Network, first: Branch, second: Branch)
    requires IsPair(n, first, second)
    ensures "a" in n.nodes && "g" in n.nodes && Attached(n, "a", "t") && Attached(n, "a", "u") && Attached(n, "a", "d")
    ensures Attached(n, "g", "u") && Attached(n, "g", "d") && NoneAlone(n, map["a" := "u", "g" := "u"])
  {
    assert UP in n.links && DOWN in n.links && n.nodes["a"].conns[0] in n.nodes["a"].conns;
    assert HasTun(n, "a", "t");
  }

  /** A processed packet sent over the down-link is delivered to the origin's tun. */
  ghost predicate ComesHome(n: Network, w: World, t: nat, pkt: Packet)
    requires GatewaysHaveLinks(n) && "d" in LinkMap(n.links)
  {
    var gateway := TargetOf(LinkMap(n.links)["d"]);
    exists trace :: Follows(n, w, t, gateway, "d", true, pkt, trace, "a", Delivered("t"))
  }

  ghost predicate ThroughGateway(br: Branch) {
    br.gateway == "g" && br.up == ["u"] && br.down == ["d"]
  }

  /** What a branch through the gateway derives. */
  lemma GatewayRules(br: Branch, links: map<Name, Link>)
    requires ThroughGateway(br) && links == map["u" := UP, "d" := DOWN]
    ensures BranchRules("a", br, "t", links)
         == [PendingRule("a", Route(Some(false), "t", br.when, "", "u"), false, []),
             PendingRule("g", Route(Some(false), "u", [], br.egress, "d"), true, br.when),
             PendingRule("a", Route(Some(true), "d", [], "", "t"), false, [])]
    ensures Oriented("a", br, links) && GatewayOf(br, links) == Ok("g")
  {
    assert UpRules(br, "t", links) == [UpRule(br, "t", links, 0)];
    assert DownRules("a", br, "t", links) == [DownRule("a", br, "t", links, 0)];
  }

  ghost predicate Plain(br: Branch) {
    Distinct(br.up) && Distinct(br.down) && (br.gateway != "" ==> br.down != []) && ARROW !in br.egress
  }

  lemma OneClearPath(n: Network, first: Branch, second: Branch)
    requires IsPair(n, first, second) && Plain(first) && Plain(second)
    ensures forall p, b :: OnBranch(n, p, b) ==> UpClear(n, p, b) && DownClear(n, p)
  {
    assert n.paths[0].routes == [first, second];
  }

  // ---- some traffic leaves locally -----------------------------------------------------------------------

  const LOCAL := Branch(["c"], "x", [], [], "")
  const REMOTE := Branch([], "e", ["u"], ["d"], "g")

  ghost predicate Split(n: Network) {
    Pair(n, {"x"}, {"e"}, LOCAL, REMOTE)
  }

  ghost function SplitRules(): seq<PendingRule> {
    [PendingRule("a", Route(Some(false), "t", ["c"], "x", "t"), false, []),
     PendingRule("a", Route(Some(false), "t", [], "", "u"), false, []),
     PendingRule("g", Route(Some(false), "u", [], "e", "d"), true, []),
     PendingRule("a", Route(Some(true), "d", [], "", "t"), false, [])]
  }

  lemma SplitLoads(n: Network)
    requires Split(n)
    ensures IsPair(n, LOCAL, REMOTE) && Validated(n) && GatewaysHaveLinks(n) && Tidy(n)
  {
    assert IsPair(n, LOCAL, REMOTE);
    Links(n, LOCAL, REMOTE);
    GatewayRules(REMOTE, LinkMap(n.links));
    Loads(n, LOCAL, REMOTE);
  }

  lemma SplitDerives(n: Network)
    requires Split(n) && GatewaysHaveLinks(n)
    ensures Pending(n, 1) == SplitRules() && AllOriented(n)
  {
    assert IsPair(n, LOCAL, REMOTE);
    Links(n, LOCAL, REMOTE);
    Derives(n, LOCAL, REMOTE);
    GatewayRules(REMOTE, LinkMap(n.links));
    assert BranchRules("a", LOCAL, "t", LinkMap(n.links)) == [SplitRules()[0]];
    assert Oriented("a", LOCAL, LinkMap(n.links)) && n.paths[0].routes == [LOCAL, REMOTE];
  }

  lemma SplitFits(n: Network, rules: seq<PendingRule>)
    requires Split(n) && rules == SplitRules()
    ensures AllFit(n, rules)
  {
    assert IsPair(n, LOCAL, REMOTE);
    PairAttached(n, LOCAL, REMOTE);
    forall k | 0 <= k < 4 ensures Fits(n, rules[k]) {
    }
  }

  lemma SplitAlike(rules: seq<PendingRule>)
    requires rules == SplitRules()
    ensures Unguarded(rules) && NoClash(rules)
  {
    forall i, j | 0 <= i < j < 4 ensures FinalizesAlike(rules[i], rules[j]) {
      assert rules[i].route.egress != "" <==> i == 0 || i == 2;
      assert rules[0].node != rules[2].node;
    }
  }

  lemma SplitCompiles(n: Network)
    requires Split(n)
    ensures Validated(n) && GatewaysHaveLinks(n) && Compilable(n)
  {
    SplitLoads(n);
    SplitDerives(n);
    SplitFits(n, SplitRules());
    SplitAlike(SplitRules());
    PairAttached(n, LOCAL, REMOTE);
    PlainCompiles(n, SplitRules(), map["a" := "u", "g" := "u"]);
  }

  lemma SplitClean(n: Network)
    requires Split(n)
    ensures CleanNet(n)
  {
    assert IsPair(n, LOCAL, REMOTE);
    Tun(n, LOCAL, REMOTE);
  }

  lemma SplitSound(n: Network)
    requires Split(n) && Validated(n)
    ensures Sound(n)
  {
    assert IsPair(n, LOCAL, REMOTE);
    SplitClean(n);
    OneClearPath(n, LOCAL, REMOTE);
  }

  /** The theorems apply: in this network every packet of the origin takes the branch chosen for it, and a
      reply from the gateway comes home. */
  lemma SplitApplies(n: Network, w: World, t: nat, pkt: Packet, b: nat)
    requires Split(n) && b < 2 && pkt.owner == w.id("a", "t") && Chosen(n, w, t, pkt, n.paths[0], b)
    ensures Sound(n) && GatewaysHaveLinks(n) && Compilable(n) && "d" in LinkMap(n.links)
    ensures TakesBranch(n, w, t, pkt, n.paths[0], n.paths[0].routes[b])
    ensures ComesHome(n, w, t, pkt)
  {
    SplitCompiles(n);
    SplitSound(n);
    assert IsPair(n, LOCAL, REMOTE);
    Applies(n, w, t, pkt, LOCAL, REMOTE, b, 1);
  }

  lemma Applies(n: Network, w: World, t: nat, pkt: Packet, first: Branch, second: Branch, b: nat, c: nat)
    requires IsPair(n, first, second) && b < 2 && c < 2 && ThroughGateway(n.paths[0].routes[c])
    requires Sound(n) && GatewaysHaveLinks(n) && Compilable(n)
    requires pkt.owner == w.id("a", "t") && Chosen(n, w, t, pkt, n.paths[0], b)
    ensures "d" in LinkMap(n.links) && TakesBranch(n, w, t, pkt, n.paths[0], n.paths[0].routes[b])
    ensures ComesHome(n, w, t, pkt)
  {
    Tun(n, first, second);
    OneTun(n, w, first, second);
    UpPathPreserved(n, w, t, pkt, 0, b);
    RepliesComeHome(n, w, t, pkt, 0, c);
  }

  // ---- two branches over one up-link ---------------------------------------------------------------------

  const SOME := Branch(["c"], "e", ["u"], ["d"], "g")
  const OTHERS := Branch([], "f", ["u"], ["d"], "g")

  ghost predicate Fork(n: Network) {
    Pair(n, {}, {"e", "f"}, SOME, OTHERS)
  }

  ghost function Forked(): seq<PendingRule> {
    [PendingRule("a", Route(Some(false), "t", ["c"], "", "u"), false, []),
     PendingRule("g", Route(Some(false), "u", [], "e", "d"), true, ["c"]),
     PendingRule("a", Route(Some(true), "d", [], "", "t"), false, []),
     PendingRule("a", Route(Some(false), "t", [], "", "u"), false, []),
     PendingRule("g", Route(Some(false), "u", [], "f", "d"), true, []),
     PendingRule("a", Route(Some(true), "d", [], "", "t"), false, [])]
  }

  /** The same with the condition restated on the gateway. */
  ghost function Restated(): seq<PendingRule> {
    Forked()[1 := PendingRule("g", Route(Some(false), "u", ["c"], "e", "d"), true, ["c"])]
  }

  lemma ForkLoads(n: Network)
    requires Fork(n)
    ensures IsPair(n, SOME, OTHERS) && Validated(n) && GatewaysHaveLinks(n) && Tidy(n)
  {
    assert IsPair(n, SOME, OTHERS);
    Links(n, SOME, OTHERS);
    GatewayRules(SOME, LinkMap(n.links));
    GatewayRules(OTHERS, LinkMap(n.links));
    Loads(n, SOME, OTHERS);
  }

  lemma ForkDerives(n: Network)
    requires Fork(n) && GatewaysHaveLinks(n)
    ensures Pending(n, 1) == Forked() && AllOriented(n)
  {
    assert IsPair(n, SOME, OTHERS);
    Links(n, SOME, OTHERS);
    GatewayRules(SOME, LinkMap(n.links));
    GatewayRules(OTHERS, LinkMap(n.links));
    Derives(n, SOME, OTHERS);
    assert n.paths[0].routes == [SOME, OTHERS];
  }

  /** Both branches arrive at the gateway over one link and leave it differently. */
  lemma ForkDiverges(pend: seq<PendingRule>)
    requires pend == Forked()
    ensures Diverges(pend, pend[1]) && Diverges(pend, pend[4])
  {
    DifferentActionsDiverge(pend, 1, 4);
    DifferentActionsDiverge(pend, 4, 1);
  }

  lemma ForkRestates(n: Network, pend: seq<PendingRule>)
    requires Fork(n) && pend == Forked()
    ensures Qualified(n, pend, 6) == Restated() && AllRestateOk(n, pend, 6)
  {
    ForkDiverges(pend);
    RestateShort(n, ["c"]);
    forall i | 0 <= i < 6 ensures Qualified(n, pend, 6)[i] == Restated()[i] {
      QualifiedAt(n, pend, 6, i);
    }
    ForkAccepted(n, pend);
  }

  lemma ForkAccepted(n: Network, pend: seq<PendingRule>)
    requires Fork(n) && pend == Forked() && Diverges(pend, pend[4]) && Restate(n, ["c"]) == ["c"]
    ensures AllRestateOk(n, pend, 6)
  {
    assert Claimed(n, pend, 0) == {} && Claimed(n, pend, 1) == {};
    forall i | 0 <= i < 6 ensures RestateOk(n, pend, i) {
    }
    AllAccepted(n, pend, 6);
  }

  lemma {:induction false} AllAccepted(n: Network, pend: seq<PendingRule>, k: nat)
    requires k <= |pend| && forall i :: 0 <= i < |pend| ==> RestateOk(n, pend, i)
    ensures AllRestateOk(n, pend, k)
  {
    if k > 0 {
      AllAccepted(n, pend, k - 1);
    }
  }

  lemma ForkAlike(rules: seq<PendingRule>)
    requires rules == Restated()
    ensures NoClash(rules)
  {
    assert MatchKey(rules[1].route) == "false|u|c" && MatchKey(rules[4].route) == "false|u|";
    forall i, j | 0 <= i < j < 6 ensures FinalizesAlike(rules[i], rules[j]) {
      assert rules[i].route.egress != "" <==> i == 1 || i == 4;
      assert rules[j].route.egress != "" <==> j == 1 || j == 4;
    }
  }

  lemma ForkFits(n: Network, rules: seq<PendingRule>)
    requires Fork(n) && rules == Restated()
    ensures AllFit(n, rules)
  {
    assert IsPair(n, SOME, OTHERS);
    PairAttached(n, SOME, OTHERS);
    forall k | 0 <= k < 6 ensures Fits(n, rules[k]) {
    }
  }

  lemma ForkCompiles(n: Network)
    requires Fork(n)
    ensures Validated(n) && GatewaysHaveLinks(n) && Compilable(n) && Rules(n) == Restated()
  {
    ForkLoads(n);
    ForkDerives(n);
    ForkRestates(n, Forked());
    ForkAlike(Restated());
    NoConflict(Restated());
    ForkFits(n, Restated());
    PairAttached(n, SOME, OTHERS);
    FitCompiles(n, map["a" := "u", "g" := "u"]);
  }

  lemma ForkClean(n: Network)
    requires Fork(n)
    ensures CleanNet(n)
  {
    assert IsPair(n, SOME, OTHERS);
    Tun(n, SOME, OTHERS);
  }

  lemma ForkSound(n: Network)
    requires Fork(n) && Validated(n)
    ensures Sound(n)
  {
    assert IsPair(n, SOME, OTHERS);
    ForkClean(n);
    OneClearPath(n, SOME, OTHERS);
  }

  /** Here the gateway has to tell the branches apart: its rows diverge, the condition is restated on the first,
      and the theorems say that every packet still takes the branch chosen for it. */
  lemma ForkApplies(n: Network, w: World, t: nat, pkt: Packet, b: nat)
    requires Fork(n) && b < 2 && pkt.owner == w.id("a", "t") && Chosen(n, w, t, pkt, n.paths[0], b)
    ensures Sound(n) && GatewaysHaveLinks(n) && Compilable(n) && Rules(n) == Restated() && "d" in LinkMap(n.links)
    ensures TakesBranch(n, w, t, pkt, n.paths[0], n.paths[0].routes[b])
    ensures ComesHome(n, w, t, pkt)
  {
    ForkCompiles(n);
    ForkSound(n);
    assert IsPair(n, SOME, OTHERS);
    Applies(n, w, t, pkt, SOME, OTHERS, b, 1);
  }
}
