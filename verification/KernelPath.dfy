/** From a kernel path of the schema to the kernel's next hop: the compiled forwarding policy, lowered, sends a packet
    by the egress of the first branch of the path that holds for it. */
module KernelPath {
  import opened Common
  import S = Schema
  import C = Compile
  import N = NetworkCompiler
  import U = UpPath
  import opened KernelPlan
  import opened KernelRouting
  import opened KernelReturn

  /** The prefixes of each condition. */
  type Sets = Name -> seq<Bits>

  // ---- what a path means ---------------------------------------------------------------------------------

  ghost predicate ConditionHolds(n: S.Network, sets: Sets, c: Name, src: Bits, dst: Bits) {
    && c in n.conditions
    && match n.conditions[c]
       case SrcIn => Covers(sets(c), src)
       case DstIn => Covers(sets(c), dst)
       case Health(_, _) => false
  }

  ghost predicate BranchHolds(n: S.Network, sets: Sets, br: S.Branch, src: Bits, dst: Bits) {
    forall c :: c in br.when ==> ConditionHolds(n, sets, c, src, dst)
  }

  /** Branch `b` is the first that holds. */
  ghost predicate Chooses(n: S.Network, sets: Sets, routes: seq<S.Branch>, b: nat, src: Bits, dst: Bits) {
    && b < |routes| && BranchHolds(n, sets, routes[b], src, dst)
    && forall a :: 0 <= a < b ==> !BranchHolds(n, sets, routes[a], src, dst)
  }

  /** How many source prefixes, and how many destination branches, the first `k` branches have. */
  ghost function Sources(n: S.Network, sets: Sets, routes: seq<S.Branch>, k: nat): nat
    requires k <= |routes|
  {
    if k == 0 then 0
    else Sources(n, sets, routes, k - 1) + if S.SrcBranch(n, routes[k - 1]) then |sets(routes[k - 1].when[0])| else 0
  }

  ghost function Destinations(n: S.Network, routes: seq<S.Branch>, k: nat): nat
    requires k <= |routes|
  {
    if k == 0 then 0 else Destinations(n, routes, k - 1) + if S.DstBranch(n, routes[k - 1]) then 1 else 0
  }

  /** The plan's tables and priorities suffice: 50 egresses beside destination branches, 1001 source prefixes and
      1001 destination branches. */
  ghost predicate Roomy(n: S.Network, sets: Sets, routes: seq<S.Branch>, egresses: nat) {
    && (egresses <= 50 || Destinations(n, routes, |routes|) == 0)
    && Sources(n, sets, routes, |routes|) <= 1001 && Destinations(n, routes, |routes|) <= 1001
  }

  /** Nothing but a default leads to the destination outside the policy: no route of the host, no pinned endpoint,
      and with a LAN no source prefix. */
  ghost predicate OutsideMain(n: S.Network, sets: Sets, routes: seq<S.Branch>, egresses: seq<Name>, lan: Name,
                              wans: map<Name, Wan>, host: seq<Route>, dst: Bits)
  {
    && (forall r :: r in host && r.prefix <= dst ==> r.prefix == [])
    && (forall e :: e in egresses && e in wans && wans[e].ep.Some? ==> OnlyDefaults([wans[e].ep.value.ip], dst))
    && (lan != "" ==>
          forall b :: 0 <= b < |routes| && S.SrcBranch(n, routes[b]) ==> OnlyDefaults(sets(routes[b].when[0]), dst))
  }

  ghost predicate OnlyDefaults(prefixes: seq<Bits>, dst: Bits) {
    forall ip :: ip in prefixes && ip <= dst ==> ip == []
  }

  // ---- the configuration of a kernel node ------------------------------------------------------------------

  ghost function Conditions(n: S.Network, names: set<Name>, sets: Sets): map<Name, Condition> {
    map c | c in names && c in n.conditions && !n.conditions[c].Health? ::
      if n.conditions[c].SrcIn? then SrcIn(sets(c)) else DstIn(sets(c))
  }

  /** What the runtime of a kernel node is started with; `egresses` lists the node's egresses in key order. */
  ghost function RuntimeConfig(n: S.Network, cfg: C.NodeConfig, egresses: seq<Name>, sets: Sets, lan: Name): Config {
    Config(egresses, Conditions(n, cfg.conditions, sets),
           seq(|cfg.forward|, i requires 0 <= i < |cfg.forward| => Branch(cfg.forward[i].when, cfg.forward[i].egress)),
           lan)
  }

  /** Branch `i` of the policy is branch `i` of the path, with the same kind of condition and the same prefixes. */
  ghost predicate Mirrors(n: S.Network, sets: Sets, br: S.Branch, c: Config, f: Branch) {
    && f == Branch(br.when, br.egress)
    && (IsSrc(c, f) <==> S.SrcBranch(n, br)) && (IsDst(c, f) <==> S.DstBranch(n, br))
    && (IsSrc(c, f) || IsDst(c, f) ==> c.conditions[f.when[0]].prefixes == sets(br.when[0]))
  }

  ghost predicate Mirrored(n: S.Network, sets: Sets, routes: seq<S.Branch>, c: Config) {
    |c.forward| == |routes| && forall i :: 0 <= i < |routes| ==> Mirrors(n, sets, routes[i], c, c.forward[i])
  }

  // ---- compiling a kernel path -------------------------------------------------------------------------------

  /** No other path starts at the node of path `p`, so nothing else is forwarded there. */
  lemma {:induction false} OnlyItsForwards(n: S.Network, p: nat, k: nat)
    requires p < |n.paths| && k <= |n.paths| && n.paths[p].node in n.nodes && n.nodes[n.paths[p].node].kernel
    requires forall i, j :: 0 <= i < j < |n.paths| ==> n.paths[i].node != n.paths[j].node
    ensures var fs, routes := C.Forwards(n, n.paths[p].node, k), n.paths[p].routes;
            if k <= p then fs == []
            else |fs| == |routes| && forall i :: 0 <= i < |fs| ==> fs[i] == C.Forward(routes[i].when, routes[i].egress)
  {
    if k > 0 {
      OnlyItsForwards(n, p, k - 1);
    }
  }

  /** The conditions of a path are shipped to its node. */
  lemma PathConditionShipped(n: S.Network, p: nat, b: nat, c: Name)
    requires C.GatewaysHaveLinks(n) && p < |n.paths| && n.paths[p].node in n.nodes && b < |n.paths[p].routes|
    requires c in n.paths[p].routes[b].when
    ensures c in N.CompiledNode(n, n.paths[p].node).conditions
  {
    U.OriginRefsHas(n, p, b, |n.paths|, c);
    assert (n.paths[p].node, c) in N.Refs(n);
  }

  /** The node has the path's branches as its policy and knows their conditions. */
  ghost predicate HasPolicy(n: S.Network, p: S.Path, cfg: C.NodeConfig)
    requires p.node in n.nodes
  {
    && cfg.egresses == n.nodes[p.node].egresses && |cfg.forward| == |p.routes|
    && (forall i :: 0 <= i < |p.routes| ==> cfg.forward[i] == C.Forward(p.routes[i].when, p.routes[i].egress))
    && (forall i :: 0 <= i < |p.routes| && p.routes[i].when != [] ==> p.routes[i].when[0] in cfg.conditions)
  }

  lemma PolicyCompiled(n: S.Network, p: nat)
    requires C.GatewaysHaveLinks(n) && p < |n.paths| && n.paths[p].node in n.nodes && n.nodes[n.paths[p].node].kernel
    requires forall i, j :: 0 <= i < j < |n.paths| ==> n.paths[i].node != n.paths[j].node
    ensures HasPolicy(n, n.paths[p], N.CompiledNode(n, n.paths[p].node))
  {
    var routes, cfg := n.paths[p].routes, N.CompiledNode(n, n.paths[p].node);
    OnlyItsForwards(n, p, |n.paths|);
    forall i | 0 <= i < |routes| && routes[i].when != [] ensures routes[i].when[0] in cfg.conditions {
      PathConditionShipped(n, p, i, routes[i].when[0]);
    }
  }

  /** A kernel path and the policy it is compiled to. */
  lemma PolicyMirrors(n: S.Network, p: S.Path, cfg: C.NodeConfig, egresses: seq<Name>, sets: Sets, lan: Name)
    requires p.node in n.nodes && S.KernelPathOk(n, p) && HasPolicy(n, p, cfg)
    ensures Mirrored(n, sets, p.routes, RuntimeConfig(n, cfg, egresses, sets, lan))
  {
    var c := RuntimeConfig(n, cfg, egresses, sets, lan);
    forall i | 0 <= i < |p.routes| ensures Mirrors(n, sets, p.routes[i], c, c.forward[i]) {
      assert c.forward[i] == Branch(p.routes[i].when, p.routes[i].egress);
    }
  }

  // ---- the policy decides as the path --------------------------------------------------------------------------

  lemma MirroredOrder(n: S.Network, p: S.Path, sets: Sets, c: Config)
    requires p.node in n.nodes && S.KernelPathOk(n, p) && Mirrored(n, sets, p.routes, c)
    requires forall e :: e in c.egresses <==> e in n.nodes[p.node].egresses
    ensures WellOrdered(c)
  {
    forall i | 0 <= i < |c.forward| ensures c.forward[i].egress != "" && c.forward[i].egress in c.egresses {
      assert S.KernelBranchOk(n, p, i) && Mirrors(n, sets, p.routes[i], c, c.forward[i]);
    }
  }

  lemma MirroredHolds(n: S.Network, sets: Sets, br: S.Branch, c: Config, f: Branch, src: Bits, dst: Bits)
    requires Mirrors(n, sets, br, c, f) && (br.when == [] || S.SrcBranch(n, br) || S.DstBranch(n, br))
    ensures Holds(c, f, src, dst) <==> BranchHolds(n, sets, br, src, dst)
  {
    if br.when != [] {
      assert br.when[0] in br.when && forall c :: c in br.when ==> c == br.when[0];
    }
  }

  lemma {:induction false} DecidedBy(c: Config, b: nat, k: nat, src: Bits, dst: Bits)
    requires k <= |c.forward| && b < |c.forward| && Holds(c, c.forward[b], src, dst)
    requires forall a :: 0 <= a < b ==> !Holds(c, c.forward[a], src, dst)
    ensures Decision(c, k, src, dst) == if k <= b then None else Some(c.forward[b].egress)
  {
    if k > 0 {
      DecidedBy(c, b, k - 1, src, dst);
    }
  }

  lemma {:induction false} MirroredCounts(n: S.Network, sets: Sets, routes: seq<S.Branch>, c: Config, k: nat)
    requires Mirrored(n, sets, routes, c) && k <= |routes|
    ensures SrcCount(c, k) == Sources(n, sets, routes, k) && DstCount(c, k) == Destinations(n, routes, k)
  {
    if k > 0 {
      MirroredCounts(n, sets, routes, c, k - 1);
      assert Mirrors(n, sets, routes[k - 1], c, c.forward[k - 1]);
    }
  }

  lemma MirroredMain(n: S.Network, sets: Sets, routes: seq<S.Branch>, c: Config, wans: map<Name, Wan>,
                     host: seq<Route>, dst: Bits)
    requires Mirrored(n, sets, routes, c) && Resolved(c, wans)
    requires OutsideMain(n, sets, routes, c.egresses, c.lan, wans, host, dst)
    ensures DefaultBound(Lowered(c, wans), host, dst)
  {
    forall r | r in host + Lowered(c, wans).mainRoutes && r.prefix <= dst ensures r.prefix == [] {
      if r in Lowered(c, wans).mainRoutes {
        MainRouteFrom(c, wans, r);
        if IsPin(c, wans, r) {
          var e :| e in c.egresses && e in wans && wans[e].ep == Some(Pin(r.prefix, r.via));
          assert r.prefix in [wans[e].ep.value.ip];
        } else {
          var b :| 0 <= b < |c.forward| && IsSrc(c, c.forward[b])
                && r.prefix in c.conditions[c.forward[b].when[0]].prefixes;
          assert Mirrors(n, sets, routes[b], c, c.forward[b]);
        }
      }
    }
  }

  /** The kernel path theorem: for traffic outside the main table the kernel's next hop is that of the egress of the
      first branch of the path that holds. */
  lemma KernelPathPreserved(n: S.Network, p: nat, egresses: seq<Name>, sets: Sets, lan: Name, wans: map<Name, Wan>,
                            host: seq<Route>, b: nat, src: Bits, dst: Bits)
    requires S.Validated(n) && C.GatewaysHaveLinks(n) && p < |n.paths| && n.nodes[n.paths[p].node].kernel
    requires forall e :: e in egresses <==> e in n.nodes[n.paths[p].node].egresses
    requires (forall e :: e in egresses ==> e in wans) && Roomy(n, sets, n.paths[p].routes, |egresses|)
    requires OutsideMain(n, sets, n.paths[p].routes, egresses, lan, wans, host, dst)
    requires Chooses(n, sets, n.paths[p].routes, b, src, dst)
    ensures var c := RuntimeConfig(n, N.CompiledNode(n, n.paths[p].node), egresses, sets, lan);
            && n.paths[p].routes[b].egress in wans && Resolved(c, wans)
            && NextHop(Lowered(c, wans), host, src, dst) == Some(wans[n.paths[p].routes[b].egress].hop)
  {
    var path, c := n.paths[p], RuntimeConfig(n, N.CompiledNode(n, n.paths[p].node), egresses, sets, lan);
    assert S.KernelLoads(n, p);
    PolicyCompiled(n, p);
    PolicyMirrors(n, path, N.CompiledNode(n, path.node), egresses, sets, lan);
    MirroredOrder(n, path, sets, c);
    MirroredCounts(n, sets, path.routes, c, |path.routes|);
    MirroredMain(n, sets, path.routes, c, wans, host, dst);
    MirroredChoice(n, path, sets, c, b, src, dst);
    PolicyPreserved(c, wans, host, src, dst);
  }

  lemma MirroredChoice(n: S.Network, p: S.Path, sets: Sets, c: Config, b: nat, src: Bits, dst: Bits)
    requires p.node in n.nodes && S.KernelPathOk(n, p) && Mirrored(n, sets, p.routes, c)
    requires Chooses(n, sets, p.routes, b, src, dst)
    ensures Decision(c, |c.forward|, src, dst) == Some(p.routes[b].egress)
  {
    forall a | 0 <= a < |p.routes|
      ensures Holds(c, c.forward[a], src, dst) <==> BranchHolds(n, sets, p.routes[a], src, dst)
    {
      assert Mirrors(n, sets, p.routes[a], c, c.forward[a]);
      MirroredHolds(n, sets, p.routes[a], c, c.forward[a], src, dst);
    }
    assert Mirrors(n, sets, p.routes[b], c, c.forward[b]);
    DecidedBy(c, b, |c.forward|, src, dst);
  }

  /** Some branch is always chosen. */
  lemma {:induction false} KernelBranchChosen(n: S.Network, sets: Sets, routes: seq<S.Branch>, k: nat, src: Bits,
                                              dst: Bits)
    returns (b: nat)
    requires k < |routes| && routes[k].when == []
    ensures b <= k && Chooses(n, sets, routes, b, src, dst)
  {
    b := 0;
    while !BranchHolds(n, sets, routes[b], src, dst)
      invariant b <= k && forall a :: 0 <= a < b ==> !BranchHolds(n, sets, routes[a], src, dst)
      decreases k - b
    {
      b := b + 1;
    }
  }

  /** Loading and the check of the generated configuration agree: a kernel path that loads compiles to a policy that
      is accepted. */
  lemma ValidatorsAgree(n: S.Network, p: nat)
    requires S.Validated(n) && C.GatewaysHaveLinks(n) && p < |n.paths| && n.nodes[n.paths[p].node].kernel
    ensures N.ForwardOk(n, N.CompiledNode(n, n.paths[p].node))
  {
    assert S.KernelLoads(n, p);
    PolicyCompiled(n, p);
    PolicyAccepted(n, n.paths[p], N.CompiledNode(n, n.paths[p].node));
  }

  lemma PolicyAccepted(n: S.Network, p: S.Path, cfg: C.NodeConfig)
    requires p.node in n.nodes && S.KernelPathOk(n, p) && HasPolicy(n, p, cfg)
    ensures N.ForwardOk(n, cfg)
  {
    forall i | 0 <= i < |p.routes| ensures cfg.forward[i].egress != "" && cfg.forward[i].egress in cfg.egresses {
      assert S.KernelBranchOk(n, p, i);
    }
    forall i | 0 <= i < |p.routes| - 1
      ensures N.SrcForward(n, cfg, cfg.forward[i]) <==> S.SrcBranch(n, p.routes[i])
      ensures N.DstForward(n, cfg, cfg.forward[i]) <==> S.DstBranch(n, p.routes[i])
    {
    }
  }

  // ---- an office with two uplinks ----------------------------------------------------------------------------

  const ROUTES := [S.Branch(["legs"], "wan2", [], [], ""), S.Branch([], "wan1", [], [], "")]

  /** One kernel node that sends its legs by the second uplink and the rest by the first. */
  ghost predicate Office(n: S.Network) {
    && n.nodes == map["r" := S.NodeSpec(true, [], {"wan1", "wan2"})] && n.links == []
    && n.paths == [S.Path("office", "r", ROUTES)] && n.conditions == map["legs" := S.SrcIn]
  }

  lemma OfficeLoads(n: S.Network)
    requires Office(n)
    ensures S.Validated(n) && C.GatewaysHaveLinks(n)
  {
    assert n.paths[0].routes == ROUTES;
    assert S.KernelBranchOk(n, n.paths[0], 0) && S.KernelBranchOk(n, n.paths[0], 1);
    assert S.SrcBranch(n, ROUTES[0]);
    assert S.KernelPathOk(n, n.paths[0]);
    N.InferredHasLinks(n);
  }

  ghost function Uplinks(): map<Name, Wan> {
    map["wan1" := Wan(Hop("one", ""), None), "wan2" := Wan(Hop("two", ""), None)]
  }

  /** It loads and meets what the theorem asks: legs leave by the second uplink, everybody else by the first. */
  lemma OfficeApplies(n: S.Network, leg: Bits, src: Bits, dst: Bits)
    requires Office(n)
    ensures S.Validated(n) && C.GatewaysHaveLinks(n)
    ensures var c := RuntimeConfig(n, N.CompiledNode(n, "r"), ["wan1", "wan2"], _ => [leg], "");
            && Resolved(c, Uplinks())
            && NextHop(Lowered(c, Uplinks()), [], src, dst) == Some(Hop(if leg <= src then "two" else "one", ""))
  {
    OfficeLoads(n);
    var sets: Sets := _ => [leg];
    var b := if leg <= src then 0 else 1;
    OfficeChooses(n, sets, leg, src, dst);
    OfficeFits(n, sets, leg);
    KernelPathPreserved(n, 0, ["wan1", "wan2"], sets, "", Uplinks(), [], b, src, dst);
  }

  lemma OfficeChooses(n: S.Network, sets: Sets, leg: Bits, src: Bits, dst: Bits)
    requires Office(n) && sets("legs") == [leg]
    ensures Chooses(n, sets, ROUTES, if leg <= src then 0 else 1, src, dst)
  {
    assert Covers(sets("legs"), src) <==> leg <= src by {
      assert leg in sets("legs");
    }
    assert "legs" in ROUTES[0].when;
  }

  lemma OfficeFits(n: S.Network, sets: Sets, leg: Bits)
    requires Office(n) && sets("legs") == [leg]
    ensures Roomy(n, sets, ROUTES, 2)
  {
    assert Sources(n, sets, ROUTES, 0) == 0 && Sources(n, sets, ROUTES, 1) == 1;
    assert Destinations(n, ROUTES, 0) == 0 && Destinations(n, ROUTES, 1) == 0;
  }
}
