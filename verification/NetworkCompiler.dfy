/** Whole-network compilation: derive, restate, place, emit conditions, sort, validate. */
module NetworkCompiler {
  import opened Common
  import opened Schema
  import opened Compile

  // ---- healthcheck homes ---------------------------------------------------------------

  /** The branches of a path that reach a gateway, optionally one given gateway. */
  ghost function GatewayBranches(routes: seq<Branch>, gateway: Name): nat {
    if routes == [] then 0
    else
      var br := routes[|routes| - 1];
      GatewayBranches(routes[..|routes| - 1], gateway)
      + if br.gateway == "" || (gateway != "" && br.gateway != gateway) then 0 else 1
  }

  ghost function PathNamed(paths: seq<Path>, name: Name): Option<Path> {
    if paths == [] then None else if paths[0].name == name then Some(paths[0]) else PathNamed(paths[1..], name)
  }

  /** The node a healthcheck probes from: the origin of the one gateway branch it names. */
  ghost function HealthHome(n: Network, path: Name, gateway: Name): Option<Name> {
    match PathNamed(n.paths, path)
    case None => None
    case Some(p) => if GatewayBranches(p.routes, gateway) == 1 then Some(p.node) else None
  }

  /** The branch leads to a gateway, and to the given one if one is given. */
  predicate Probed(br: Branch, gateway: Name) {
    br.gateway != "" && (gateway == "" || br.gateway == gateway)
  }

  /** Branch `b` is the only one of its path that is probed. */
  predicate OnlyProbed(routes: seq<Branch>, gateway: Name, b: nat) {
    && b < |routes| && Probed(routes[b], gateway)
    && forall c :: 0 <= c < |routes| && c != b ==> !Probed(routes[c], gateway)
  }

  lemma {:induction false} NoneProbed(routes: seq<Branch>, gateway: Name)
    ensures GatewayBranches(routes, gateway) == 0 <==> forall c :: 0 <= c < |routes| ==> !Probed(routes[c], gateway)
  {
    if routes != [] {
      NoneProbed(routes[..|routes| - 1], gateway);
    }
  }

  lemma OnlyProbedSnoc(routes: seq<Branch>, br: Branch, gateway: Name)
    ensures (exists b :: OnlyProbed(routes + [br], gateway, b))
       <==> if Probed(br, gateway) then forall c :: 0 <= c < |routes| ==> !Probed(routes[c], gateway)
            else exists b :: OnlyProbed(routes, gateway, b)
  {
    var all := routes + [br];
    assert all[|routes|] == br && forall c :: 0 <= c < |routes| ==> all[c] == routes[c];
    if b :| OnlyProbed(all, gateway, b) {
      if Probed(br, gateway) {
        forall c | 0 <= c < |routes| ensures !Probed(routes[c], gateway) {
          assert !Probed(all[c], gateway);
        }
      } else {
        assert OnlyProbed(routes, gateway, b);
      }
    }
    if Probed(br, gateway) && forall c :: 0 <= c < |routes| ==> !Probed(routes[c], gateway) {
      assert OnlyProbed(all, gateway, |routes|);
    }
    if !Probed(br, gateway) && exists b :: OnlyProbed(routes, gateway, b) {
      var b :| OnlyProbed(routes, gateway, b);
      assert OnlyProbed(all, gateway, b);
    }
  }

  lemma {:induction false} OneProbed(routes: seq<Branch>, gateway: Name)
    ensures GatewayBranches(routes, gateway) == 1 <==> exists b :: OnlyProbed(routes, gateway, b)
  {
    if routes != [] {
      var k := |routes| - 1;
      OneProbed(routes[..k], gateway);
      NoneProbed(routes[..k], gateway);
      OnlyProbedSnoc(routes[..k], routes[k], gateway);
      assert routes[..k] + [routes[k]] == routes;
    }
  }

  lemma {:induction false} FirstNamed(paths: seq<Path>, name: Name, p: nat)
    requires p < |paths| && paths[p].name == name && forall q :: 0 <= q < p ==> paths[q].name != name
    ensures PathNamed(paths, name) == Some(paths[p])
  {
    if p > 0 {
      FirstNamed(paths[1..], name, p - 1);
    }
  }

  /** A healthcheck probes from the node of the first path of its name, exactly if one branch of it leads to the
      gateway. */
  lemma HealthHomeExactly(n: Network, p: nat, gateway: Name)
    requires p < |n.paths| && forall q :: 0 <= q < p ==> n.paths[q].name != n.paths[p].name
    ensures HealthHome(n, n.paths[p].name, gateway)
         == if exists b :: OnlyProbed(n.paths[p].routes, gateway, b) then Some(n.paths[p].node) else None
  {
    FirstNamed(n.paths, n.paths[p].name, p);
    OneProbed(n.paths[p].routes, gateway);
  }

  method FindHealthHome(n: Network, path: Name, gateway: Name) returns (home: Option<Name>)
    ensures home == HealthHome(n, path, gateway)
  {
    var i := 0;
    while i < |n.paths| && n.paths[i].name != path
      invariant 0 <= i <= |n.paths|
      invariant PathNamed(n.paths, path) == PathNamed(n.paths[i..], path)
    {
      assert n.paths[i..][1..] == n.paths[i + 1..];
      i := i + 1;
    }
    if i == |n.paths| {
      return None;
    }
    var routes, found := n.paths[i].routes, 0;
    for b := 0 to |routes|
      invariant found == GatewayBranches(routes[..b], gateway)
    {
      assert routes[..b + 1][..b] == routes[..b];
      if !(routes[b].gateway == "" || (gateway != "" && routes[b].gateway != gateway)) {
        found := found + 1;
      }
    }
    assert routes[..|routes|] == routes;
    return if found == 1 then Some(n.paths[i].node) else None;
  }

  // ---- conditions ------------------------------------------------------------------------

  ghost predicate RefOk(n: Network, ref: (Name, Name)) {
    ref.1 in n.conditions ==>
      match n.conditions[ref.1]
      case Health(path, gateway) => HealthHome(n, path, gateway) == Some(ref.0)
      case _ => true
  }

  ghost predicate ConditionsOk(n: Network, refs: set<(Name, Name)>) {
    && (forall ref :: ref in refs ==> RefOk(n, ref))
    && (forall c :: c in n.conditions && n.conditions[c].Health? ==>
          HealthHome(n, n.conditions[c].path, n.conditions[c].gateway).Some?)
  }

  /** What a node is told to evaluate: what its rules name, and the probes homed on it. */
  ghost function NodeConditions(n: Network, refs: set<(Name, Name)>, node: Name): set<Name> {
    (set ref | ref in refs && ref.0 == node :: ref.1)
    + (set c | c in n.conditions && n.conditions[c].Health?
             && HealthHome(n, n.conditions[c].path, n.conditions[c].gateway) == Some(node))
  }

  // ---- node validation ---------------------------------------------------------------------

  predicate UniqueConnections(cs: seq<Connection>) {
    forall i, j :: 0 <= i < j < |cs| ==> cs[i].name != cs[j].name
  }

  predicate Named(cfg: NodeConfig, name: Name) {
    exists c :: c in cfg.connections && c.name == name
  }

  predicate RouteOk(n: Network, cfg: NodeConfig, r: Route) {
    && Named(cfg, r.target)
    && (r.source != "" ==> Named(cfg, r.source))
    && (r.egress != "" ==> r.egress in cfg.egresses && r.processed == Some(false))
    && forall c :: c in r.conditions ==>
         && c in cfg.conditions
         && !(r.processed == Some(true) && c in n.conditions && n.conditions[c].DstIn?)
  }

  predicate SrcForward(n: Network, cfg: NodeConfig, f: Forward) {
    |f.when| == 1 && f.when[0] in cfg.conditions && f.when[0] in n.conditions && n.conditions[f.when[0]].SrcIn?
  }

  predicate DstForward(n: Network, cfg: NodeConfig, f: Forward) {
    |f.when| == 1 && f.when[0] in cfg.conditions && f.when[0] in n.conditions && n.conditions[f.when[0]].DstIn?
  }

  /** A generated forwarding policy: src_in branches, then dst_in branches, then one default, each by a known
      egress. */
  predicate ForwardOk(n: Network, cfg: NodeConfig) {
    var last := |cfg.forward| - 1;
    && last >= 0 && cfg.forward[last].when == []
    && (forall i :: 0 <= i <= last ==> cfg.forward[i].egress != "" && cfg.forward[i].egress in cfg.egresses)
    && (forall i :: 0 <= i < last ==> SrcForward(n, cfg, cfg.forward[i]) || DstForward(n, cfg, cfg.forward[i]))
    && (forall i, j :: 0 <= i < j < last && DstForward(n, cfg, cfg.forward[i]) ==> DstForward(n, cfg, cfg.forward[j]))
  }

  /** The checks on a generated node that concern names, routes and conditions. */
  predicate NodeValid(n: Network, node: Name, cfg: NodeConfig)
    requires node in n.nodes
  {
    "" !in cfg.conditions &&
    if n.nodes[node].kernel then
      && cfg.connections == [] && cfg.routes == [] && ForwardOk(n, cfg)
      && forall c :: c in cfg.conditions ==> c in n.conditions && !n.conditions[c].Health?
    else
      && cfg.connections != []
      && cfg.forward == []
      && (forall c :: c in cfg.connections ==> c.name != "")
      && UniqueConnections(cfg.connections)
      && forall r :: r in cfg.routes ==> RouteOk(n, cfg, r)
  }

  // ---- the compiled network ------------------------------------------------------------------

  ghost function Rules(n: Network): seq<PendingRule>
    requires GatewaysHaveLinks(n)
  {
    var pend := Pending(n, |n.paths|);
    Qualified(n, pend, |pend|)
  }

  ghost function Refs(n: Network): set<(Name, Name)>
    requires GatewaysHaveLinks(n)
  {
    var pend := Pending(n, |n.paths|);
    OriginRefs(n, |n.paths|) + RestatedRefs(n, pend, |pend|)
  }

  ghost function Sorted(nd: NodeSpec, routes: seq<Route>): seq<Route> {
    if OriginTun(nd).Some? then TunFirst(routes, OriginTun(nd).value) else routes
  }

  ghost function CompiledNode(n: Network, node: Name): NodeConfig
    requires node in n.nodes && GatewaysHaveLinks(n)
  {
    NodeConfig(Connections(n, node), n.nodes[node].egresses, Sorted(n.nodes[node], Emitted(Rules(n), node)),
               Forwards(n, node, |n.paths|), NodeConditions(n, Refs(n), node))
  }

  ghost predicate RulesOk(n: Network)
    requires GatewaysHaveLinks(n)
  {
    var pend := Pending(n, |n.paths|);
    AllOriented(n) && AllRestateOk(n, pend, |pend|) && NoFinalizeConflict(Rules(n), |Rules(n)|)
  }

  /** Everything compilation rejects, in the order it looks. */
  ghost predicate Compilable(n: Network)
    requires Validated(n) && GatewaysHaveLinks(n)
  {
    && (forall l :: l in n.links ==> IdSetterOk(n, l))
    && RulesOk(n)
    && ConditionsOk(n, Refs(n))
    && (forall node :: node in n.nodes ==> NodeValid(n, node, CompiledNode(n, node)))
  }

  lemma InferredHasLinks(n: Network)
    requires Inferred(n)
    ensures GatewaysHaveLinks(n)
  {
    forall p, b | 0 <= p < |n.paths| && 0 <= b < |n.paths[p].routes|
      ensures n.paths[p].routes[b].gateway != "" ==> n.paths[p].routes[b].up != []
    {
      assert GatewayOf(n.paths[p].routes[b], LinkMap(n.links)) == Ok(n.paths[p].routes[b].gateway);
    }
  }

  // ---- where a pending rule comes from ---------------------------------------------------------

  /** `pr` is one of the rules of branch `b` of path `p`. */
  ghost predicate FromBranch(n: Network, p: nat, b: nat, pr: PendingRule)
    requires GatewaysHaveLinks(n)
  {
    && p < |n.paths| && Userspace(n, n.paths[p]) && b < |n.paths[p].routes|
    && pr in BranchRules(n.paths[p].node, n.paths[p].routes[b], PathTun(n, n.paths[p]), LinkMap(n.links))
  }

  lemma {:induction false} PathRuleOrigin(n: Network, p: nat, b: nat, pr: PendingRule) returns (c: nat)
    requires GatewaysHaveLinks(n)
    requires p < |n.paths| && b <= |n.paths[p].routes|
    requires pr in PathRules(n, n.paths[p], b)
    ensures c < b && FromBranch(n, p, c, pr)
  {
    if pr in PathRules(n, n.paths[p], b - 1) {
      c := PathRuleOrigin(n, p, b - 1, pr);
    } else {
      c := b - 1;
    }
  }

  lemma {:induction false} PendingOrigin(n: Network, p: nat, pr: PendingRule) returns (q: nat, c: nat)
    requires GatewaysHaveLinks(n)
    requires p <= |n.paths| && pr in Pending(n, p)
    ensures q < p && FromBranch(n, q, c, pr)
  {
    q := p - 1;
    if pr in Pending(n, q) {
      q, c := PendingOrigin(n, q, pr);
    } else {
      var path := n.paths[q];
      assert pr in PathRules(n, path, |path.routes|);
      c := PathRuleOrigin(n, q, |path.routes|, pr);
    }
  }

  ghost predicate IsUpRule(br: Branch, tun: Name, links: map<Name, Link>, pr: PendingRule, i: int) {
    br.gateway != "" && 0 <= i < |br.up| && pr == UpRule(br, tun, links, i)
  }

  ghost predicate IsDownRule(origin: Name, br: Branch, tun: Name, links: map<Name, Link>, pr: PendingRule, j: int) {
    br.gateway != "" && 0 <= j < |br.down| && pr == DownRule(origin, br, tun, links, j)
  }

  /** A branch derives its origin rule, a rule per up-link and a rule per down-link; nothing else. */
  lemma RuleKinds(origin: Name, br: Branch, tun: Name, links: map<Name, Link>, pr: PendingRule)
    requires br.gateway != "" ==> br.up != []
    ensures pr in BranchRules(origin, br, tun, links) <==>
              || pr == OriginRule(origin, br, tun)
              || (exists i :: IsUpRule(br, tun, links, pr, i))
              || (exists j :: IsDownRule(origin, br, tun, links, pr, j))
  {
    var first, up, down := [OriginRule(origin, br, tun)], UpRules(br, tun, links), DownRules(origin, br, tun, links);
    assert forall i :: 0 <= i < |br.up| ==> up[i] == UpRule(br, tun, links, i);
    assert forall j :: 0 <= j < |br.down| ==> down[j] == DownRule(origin, br, tun, links, j);
    assert pr in up <==> exists i :: 0 <= i < |br.up| && pr == UpRule(br, tun, links, i);
    assert pr in down <==> exists j :: 0 <= j < |br.down| && pr == DownRule(origin, br, tun, links, j);
    if br.gateway == "" {
      assert BranchRules(origin, br, tun, links) == first;
    } else {
      assert BranchRules(origin, br, tun, links) == first + (up + down);
      if i :| 0 <= i < |br.up| && pr == UpRule(br, tun, links, i) {
        assert IsUpRule(br, tun, links, pr, i);
      }
      if j :| 0 <= j < |br.down| && pr == DownRule(origin, br, tun, links, j) {
        assert IsDownRule(origin, br, tun, links, pr, j);
      }
    }
  }

  ghost predicate OnBranch(n: Network, p: int, b: int) {
    0 <= p < |n.paths| && Userspace(n, n.paths[p]) && 0 <= b < |n.paths[p].routes|
  }

  ghost predicate LinkKnown(n: Network, l: Name) {
    && l in LinkMap(n.links) && LinkMap(n.links)[l] in n.links && LinkMap(n.links)[l].name == l
    && TargetOf(LinkMap(n.links)[l]) in n.nodes && SenderOf(LinkMap(n.links)[l]) in n.nodes
  }

  /** What loading guarantees about one branch: its links exist and meet at its gateway. */
  ghost predicate BranchFacts(n: Network, p: int, b: int) {
    OnBranch(n, p, b) &&
    var br, links := n.paths[p].routes[b], LinkMap(n.links);
    && (forall l :: l in br.up ==> LinkKnown(n, l))
    && (forall l :: l in br.down ==> LinkKnown(n, l))
    && br.egress != ""
    && (br.gateway == "" ==> br.up == [])
    && (br.gateway != "" ==>
          && br.up != [] && br.gateway == TargetOf(Lk(links, br.up[|br.up| - 1]))
          && (br.down != [] ==> SenderOf(Lk(links, br.down[0])) == br.gateway))
  }

  lemma BranchLinksKnown(n: Network, p: int, b: int)
    requires Validated(n) && OnBranch(n, p, b)
    ensures BranchFacts(n, p, b)
  {
    var br := n.paths[p].routes[b];
    assert UserspaceBranchOk(n, br);
    forall l | l in LinkMap(n.links) ensures LinkKnown(n, l) {
      MappedLinkKnown(n, l);
    }
    assert forall l :: l in br.up || l in br.down ==> l in br.up + br.down;
    assert GatewayOf(br, LinkMap(n.links)) == Ok(br.gateway);
  }

  lemma MappedLinkKnown(n: Network, l: Name)
    requires Validated(n) && l in LinkMap(n.links)
    ensures LinkKnown(n, l)
  {
    LinkMapExact(n.links);
  }

  lemma BranchNodesKnown(n: Network, p: nat, b: nat, pr: PendingRule)
    requires GatewaysHaveLinks(n) && BranchFacts(n, p, b) && FromBranch(n, p, b, pr)
    ensures pr.node in n.nodes
  {
    var path, links := n.paths[p], LinkMap(n.links);
    var br, tun := path.routes[b], PathTun(n, path);
    RuleKinds(path.node, br, tun, links, pr);
    if i :| IsUpRule(br, tun, links, pr, i) {
      assert br.up[i] in br.up;
    } else if j :| IsDownRule(path.node, br, tun, links, pr, j) {
      assert br.down[j] in br.down;
    }
  }

  lemma QualifiedAt(n: Network, pend: seq<PendingRule>, k: nat, i: nat)
    requires i < k <= |pend|
    ensures Qualified(n, pend, k)[i] == QualifyRule(n, pend, pend[i])
  {
  }

  ghost predicate AllFacts(n: Network) {
    forall p, b :: OnBranch(n, p, b) ==> BranchFacts(n, p, b)
  }

  lemma ValidatedFacts(n: Network)
    requires Validated(n)
    ensures AllFacts(n)
  {
    forall p, b | OnBranch(n, p, b) ensures BranchFacts(n, p, b) {
      BranchLinksKnown(n, p, b);
    }
  }

  lemma RuleNodesKnown(n: Network)
    requires GatewaysHaveLinks(n) && AllFacts(n)
    ensures forall i :: 0 <= i < |Rules(n)| ==> Rules(n)[i].node in n.nodes
  {
    var pend := Pending(n, |n.paths|);
    forall i | 0 <= i < |Rules(n)| ensures Rules(n)[i].node in n.nodes {
      QualifiedAt(n, pend, |pend|, i);
      var q, c := PendingOrigin(n, |n.paths|, pend[i]);
      BranchNodesKnown(n, q, c, pend[i]);
    }
  }

  // ---- compilation -----------------------------------------------------------------------------

  ghost predicate PathNodesKnown(n: Network) {
    forall p :: 0 <= p < |n.paths| ==> n.paths[p].node in n.nodes
  }

  method OriginConditions(n: Network) returns (refs: set<(Name, Name)>)
    ensures refs == OriginRefs(n, |n.paths|)
  {
    refs := {};
    for p := 0 to |n.paths|
      invariant refs == OriginRefs(n, p)
    {
      ghost var before := refs;
      for b := 0 to |n.paths[p].routes|
        invariant refs == before + PathRefs(n.paths[p], b)
      {
        refs := refs + RefsAt(n.paths[p].node, n.paths[p].routes[b].when);
      }
    }
  }

  method NodeForwards(n: Network, node: Name) returns (fs: seq<Forward>)
    requires PathNodesKnown(n)
    ensures fs == Forwards(n, node, |n.paths|)
  {
    fs := [];
    for p := 0 to |n.paths|
      invariant fs == Forwards(n, node, p)
    {
      var path := n.paths[p];
      if path.node == node && n.nodes[node].kernel {
        fs := fs + seq(|path.routes|,
                       b requires 0 <= b < |path.routes| => Forward(path.routes[b].when, path.routes[b].egress));
      }
    }
  }

  /** One node's configuration once its routes are placed. */
  method AssembleNode(n: Network, node: Name, routes: seq<Route>, ghost refs: set<(Name, Name)>, conditions: set<Name>)
    returns (cfg: NodeConfig)
    requires PathNodesKnown(n) && node in n.nodes && GatewaysHaveLinks(n)
    requires routes == Emitted(Rules(n), node) && conditions == NodeConditions(n, refs, node) && refs == Refs(n)
    ensures cfg == CompiledNode(n, node)
  {
    var connections := NodeConnections(n, node);
    var forward := NodeForwards(n, node);
    var tun := FindOriginTun(n.nodes[node]);
    var sorted := routes;
    if tun.Some? {
      sorted := SortTunFirst(routes, tun.value);
    }
    cfg := NodeConfig(connections, n.nodes[node].egresses, sorted, forward, conditions);
  }

  function CondsAt(refs: set<(Name, Name)>, homes: map<Name, Name>, node: Name): set<Name> {
    (set ref | ref in refs && ref.0 == node :: ref.1) + (set c | c in homes && homes[c] == node)
  }

  /** Checks every referenced condition and homes every probe. */
  method EmitConditions(n: Network, refs: set<(Name, Name)>) returns (ok: bool, homes: map<Name, Name>)
    ensures ok <==> ConditionsOk(n, refs)
    ensures ok ==> forall node :: CondsAt(refs, homes, node) == NodeConditions(n, refs, node)
  {
    homes := map[];
    var todo := n.conditions.Keys;
    while todo != {}
      invariant todo <= n.conditions.Keys
      invariant forall c :: c in homes ==> c in n.conditions && n.conditions[c].Health? && c !in todo
      invariant forall c :: c in n.conditions && n.conditions[c].Health? && c !in todo ==>
                  c in homes && Some(homes[c]) == HealthHome(n, n.conditions[c].path, n.conditions[c].gateway)
      decreases |todo|
    {
      var c :| c in todo;
      todo := todo - {c};
      if n.conditions[c].Health? {
        var home := FindHealthHome(n, n.conditions[c].path, n.conditions[c].gateway);
        if home.None? {
          return false, homes;
        }
        homes := homes[c := home.value];
      }
    }
    if ref :| ref in refs && ref.1 in homes && homes[ref.1] != ref.0 {
      assert !RefOk(n, ref);
      return false, homes;
    }
    return true, homes;
  }

  /** Derives, restates and places the rules of the whole network. */
  method PlaceRules(n: Network) returns (r: Result<map<Name, seq<Route>>, Error>, refs: set<(Name, Name)>)
    requires PathNodesKnown(n) && GatewaysHaveLinks(n)
    requires forall i :: 0 <= i < |Rules(n)| ==> Rules(n)[i].node in n.nodes
    ensures r.Ok? <==> RulesOk(n)
    ensures r.Ok? ==> r.value.Keys == n.nodes.Keys
    ensures r.Ok? ==> forall node :: node in n.nodes ==> r.value[node] == Emitted(Rules(n), node)
    ensures r.Ok? ==> refs == Refs(n)
  {
    refs := {};
    var derived := DerivePending(n);
    if derived.Err? {
      return Err(derived.error), refs;
    }
    var qualified, restated := QualifyRules(n, derived.value);
    if qualified.Err? {
      return Err(qualified.error), refs;
    }
    assert qualified.value == Rules(n);
    r := EmitRules(n.nodes.Keys, qualified.value);
    refs := OriginConditions(n);
    refs := refs + restated;
  }

  /** The final loop over the nodes. */
  method AssembleAll(n: Network, placed: map<Name, seq<Route>>, refs: set<(Name, Name)>, homes: map<Name, Name>)
    returns (out: map<Name, NodeConfig>)
    requires PathNodesKnown(n) && GatewaysHaveLinks(n) && refs == Refs(n)
    requires placed.Keys == n.nodes.Keys && forall node :: node in n.nodes ==> placed[node] == Emitted(Rules(n), node)
    requires forall node :: CondsAt(refs, homes, node) == NodeConditions(n, refs, node)
    ensures out.Keys == n.nodes.Keys && forall node :: node in n.nodes ==> out[node] == CompiledNode(n, node)
  {
    out := map[];
    var todo := n.nodes.Keys;
    while todo != {}
      invariant todo <= n.nodes.Keys
      invariant forall node :: node in n.nodes <==> node in todo || node in out
      invariant forall node :: node in out ==> out[node] == CompiledNode(n, node)
      decreases todo
    {
      var node :| node in todo;
      todo := todo - {node};
      var cfg := AssembleNode(n, node, placed[node], refs, CondsAt(refs, homes, node));
      out := out[node := cfg];
    }
  }

  /** A node whose generated configuration is not valid, if there is one. */
  method FindInvalid(n: Network, out: map<Name, NodeConfig>) returns (bad: Option<Name>)
    requires GatewaysHaveLinks(n) && out.Keys == n.nodes.Keys
    requires forall node :: node in n.nodes ==> out[node] == CompiledNode(n, node)
    ensures bad.None? <==> forall node :: node in n.nodes ==> NodeValid(n, node, CompiledNode(n, node))
  {
    if node :| node in n.nodes && !NodeValid(n, node, out[node]) {
      return Some(node);
    }
    return None;
  }

  /** Compiles a loaded network: succeeds exactly on the compilable ones, and then every node gets
      the configuration `CompiledNode` describes. */
  method CompileNetwork(n: Network) returns (r: Result<map<Name, NodeConfig>, Error>)
    requires Validated(n)
    ensures GatewaysHaveLinks(n)
    ensures r.Ok? <==> Compilable(n)
    ensures r.Ok? ==> r.value.Keys == n.nodes.Keys
    ensures r.Ok? ==> forall node :: node in n.nodes ==> r.value[node] == CompiledNode(n, node)
  {
    InferredHasLinks(n);
    if l :| l in n.links && !IdSetterOk(n, l) {
      return Err(BadIdSetter(l.name));
    }
    ValidatedFacts(n);
    RuleNodesKnown(n);
    var placed, refs := PlaceRules(n);
    if placed.Err? {
      return Err(placed.error);
    }
    var condsOk, homes := EmitConditions(n, refs);
    if !condsOk {
      return Err(BadHealthcheck(""));
    }
    var out := AssembleAll(n, placed.value, refs, homes);
    var bad := FindInvalid(n, out);
    if bad.Some? {
      return Err(InvalidConfig(bad.value));
    }
    return Ok(out);
  }
}
