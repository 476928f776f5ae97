/** Facts about every compiled row: it is oriented, closed over what its node was given, and part of a
    round trip. */
module Orientation {
  import opened Common
  import opened Schema
  import opened Compile
  import opened NetworkCompiler
  import opened Routing
  import opened Tables
  import opened Mesh
  import opened UpPath
  import opened DownPath

  // ---- every row's target can send and every row's source can receive ---------------------------

  ghost predicate RowOriented(cs: seq<Connection>, r: Route) {
    Sends(cs, r.target) && Receives(cs, r.source)
  }

  lemma SortedMembers(nd: NodeSpec, routes: seq<Route>, r: Route)
    requires r in Sorted(nd, routes)
    ensures r in routes
  {
    if OriginTun(nd).Some? {
      FilterMembers(routes, OwnTun(OriginTun(nd).value));
      FilterMembers(routes, NotOwnTun(OriginTun(nd).value));
    }
  }

  lemma OriginRowOriented(n: Network, p: nat, b: nat, pr: PendingRule)
    requires Built(n) && OriginShape(n, p, b, pr)
    ensures RowOriented(Connections(n, pr.node), pr.route)
  {
    var br := n.paths[p].routes[b];
    assert TunKnown(n, n.paths[p]) && BranchFacts(n, p, b) && PathOriented(n, n.paths[p]);
    if br.gateway != "" {
      assert Oriented(n.paths[p].node, br, LinkMap(n.links));
      assert br.up[0] in br.up;
      LinkSender(n, br.up[0]);
    }
  }

  /** Branch `b` of path `p` has a gateway and no down-links, so that its replies are to be sent to the
      origin's tun name on the gateway. */
  ghost predicate NoWayBack(n: Network, p: int, b: int) {
    OnBranch(n, p, b) && n.paths[p].routes[b].gateway != "" && n.paths[p].routes[b].down == []
  }

  ghost predicate SendsReplies(n: Network, gateway: Name, tun: Name) {
    gateway in n.nodes && Sends(Connections(n, gateway), tun)
  }

  /** Every gateway without down-links happens to send on a connection named as the origin's tun. */
  ghost predicate ReplyTargetsSend(n: Network) {
    forall p, b :: NoWayBack(n, p, b) ==> SendsReplies(n, n.paths[p].routes[b].gateway, PathTun(n, n.paths[p]))
  }

  lemma RelayRowOriented(n: Network, p: nat, b: nat, i: int, pr: PendingRule)
    requires Built(n) && ReplyTargetsSend(n) && RelayShape(n, p, b, i, pr)
    ensures pr.node in n.nodes && RowOriented(Connections(n, pr.node), pr.route)
  {
    var br := n.paths[p].routes[b];
    assert BranchFacts(n, p, b) && br.up[i] in br.up;
    LinkTarget(n, pr.route.source);
    if i + 1 < |br.up| || br.down != [] {
      UpTargetSends(n, p, b, i, pr.route.egress, pr.route.target, pr.route.source);
    } else {
      assert NoWayBack(n, p, b);
    }
  }

  lemma DerivedRowOriented(n: Network, p: nat, b: nat, pr: PendingRule)
    requires Built(n) && ReplyTargetsSend(n) && FromBranch(n, p, b, pr)
    ensures pr.node in n.nodes && RowOriented(Connections(n, pr.node), pr.route)
  {
    assert OnBranch(n, p, b) && BranchFacts(n, p, b) && TunKnown(n, n.paths[p]);
    BranchNodesKnown(n, p, b, pr);
    var s := ShapeOf(n, p, b, pr);
    match s
    case AtOrigin =>
      OriginRowOriented(n, p, b, pr);
    case Relays(i) =>
      RelayRowOriented(n, p, b, i, pr);
    case Replies(j) =>
      DownLinksChain(n, p, b, j, pr.route.source, pr.route.target);
      LinkTarget(n, pr.route.source);
    case Delivers =>
      HomeIsTarget(n, p, b, pr.route.source);
      LinkTarget(n, pr.route.source);
  }

  lemma EmittedRowOriented(n: Network, node: Name, r: Route)
    requires Built(n) && ReplyTargetsSend(n) && node in n.nodes && r in Emitted(Rules(n), node)
    ensures RowOriented(Connections(n, node), r)
  {
    EmittedSound(Rules(n), node, r);
    var k :| 0 <= k < |Rules(n)| && Rules(n)[k].node == node && Rules(n)[k].route == r;
    QualifiedAt(n, All(n), |All(n)|, k);
    var q, c := PendingOrigin(n, |n.paths|, All(n)[k]);
    DerivedRowOriented(n, q, c, All(n)[k]);
  }

  /** Every row of every node targets a connection the node sends on and names a source it receives on. */
  ghost predicate AllRowsOriented(n: Network)
    requires GatewaysHaveLinks(n)
  {
    forall node, r :: node in n.nodes && r in CompiledNode(n, node).routes
      ==> RowOriented(CompiledNode(n, node).connections, r)
  }

  lemma RowsOriented(n: Network)
    requires Validated(n) && GatewaysHaveLinks(n) && Compilable(n) && ReplyTargetsSend(n)
    ensures AllRowsOriented(n)
  {
    CompiledIsBuilt(n);
    forall node, r | node in n.nodes && r in CompiledNode(n, node).routes
      ensures RowOriented(CompiledNode(n, node).connections, r)
    {
      SortedMembers(n.nodes[node], Emitted(Rules(n), node), r);
      EmittedRowOriented(n, node, r);
    }
  }

  /** The finalize row of a gateway without down-links: it is emitted, and its target is the origin's tun. */
  lemma GatewayRow(n: Network, p: nat, b: nat) returns (r: Route)
    requires GatewaysHaveLinks(n) && AllFacts(n) && CleanNet(n) && ConditionsNamed(n) && NoWayBack(n, p, b)
    ensures r in Emitted(Rules(n), n.paths[p].routes[b].gateway) && r.target == PathTun(n, n.paths[p])
  {
    var br := n.paths[p].routes[b];
    assert BranchFacts(n, p, b);
    var pr := UpRuleDerived(n, p, b, |br.up| - 1);
    var k := PrefixHas(n, p, b, pr);
    RulesClean(n);
    EmittedComplete(Rules(n), br.gateway, k);
    r := Rules(n)[k].route;
  }

  lemma SortedKeeps(nd: NodeSpec, routes: seq<Route>, r: Route)
    requires r in routes
    ensures r in Sorted(nd, routes)
  {
    if OriginTun(nd).Some? {
      FilterMembers(routes, OwnTun(OriginTun(nd).value));
      FilterMembers(routes, NotOwnTun(OriginTun(nd).value));
    }
  }

  lemma OrientedSendsReplies(n: Network, p: nat, b: nat)
    requires GatewaysHaveLinks(n) && AllFacts(n) && CleanNet(n) && ConditionsNamed(n)
    requires AllRowsOriented(n) && NoWayBack(n, p, b)
    ensures SendsReplies(n, n.paths[p].routes[b].gateway, PathTun(n, n.paths[p]))
  {
    var br := n.paths[p].routes[b];
    var r := GatewayRow(n, p, b);
    assert BranchFacts(n, p, b) && br.up[|br.up| - 1] in br.up;
    SortedKeeps(n.nodes[br.gateway], Emitted(Rules(n), br.gateway), r);
    assert RowOriented(CompiledNode(n, br.gateway).connections, r);
  }

  /** Where compiling succeeds, the rows are oriented exactly if no gateway is left with a reply target it
      cannot send on. */
  lemma OrientedExactly(n: Network)
    requires Validated(n) && GatewaysHaveLinks(n) && Compilable(n) && CleanNet(n)
    ensures AllRowsOriented(n) <==> ReplyTargetsSend(n)
  {
    CompiledIsBuilt(n);
    if ReplyTargetsSend(n) {
      RowsOriented(n);
    }
    forall p, b | AllRowsOriented(n) && NoWayBack(n, p, b)
      ensures SendsReplies(n, n.paths[p].routes[b].gateway, PathTun(n, n.paths[p]))
    {
      OrientedSendsReplies(n, p, b);
    }
  }

  // ---- every condition a row names is shipped to its node ----------------------------------------

  lemma {:induction false} RestatedRefsHas(n: Network, pend: seq<PendingRule>, i: nat, k: nat, c: Name)
    requires i < k <= |pend| && Diverges(pend, pend[i]) && c in Restate(n, pend[i].when)
    ensures (pend[i].node, c) in RestatedRefs(n, pend, k)
  {
    if i < k - 1 {
      RestatedRefsHas(n, pend, i, k - 1, c);
    }
  }

  ghost predicate BranchNames(n: Network, node: Name, c: Name) {
    exists p, b :: 0 <= p < |n.paths| && n.paths[p].node == node && 0 <= b < |n.paths[p].routes|
                && c in n.paths[p].routes[b].when
  }

  ghost predicate RuleNames(n: Network, node: Name, c: Name)
    requires GatewaysHaveLinks(n)
  {
    exists k :: 0 <= k < |Rules(n)| && Rules(n)[k].node == node && c in Rules(n)[k].route.conditions
  }

  ghost predicate ProbedFrom(n: Network, node: Name, c: Name) {
    && c in n.conditions && n.conditions[c].Health?
    && HealthHome(n, n.conditions[c].path, n.conditions[c].gateway) == Some(node)
  }

  lemma {:induction false} PathRefsFrom(p: Path, k: nat, node: Name, c: Name) returns (b: nat)
    requires k <= |p.routes| && (node, c) in PathRefs(p, k)
    ensures node == p.node && b < k && c in p.routes[b].when
  {
    b := k - 1;
    if (node, c) in PathRefs(p, k - 1) {
      b := PathRefsFrom(p, k - 1, node, c);
    }
  }

  lemma {:induction false} OriginRefsFrom(n: Network, k: nat, node: Name, c: Name)
    requires k <= |n.paths| && (node, c) in OriginRefs(n, k)
    ensures BranchNames(n, node, c)
  {
    if (node, c) in OriginRefs(n, k - 1) {
      OriginRefsFrom(n, k - 1, node, c);
    } else {
      var b := PathRefsFrom(n.paths[k - 1], |n.paths[k - 1].routes|, node, c);
      assert c in n.paths[k - 1].routes[b].when;
    }
  }

  lemma {:induction false} RestatedRefsFrom(n: Network, pend: seq<PendingRule>, k: nat, node: Name, c: Name)
    returns (i: nat)
    requires k <= |pend| && (node, c) in RestatedRefs(n, pend, k)
    ensures i < k && pend[i].node == node && c in QualifyRule(n, pend, pend[i]).route.conditions
  {
    i := k - 1;
    if (node, c) in RestatedRefs(n, pend, k - 1) {
      i := RestatedRefsFrom(n, pend, k - 1, node, c);
    }
  }

  lemma RuleConditionShipped(n: Network, node: Name, c: Name)
    requires GatewaysHaveLinks(n) && AllFacts(n) && RuleNames(n, node, c)
    ensures (node, c) in Refs(n)
  {
    var pend := All(n);
    var k :| 0 <= k < |Rules(n)| && Rules(n)[k].node == node && c in Rules(n)[k].route.conditions;
    QualifiedAt(n, pend, |pend|, k);
    var p, b := PendingOrigin(n, |n.paths|, pend[k]);
    assert OnBranch(n, p, b);
    var s := ShapeOf(n, p, b, pend[k]);
    if s.AtOrigin? {
      OriginRefsHas(n, p, b, |n.paths|, c);
    } else {
      RestatedRefsHas(n, pend, k, |pend|, c);
    }
  }

  lemma RefsExactly(n: Network, node: Name, c: Name)
    requires GatewaysHaveLinks(n) && AllFacts(n)
    ensures (node, c) in Refs(n) <==> BranchNames(n, node, c) || RuleNames(n, node, c)
  {
    var pend := All(n);
    if (node, c) in OriginRefs(n, |n.paths|) {
      OriginRefsFrom(n, |n.paths|, node, c);
    } else if (node, c) in Refs(n) {
      var i := RestatedRefsFrom(n, pend, |pend|, node, c);
      QualifiedAt(n, pend, |pend|, i);
      assert Rules(n)[i].node == node && c in Rules(n)[i].route.conditions;
    }
    if BranchNames(n, node, c) {
      var p, b :| 0 <= p < |n.paths| && n.paths[p].node == node && 0 <= b < |n.paths[p].routes|
               && c in n.paths[p].routes[b].when;
      OriginRefsHas(n, p, b, |n.paths|, c);
    }
    if RuleNames(n, node, c) {
      RuleConditionShipped(n, node, c);
    }
  }

  /** A node is given a condition exactly if a branch that starts there or a rule placed there names it, or it is a
      healthcheck probed from there. */
  lemma ConditionsExactly(n: Network, node: Name, c: Name)
    requires GatewaysHaveLinks(n) && AllFacts(n) && node in n.nodes
    ensures c in CompiledNode(n, node).conditions
       <==> BranchNames(n, node, c) || RuleNames(n, node, c) || ProbedFrom(n, node, c)
  {
    RefsExactly(n, node, c);
    assert (exists ref :: ref in Refs(n) && ref.0 == node && ref.1 == c) <==> (node, c) in Refs(n);
  }

  lemma {:induction false} RestateDst(n: Network, when: seq<Name>, c: Name)
    requires c in Restate(n, when)
    ensures c in n.conditions && n.conditions[c].DstIn?
  {
    if c !in (if when[0] in n.conditions && n.conditions[when[0]].DstIn? then [when[0]] else []) {
      RestateDst(n, when[1..], c);
    }
  }

  /** A condition a userspace node can evaluate. */
  ghost predicate Evaluable(n: Network, c: Name) {
    c in n.conditions && !n.conditions[c].SrcIn?
  }

  lemma BranchEvaluable(n: Network, node: Name, c: Name)
    requires Validated(n) && node in n.nodes && !n.nodes[node].kernel && BranchNames(n, node, c)
    ensures Evaluable(n, c)
  {
    var p, b :| 0 <= p < |n.paths| && n.paths[p].node == node && 0 <= b < |n.paths[p].routes|
             && c in n.paths[p].routes[b].when;
    assert UserspaceBranchOk(n, n.paths[p].routes[b]);
  }

  lemma RuleEvaluable(n: Network, node: Name, c: Name)
    requires Validated(n) && GatewaysHaveLinks(n) && AllFacts(n) && RuleNames(n, node, c)
    ensures Evaluable(n, c)
  {
    var pend := All(n);
    var k :| 0 <= k < |Rules(n)| && Rules(n)[k].node == node && c in Rules(n)[k].route.conditions;
    QualifiedAt(n, pend, |pend|, k);
    var p, b := PendingOrigin(n, |n.paths|, pend[k]);
    assert OnBranch(n, p, b);
    var s := ShapeOf(n, p, b, pend[k]);
    if s.AtOrigin? {
      assert UserspaceBranchOk(n, n.paths[p].routes[b]);
    } else {
      RestateDst(n, pend[k].when, c);
    }
  }

  /** Every condition given to a userspace node is one it can evaluate: known, and not about sources. */
  lemma ConditionsEvaluable(n: Network, node: Name, c: Name)
    requires Validated(n) && GatewaysHaveLinks(n) && node in n.nodes && !n.nodes[node].kernel
    requires c in CompiledNode(n, node).conditions
    ensures Evaluable(n, c)
  {
    ValidatedFacts(n);
    ConditionsExactly(n, node, c);
    if BranchNames(n, node, c) {
      BranchEvaluable(n, node, c);
    } else if RuleNames(n, node, c) {
      RuleEvaluable(n, node, c);
    }
  }

  // ---- the round trip -----------------------------------------------------------------------------

  /** The reply of a packet finalized by branch `b` reaches the tun; a local finalize replies there directly. */
  ghost predicate ReturnsHome(n: Network, w: World, t: nat, pkt: Packet, path: Path, br: Branch)
    requires GatewaysHaveLinks(n)
  {
    br.gateway != "" ==>
      && br.down != [] && br.down[0] in LinkMap(n.links)
      && exists trace :: Follows(n, w, t, TargetOf(LinkMap(n.links)[br.down[0]]), br.down[0], true, pkt, trace,
                                 path.node, Delivered(PathTun(n, path)))
  }

  lemma ChosenBranch(n: Network, w: World, t: nat, pkt: Packet, p: nat) returns (b: nat)
    requires Validated(n) && p < |n.paths| && Userspace(n, n.paths[p])
    ensures Chosen(n, w, t, pkt, n.paths[p], b)
  {
    SomeBranchChosen(n, w, t, pkt, n.paths[p]);
    b :| Chosen(n, w, t, pkt, n.paths[p], b);
  }

  /** Every packet a userspace origin emits takes the branch its switch picks, and its reply, whenever it
      is sent, comes back to the same tun. */
  lemma RoundTrip(n: Network, w: World, t: nat, replyAt: nat, pkt: Packet, p: nat) returns (b: nat)
    requires Sound(n) && GatewaysHaveLinks(n) && Compilable(n) && IdsDistinct(n, w)
    requires p < |n.paths| && Userspace(n, n.paths[p])
    requires pkt.owner == w.id(n.paths[p].node, PathTun(n, n.paths[p]))
    ensures Chosen(n, w, t, pkt, n.paths[p], b)
    ensures TakesBranch(n, w, t, pkt, n.paths[p], n.paths[p].routes[b])
    ensures ReturnsHome(n, w, replyAt, pkt, n.paths[p], n.paths[p].routes[b])
  {
    b := ChosenBranch(n, w, t, pkt, p);
    BranchTrip(n, w, t, replyAt, pkt, p, b);
  }

  lemma BranchTrip(n: Network, w: World, t: nat, replyAt: nat, pkt: Packet, p: nat, b: nat)
    requires Sound(n) && GatewaysHaveLinks(n) && Compilable(n) && IdsDistinct(n, w)
    requires OnBranch(n, p, b) && Chosen(n, w, t, pkt, n.paths[p], b)
    requires pkt.owner == w.id(n.paths[p].node, PathTun(n, n.paths[p]))
    ensures TakesBranch(n, w, t, pkt, n.paths[p], n.paths[p].routes[b])
    ensures ReturnsHome(n, w, replyAt, pkt, n.paths[p], n.paths[p].routes[b])
  {
    UpPathPreserved(n, w, t, pkt, p, b);
    if n.paths[p].routes[b].gateway != "" {
      RepliesComeHome(n, w, replyAt, pkt, p, b);
    }
  }
}
