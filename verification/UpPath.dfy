/** Compilation preserves the up-path: whatever branch the origin's switch picks, the compiled tables
    carry the packet over exactly that branch's up-links and finalize it at its gateway. */
module UpPath {
  import opened Common
  import opened Schema
  import opened Compile
  import opened NetworkCompiler
  import opened Routing
  import opened Tables
  import opened Mesh

  // ---- the derived rules up to and including one branch --------------------------------------

  ghost function All(n: Network): seq<PendingRule>
    requires GatewaysHaveLinks(n)
  {
    Pending(n, |n.paths|)
  }

  ghost function PrefixLen(n: Network, p: nat, b: nat): nat
    requires GatewaysHaveLinks(n) && OnBranch(n, p, b)
  {
    |Pending(n, p)| + |PathRules(n, n.paths[p], b + 1)|
  }

  lemma {:induction false} PendingGrows(n: Network, p: nat, q: nat)
    requires GatewaysHaveLinks(n) && p <= q <= |n.paths|
    ensures Pending(n, p) <= Pending(n, q)
  {
    if p < q {
      PendingGrows(n, p, q - 1);
    }
  }

  lemma {:induction false} PathRulesGrow(n: Network, p: Path, b: nat, c: nat)
    requires b <= c <= |p.routes| && Userspace(n, p)
    requires forall k :: 0 <= k < |p.routes| ==> (p.routes[k].gateway != "" ==> p.routes[k].up != [])
    ensures PathRules(n, p, b) <= PathRules(n, p, c)
  {
    if b < c {
      PathRulesGrow(n, p, b, c - 1);
    }
  }

  lemma PrefixShape(n: Network, p: nat, b: nat)
    requires GatewaysHaveLinks(n) && OnBranch(n, p, b)
    ensures Pending(n, p) + PathRules(n, n.paths[p], b + 1) <= All(n)
    ensures PrefixLen(n, p, b) <= |All(n)|
  {
    PathRulesGrow(n, n.paths[p], b + 1, |n.paths[p].routes|);
    PendingGrows(n, p + 1, |n.paths|);
  }

  lemma PrefixMember(n: Network, p: nat, b: nat, k: nat)
    requires GatewaysHaveLinks(n) && OnBranch(n, p, b) && k < PrefixLen(n, p, b) <= |All(n)|
    ensures All(n)[k] in Pending(n, p) || All(n)[k] in PathRules(n, n.paths[p], b + 1)
  {
    PrefixShape(n, p, b);
    var before, mine := Pending(n, p), PathRules(n, n.paths[p], b + 1);
    assert All(n)[k] == (before + mine)[k];
  }

  /** A rule of the prefix comes from an earlier path, or from this path no later than `b`. */
  lemma PrefixOrigin(n: Network, p: nat, b: nat, pr: PendingRule) returns (q: nat, c: nat)
    requires GatewaysHaveLinks(n) && OnBranch(n, p, b)
    requires pr in Pending(n, p) || pr in PathRules(n, n.paths[p], b + 1)
    ensures FromBranch(n, q, c, pr) && (q < p || (q == p && c <= b))
  {
    if pr in Pending(n, p) {
      q, c := PendingOrigin(n, p, pr);
    } else {
      q := p;
      c := PathRuleOrigin(n, p, b + 1, pr);
    }
  }

  lemma PrefixHas(n: Network, p: nat, b: nat, pr: PendingRule) returns (k: nat)
    requires GatewaysHaveLinks(n) && FromBranch(n, p, b, pr)
    ensures OnBranch(n, p, b)
    ensures k < PrefixLen(n, p, b) <= |All(n)| && All(n)[k] == pr
  {
    PrefixShape(n, p, b);
    var before, mine := Pending(n, p), PathRules(n, n.paths[p], b + 1);
    assert pr in mine;
    var i :| 0 <= i < |mine| && mine[i] == pr;
    k := |before| + i;
    assert All(n)[k] == (before + mine)[k];
  }

  // ---- the four shapes of a derived rule ---------------------------------------------------------

  ghost predicate RelayShape(n: Network, p: int, b: int, i: int, pr: PendingRule) {
    && UpHop(n, p, b, i, pr.route.source, pr.route.egress, pr.route.target)
    && pr.relay && pr.when == n.paths[p].routes[b].when
    && pr.route.processed == Some(false) && pr.route.conditions == []
    && pr.node == TargetOf(Lk(LinkMap(n.links), pr.route.source))
  }

  ghost predicate ReplyShape(n: Network, p: int, b: int, j: int, pr: PendingRule) {
    && DownHop(n, p, b, j, pr.route.source, pr.route.target)
    && !pr.relay && pr.when == []
    && pr.route.processed == Some(true) && pr.route.conditions == [] && pr.route.egress == ""
    && pr.node == TargetOf(Lk(LinkMap(n.links), pr.route.source))
  }

  ghost predicate DeliverShape(n: Network, p: int, b: int, pr: PendingRule) {
    OnBranch(n, p, b) &&
    var br := n.paths[p].routes[b];
    && br.gateway != "" && br.down != []
    && pr == PendingRule(n.paths[p].node, Route(Some(true), br.down[|br.down| - 1], [], "", PathTun(n, n.paths[p])),
                         false, [])
  }

  ghost predicate OriginShape(n: Network, p: int, b: int, pr: PendingRule)
    requires GatewaysHaveLinks(n)
  {
    OnBranch(n, p, b) && pr == OriginRule(n.paths[p].node, n.paths[p].routes[b], PathTun(n, n.paths[p]))
  }

  /** Which of its branch's rules a rule is. */
  datatype Shape = AtOrigin | Relays(i: int) | Replies(j: int) | Delivers

  ghost predicate HasShape(n: Network, p: int, b: int, s: Shape, pr: PendingRule)
    requires GatewaysHaveLinks(n)
  {
    match s
    case AtOrigin => OriginShape(n, p, b, pr)
    case Relays(i) => RelayShape(n, p, b, i, pr)
    case Replies(j) => ReplyShape(n, p, b, j, pr)
    case Delivers => DeliverShape(n, p, b, pr)
  }

  lemma UpRuleShape(n: Network, p: nat, b: nat, i: int, pr: PendingRule)
    requires BranchFacts(n, p, b)
    requires IsUpRule(n.paths[p].routes[b], PathTun(n, n.paths[p]), LinkMap(n.links), pr, i)
    ensures RelayShape(n, p, b, i, pr)
  {
  }

  lemma DownRuleShape(n: Network, p: nat, b: nat, j: int, pr: PendingRule)
    requires BranchFacts(n, p, b)
    requires IsDownRule(n.paths[p].node, n.paths[p].routes[b], PathTun(n, n.paths[p]), LinkMap(n.links), pr, j)
    ensures if j + 1 < |n.paths[p].routes[b].down| then ReplyShape(n, p, b, j, pr) else DeliverShape(n, p, b, pr)
  {
  }

  lemma ShapeOf(n: Network, p: nat, b: nat, pr: PendingRule) returns (s: Shape)
    requires GatewaysHaveLinks(n) && BranchFacts(n, p, b) && FromBranch(n, p, b, pr)
    ensures HasShape(n, p, b, s, pr)
  {
    var path, links := n.paths[p], LinkMap(n.links);
    var br, tun := path.routes[b], PathTun(n, path);
    RuleKinds(path.node, br, tun, links, pr);
    if i :| IsUpRule(br, tun, links, pr, i) {
      UpRuleShape(n, p, b, i, pr);
      s := Relays(i);
    } else if j :| IsDownRule(path.node, br, tun, links, pr, j) {
      DownRuleShape(n, p, b, j, pr);
      s := if j + 1 < |br.down| then Replies(j) else Delivers;
    } else {
      s := AtOrigin;
    }
  }

  /** Conversely, every hop of a branch has its rule. */
  lemma UpRuleDerived(n: Network, p: nat, b: nat, i: nat) returns (pr: PendingRule)
    requires GatewaysHaveLinks(n) && BranchFacts(n, p, b)
    requires n.paths[p].routes[b].gateway != "" && i < |n.paths[p].routes[b].up|
    ensures FromBranch(n, p, b, pr) && RelayShape(n, p, b, i, pr) && pr.route.source == n.paths[p].routes[b].up[i]
  {
    pr := UpRule(n.paths[p].routes[b], PathTun(n, n.paths[p]), LinkMap(n.links), i);
    assert IsUpRule(n.paths[p].routes[b], PathTun(n, n.paths[p]), LinkMap(n.links), pr, i);
    RuleKinds(n.paths[p].node, n.paths[p].routes[b], PathTun(n, n.paths[p]), LinkMap(n.links), pr);
    UpRuleShape(n, p, b, i, pr);
  }

  lemma DownRuleDerived(n: Network, p: nat, b: nat, j: nat) returns (pr: PendingRule)
    requires GatewaysHaveLinks(n) && BranchFacts(n, p, b)
    requires n.paths[p].routes[b].gateway != "" && j < |n.paths[p].routes[b].down|
    ensures FromBranch(n, p, b, pr) && pr.route.source == n.paths[p].routes[b].down[j]
    ensures if j + 1 < |n.paths[p].routes[b].down| then ReplyShape(n, p, b, j, pr) else DeliverShape(n, p, b, pr)
  {
    pr := DownRule(n.paths[p].node, n.paths[p].routes[b], PathTun(n, n.paths[p]), LinkMap(n.links), j);
    assert IsDownRule(n.paths[p].node, n.paths[p].routes[b], PathTun(n, n.paths[p]), LinkMap(n.links), pr, j);
    RuleKinds(n.paths[p].node, n.paths[p].routes[b], PathTun(n, n.paths[p]), LinkMap(n.links), pr);
    DownRuleShape(n, p, b, j, pr);
  }

  // ---- conditions have names ------------------------------------------------------------------------

  ghost predicate ConditionsNamed(n: Network) {
    forall p, b, c :: OnBranch(n, p, b) && c in n.paths[p].routes[b].when ==> c != ""
  }

  lemma {:induction false} PathRefsHas(p: Path, b: nat, k: nat, c: Name)
    requires b < k <= |p.routes| && c in p.routes[b].when
    ensures (p.node, c) in PathRefs(p, k)
  {
    if b < k - 1 {
      PathRefsHas(p, b, k - 1, c);
    }
  }

  lemma {:induction false} OriginRefsHas(n: Network, p: nat, b: nat, k: nat, c: Name)
    requires p < k <= |n.paths| && b < |n.paths[p].routes| && c in n.paths[p].routes[b].when
    ensures (n.paths[p].node, c) in OriginRefs(n, k)
  {
    if p < k - 1 {
      OriginRefsHas(n, p, b, k - 1, c);
    } else {
      PathRefsHas(n.paths[p], b, |n.paths[p].routes|, c);
    }
  }

  /** A branch's conditions are shipped to its origin, and no node accepts one without a name. */
  lemma CompiledNamed(n: Network)
    requires Validated(n) && GatewaysHaveLinks(n) && Compilable(n)
    ensures ConditionsNamed(n)
  {
    forall p, b, c | OnBranch(n, p, b) && c in n.paths[p].routes[b].when ensures c != "" {
      OriginRefsHas(n, p, b, |n.paths|, c);
      ShippedNamed(n, n.paths[p].node, c);
    }
  }

  lemma ShippedNamed(n: Network, node: Name, c: Name)
    requires Validated(n) && GatewaysHaveLinks(n) && Compilable(n) && node in n.nodes && (node, c) in Refs(n)
    ensures c != ""
  {
    assert NodeValid(n, node, CompiledNode(n, node));
    assert c in NodeConditions(n, Refs(n), node);
  }

  // ---- cleanliness of all rules ---------------------------------------------------------------------

  ghost predicate CleanRule(pr: PendingRule) {
    CleanRoute(pr.route) && |pr.when| <= 1 && forall c :: c in pr.when ==> c != "" && Clean(c)
  }

  lemma BranchRuleClean(n: Network, p: nat, b: nat, pr: PendingRule)
    requires GatewaysHaveLinks(n) && BranchFacts(n, p, b) && FromBranch(n, p, b, pr) && CleanNet(n)
    requires ConditionsNamed(n)
    ensures CleanRule(pr)
  {
    var s := ShapeOf(n, p, b, pr);
    BranchLinksClean(n, p, b);
    BranchNamesClean(n, p, b);
    ShapeClean(n, p, b, s, pr);
  }

  lemma BranchNamesClean(n: Network, p: nat, b: nat)
    requires OnBranch(n, p, b) && CleanNet(n) && ConditionsNamed(n)
    ensures NamesClean(n, p, b)
  {
    assert CleanBranch(n.paths[p].routes[b]);
  }

  ghost predicate NamesClean(n: Network, p: int, b: int) {
    OnBranch(n, p, b) &&
    var br := n.paths[p].routes[b];
    && |br.when| <= 1 && Clean(br.egress) && Clean(PathTun(n, n.paths[p]))
    && forall c :: c in br.when ==> c != "" && Clean(c)
  }

  ghost predicate LinksClean(n: Network, p: int, b: int) {
    OnBranch(n, p, b) &&
    var br := n.paths[p].routes[b];
    (forall l :: l in br.up ==> Clean(l)) && (forall l :: l in br.down ==> Clean(l))
  }

  lemma ShapeClean(n: Network, p: nat, b: nat, s: Shape, pr: PendingRule)
    requires GatewaysHaveLinks(n) && HasShape(n, p, b, s, pr) && LinksClean(n, p, b) && NamesClean(n, p, b)
    ensures CleanRule(pr)
  {
    var br := n.paths[p].routes[b];
    assert Clean("");
    match s
    case AtOrigin =>
      assert br.gateway != "" ==> br.up[0] in br.up;
    case Relays(i) =>
      assert br.up[i] in br.up && (i + 1 < |br.up| ==> br.up[i + 1] in br.up);
      assert br.down != [] ==> br.down[0] in br.down;
    case Replies(j) =>
      assert br.down[j] in br.down && br.down[j + 1] in br.down;
    case Delivers =>
      assert br.down[|br.down| - 1] in br.down;
  }

  lemma BranchLinksClean(n: Network, p: nat, b: nat)
    requires BranchFacts(n, p, b) && CleanNet(n)
    ensures LinksClean(n, p, b)
  {
    forall l | l in n.paths[p].routes[b].up || l in n.paths[p].routes[b].down ensures Clean(l) {
      assert LinkKnown(n, l);
    }
  }

  lemma RestateShort(n: Network, when: seq<Name>)
    requires |when| <= 1
    ensures Restate(n, when)
         == if |when| == 1 && when[0] in n.conditions && n.conditions[when[0]].DstIn? then when else []
  {
    if |when| == 1 {
      assert when[1..] == [];
      assert when == [when[0]];
    }
  }

  lemma RulesClean(n: Network)
    requires GatewaysHaveLinks(n) && AllFacts(n) && CleanNet(n) && ConditionsNamed(n)
    ensures |Rules(n)| == |All(n)|
    ensures forall k :: 0 <= k < |All(n)| ==> CleanRule(All(n)[k]) && Rules(n)[k] == QualifyRule(n, All(n), All(n)[k])
    ensures forall k :: 0 <= k < |Rules(n)| ==> CleanRoute(Rules(n)[k].route)
  {
    forall k | 0 <= k < |All(n)|
      ensures CleanRule(All(n)[k]) && Rules(n)[k] == QualifyRule(n, All(n), All(n)[k]) && CleanRoute(Rules(n)[k].route)
    {
      QualifiedAt(n, All(n), |All(n)|, k);
      var q, c := PendingOrigin(n, |n.paths|, All(n)[k]);
      BranchRuleClean(n, q, c, All(n)[k]);
      RestateShort(n, All(n)[k].when);
    }
  }

  // ---- divergence ------------------------------------------------------------------------------------

  lemma TwoMembers<T>(s: set<T>, x: T, y: T)
    requires x in s && y in s && x != y
    ensures |s| >= 2
  {
    assert |s| == |s - {x}| + 1;
    assert y in s - {x};
  }

  /** Two rules that arrive alike but act differently make the arrival a divergence. */
  lemma DifferentActionsDiverge(pend: seq<PendingRule>, i: nat, j: nat)
    requires i < |pend| && j < |pend| && pend[i].relay && pend[j].relay
    requires pend[i].node == pend[j].node && pend[i].route.source == pend[j].route.source
    requires ARROW !in pend[i].route.egress && ARROW !in pend[j].route.egress
    requires pend[i].route.egress != pend[j].route.egress || pend[i].route.target != pend[j].route.target
    ensures Diverges(pend, pend[i])
  {
    var at := Arrival(pend[i]);
    assert Arrival(pend[j]) == at;
    var x, y := ActionKey(pend[i].route), ActionKey(pend[j].route);
    if x == y {
      ActionKeyInjective(pend[i].route, pend[j].route);
    }
    TwoMembers(Actions(pend, at), x, y);
  }

  lemma RestateOkAt(n: Network, pend: seq<PendingRule>, k: nat, i: nat)
    requires i < k <= |pend| && AllRestateOk(n, pend, k)
    ensures RestateOk(n, pend, i)
  {
  }

  /** A diverging rule of a branch that did not hold at the origin is guarded by a condition that
      fails wherever and whenever it is evaluated again. */
  lemma GuardRejects(n: Network, w: World, t: nat, later: nat, pkt: Packet, pend: seq<PendingRule>, i: nat)
    requires i < |pend| && Diverges(pend, pend[i]) && RestateOk(n, pend, i) && |pend[i].when| <= 1
    requires !AllHold(n, w, t, pkt, pend[i].when)
    ensures exists c :: c in QualifyRule(n, pend, pend[i]).route.conditions && !Holds(n, w, later, pkt, c)
  {
    var when := pend[i].when;
    RestateShort(n, when);
    var c :| c in when && !Holds(n, w, t, pkt, c);
    assert c == when[0];
    assert c in QualifyRule(n, pend, pend[i]).route.conditions;
  }

  /** A rule of the branch that did hold at the origin passes wherever and whenever it is evaluated. */
  lemma GuardPasses(n: Network, w: World, t: nat, later: nat, pkt: Packet, pend: seq<PendingRule>, pr: PendingRule)
    requires |pr.when| <= 1 && pr.route.conditions == []
    requires AllHold(n, w, t, pkt, pr.when)
    ensures forall c :: c in QualifyRule(n, pend, pr).route.conditions ==> Holds(n, w, later, pkt, c)
  {
    RestateShort(n, pr.when);
  }

  // ---- one hop of the up-path --------------------------------------------------------------------------

  /** What loading and compiling guarantee, whatever the names and links. */
  ghost predicate Built(n: Network) {
    && GatewaysHaveLinks(n) && AllFacts(n) && AllOriented(n) && ConditionsNamed(n)
    && (forall i :: 0 <= i < |All(n)| ==> RestateOk(n, All(n), i))
    && (forall node :: node in n.nodes && !n.nodes[node].kernel ==> NamesUnique(Connections(n, node)))
    && (forall l :: l in n.links ==> l.name != "" && l.dialer in n.nodes && l.acceptor in n.nodes)
    && (forall l :: l in n.links ==> !n.nodes[l.dialer].kernel && !n.nodes[l.acceptor].kernel)
    && (forall p, q :: 0 <= p < q < |n.paths| ==> n.paths[p].node != n.paths[q].node)
    && (forall p :: 0 <= p < |n.paths| && Userspace(n, n.paths[p]) ==> TunKnown(n, n.paths[p]))
  }

  /** What the theorems use of a compiled network with clean names. */
  ghost predicate Ready(n: Network) {
    Built(n) && CleanNet(n)
  }

  ghost predicate TunKnown(n: Network, p: Path) {
    && p.node in n.nodes && OriginTun(n.nodes[p.node]) == Some(PathTun(n, p))
    && TunNamed(Connections(n, p.node), PathTun(n, p)) && PathTun(n, p) != ""
  }

  lemma CompiledIsBuilt(n: Network)
    requires Validated(n) && GatewaysHaveLinks(n) && Compilable(n)
    ensures Built(n)
  {
    ValidatedFacts(n);
    CompiledNamed(n);
    forall i | 0 <= i < |All(n)| ensures RestateOk(n, All(n), i) {
      RestateOkAt(n, All(n), |All(n)|, i);
    }
    forall node | node in n.nodes && !n.nodes[node].kernel ensures NamesUnique(Connections(n, node)) {
      CompiledNamesUnique(n, node);
    }
    forall p | 0 <= p < |n.paths| && Userspace(n, n.paths[p]) ensures TunKnown(n, n.paths[p]) {
      PathTunEndpoint(n, p);
    }
  }

  /** Where a link delivers: a userspace node that does not take the link for a tun. */
  lemma LinkTarget(n: Network, l: Name)
    requires Built(n) && LinkKnown(n, l)
    ensures var node := TargetOf(LinkMap(n.links)[l]);
            l != "" && !n.nodes[node].kernel && Receives(Connections(n, node), l) && !TunNamed(Connections(n, node), l)
  {
    var link := LinkMap(n.links)[l];
    LinkEndpoint(n, TargetOf(link), link);
  }

  lemma LinkSender(n: Network, l: Name)
    requires Built(n) && LinkKnown(n, l)
    ensures var node := SenderOf(LinkMap(n.links)[l]);
            !n.nodes[node].kernel && Sends(Connections(n, node), l) && !TunNamed(Connections(n, node), l)
  {
    var link := LinkMap(n.links)[l];
    LinkEndpoint(n, SenderOf(link), link);
  }

  /** An unprocessed rule that applies to arrivals over a link is a relay rule of that link. */
  lemma ArrivalIsRelay(n: Network, q: nat, c: nat, pr: PendingRule, l: Name) returns (j: int)
    requires Ready(n) && FromBranch(n, q, c, pr) && LinkKnown(n, l)
    requires pr.node == TargetOf(LinkMap(n.links)[l])
    requires pr.route.processed == Some(false) && (pr.route.source == "" || pr.route.source == l)
    ensures RelayShape(n, q, c, j, pr) && pr.route.source == l
  {
    assert OnBranch(n, q, c) && BranchFacts(n, q, c) && TunKnown(n, n.paths[q]);
    LinkTarget(n, l);
    var s := ShapeOf(n, q, c, pr);
    j := s.i;
    var br := n.paths[q].routes[c];
    assert br.up[j] in br.up;
    LinkTarget(n, br.up[j]);
  }

  lemma SameHop(n: Network, p: int, b: int, i: int, j: int, l: Name, e1: Name, t1: Name, e2: Name, t2: Name)
    requires UpHop(n, p, b, i, l, e1, t1) && UpHop(n, p, b, j, l, e2, t2) && Distinct(n.paths[p].routes[b].up)
    ensures e1 == e2 && t1 == t2
  {
    assert i == j;
  }

  lemma OtherPathHop(n: Network, p: int, b: int, i: int, q: int, c: int, j: int, l: Name, e1: Name, t1: Name, e2: Name,
                     t2: Name)
    requires UpClear(n, p, b) && q < p && UpHop(n, p, b, i, l, e1, t1) && UpHop(n, q, c, j, l, e2, t2)
    ensures e1 == e2 && t1 == t2
  {
  }

  /** A rule of an earlier branch that did not hold only passes its guards if it acts alike. */
  lemma EarlierRival(n: Network, w: World, t: nat, later: nat, pkt: Packet, pend: seq<PendingRule>, k: nat, m: nat)
    requires k < |pend| && m < |pend| && pend[k].relay && pend[m].relay
    requires pend[k].node == pend[m].node && pend[k].route.source == pend[m].route.source
    requires ARROW !in pend[k].route.egress && ARROW !in pend[m].route.egress
    requires CleanRule(pend[k]) && CleanRule(pend[m]) && RestateOk(n, pend, k)
    requires !AllHold(n, w, t, pkt, pend[k].when)
    requires forall c :: c in QualifyRule(n, pend, pend[k]).route.conditions ==> Holds(n, w, later, pkt, c)
    ensures pend[k].route.egress == pend[m].route.egress && pend[k].route.target == pend[m].route.target
  {
    if pend[k].route.egress != pend[m].route.egress || pend[k].route.target != pend[m].route.target {
      DifferentActionsDiverge(pend, k, m);
      GuardRejects(n, w, t, later, pkt, pend, k);
    }
  }

  /** Any rule that could compete for a packet of the chosen branch acts as the branch does. */
  lemma UpRival(n: Network, w: World, t: nat, later: nat, pkt: Packet, p: nat, b: nat, i: nat, l: Name,
                q: nat, c: nat, k: nat, m: nat)
    requires Ready(n) && UpClear(n, p, b) && LinkKnown(n, l)
    requires k < |All(n)| && m < |All(n)| && FromBranch(n, q, c, All(n)[k]) && (q < p || (q == p && c <= b))
    requires RelayShape(n, p, b, i, All(n)[m]) && All(n)[m].route.source == l
    requires Chosen(n, w, t, pkt, n.paths[p], b)
    requires CleanRule(All(n)[k]) && CleanRule(All(n)[m])
    requires All(n)[k].node == TargetOf(LinkMap(n.links)[l])
    requires All(n)[k].route.processed == Some(false) && (All(n)[k].route.source == "" || All(n)[k].route.source == l)
    requires forall x :: x in QualifyRule(n, All(n), All(n)[k]).route.conditions ==> Holds(n, w, later, pkt, x)
    ensures All(n)[k].route.egress == All(n)[m].route.egress && All(n)[k].route.target == All(n)[m].route.target
  {
    var pr, mine := All(n)[k].route, All(n)[m].route;
    var j := ArrivalIsRelay(n, q, c, All(n)[k], l);
    if q != p {
      OtherPathHop(n, p, b, i, q, c, j, l, mine.egress, mine.target, pr.egress, pr.target);
    } else if c == b {
      SameHop(n, p, b, i, j, l, mine.egress, mine.target, pr.egress, pr.target);
    } else {
      assert ARROW !in n.paths[p].routes[c].egress && ARROW !in n.paths[p].routes[b].egress;
      EarlierRival(n, w, t, later, pkt, All(n), k, m);
    }
  }

  /** Unprocessed packets are matched against the rules in derivation order. */
  lemma UnprocessedSelect(n: Network, node: Name, source: Name, o: Oracle)
    requires GatewaysHaveLinks(n) && node in n.nodes
    ensures Select(CompiledNode(n, node).routes, source, false, o)
         == First(Emitted(Rules(n), node), Eligibility(source, false, o))
  {
    var routes := Emitted(Rules(n), node);
    if OriginTun(n.nodes[node]).Some? {
      SortInvisible(routes, OriginTun(n.nodes[node]).value, Eligibility(source, false, o));
    }
  }

  lemma UpLinksChain(n: Network, p: nat, b: nat, i: nat, egress: Name, target: Name, l: Name)
    requires BranchFacts(n, p, b) && UpHop(n, p, b, i, l, egress, target)
    requires i + 1 < |n.paths[p].routes[b].up| || n.paths[p].routes[b].down != []
    requires Oriented(n.paths[p].node, n.paths[p].routes[b], LinkMap(n.links))
    ensures LinkKnown(n, l) && LinkKnown(n, target)
    ensures SenderOf(LinkMap(n.links)[target]) == TargetOf(LinkMap(n.links)[l])
  {
    var br := n.paths[p].routes[b];
    assert br.up[i] in br.up;
    if i + 1 < |br.up| {
      assert br.up[i + 1] in br.up && RelayOk(br.up, LinkMap(n.links), i);
    } else {
      assert br.down[0] in br.down;
    }
  }

  /** The next stop of a branch with a way back is a link its current node sends on. */
  lemma UpTargetSends(n: Network, p: nat, b: nat, i: nat, egress: Name, target: Name, l: Name)
    requires Built(n) && UpHop(n, p, b, i, l, egress, target)
    requires i + 1 < |n.paths[p].routes[b].up| || n.paths[p].routes[b].down != []
    ensures LinkKnown(n, l) && LinkKnown(n, target)
    ensures SenderOf(LinkMap(n.links)[target]) == TargetOf(LinkMap(n.links)[l])
    ensures Sends(Connections(n, TargetOf(LinkMap(n.links)[l])), target)
    ensures !TunNamed(Connections(n, TargetOf(LinkMap(n.links)[l])), target)
  {
    assert OnBranch(n, p, b) && PathOriented(n, n.paths[p]);
    UpLinksChain(n, p, b, i, egress, target, l);
    LinkSender(n, target);
  }

  lemma UpRuleEligible(n: Network, w: World, t: nat, later: nat, pkt: Packet, p: nat, b: nat, i: nat, l: Name, m: nat)
    requires Ready(n) && m < |All(n)| && RelayShape(n, p, b, i, All(n)[m]) && All(n)[m].route.source == l
    requires Chosen(n, w, t, pkt, n.paths[p], b) && UpClear(n, p, b)
    ensures LinkKnown(n, l)
    ensures Eligible(QualifyRule(n, All(n), All(n)[m]).route, l, false,
                     OracleAt(n, w, later, TargetOf(LinkMap(n.links)[l]), pkt))
  {
    assert CleanBranch(n.paths[p].routes[b]);
    UpTargetSends(n, p, b, i, All(n)[m].route.egress, All(n)[m].route.target, l);
    GuardPasses(n, w, t, later, pkt, All(n), All(n)[m]);
  }

  /** The node a branch's up-link reaches does what the branch says, whatever the probes say by then. */
  lemma UpArrival(n: Network, w: World, t: nat, later: nat, pkt: Packet, p: nat, b: nat, i: nat)
    requires Ready(n) && UpClear(n, p, b) && Chosen(n, w, t, pkt, n.paths[p], b)
    requires n.paths[p].routes[b].gateway != "" && i < |n.paths[p].routes[b].up|
    ensures var br := n.paths[p].routes[b];
            && LinkKnown(n, br.up[i])
            && Hop(n, w, later, TargetOf(LinkMap(n.links)[br.up[i]]), br.up[i], false, pkt)
               == if i + 1 < |br.up| then Forwarded(br.up[i + 1]) else UpEnd(br)
  {
    var br := n.paths[p].routes[b];
    var l := br.up[i];
    assert BranchFacts(n, p, b);
    var pr := UpRuleDerived(n, p, b, i);
    UpTargetSends(n, p, b, i, pr.route.egress, pr.route.target, l);
    var node := TargetOf(LinkMap(n.links)[l]);
    var o := OracleAt(n, w, later, node, pkt);
    UpWalk(n, w, t, later, pkt, p, b, i, l, pr);
    UnprocessedSelect(n, node, l, o);
  }

  ghost function UpEnd(br: Branch): Verdict {
    Finalized(br.egress, if br.down != [] then br.down[0] else "")
  }

  lemma UpWalk(n: Network, w: World, t: nat, later: nat, pkt: Packet, p: nat, b: nat, i: nat, l: Name, pr: PendingRule)
    requires Ready(n) && UpClear(n, p, b) && Chosen(n, w, t, pkt, n.paths[p], b) && LinkKnown(n, l)
    requires FromBranch(n, p, b, pr) && RelayShape(n, p, b, i, pr) && pr.route.source == l
    ensures var node := TargetOf(LinkMap(n.links)[l]);
            var r := First(Emitted(Rules(n), node), Eligibility(l, false, OracleAt(n, w, later, node, pkt)));
            r.Some? && r.value.egress == pr.route.egress && r.value.target == pr.route.target
  {
    var node := TargetOf(LinkMap(n.links)[l]);
    var ok := Eligibility(l, false, OracleAt(n, w, later, node, pkt));
    RulesClean(n);
    var m := PrefixHas(n, p, b, pr);
    UpRuleEligible(n, w, t, later, pkt, p, b, i, l, m);
    assert Rules(n)[m].node == node && ok(Rules(n)[m].route);
    UpCompetitors(n, w, t, later, pkt, p, b, i, l, m);
    TableWalk(Rules(n), PrefixLen(n, p, b), node, ok, pr.route.egress, pr.route.target);
  }

  lemma UpCompetitors(n: Network, w: World, t: nat, later: nat, pkt: Packet, p: nat, b: nat, i: nat, l: Name, m: nat)
    requires Ready(n) && UpClear(n, p, b) && Chosen(n, w, t, pkt, n.paths[p], b) && LinkKnown(n, l)
    requires PrefixLen(n, p, b) <= |All(n)| && m < |All(n)| && |Rules(n)| == |All(n)|
    requires RelayShape(n, p, b, i, All(n)[m]) && All(n)[m].route.source == l
    requires forall k :: 0 <= k < |All(n)| ==> CleanRule(All(n)[k]) && Rules(n)[k] == QualifyRule(n, All(n), All(n)[k])
    ensures var node := TargetOf(LinkMap(n.links)[l]);
            var ok := Eligibility(l, false, OracleAt(n, w, later, node, pkt));
            forall k :: 0 <= k < PrefixLen(n, p, b) && Rules(n)[k].node == node && ok(Rules(n)[k].route) ==>
              Rules(n)[k].route.egress == All(n)[m].route.egress && Rules(n)[k].route.target == All(n)[m].route.target
  {
    var node := TargetOf(LinkMap(n.links)[l]);
    var ok := Eligibility(l, false, OracleAt(n, w, later, node, pkt));
    forall k | 0 <= k < PrefixLen(n, p, b) && Rules(n)[k].node == node && ok(Rules(n)[k].route)
      ensures Rules(n)[k].route.egress == All(n)[m].route.egress && Rules(n)[k].route.target == All(n)[m].route.target
    {
      UpCompetitor(n, w, t, later, pkt, p, b, i, l, k, m);
    }
  }

  lemma UpCompetitor(n: Network, w: World, t: nat, later: nat, pkt: Packet, p: nat, b: nat, i: nat, l: Name, k: nat,
                     m: nat)
    requires Ready(n) && UpClear(n, p, b) && Chosen(n, w, t, pkt, n.paths[p], b) && LinkKnown(n, l)
    requires k < PrefixLen(n, p, b) <= |All(n)| && m < |All(n)|
    requires RelayShape(n, p, b, i, All(n)[m]) && All(n)[m].route.source == l
    requires CleanRule(All(n)[k]) && CleanRule(All(n)[m])
    requires var node, r := TargetOf(LinkMap(n.links)[l]), QualifyRule(n, All(n), All(n)[k]);
             r.node == node && Eligible(r.route, l, false, OracleAt(n, w, later, node, pkt))
    ensures All(n)[k].route.egress == All(n)[m].route.egress && All(n)[k].route.target == All(n)[m].route.target
  {
    PrefixMember(n, p, b, k);
    var q, c := PrefixOrigin(n, p, b, All(n)[k]);
    UpRival(n, w, t, later, pkt, p, b, i, l, q, c, k, m);
  }

  // ---- leaving the origin -----------------------------------------------------------------------------

  lemma {:induction false} OriginCompetitor(n: Network, w: World, t: nat, pkt: Packet, p: nat, b: nat, k: nat)
    requires Ready(n) && OnBranch(n, p, b) && Chosen(n, w, t, pkt, n.paths[p], b)
    requires k < PrefixLen(n, p, b) <= |All(n)|
    requires var r := QualifyRule(n, All(n), All(n)[k]);
             && r.node == n.paths[p].node
             && Eligible(r.route, PathTun(n, n.paths[p]), false, OracleAt(n, w, t, n.paths[p].node, pkt))
    ensures OriginShape(n, p, b, All(n)[k])
  {
    PrefixMember(n, p, b, k);
    var pr := All(n)[k];
    var q, c := PrefixOrigin(n, p, b, pr);
    assert OnBranch(n, q, c) && BranchFacts(n, q, c) && TunKnown(n, n.paths[p]) && TunKnown(n, n.paths[q]);
    var s := ShapeOf(n, q, c, pr);
    if s.Relays? {
      var br := n.paths[q].routes[c];
      assert br.up[s.i] in br.up;
      LinkTarget(n, br.up[s.i]);
      assert false;
    }
    assert OriginShape(n, q, c, pr);
    OriginGuard(n, w, t, pkt, p, b, c, pr);
  }

  lemma OriginGuard(n: Network, w: World, t: nat, pkt: Packet, p: nat, b: nat, c: nat, pr: PendingRule)
    requires GatewaysHaveLinks(n) && OriginShape(n, p, c, pr)
    requires Chosen(n, w, t, pkt, n.paths[p], b) && c <= b
    requires forall x :: x in QualifyRule(n, All(n), pr).route.conditions ==> Holds(n, w, t, pkt, x)
    ensures c == b
  {
    assert pr.route.conditions == n.paths[p].routes[c].when;
    assert AllHold(n, w, t, pkt, n.paths[p].routes[c].when);
  }

  ghost function OriginVerdict(br: Branch, tun: Name): Verdict
    requires br.gateway != "" ==> br.up != []
  {
    if br.gateway == "" then Finalized(br.egress, tun) else Forwarded(br.up[0])
  }

  lemma OriginTargetAccepts(n: Network, w: World, pkt: Packet, p: nat, b: nat)
    requires Ready(n) && OnBranch(n, p, b) && pkt.owner == w.id(n.paths[p].node, PathTun(n, n.paths[p]))
    ensures var node, br := n.paths[p].node, n.paths[p].routes[b];
            var r := OriginRule(node, br, PathTun(n, n.paths[p])).route;
            && Accepts(Connections(n, node), w, node, r.target, pkt.owner)
            && (br.gateway != "" ==> !TunNamed(Connections(n, node), r.target))
  {
    var node, br := n.paths[p].node, n.paths[p].routes[b];
    assert BranchFacts(n, p, b) && TunKnown(n, n.paths[p]) && PathOriented(n, n.paths[p]);
    if br.gateway != "" {
      assert Oriented(node, br, LinkMap(n.links));
      assert br.up[0] in br.up;
      LinkSender(n, br.up[0]);
    }
  }

  lemma OriginHop(n: Network, w: World, t: nat, pkt: Packet, p: nat, b: nat)
    requires Ready(n) && OnBranch(n, p, b) && Chosen(n, w, t, pkt, n.paths[p], b)
    requires pkt.owner == w.id(n.paths[p].node, PathTun(n, n.paths[p]))
    ensures Hop(n, w, t, n.paths[p].node, PathTun(n, n.paths[p]), false, pkt)
         == OriginVerdict(n.paths[p].routes[b], PathTun(n, n.paths[p]))
  {
    var node, tun, br := n.paths[p].node, PathTun(n, n.paths[p]), n.paths[p].routes[b];
    var o := OracleAt(n, w, t, node, pkt);
    OriginTargetAccepts(n, w, pkt, p, b);
    OriginWalk(n, w, t, pkt, p, b);
    UnprocessedSelect(n, node, tun, o);
    assert BranchFacts(n, p, b);
  }

  lemma OriginWalk(n: Network, w: World, t: nat, pkt: Packet, p: nat, b: nat)
    requires Ready(n) && OnBranch(n, p, b) && Chosen(n, w, t, pkt, n.paths[p], b)
    requires var r := OriginRule(n.paths[p].node, n.paths[p].routes[b], PathTun(n, n.paths[p])).route;
             Accepts(Connections(n, n.paths[p].node), w, n.paths[p].node, r.target, pkt.owner)
    ensures var node, tun := n.paths[p].node, PathTun(n, n.paths[p]);
            var mine := OriginRule(node, n.paths[p].routes[b], tun).route;
            var r := First(Emitted(Rules(n), node), Eligibility(tun, false, OracleAt(n, w, t, node, pkt)));
            r.Some? && r.value.egress == mine.egress && r.value.target == mine.target
  {
    var node, tun, br := n.paths[p].node, PathTun(n, n.paths[p]), n.paths[p].routes[b];
    var pr := OriginRule(node, br, tun);
    var ok := Eligibility(tun, false, OracleAt(n, w, t, node, pkt));
    RulesClean(n);
    var m := OriginIndex(n, p, b);
    assert Rules(n)[m] == pr && ok(pr.route);
    OriginCompetitors(n, w, t, pkt, p, b);
    TableWalk(Rules(n), PrefixLen(n, p, b), node, ok, pr.route.egress, pr.route.target);
  }

  lemma OriginIndex(n: Network, p: nat, b: nat) returns (m: nat)
    requires GatewaysHaveLinks(n) && OnBranch(n, p, b)
    ensures m < PrefixLen(n, p, b) <= |All(n)|
    ensures All(n)[m] == OriginRule(n.paths[p].node, n.paths[p].routes[b], PathTun(n, n.paths[p]))
  {
    var pr := OriginRule(n.paths[p].node, n.paths[p].routes[b], PathTun(n, n.paths[p]));
    RuleKinds(n.paths[p].node, n.paths[p].routes[b], PathTun(n, n.paths[p]), LinkMap(n.links), pr);
    assert FromBranch(n, p, b, pr);
    m := PrefixHas(n, p, b, pr);
  }

  lemma OriginCompetitors(n: Network, w: World, t: nat, pkt: Packet, p: nat, b: nat)
    requires Ready(n) && OnBranch(n, p, b) && Chosen(n, w, t, pkt, n.paths[p], b)
    requires PrefixLen(n, p, b) <= |All(n)| == |Rules(n)|
    requires forall k :: 0 <= k < |All(n)| ==> Rules(n)[k] == QualifyRule(n, All(n), All(n)[k])
    ensures var node, tun := n.paths[p].node, PathTun(n, n.paths[p]);
            var ok := Eligibility(tun, false, OracleAt(n, w, t, node, pkt));
            var mine := OriginRule(node, n.paths[p].routes[b], tun).route;
            forall k :: 0 <= k < PrefixLen(n, p, b) && Rules(n)[k].node == node && ok(Rules(n)[k].route) ==>
              Rules(n)[k].route.egress == mine.egress && Rules(n)[k].route.target == mine.target
  {
    var node, tun := n.paths[p].node, PathTun(n, n.paths[p]);
    var ok := Eligibility(tun, false, OracleAt(n, w, t, node, pkt));
    var mine := OriginRule(node, n.paths[p].routes[b], tun).route;
    forall k | 0 <= k < PrefixLen(n, p, b) && Rules(n)[k].node == node && ok(Rules(n)[k].route)
      ensures Rules(n)[k].route.egress == mine.egress && Rules(n)[k].route.target == mine.target
    {
      OriginCompetitor(n, w, t, pkt, p, b, k);
    }
  }

  // ---- the whole up-path ---------------------------------------------------------------------------------

  /** Arriving over link `i` of a chain at time `s` continues the chain, or ends it with `end`. */
  ghost predicate ChainHop(n: Network, w: World, s: nat, pkt: Packet, chain: seq<Name>, i: int, end: Verdict)
    requires GatewaysHaveLinks(n)
  {
    0 <= i < |chain| && LinkKnown(n, chain[i])
    && Hop(n, w, s, TargetOf(LinkMap(n.links)[chain[i]]), chain[i], false, pkt)
       == if i + 1 < |chain| then Forwarded(chain[i + 1]) else end
  }

  /** Whenever the packet arrives over a link of the chain, it goes on along the chain. */
  ghost predicate ChainHops(n: Network, w: World, pkt: Packet, chain: seq<Name>, end: Verdict)
    requires GatewaysHaveLinks(n)
  {
    forall s: nat, j :: 0 <= j < |chain| ==> ChainHop(n, w, s, pkt, chain, j, end)
  }

  /** The run from the end of link `i` over the rest of the chain. */
  ghost predicate RunsOn(n: Network, w: World, later: nat, pkt: Packet, chain: seq<Name>, i: int, at: Name,
                         end: Verdict)
    requires GatewaysHaveLinks(n)
  {
    && 0 <= i < |chain| && LinkKnown(n, chain[i])
    && Follows(n, w, later, TargetOf(LinkMap(n.links)[chain[i]]), chain[i], false, pkt, chain[i + 1..], at, end)
  }

  lemma {:induction false} Downward(q: int -> bool, i: int, top: int)
    requires i <= top && q(top) && forall j :: i <= j < top && q(j + 1) ==> q(j)
    ensures q(i)
    decreases top - i
  {
    if i < top {
      Downward(q, i + 1, top);
      assert q(i + 1) ==> q(i);
    }
  }

  ghost predicate AlwaysRunsOn(n: Network, w: World, pkt: Packet, chain: seq<Name>, i: int, at: Name, end: Verdict)
    requires GatewaysHaveLinks(n)
  {
    forall later: nat :: RunsOn(n, w, later, pkt, chain, i, at, end)
  }

  lemma ChainRun(n: Network, w: World, pkt: Packet, chain: seq<Name>, at: Name, end: Verdict)
    requires GatewaysHaveLinks(n) && chain != [] && ChainHops(n, w, pkt, chain, end)
    requires LinkKnown(n, chain[|chain| - 1]) && TargetOf(LinkMap(n.links)[chain[|chain| - 1]]) == at
    ensures AlwaysRunsOn(n, w, pkt, chain, 0, at, end)
  {
    var q := (i: int) => AlwaysRunsOn(n, w, pkt, chain, i, at, end);
    var top := |chain| - 1;
    forall later: nat ensures RunsOn(n, w, later, pkt, chain, top, at, end) {
      ChainAt(n, w, later, pkt, chain, top, end);
      ChainEnd(n, w, later, pkt, chain, at, end);
    }
    forall j | 0 <= j < top && q(j + 1) ensures q(j) {
      ChainBack(n, w, pkt, chain, j, at, end);
    }
    Downward(q, 0, top);
  }

  lemma ChainBack(n: Network, w: World, pkt: Packet, chain: seq<Name>, i: nat, at: Name, end: Verdict)
    requires GatewaysHaveLinks(n) && i + 1 < |chain| && ChainHops(n, w, pkt, chain, end)
    requires AlwaysRunsOn(n, w, pkt, chain, i + 1, at, end)
    ensures AlwaysRunsOn(n, w, pkt, chain, i, at, end)
  {
    forall later: nat ensures RunsOn(n, w, later, pkt, chain, i, at, end) {
      ChainAt(n, w, later, pkt, chain, i, end);
      ChainStep(n, w, later, pkt, chain, i, at, end);
    }
  }

  lemma ChainAt(n: Network, w: World, s: nat, pkt: Packet, chain: seq<Name>, i: nat, end: Verdict)
    requires GatewaysHaveLinks(n) && i < |chain| && ChainHops(n, w, pkt, chain, end)
    ensures ChainHop(n, w, s, pkt, chain, i, end)
  {
  }

  lemma ChainStep(n: Network, w: World, later: nat, pkt: Packet, chain: seq<Name>, i: nat, at: Name, end: Verdict)
    requires GatewaysHaveLinks(n) && i + 1 < |chain| && ChainHop(n, w, later, pkt, chain, i, end)
    requires RunsOn(n, w, later + 1, pkt, chain, i + 1, at, end)
    ensures RunsOn(n, w, later, pkt, chain, i, at, end)
  {
    FollowsStep(n, w, later, TargetOf(LinkMap(n.links)[chain[i]]), chain[i], false, pkt,
                chain[i + 1], chain[i + 2..], at, end);
    assert chain[i + 1..] == [chain[i + 1]] + chain[i + 2..];
  }

  lemma ChainEnd(n: Network, w: World, later: nat, pkt: Packet, chain: seq<Name>, at: Name, end: Verdict)
    requires GatewaysHaveLinks(n) && chain != [] && ChainHop(n, w, later, pkt, chain, |chain| - 1, end)
    requires TargetOf(LinkMap(n.links)[chain[|chain| - 1]]) == at
    ensures RunsOn(n, w, later, pkt, chain, |chain| - 1, at, end)
  {
  }

  lemma UpRun(n: Network, w: World, t: nat, pkt: Packet, p: nat, b: nat)
    requires Ready(n) && UpClear(n, p, b) && Chosen(n, w, t, pkt, n.paths[p], b)
    requires n.paths[p].routes[b].gateway != ""
    ensures var br := n.paths[p].routes[b];
            && br.up != [] && LinkKnown(n, br.up[0])
            && Follows(n, w, t + 1, TargetOf(LinkMap(n.links)[br.up[0]]), br.up[0], false, pkt, br.up[1..], br.gateway,
                       UpEnd(br))
  {
    var br := n.paths[p].routes[b];
    assert BranchFacts(n, p, b);
    assert br.up[|br.up| - 1] in br.up;
    forall s: nat, i | 0 <= i < |br.up| ensures ChainHop(n, w, s, pkt, br.up, i, UpEnd(br)) {
      UpArrival(n, w, t, s, pkt, p, b, i);
    }
    assert ChainHops(n, w, pkt, br.up, UpEnd(br));
    ChainRun(n, w, pkt, br.up, br.gateway, UpEnd(br));
    assert RunsOn(n, w, t + 1, pkt, br.up, 0, br.gateway, UpEnd(br));
  }

  /** The run of a packet that leaves the origin by branch `br`. */
  ghost predicate TakesBranch(n: Network, w: World, t: nat, pkt: Packet, path: Path, br: Branch)
    requires GatewaysHaveLinks(n)
  {
    var tun := PathTun(n, path);
    if br.gateway == "" then Follows(n, w, t, path.node, tun, false, pkt, [], path.node, Finalized(br.egress, tun))
    else Follows(n, w, t, path.node, tun, false, pkt, br.up, br.gateway, UpEnd(br))
  }

  /** The origin's hop in front of the run over the remaining up-links. */
  lemma TakesUp(n: Network, w: World, t: nat, pkt: Packet, path: Path, br: Branch)
    requires GatewaysHaveLinks(n) && path.node in n.nodes && br.gateway != "" && br.up != []
    requires br.up[0] in LinkMap(n.links)
    requires Hop(n, w, t, path.node, PathTun(n, path), false, pkt) == Forwarded(br.up[0])
    requires Follows(n, w, t + 1, TargetOf(LinkMap(n.links)[br.up[0]]), br.up[0], false, pkt, br.up[1..], br.gateway,
                     UpEnd(br))
    ensures TakesBranch(n, w, t, pkt, path, br)
  {
    FollowsStep(n, w, t, path.node, PathTun(n, path), false, pkt, br.up[0], br.up[1..], br.gateway, UpEnd(br));
    assert br.up == [br.up[0]] + br.up[1..];
  }

  lemma ReadyUpPath(n: Network, w: World, t: nat, pkt: Packet, p: nat, b: nat)
    requires Ready(n) && UpClear(n, p, b) && Chosen(n, w, t, pkt, n.paths[p], b)
    requires pkt.owner == w.id(n.paths[p].node, PathTun(n, n.paths[p]))
    ensures TakesBranch(n, w, t, pkt, n.paths[p], n.paths[p].routes[b])
  {
    OriginHop(n, w, t, pkt, p, b);
    assert n.paths[p].node in n.nodes;
    if n.paths[p].routes[b].gateway != "" {
      UpRun(n, w, t, pkt, p, b);
      TakesUp(n, w, t, pkt, n.paths[p], n.paths[p].routes[b]);
    }
  }

  /** Compilation preserves the up-path. A packet entering at the origin tun at time `t` crosses exactly
      the up-links of the first branch whose condition held at `t`, and is finalized through that branch's
      egress at its gateway (or on the origin, for a local branch) with the branch's reply target. Probes
      may change state at every later hop. */
  lemma UpPathPreserved(n: Network, w: World, t: nat, pkt: Packet, p: nat, b: nat)
    requires Validated(n) && GatewaysHaveLinks(n) && Compilable(n) && CleanNet(n)
    requires UpClear(n, p, b) && Chosen(n, w, t, pkt, n.paths[p], b)
    requires pkt.owner == w.id(n.paths[p].node, PathTun(n, n.paths[p]))
    ensures TakesBranch(n, w, t, pkt, n.paths[p], n.paths[p].routes[b])
  {
    CompiledIsBuilt(n);
    ReadyUpPath(n, w, t, pkt, p, b);
  }
}
