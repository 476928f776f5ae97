/** Replies come home: from any gateway of a path the processed packet reaches the origin's tun after
    finitely many hops, even when branches share down-links and then part. */
module DownPath {
  import opened Common
  import opened Schema
  import opened Compile
  import opened NetworkCompiler
  import opened Routing
  import opened Tables
  import opened Mesh
  import opened UpPath

  /** Branch `b` of path `p` returns replies over link `l`. */
  ghost predicate HoldsDown(n: Network, p: int, b: int, l: Name) {
    OnBranch(n, p, b) && n.paths[p].routes[b].gateway != "" && l in n.paths[p].routes[b].down
  }

  /** Some branch of path `p` delivers to the origin over `l`. */
  ghost predicate EndsOn(n: Network, p: int, b: int, l: Name) {
    OnBranch(n, p, b) &&
    var br := n.paths[p].routes[b];
    br.gateway != "" && br.down != [] && br.down[|br.down| - 1] == l
  }

  lemma HeldLink(n: Network, p: int, b: int, l: Name)
    requires Ready(n) && HoldsDown(n, p, b, l)
    ensures LinkKnown(n, l)
  {
    assert BranchFacts(n, p, b);
  }

  /** A processed row never finalizes. */
  lemma ProcessedRowForwards(n: Network, node: Name, r: Route)
    requires GatewaysHaveLinks(n) && AllFacts(n) && r in Emitted(Rules(n), node) && r.processed == Some(true)
    ensures r.egress == ""
  {
    EmittedSound(Rules(n), node, r);
    var k :| 0 <= k < |Rules(n)| && Rules(n)[k].node == node && Rules(n)[k].route == r;
    QualifiedAt(n, All(n), |All(n)|, k);
    var q, c := PendingOrigin(n, |n.paths|, All(n)[k]);
    assert OnBranch(n, q, c);
    var s := ShapeOf(n, q, c, All(n)[k]);
  }

  // ---- arriving at the origin ---------------------------------------------------------------

  lemma DeliverEligible(n: Network, w: World, t: nat, pkt: Packet, p: nat, b: nat, l: Name) returns (r: Route)
    requires Ready(n) && EndsOn(n, p, b, l) && pkt.owner == w.id(n.paths[p].node, PathTun(n, n.paths[p]))
    ensures r in Emitted(Rules(n), n.paths[p].node)
    ensures IsProcessedTun(r, PathTun(n, n.paths[p]))
    ensures Eligible(r, l, true, OracleAt(n, w, t, n.paths[p].node, pkt))
  {
    assert BranchFacts(n, p, b) && TunKnown(n, n.paths[p]);
    var pr := DownRuleDerived(n, p, b, |n.paths[p].routes[b].down| - 1);
    RulesClean(n);
    var k := PrefixHas(n, p, b, pr);
    assert Rules(n)[k] == pr;
    EmittedComplete(Rules(n), n.paths[p].node, k);
    r := pr.route;
  }

  lemma HomeArrival(n: Network, w: World, t: nat, pkt: Packet, p: nat, b: nat, l: Name)
    requires Ready(n) && EndsOn(n, p, b, l) && pkt.owner == w.id(n.paths[p].node, PathTun(n, n.paths[p]))
    ensures Hop(n, w, t, n.paths[p].node, l, true, pkt) == Delivered(PathTun(n, n.paths[p]))
  {
    var node, tun := n.paths[p].node, PathTun(n, n.paths[p]);
    var ok := Eligibility(l, true, OracleAt(n, w, t, node, pkt));
    var r := DeliverEligible(n, w, t, pkt, p, b, l);
    assert TunKnown(n, n.paths[p]);
    SortPrefersTun(Emitted(Rules(n), node), tun, ok, r);
    ProcessedRowForwards(n, node, First(TunFirst(Emitted(Rules(n), node), tun), ok).value);
  }

  // ---- passing a relay -------------------------------------------------------------------------

  lemma DownLinksChain(n: Network, p: nat, b: nat, j: int, l: Name, next: Name)
    requires Built(n) && DownHop(n, p, b, j, l, next)
    ensures LinkKnown(n, l) && LinkKnown(n, next)
    ensures SenderOf(LinkMap(n.links)[next]) == TargetOf(LinkMap(n.links)[l])
    ensures Sends(Connections(n, TargetOf(LinkMap(n.links)[l])), next)
    ensures !TunNamed(Connections(n, TargetOf(LinkMap(n.links)[l])), next)
  {
    assert BranchFacts(n, p, b) && PathOriented(n, n.paths[p]);
    assert Oriented(n.paths[p].node, n.paths[p].routes[b], LinkMap(n.links));
    DownChained(n, p, b, j, l, next);
    LinkSender(n, next);
  }

  /** Consecutive down-links meet at a node. */
  lemma DownChained(n: Network, p: nat, b: nat, j: int, l: Name, next: Name)
    requires DownHop(n, p, b, j, l, next) && BranchFacts(n, p, b)
    requires Oriented(n.paths[p].node, n.paths[p].routes[b], LinkMap(n.links))
    ensures LinkKnown(n, l) && LinkKnown(n, next)
    ensures SenderOf(LinkMap(n.links)[next]) == TargetOf(LinkMap(n.links)[l])
  {
    var br := n.paths[p].routes[b];
    assert br.down[j] in br.down && br.down[j + 1] in br.down;
    assert RelayOk(br.down, LinkMap(n.links), j);
  }

  ghost predicate NotHome(n: Network, p: int, l: Name) {
    forall b :: !EndsOn(n, p, b, l)
  }

  /** A row that hands a reply of this owner to a tun belongs to the owner's own path. */
  lemma TunRowIsOwn(n: Network, w: World, pkt: Packet, p: nat, q: nat, c: nat, pr: PendingRule)
    requires IdsDistinct(n, w) && DeliverShape(n, q, c, pr) && p < |n.paths| && OwnPaths(n, p, q)
    requires pkt.owner == w.id(n.paths[p].node, PathTun(n, n.paths[p]))
    requires pr.node in n.nodes && Accepts(Connections(n, pr.node), w, pr.node, pr.route.target, pkt.owner)
    ensures EndsOn(n, p, c, pr.route.source)
  {
    SameNode(n, w, pkt, p, q, c, pr);
  }

  /** Two paths whose tuns are known, and that are one if they start at one node. */
  ghost predicate OwnPaths(n: Network, p: nat, q: nat)
    requires p < |n.paths| && q < |n.paths|
  {
    && TunKnown(n, n.paths[p]) && TunKnown(n, n.paths[q])
    && (n.paths[p].node == n.paths[q].node ==> p == q)
  }

  lemma ReadyPaths(n: Network, p: nat, q: nat)
    requires Built(n) && p < |n.paths| && q < |n.paths| && Userspace(n, n.paths[p]) && Userspace(n, n.paths[q])
    ensures OwnPaths(n, p, q)
  {
  }

  lemma SameNode(n: Network, w: World, pkt: Packet, p: nat, q: nat, c: nat, pr: PendingRule)
    requires IdsDistinct(n, w) && DeliverShape(n, q, c, pr) && p < |n.paths| && q < |n.paths|
    requires TunKnown(n, n.paths[p]) && TunKnown(n, n.paths[q])
    requires pkt.owner == w.id(n.paths[p].node, PathTun(n, n.paths[p]))
    requires pr.node in n.nodes && Accepts(Connections(n, pr.node), w, pr.node, pr.route.target, pkt.owner)
    ensures n.paths[p].node == n.paths[q].node
  {
  }

  lemma ReplyRival(n: Network, p: nat, b: nat, j: int, l: Name, next: Name, q: nat, c: nat, i: int, other: Name)
    requires DownClear(n, p) && DownHop(n, p, b, j, l, next) && DownHop(n, q, c, i, l, other)
    requires q < p || (q == p && c <= b)
    requires forall k :: 0 <= k < b ==> !HoldsDown(n, p, k, l)
    ensures other == next
  {
    if q == p {
      OwnRival(n, p, b, j, l, next, c, i, other);
    }
  }

  lemma OwnRival(n: Network, p: nat, b: nat, j: int, l: Name, next: Name, c: nat, i: int, other: Name)
    requires DownHop(n, p, b, j, l, next) && DownHop(n, p, c, i, l, other) && DownClear(n, p)
    requires c <= b && forall k :: 0 <= k < b ==> !HoldsDown(n, p, k, l)
    ensures other == next
  {
    assert n.paths[p].routes[c].down[i] in n.paths[p].routes[c].down;
    assert HoldsDown(n, p, c, l);
  }

  /** What an eligible processed rule for arrivals over `l` can be. */
  lemma ProcessedKinds(n: Network, w: World, t: nat, pkt: Packet, q: nat, c: nat, k: nat, l: Name) returns (i: int)
    requires Built(n) && LinkKnown(n, l) && k < |All(n)| && FromBranch(n, q, c, All(n)[k])
    requires var node, r := TargetOf(LinkMap(n.links)[l]), QualifyRule(n, All(n), All(n)[k]);
             r.node == node && Eligible(r.route, l, true, OracleAt(n, w, t, node, pkt))
    ensures All(n)[k].route.source == l && QualifyRule(n, All(n), All(n)[k]) == All(n)[k]
    ensures ReplyShape(n, q, c, i, All(n)[k]) || DeliverShape(n, q, c, All(n)[k])
  {
    var pr := All(n)[k];
    assert OnBranch(n, q, c) && BranchFacts(n, q, c);
    var s := ShapeOf(n, q, c, pr);
    i := if s.Replies? then s.j else 0;
    ProcessedAt(n, q, c, s, pr, l);
  }

  lemma ProcessedAt(n: Network, q: nat, c: nat, s: Shape, pr: PendingRule, l: Name)
    requires Built(n) && LinkKnown(n, l) && BranchFacts(n, q, c) && HasShape(n, q, c, s, pr)
    requires pr.route.processed == Some(true) && (pr.route.source == "" || pr.route.source == l)
    ensures pr.route.source == l && (s.Replies? || s.Delivers?) && !pr.relay
  {
    var br := n.paths[q].routes[c];
    LinkTarget(n, l);
    if s.Delivers? {
      assert br.down[|br.down| - 1] in br.down;
      LinkTarget(n, br.down[|br.down| - 1]);
    } else {
      assert br.down[s.j] in br.down;
      LinkTarget(n, br.down[s.j]);
    }
  }

  lemma ReplyCompetitor(n: Network, w: World, t: nat, pkt: Packet, p: nat, b: nat, j: int, l: Name, next: Name, k: nat)
    requires Ready(n) && DownClear(n, p) && IdsDistinct(n, w)
    requires DownHop(n, p, b, j, l, next) && LinkKnown(n, l) && NotHome(n, p, l)
    requires pkt.owner == w.id(n.paths[p].node, PathTun(n, n.paths[p]))
    requires forall c :: 0 <= c < b ==> !HoldsDown(n, p, c, l)
    requires k < PrefixLen(n, p, b) <= |All(n)|
    requires var node, r := TargetOf(LinkMap(n.links)[l]), QualifyRule(n, All(n), All(n)[k]);
             r.node == node && Eligible(r.route, l, true, OracleAt(n, w, t, node, pkt))
    ensures QualifyRule(n, All(n), All(n)[k]).route.egress == ""
    ensures QualifyRule(n, All(n), All(n)[k]).route.target == next
  {
    PrefixMember(n, p, b, k);
    var q, c := PrefixOrigin(n, p, b, All(n)[k]);
    var i := ProcessedKinds(n, w, t, pkt, q, c, k, l);
    if DeliverShape(n, q, c, All(n)[k]) {
      ReadyPaths(n, p, q);
      TunRowIsOwn(n, w, pkt, p, q, c, All(n)[k]);
      assert false;
    }
    ReplyRival(n, p, b, j, l, next, q, c, i, All(n)[k].route.target);
  }

  lemma ReplyWalk(n: Network, w: World, t: nat, pkt: Packet, p: nat, b: nat, j: int, l: Name, next: Name)
    requires Ready(n) && DownClear(n, p) && IdsDistinct(n, w)
    requires DownHop(n, p, b, j, l, next) && LinkKnown(n, l) && NotHome(n, p, l)
    requires pkt.owner == w.id(n.paths[p].node, PathTun(n, n.paths[p]))
    requires forall c :: 0 <= c < b ==> !HoldsDown(n, p, c, l)
    ensures var node := TargetOf(LinkMap(n.links)[l]);
            var r := First(Emitted(Rules(n), node), Eligibility(l, true, OracleAt(n, w, t, node, pkt)));
            r.Some? && r.value.egress == "" && r.value.target == next
  {
    var node := TargetOf(LinkMap(n.links)[l]);
    var ok := Eligibility(l, true, OracleAt(n, w, t, node, pkt));
    assert BranchFacts(n, p, b);
    DownLinksChain(n, p, b, j, l, next);
    var pr := DownRuleDerived(n, p, b, j);
    RulesClean(n);
    var m := PrefixHas(n, p, b, pr);
    assert Rules(n)[m] == pr && pr.node == node && ok(pr.route);
    forall k | 0 <= k < PrefixLen(n, p, b) && Rules(n)[k].node == node && ok(Rules(n)[k].route)
      ensures Rules(n)[k].route.egress == "" && Rules(n)[k].route.target == next
    {
      ReplyCompetitor(n, w, t, pkt, p, b, j, l, next, k);
    }
    TableWalk(Rules(n), PrefixLen(n, p, b), node, ok, "", next);
  }

  /** Away from home no own-tun row accepts the reply, so the sort is not noticed. */
  lemma RelaySelect(n: Network, w: World, t: nat, pkt: Packet, p: nat, l: Name)
    requires Ready(n) && IdsDistinct(n, w) && LinkKnown(n, l) && NotHome(n, p, l)
    requires p < |n.paths| && Userspace(n, n.paths[p]) && pkt.owner == w.id(n.paths[p].node, PathTun(n, n.paths[p]))
    ensures var node := TargetOf(LinkMap(n.links)[l]);
            var o := OracleAt(n, w, t, node, pkt);
            Select(CompiledNode(n, node).routes, l, true, o) == First(Emitted(Rules(n), node), Eligibility(l, true, o))
  {
    var node := TargetOf(LinkMap(n.links)[l]);
    var o := OracleAt(n, w, t, node, pkt);
    if OriginTun(n.nodes[node]).Some? {
      var tun := OriginTun(n.nodes[node]).value;
      forall r | r in Emitted(Rules(n), node) && Eligible(r, l, true, o) ensures !IsProcessedTun(r, tun) {
        if IsProcessedTun(r, tun) {
          OwnRowRejects(n, w, t, pkt, p, l, r, tun);
        }
      }
      SortInvisible(Emitted(Rules(n), node), tun, Eligibility(l, true, o));
    }
  }

  lemma OwnRowRejects(n: Network, w: World, t: nat, pkt: Packet, p: nat, l: Name, r: Route, tun: Name)
    requires Ready(n) && IdsDistinct(n, w) && LinkKnown(n, l) && NotHome(n, p, l)
    requires p < |n.paths| && Userspace(n, n.paths[p]) && pkt.owner == w.id(n.paths[p].node, PathTun(n, n.paths[p]))
    requires OriginTun(n.nodes[TargetOf(LinkMap(n.links)[l])]) == Some(tun)
    requires r in Emitted(Rules(n), TargetOf(LinkMap(n.links)[l])) && IsProcessedTun(r, tun)
    ensures !Eligible(r, l, true, OracleAt(n, w, t, TargetOf(LinkMap(n.links)[l]), pkt))
  {
    var node := TargetOf(LinkMap(n.links)[l]);
    EmittedSound(Rules(n), node, r);
    var k :| 0 <= k < |Rules(n)| && Rules(n)[k].node == node && Rules(n)[k].route == r;
    RulesClean(n);
    LinkTarget(n, l);
    OriginTunConnected(n, node);
    if Eligible(r, l, true, OracleAt(n, w, t, node, pkt)) {
      var q, c := PendingOrigin(n, |n.paths|, All(n)[k]);
      var i := ProcessedKinds(n, w, t, pkt, q, c, k, l);
      if DeliverShape(n, q, c, All(n)[k]) {
        ReadyPaths(n, p, q);
        TunRowIsOwn(n, w, pkt, p, q, c, All(n)[k]);
      } else {
        DownLinksChain(n, q, c, i, l, tun);
      }
    }
  }

  lemma RelayArrival(n: Network, w: World, t: nat, pkt: Packet, p: nat, b: nat, j: int, l: Name, next: Name)
    requires Ready(n) && DownClear(n, p) && IdsDistinct(n, w)
    requires DownHop(n, p, b, j, l, next) && LinkKnown(n, l) && NotHome(n, p, l)
    requires pkt.owner == w.id(n.paths[p].node, PathTun(n, n.paths[p]))
    requires forall c :: 0 <= c < b ==> !HoldsDown(n, p, c, l)
    ensures Hop(n, w, t, TargetOf(LinkMap(n.links)[l]), l, true, pkt) == Forwarded(next)
  {
    ReplyWalk(n, w, t, pkt, p, b, j, l, next);
    RelaySelect(n, w, t, pkt, p, l);
    DownLinksChain(n, p, b, j, l, next);
  }

  // ---- the whole way home -----------------------------------------------------------------------

  /** The lowest branch from `b` on that returns replies over `l`. */
  lemma LowestHolding(n: Network, p: nat, b: nat, l: Name) returns (c: nat, j: nat)
    requires HoldsDown(n, p, b, l)
    ensures c <= b && HoldsDown(n, p, c, l) && forall k :: 0 <= k < c ==> !HoldsDown(n, p, k, l)
    ensures j < |n.paths[p].routes[c].down| && n.paths[p].routes[c].down[j] == l
  {
    c := 0;
    while !HoldsDown(n, p, c, l)
      invariant c <= b && forall k :: 0 <= k < c ==> !HoldsDown(n, p, k, l)
      decreases b - c
    {
      c := c + 1;
    }
    j :| 0 <= j < |n.paths[p].routes[c].down| && n.paths[p].routes[c].down[j] == l;
  }

  /** What a reply of path `p` relies on. */
  ghost predicate Replying(n: Network, w: World, pkt: Packet, p: nat) {
    && Ready(n) && DownClear(n, p) && IdsDistinct(n, w)
    && p < |n.paths| && pkt.owner == w.id(n.paths[p].node, PathTun(n, n.paths[p]))
  }

  /** From down-link `j` of branch `b`, the reply crosses `trace` and is delivered at home. */
  ghost predicate HomeRun(n: Network, w: World, t: nat, pkt: Packet, p: nat, b: nat, j: nat, trace: seq<Name>) {
    && GatewaysHaveLinks(n) && OnDown(n, p, b, j) && LinkKnown(n, n.paths[p].routes[b].down[j])
    && Follows(n, w, t, TargetOf(LinkMap(n.links)[n.paths[p].routes[b].down[j]]), n.paths[p].routes[b].down[j], true,
               pkt, trace, n.paths[p].node, Delivered(PathTun(n, n.paths[p])))
  }

  ghost predicate OnDown(n: Network, p: int, b: int, j: int) {
    OnBranch(n, p, b) && n.paths[p].routes[b].gateway != "" && 0 <= j < |n.paths[p].routes[b].down|
  }

  lemma ArrivesHome(n: Network, w: World, t: nat, pkt: Packet, p: nat, b: nat, j: nat, e: nat)
    requires Replying(n, w, pkt, p) && OnDown(n, p, b, j) && EndsOn(n, p, e, n.paths[p].routes[b].down[j])
    ensures HomeRun(n, w, t, pkt, p, b, j, [])
  {
    var l := n.paths[p].routes[b].down[j];
    HomeIsTarget(n, p, e, l);
    HomeArrival(n, w, t, pkt, p, e, l);
  }

  /** Branch `c` relays what arrives over down-link `j` of branch `b` to its own down-link `i + 1`. */
  ghost predicate RelayedOn(n: Network, w: World, t: nat, pkt: Packet, p: nat, b: nat, j: nat, c: nat, i: nat) {
    && GatewaysHaveLinks(n) && OnDown(n, p, b, j) && OnDown(n, p, c, i + 1)
    && (c < b || (c == b && i == j))
    && LinkKnown(n, n.paths[p].routes[b].down[j])
    && Hop(n, w, t, TargetOf(LinkMap(n.links)[n.paths[p].routes[b].down[j]]), n.paths[p].routes[b].down[j], true, pkt)
       == Forwarded(n.paths[p].routes[c].down[i + 1])
  }

  /** Away from home a reply is relayed along the lowest branch that holds its link. */
  lemma RelaysOn(n: Network, w: World, t: nat, pkt: Packet, p: nat, b: nat, j: nat) returns (c: nat, i: nat)
    requires Replying(n, w, pkt, p) && OnDown(n, p, b, j) && NotHome(n, p, n.paths[p].routes[b].down[j])
    ensures RelayedOn(n, w, t, pkt, p, b, j, c, i)
  {
    var l := n.paths[p].routes[b].down[j];
    c, i := LowestDown(n, p, b, j);
    HeldLink(n, p, b, l);
    LowerOrSame(n, p, b, j, c, i, l);
    RelayArrival(n, w, t, pkt, p, c, i, l, n.paths[p].routes[c].down[i + 1]);
  }

  lemma LowestDown(n: Network, p: nat, b: nat, j: nat) returns (c: nat, i: nat)
    requires OnDown(n, p, b, j) && NotHome(n, p, n.paths[p].routes[b].down[j])
    ensures c <= b && OnDown(n, p, c, i) && OnDown(n, p, c, i + 1)
    ensures n.paths[p].routes[c].down[i] == n.paths[p].routes[b].down[j]
    ensures forall k :: 0 <= k < c ==> !HoldsDown(n, p, k, n.paths[p].routes[b].down[j])
  {
    var l := n.paths[p].routes[b].down[j];
    assert HoldsDown(n, p, b, l);
    c, i := LowestHolding(n, p, b, l);
    assert !EndsOn(n, p, c, l);
  }

  lemma RunExtends(n: Network, w: World, t: nat, pkt: Packet, p: nat, b: nat, j: nat, c: nat, i: nat, rest: seq<Name>)
    requires RelayedOn(n, w, t, pkt, p, b, j, c, i) && HomeRun(n, w, t + 1, pkt, p, c, i + 1, rest)
    ensures HomeRun(n, w, t, pkt, p, b, j, [n.paths[p].routes[c].down[i + 1]] + rest)
  {
    var l, next := n.paths[p].routes[b].down[j], n.paths[p].routes[c].down[i + 1];
    FollowsStep(n, w, t, TargetOf(LinkMap(n.links)[l]), l, true, pkt, next, rest, n.paths[p].node,
                Delivered(PathTun(n, n.paths[p])));
  }

  /** What arrives over down-link `j` of branch `b` is delivered, or relayed along the same branch or a lower one. */
  ghost predicate GoesOn(n: Network, w: World, t: nat, pkt: Packet, p: nat, b: nat, j: nat) {
    HomeRun(n, w, t, pkt, p, b, j, []) || exists c: nat, i: nat :: RelayedOn(n, w, t, pkt, p, b, j, c, i)
  }

  ghost predicate AllGoOn(n: Network, w: World, pkt: Packet, p: nat) {
    forall t: nat, b: nat, j: nat {:trigger GoesOn(n, w, t, pkt, p, b, j)} ::
      OnDown(n, p, b, j) ==> GoesOn(n, w, t, pkt, p, b, j)
  }

  lemma RepliesGoOn(n: Network, w: World, pkt: Packet, p: nat)
    requires Replying(n, w, pkt, p)
    ensures AllGoOn(n, w, pkt, p)
  {
    forall t: nat, b: nat, j: nat | OnDown(n, p, b, j) ensures GoesOn(n, w, t, pkt, p, b, j) {
      if e: nat :| EndsOn(n, p, e, n.paths[p].routes[b].down[j]) {
        ArrivesHome(n, w, t, pkt, p, b, j, e);
      } else {
        var c, i := RelaysOn(n, w, t, pkt, p, b, j);
      }
    }
  }

  /** Replies come home. The measure is the pair (lowest branch holding the link, links left in it):
      a relay follows the lowest branch, whose next link is held by that branch or an earlier one. */
  lemma {:induction false} ReplyRun(n: Network, w: World, t: nat, pkt: Packet, p: nat, b: nat, j: nat)
    returns (trace: seq<Name>)
    requires AllGoOn(n, w, pkt, p) && OnDown(n, p, b, j)
    ensures HomeRun(n, w, t, pkt, p, b, j, trace)
    decreases b, |n.paths[p].routes[b].down| - j
  {
    assert GoesOn(n, w, t, pkt, p, b, j);
    if HomeRun(n, w, t, pkt, p, b, j, []) {
      trace := [];
    } else {
      var c: nat, i: nat :| RelayedOn(n, w, t, pkt, p, b, j, c, i);
      var rest := ReplyRun(n, w, t + 1, pkt, p, c, i + 1);
      RunExtends(n, w, t, pkt, p, b, j, c, i, rest);
      trace := [n.paths[p].routes[c].down[i + 1]] + rest;
    }
  }

  lemma LowerOrSame(n: Network, p: nat, b: nat, j: nat, c: nat, i: nat, l: Name)
    requires DownClear(n, p) && OnBranch(n, p, b) && OnBranch(n, p, c) && c <= b
    requires j < |n.paths[p].routes[b].down| && n.paths[p].routes[b].down[j] == l
    requires i < |n.paths[p].routes[c].down| && n.paths[p].routes[c].down[i] == l
    ensures c < b || i == j
  {
    assert Distinct(n.paths[p].routes[b].down);
  }

  lemma HomeIsTarget(n: Network, p: nat, b: nat, l: Name)
    requires Built(n) && EndsOn(n, p, b, l)
    ensures LinkKnown(n, l) && TargetOf(LinkMap(n.links)[l]) == n.paths[p].node
  {
    var br := n.paths[p].routes[b];
    assert BranchFacts(n, p, b) && PathOriented(n, n.paths[p]);
    assert Oriented(n.paths[p].node, br, LinkMap(n.links));
    assert br.down[|br.down| - 1] in br.down;
  }

  /** From any gateway of the path, the processed packet reaches the origin tun. */
  lemma RepliesComeHome(n: Network, w: World, t: nat, pkt: Packet, p: nat, b: nat)
    requires Validated(n) && GatewaysHaveLinks(n) && Compilable(n) && CleanNet(n) && IdsDistinct(n, w)
    requires DownClear(n, p) && OnBranch(n, p, b) && n.paths[p].routes[b].gateway != ""
    requires n.paths[p].routes[b].down != [] && pkt.owner == w.id(n.paths[p].node, PathTun(n, n.paths[p]))
    ensures var down := n.paths[p].routes[b].down;
            && down[0] in LinkMap(n.links)
            && exists trace :: Follows(n, w, t, TargetOf(LinkMap(n.links)[down[0]]), down[0], true, pkt, trace,
                                       n.paths[p].node, Delivered(PathTun(n, n.paths[p])))
  {
    CompiledIsBuilt(n);
    RepliesGoOn(n, w, pkt, p);
    var trace := ReplyRun(n, w, t, pkt, p, b, 0);
  }
}
