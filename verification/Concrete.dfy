/** Working out what small networks compile to: what a node is attached to, when nothing is restated, when
    finalize rows agree, and that a network whose rules fit its nodes compiles. */
module Concrete {
  import opened Common
  import opened Schema
  import opened Compile
  import opened NetworkCompiler
  import opened Routing
  import opened Tables
  import opened Mesh
  import opened UpPath
  import opened Orientation

  // ---- connections ---------------------------------------------------------------------------------------

  ghost predicate HasTun(n: Network, node: Name, t: Name)
    requires node in n.nodes
  {
    exists c :: c in n.nodes[node].conns && c.tun && c.name == t
  }

  ghost predicate EndOf(l: Link, node: Name, c: Connection) {
    (l.dialer == node && c == DialerEnd(l)) || (l.acceptor == node && c == AcceptorEnd(l))
  }

  lemma {:induction false} LinkEndsAre(links: seq<Link>, node: Name, c: Connection)
    ensures c in LinkEnds(links, node) <==> exists l :: l in links && EndOf(l, node, c)
  {
    if links != [] {
      var k := |links| - 1;
      LinkEndsAre(links[..k], node, c);
      assert forall l :: l in links <==> l in links[..k] || l == links[k];
      assert c in LinkEnds(links, node) <==> c in LinkEnds(links[..k], node) || EndOf(links[k], node, c);
    }
  }

  lemma {:induction false} TunEndsAre(conns: seq<Conn>, e: Connection)
    ensures e in TunEnds(conns)
       <==> exists c :: c in conns && c.tun && e == Connection(c.name, TunType, NoDirection, false, "")
  {
    if conns != [] {
      var k := |conns| - 1;
      TunEndsAre(conns[..k], e);
      assert forall c :: c in conns <==> c in conns[..k] || c == conns[k];
    }
  }

  lemma ConnectionsAre(n: Network, node: Name, e: Connection)
    requires node in n.nodes && !n.nodes[node].kernel
    ensures e in Connections(n, node)
       <==> || (exists l :: l in n.links && EndOf(l, node, e))
            || (exists c :: c in n.nodes[node].conns && c.tun
                         && e == Connection(c.name, TunType, NoDirection, false, ""))
  {
    LinkEndsAre(n.links, node, e);
    TunEndsAre(n.nodes[node].conns, e);
  }

  /** A node sends on its tuns and on the links it is the sender of. */
  lemma SendsExactly(n: Network, node: Name, x: Name)
    requires node in n.nodes && !n.nodes[node].kernel
    ensures Sends(Connections(n, node), x)
       <==> HasTun(n, node, x) || exists l :: l in n.links && l.name == x && SenderOf(l) == node
  {
    if Sends(Connections(n, node), x) {
      var e :| e in Connections(n, node) && e.name == x && CanSend(e);
      ConnectionsAre(n, node, e);
    }
    if c :| c in n.nodes[node].conns && c.tun && c.name == x {
      ConnectionsAre(n, node, Connection(x, TunType, NoDirection, false, ""));
    }
    if l :| l in n.links && l.name == x && SenderOf(l) == node {
      var e := if l.dataflow.ToAcceptor? then DialerEnd(l) else AcceptorEnd(l);
      assert EndOf(l, node, e);
      ConnectionsAre(n, node, e);
    }
  }

  lemma TunNamedExactly(n: Network, node: Name, x: Name)
    requires node in n.nodes && !n.nodes[node].kernel
    ensures TunNamed(Connections(n, node), x) <==> HasTun(n, node, x)
  {
    if TunNamed(Connections(n, node), x) {
      var e :| e in Connections(n, node) && e.name == x && e.typ.TunType?;
      ConnectionsAre(n, node, e);
    }
    if c :| c in n.nodes[node].conns && c.tun && c.name == x {
      ConnectionsAre(n, node, Connection(x, TunType, NoDirection, false, ""));
    }
  }

  /** A tun that waits for an id is not left waiting: the connection that sets it receives from the other end of its
      link, which is a listener that mints ids, and the tun is one of the node's. */
  lemma IdSettersServed(n: Network, node: Name, e: Connection) returns (l: Link)
    requires Validated(n) && GatewaysHaveLinks(n) && Compilable(n)
    requires node in n.nodes && e in Connections(n, node) && e.idSetter != ""
    ensures l in n.links && l.name == e.name && TargetOf(l) == node && SenderOf(l) in n.nodes
    ensures e.direction == Incoming && TunNamed(Connections(n, node), e.idSetter)
    ensures Connection(l.name, ListenType, Outgoing, true, "") in Connections(n, SenderOf(l))
  {
    assert !n.nodes[node].kernel by {
      assert NodeValid(n, node, CompiledNode(n, node));
    }
    l := SetterLink(n, node, e);
    AcceptorListens(n, l);
  }

  lemma SetterLink(n: Network, node: Name, e: Connection) returns (l: Link)
    requires node in n.nodes && !n.nodes[node].kernel && e in Connections(n, node) && e.idSetter != ""
    requires forall l :: l in n.links ==> l.dialer in n.nodes && IdSetterOk(n, l)
    ensures l in n.links && l.name == e.name && TargetOf(l) == node && l.multiple && l.dataflow.ToDialer?
    ensures e.direction == Incoming && TunNamed(Connections(n, node), e.idSetter)
  {
    ConnectionsAre(n, node, e);
    l :| l in n.links && EndOf(l, node, e);
    TunNamedExactly(n, node, e.idSetter);
  }

  lemma AcceptorListens(n: Network, l: Link)
    requires l in n.links && l.acceptor in n.nodes && !n.nodes[l.acceptor].kernel && l.multiple && l.dataflow.ToDialer?
    ensures Connection(l.name, ListenType, Outgoing, true, "") in Connections(n, l.acceptor)
  {
    assert EndOf(l, l.acceptor, AcceptorEnd(l));
    ConnectionsAre(n, l.acceptor, AcceptorEnd(l));
  }

  ghost predicate Attached(n: Network, node: Name, x: Name)
    requires node in n.nodes
  {
    HasTun(n, node, x) || exists l :: l in n.links && l.name == x && (l.dialer == node || l.acceptor == node)
  }

  lemma AttachedNamed(n: Network, node: Name, x: Name)
    requires node in n.nodes && !n.nodes[node].kernel && Attached(n, node, x)
    ensures exists e :: e in Connections(n, node) && e.name == x
  {
    if c :| c in n.nodes[node].conns && c.tun && c.name == x {
      ConnectionsAre(n, node, Connection(x, TunType, NoDirection, false, ""));
    } else {
      var l :| l in n.links && l.name == x && (l.dialer == node || l.acceptor == node);
      var e := if l.dialer == node then DialerEnd(l) else AcceptorEnd(l);
      assert EndOf(l, node, e);
      ConnectionsAre(n, node, e);
    }
  }

  // ---- names ---------------------------------------------------------------------------------------------

  /** Named links between different known nodes. */
  ghost predicate TidyLink(n: Network, l: Link) {
    && l.name != "" && l.idSetter == "" && l.dialer != "" && l.acceptor != "" && l.dialer != l.acceptor
    && l.dialer in n.nodes && l.acceptor in n.nodes
  }

  /** A userspace node with at most one tun, named unlike every link it is on. */
  ghost predicate TidyNode(n: Network, node: Name)
    requires node in n.nodes
  {
    && !n.nodes[node].kernel && |n.nodes[node].conns| <= 1
    && forall c :: c in n.nodes[node].conns ==> c.name != "" && Unlinked(n, node, c.name)
  }

  ghost predicate Tidy(n: Network) {
    && UniqueLinkNames(n.links) && (forall l :: l in n.links ==> TidyLink(n, l))
    && (forall node :: node in n.nodes ==> TidyNode(n, node))
    && (forall c :: c in n.conditions ==> c != "" && !n.conditions[c].Health?)
  }

  /** What loading checks of a path of a tidy network. */
  ghost predicate PathLoads(n: Network, p: Path) {
    && p.node in n.nodes && OriginTun(n.nodes[p.node]).Some? && UserspacePathOk(n, p)
    && forall b :: 0 <= b < |p.routes| ==> GatewayOf(p.routes[b], LinkMap(n.links)) == Ok(p.routes[b].gateway)
  }

  lemma TidyLoads(n: Network)
    requires Tidy(n) && (forall p :: 0 <= p < |n.paths| ==> PathLoads(n, n.paths[p]))
    requires forall p, q :: 0 <= p < q < |n.paths| ==> n.paths[p].node != n.paths[q].node
    ensures Validated(n) && GatewaysHaveLinks(n)
  {
    forall l | l in n.links ensures !n.nodes[l.dialer].kernel && !n.nodes[l.acceptor].kernel {
      assert TidyLink(n, l) && TidyNode(n, l.dialer) && TidyNode(n, l.acceptor);
    }
    forall p, b | 0 <= p < |n.paths| && 0 <= b < |n.paths[p].routes|
      ensures GatewayOf(n.paths[p].routes[b], LinkMap(n.links)) == Ok(n.paths[p].routes[b].gateway)
    {
      assert PathLoads(n, n.paths[p]);
    }
    InferredHasLinks(n);
  }

  ghost predicate Unlinked(n: Network, node: Name, x: Name) {
    forall l :: l in n.links && l.name == x ==> l.dialer != node && l.acceptor != node
  }

  lemma {:induction false} LinkEndsUnique(links: seq<Link>, node: Name)
    requires UniqueLinkNames(links) && forall l :: l in links ==> l.dialer != l.acceptor
    ensures UniqueConnections(LinkEnds(links, node))
  {
    if links != [] {
      var k := |links| - 1;
      LinkEndsUnique(links[..k], node);
      forall e | e in LinkEnds(links[..k], node) ensures e.name != links[k].name {
        LinkEndsAre(links[..k], node, e);
      }
      assert links[k] in links;
    }
  }

  lemma ConcatUnique(a: seq<Connection>, b: seq<Connection>)
    requires UniqueConnections(a) && UniqueConnections(b) && forall x, y :: x in a && y in b ==> x.name != y.name
    ensures UniqueConnections(a + b)
  {
    forall i, j | 0 <= i < j < |a + b| ensures (a + b)[i].name != (a + b)[j].name {
      assert i < |a| ==> a[i] in a;
      assert j >= |a| ==> b[j - |a|] in b;
    }
  }

  lemma {:induction false} FewTunEnds(conns: seq<Conn>)
    ensures |TunEnds(conns)| <= |conns|
  {
    if conns != [] {
      FewTunEnds(conns[..|conns| - 1]);
    }
  }

  lemma ConnectionsTidy(n: Network, node: Name)
    requires Tidy(n) && node in n.nodes
    ensures UniqueConnections(Connections(n, node)) && forall e :: e in Connections(n, node) ==> e.name != ""
  {
    var tuns, ends := TunEnds(n.nodes[node].conns), LinkEnds(n.links, node);
    assert TidyNode(n, node) && forall l :: l in n.links ==> TidyLink(n, l);
    LinkEndsUnique(n.links, node);
    FewTunEnds(n.nodes[node].conns);
    forall x, y | x in tuns && y in ends ensures x.name != y.name {
      TunEndsAre(n.nodes[node].conns, x);
      LinkEndsAre(n.links, node, y);
    }
    ConcatUnique(tuns, ends);
    forall e | e in Connections(n, node) ensures e.name != "" {
      ConnectionsAre(n, node, e);
    }
  }

  // ---- restating and finalizing --------------------------------------------------------------------------

  /** A rule past the origin without a condition is left as it is, however many actions meet; one with a
      condition is if no other action meets it. */
  lemma {:induction false} NothingRestated(n: Network, pend: seq<PendingRule>, k: nat)
    requires k <= |pend| && Unguarded(pend)
    ensures Qualified(n, pend, k) == pend[..k] && AllRestateOk(n, pend, k)
  {
    if k > 0 {
      NothingRestated(n, pend, k - 1);
    }
  }

  /** Two finalize rules that match alike act alike. */
  ghost predicate FinalizesAlike(a: PendingRule, b: PendingRule) {
    a.route.egress != "" && b.route.egress != "" && a.node == b.node && MatchKey(a.route) == MatchKey(b.route) ==>
      a.route.egress == b.route.egress && a.route.target == b.route.target
  }

  lemma {:induction false} FinAtFrom(pend: seq<PendingRule>, at: (Name, string)) returns (i: nat)
    requires at in FinAt(pend)
    ensures i < |pend| && pend[i].route.egress != "" && at == (pend[i].node, MatchKey(pend[i].route))
    ensures FinAt(pend)[at] == (pend[i].route.egress, pend[i].route.target)
  {
    i := |pend| - 1;
    if pend[i].route.egress == "" || at != (pend[i].node, MatchKey(pend[i].route)) {
      i := FinAtFrom(pend[..i], at);
    }
  }

  /** The record of finalize actions agrees with every rule so far. */
  lemma {:induction false} Recorded(pend: seq<PendingRule>, k: nat, i: nat)
    requires i < k <= |pend| && NoFinalizeConflict(pend, k) && pend[i].route.egress != ""
    ensures var at := (pend[i].node, MatchKey(pend[i].route));
            at in FinAt(pend[..k]) && FinAt(pend[..k])[at] == (pend[i].route.egress, pend[i].route.target)
  {
    assert pend[..k][..k - 1] == pend[..k - 1];
    if i < k - 1 {
      Recorded(pend, k - 1, i);
      assert FinalizeOk(pend, k - 1);
    }
  }

  lemma {:induction false} AlikeAccepted(pend: seq<PendingRule>, k: nat)
    requires k <= |pend| && NoClash(pend)
    ensures NoFinalizeConflict(pend, k)
  {
    if k > 0 {
      AlikeAccepted(pend, k - 1);
      var at := (pend[k - 1].node, MatchKey(pend[k - 1].route));
      if pend[k - 1].route.egress != "" && at in FinAt(pend[..k - 1]) {
        var i := FinAtFrom(pend[..k - 1], at);
        assert FinalizesAlike(pend[i], pend[k - 1]);
      }
    }
  }

  lemma AcceptedAlike(pend: seq<PendingRule>, i: nat, j: nat)
    requires i < j < |pend| && NoFinalizeConflict(pend, j) && FinalizeOk(pend, j)
    ensures FinalizesAlike(pend[i], pend[j])
  {
    if pend[i].route.egress != "" {
      Recorded(pend, j, i);
    }
  }

  lemma {:induction false} ConflictFreeSoFar(pend: seq<PendingRule>, j: nat, k: nat)
    requires j < k <= |pend| && NoFinalizeConflict(pend, k)
    ensures NoFinalizeConflict(pend, j) && FinalizeOk(pend, j)
  {
    if j < k - 1 {
      ConflictFreeSoFar(pend, j, k - 1);
    }
  }

  /** The running check accepts exactly the rules of which any two that finalize on one node and match alike act
      alike. */
  lemma NoConflict(pend: seq<PendingRule>)
    ensures NoFinalizeConflict(pend, |pend|) <==> NoClash(pend)
  {
    if NoClash(pend) {
      AlikeAccepted(pend, |pend|);
    }
    if NoFinalizeConflict(pend, |pend|) {
      forall i, j | 0 <= i < j < |pend| ensures FinalizesAlike(pend[i], pend[j]) {
        ConflictFreeSoFar(pend, j, |pend|);
        AcceptedAlike(pend, i, j);
      }
    }
  }

  // ---- compiling -----------------------------------------------------------------------------------------

  /** The rule's node has what its row names. */
  ghost predicate Fits(n: Network, pr: PendingRule) {
    && pr.node in n.nodes && Attached(n, pr.node, pr.route.target) && Attached(n, pr.node, pr.route.source)
    && (pr.route.egress != "" ==> pr.route.egress in n.nodes[pr.node].egresses && pr.route.processed == Some(false))
    && (pr.route.processed == Some(true) ==> pr.route.conditions == [])
  }

  lemma RowFits(n: Network, node: Name, r: Route)
    requires GatewaysHaveLinks(n) && AllFacts(n) && node in n.nodes && !n.nodes[node].kernel
    requires AllFit(n, Rules(n)) && r in Emitted(Rules(n), node)
    ensures RouteOk(n, CompiledNode(n, node), r)
  {
    EmittedSound(Rules(n), node, r);
    var k :| 0 <= k < |Rules(n)| && Rules(n)[k].node == node && Rules(n)[k].route == r;
    assert Fits(n, Rules(n)[k]);
    AttachedNamed(n, node, r.target);
    AttachedNamed(n, node, r.source);
    forall c | c in r.conditions ensures c in CompiledNode(n, node).conditions {
      ConditionsExactly(n, node, c);
    }
  }

  lemma {:induction false} NoForwards(n: Network, node: Name, p: nat)
    requires p <= |n.paths| && (forall q :: 0 <= q < |n.paths| ==> Userspace(n, n.paths[q]))
    ensures Forwards(n, node, p) == []
  {
    if p > 0 {
      NoForwards(n, node, p - 1);
    }
  }

  lemma {:induction false} RestateKnown(n: Network, when: seq<Name>)
    ensures forall c :: c in Restate(n, when) ==> c in n.conditions
  {
    if when != [] {
      RestateKnown(n, when[1..]);
    }
  }

  lemma {:induction false} PathRefsKnown(n: Network, p: Path, b: nat)
    requires b <= |p.routes| && UserspacePathOk(n, p)
    ensures forall ref :: ref in PathRefs(p, b) ==> ref.1 in n.conditions
  {
    if b > 0 {
      PathRefsKnown(n, p, b - 1);
      assert UserspaceBranchOk(n, p.routes[b - 1]);
    }
  }

  lemma {:induction false} OriginRefsKnown(n: Network, k: nat)
    requires k <= |n.paths| && forall p :: 0 <= p < |n.paths| ==> UserspacePathOk(n, n.paths[p])
    ensures forall ref :: ref in OriginRefs(n, k) ==> ref.1 in n.conditions
  {
    if k > 0 {
      OriginRefsKnown(n, k - 1);
      PathRefsKnown(n, n.paths[k - 1], |n.paths[k - 1].routes|);
    }
  }

  lemma {:induction false} RestatedRefsKnown(n: Network, pend: seq<PendingRule>, k: nat)
    requires k <= |pend|
    ensures forall ref :: ref in RestatedRefs(n, pend, k) ==> ref.1 in n.conditions
  {
    if k > 0 {
      RestatedRefsKnown(n, pend, k - 1);
      RestateKnown(n, pend[k - 1].when);
    }
  }

  lemma ConditionsAreNamed(n: Network, node: Name)
    requires Validated(n) && GatewaysHaveLinks(n) && Tidy(n) && node in n.nodes
    ensures "" !in CompiledNode(n, node).conditions
  {
    TidyPathsOk(n);
    OriginRefsKnown(n, |n.paths|);
    RestatedRefsKnown(n, All(n), |All(n)|);
    NamedFrom(n, Refs(n), node);
  }

  lemma TidyPathsOk(n: Network)
    requires Validated(n) && Tidy(n)
    ensures forall p :: 0 <= p < |n.paths| ==> UserspacePathOk(n, n.paths[p])
  {
    forall p | 0 <= p < |n.paths| ensures UserspacePathOk(n, n.paths[p]) {
      assert TidyNode(n, n.paths[p].node);
    }
  }

  lemma NamedFrom(n: Network, refs: set<(Name, Name)>, node: Name)
    requires forall ref :: ref in refs ==> ref.1 in n.conditions
    requires forall c :: c in n.conditions ==> c != "" && !n.conditions[c].Health?
    ensures "" !in NodeConditions(n, refs, node)
  {
  }

  ghost predicate AllFit(n: Network, rules: seq<PendingRule>) {
    forall k :: 0 <= k < |rules| ==> Fits(n, rules[k])
  }

  /** Every node is on some link or has a tun. */
  ghost predicate NoneAlone(n: Network, attached: map<Name, Name>) {
    forall node :: node in n.nodes ==> node in attached && Attached(n, node, attached[node])
  }

  lemma NodeFits(n: Network, node: Name, x: Name)
    requires Validated(n) && GatewaysHaveLinks(n) && Tidy(n) && node in n.nodes && Attached(n, node, x)
    requires AllFit(n, Rules(n))
    ensures NodeValid(n, node, CompiledNode(n, node))
  {
    var cfg := CompiledNode(n, node);
    ValidatedFacts(n);
    ConditionsAreNamed(n, node);
    ConnectionsTidy(n, node);
    assert TidyNode(n, node);
    AttachedNamed(n, node, x);
    NoForwards(n, node, |n.paths|);
    forall r | r in cfg.routes ensures RouteOk(n, cfg, r) {
      SortedMembers(n.nodes[node], Emitted(Rules(n), node), r);
      RowFits(n, node, r);
    }
  }

  /** A tidy network compiles if its rules are accepted and fit their nodes, and no node stands alone. */
  lemma FitCompiles(n: Network, attached: map<Name, Name>)
    requires Validated(n) && GatewaysHaveLinks(n) && Tidy(n) && RulesOk(n) && AllFit(n, Rules(n))
    requires NoneAlone(n, attached)
    ensures Compilable(n)
  {
    assert forall l :: l in n.links ==> TidyLink(n, l);
    forall node | node in n.nodes ensures NodeValid(n, node, CompiledNode(n, node)) {
      NodeFits(n, node, attached[node]);
    }
  }

  /** No rule past the origin with a condition diverges. */
  ghost predicate Unguarded(pend: seq<PendingRule>) {
    forall i :: 0 <= i < |pend| && pend[i].relay && pend[i].when != [] ==> !Diverges(pend, pend[i])
  }

  ghost predicate NoClash(pend: seq<PendingRule>) {
    forall i, j :: 0 <= i < j < |pend| ==> FinalizesAlike(pend[i], pend[j])
  }

  /** A tidy network with nothing to restate compiles to its derived rules, if they fit. */
  lemma PlainCompiles(n: Network, derived: seq<PendingRule>, attached: map<Name, Name>)
    requires Validated(n) && GatewaysHaveLinks(n) && Tidy(n) && AllOriented(n) && Pending(n, |n.paths|) == derived
    requires Unguarded(derived) && NoClash(derived) && AllFit(n, derived) && NoneAlone(n, attached)
    ensures Compilable(n) && Rules(n) == derived
  {
    NothingRestated(n, derived, |derived|);
    assert derived[..|derived|] == derived;
    NoConflict(derived);
    FitCompiles(n, attached);
  }
}
