/** Packets crossing the compiled mesh, hop by hop, and what the schema promised about them. */
module Mesh {
  import opened Common
  import opened Schema
  import opened Compile
  import opened NetworkCompiler
  import opened Routing
  import opened Tables

  type Owner = nat

  type Addr = seq<bool>

  datatype Packet = Packet(owner: Owner, dst: Option<Addr>)

  /** The outside: tun identities, the liveness of each probe over time, and prefix-set membership,
      which is the same on every node that holds a condition. */
  datatype World = World(id: (Name, Name) -> Owner, health: (nat, Name) -> bool, dstIn: (Name, Addr) -> bool)

  // ---- source semantics ------------------------------------------------------------------

  ghost predicate Holds(n: Network, w: World, t: nat, pkt: Packet, c: Name) {
    c in n.conditions &&
    match n.conditions[c]
    case DstIn => pkt.dst.Some? && w.dstIn(c, pkt.dst.value)
    case Health(_, _) => w.health(t, c)
    case SrcIn => false
  }

  ghost predicate AllHold(n: Network, w: World, t: nat, pkt: Packet, when: seq<Name>) {
    forall c :: c in when ==> Holds(n, w, t, pkt, c)
  }

  /** Branch `b` is the first of the path whose conditions hold at time `t`. */
  ghost predicate Chosen(n: Network, w: World, t: nat, pkt: Packet, p: Path, b: nat) {
    && b < |p.routes| && AllHold(n, w, t, pkt, p.routes[b].when)
    && forall c :: 0 <= c < b ==> !AllHold(n, w, t, pkt, p.routes[c].when)
  }

  /** A loaded userspace path always chooses a branch. */
  lemma SomeBranchChosen(n: Network, w: World, t: nat, pkt: Packet, p: Path)
    requires UserspacePathOk(n, p)
    ensures exists b :: Chosen(n, w, t, pkt, p, b)
  {
    var d :| 0 <= d < |p.routes| && p.routes[d].when == [];
    var b := 0;
    while !AllHold(n, w, t, pkt, p.routes[b].when)
      invariant 0 <= b <= d
      invariant forall c :: 0 <= c < b ==> !AllHold(n, w, t, pkt, p.routes[c].when)
      decreases d - b
    {
      b := b + 1;
    }
    assert Chosen(n, w, t, pkt, p, b);
  }

  // ---- target semantics ------------------------------------------------------------------

  datatype Verdict = Forwarded(link: Name) | Delivered(tun: Name) | Finalized(egress: Name, via: Name) | Dropped

  /** A tun accepts its own identity only; every other sender currently accepts. */
  ghost predicate Accepts(cs: seq<Connection>, w: World, node: Name, c: Name, owner: Owner) {
    Sends(cs, c) && (TunNamed(cs, c) ==> w.id(node, c) == owner)
  }

  ghost function OracleAt(n: Network, w: World, t: nat, node: Name, pkt: Packet): Oracle
    requires node in n.nodes
  {
    Oracle(c => Accepts(Connections(n, node), w, node, c, pkt.owner),
           c => Accepts(Connections(n, node), w, node, c, pkt.owner),
           c => Holds(n, w, t, pkt, c))
  }

  ghost function Act(cs: seq<Connection>, r: Option<Route>): Verdict {
    match r
    case None => Dropped
    case Some(r) =>
      if r.egress != "" then Finalized(r.egress, r.target)
      else if TunNamed(cs, r.target) then Delivered(r.target) else Forwarded(r.target)
  }

  /** One node's decision at time `t` on a packet that arrived on `source`. */
  ghost function Hop(n: Network, w: World, t: nat, node: Name, source: Name, processed: bool, pkt: Packet): Verdict
    requires GatewaysHaveLinks(n) && node in n.nodes
  {
    Act(Connections(n, node), Select(CompiledNode(n, node).routes, source, processed, OracleAt(n, w, t, node, pkt)))
  }

  /** The run from (node, source) crosses exactly the links `trace` and ends at node `at` with `end`.
      Decisions are functions of the state, so the run is unique. */
  ghost predicate Follows(n: Network, w: World, t: nat, node: Name, source: Name, processed: bool, pkt: Packet,
                          trace: seq<Name>, at: Name, end: Verdict)
    requires GatewaysHaveLinks(n)
    decreases trace
  {
    && node in n.nodes
    && if trace == [] then node == at && Hop(n, w, t, node, source, processed, pkt) == end
       else
         && Hop(n, w, t, node, source, processed, pkt) == Forwarded(trace[0])
         && trace[0] in LinkMap(n.links)
         && Follows(n, w, t + 1, TargetOf(LinkMap(n.links)[trace[0]]), trace[0], processed, pkt, trace[1..], at, end)
  }

  /** One more hop in front of a run. */
  lemma FollowsStep(n: Network, w: World, t: nat, node: Name, source: Name, processed: bool, pkt: Packet,
                    next: Name, rest: seq<Name>, at: Name, end: Verdict)
    requires GatewaysHaveLinks(n) && node in n.nodes && next in LinkMap(n.links)
    requires Hop(n, w, t, node, source, processed, pkt) == Forwarded(next)
    requires Follows(n, w, t + 1, TargetOf(LinkMap(n.links)[next]), next, processed, pkt, rest, at, end)
    ensures Follows(n, w, t, node, source, processed, pkt, [next] + rest, at, end)
  {
    assert ([next] + rest)[1..] == rest;
  }

  // ---- what the schema must respect ------------------------------------------------------

  ghost predicate Distinct(names: seq<Name>) {
    forall i, j :: 0 <= i < j < |names| ==> names[i] != names[j]
  }

  /** One condition at most (all the route syntax can write), and no separator in a name. */
  ghost predicate CleanBranch(br: Branch) {
    |br.when| <= 1 && Clean(br.egress) && forall c :: c in br.when ==> Clean(c)
  }

  /** Up-link `i` of branch `b` of path `p` is `l`, and the packet then goes to (egress, target). */
  ghost predicate UpHop(n: Network, p: int, b: int, i: int, l: Name, egress: Name, target: Name) {
    OnBranch(n, p, b) &&
    var br := n.paths[p].routes[b];
    && br.gateway != "" && 0 <= i < |br.up| && br.up[i] == l
    && egress == (if i + 1 < |br.up| then "" else br.egress)
    && target
       == (if i + 1 < |br.up| then br.up[i + 1] else if br.down != [] then br.down[0] else PathTun(n, n.paths[p]))
  }

  /** Down-link `j` of branch `b` of path `p` is `l`, and the reply then goes to link `next`. */
  ghost predicate DownHop(n: Network, p: int, b: int, j: int, l: Name, next: Name) {
    OnBranch(n, p, b) &&
    var br := n.paths[p].routes[b];
    br.gateway != "" && 0 <= j < |br.down| - 1 && br.down[j] == l && br.down[j + 1] == next
  }

  ghost predicate CleanNet(n: Network) {
    && (forall l :: l in n.links ==> Clean(l.name))
    && (forall p :: 0 <= p < |n.paths| ==> Clean(PathTun(n, n.paths[p])))
    && (forall p, b :: OnBranch(n, p, b) ==> CleanBranch(n.paths[p].routes[b]))
  }

  /** Branch `b` of path `p` has its up-path to itself: it uses no up-link twice and has a way back, no egress up
      to it in its path holds an arrow, and no earlier path relays one of its up-links differently. */
  ghost predicate UpClear(n: Network, p: int, b: int) {
    OnBranch(n, p, b) &&
    var br := n.paths[p].routes[b];
    && Distinct(br.up) && (br.gateway != "" ==> br.down != [])
    && (forall c :: 0 <= c <= b ==> ARROW !in n.paths[p].routes[c].egress)
    && (forall i, q, c, j, l, e1, t1, e2, t2 ::
          UpHop(n, p, b, i, l, e1, t1) && UpHop(n, q, c, j, l, e2, t2) && q < p ==> e1 == e2 && t1 == t2)
  }

  /** Path `p` has its down-paths to itself: none of its branches uses a down-link twice, and no earlier path
      relays one of its down-links differently. */
  ghost predicate DownClear(n: Network, p: int) {
    && (forall b :: OnBranch(n, p, b) ==> Distinct(n.paths[p].routes[b].down))
    && (forall b, i, q, c, j, l, t1, t2 ::
          DownHop(n, p, b, i, l, t1) && DownHop(n, q, c, j, l, t2) && q < p ==> t1 == t2)
  }

  /** Everything the mesh theorems ask, of all paths and branches. */
  ghost predicate Sound(n: Network) {
    Validated(n) && CleanNet(n) && forall p, b :: OnBranch(n, p, b) ==> UpClear(n, p, b) && DownClear(n, p)
  }

  /** Different tuns carry different identities. */
  ghost predicate IdsDistinct(n: Network, w: World) {
    forall a, s, b, t ::
      (a in n.nodes && b in n.nodes && TunNamed(Connections(n, a), s) && TunNamed(Connections(n, b), t)
       && w.id(a, s) == w.id(b, t)) ==> a == b && s == t
  }

  // ---- connections -------------------------------------------------------------------------

  lemma {:induction false} LinkEndsHas(links: seq<Link>, node: Name, l: Link)
    requires l in links
    ensures l.dialer == node ==> DialerEnd(l) in LinkEnds(links, node)
    ensures l.acceptor == node ==> AcceptorEnd(l) in LinkEnds(links, node)
  {
    var k := |links| - 1;
    if l in links[..k] {
      LinkEndsHas(links[..k], node, l);
    }
  }

  lemma {:induction false} TunEndsHas(conns: seq<Conn>, t: Name)
    requires t in TunNames(conns)
    ensures Connection(t, TunType, NoDirection, false, "") in TunEnds(conns)
  {
    var k := |conns| - 1;
    if t in TunNames(conns[..k]) {
      TunEndsHas(conns[..k], t);
    }
  }

  ghost predicate NamesUnique(cs: seq<Connection>) {
    forall a, b :: a in cs && b in cs && a.name == b.name ==> a == b
  }

  /** The sender of a link can send on it, its target receives on it, and neither takes it for a tun. */
  lemma LinkEndpoint(n: Network, node: Name, l: Link)
    requires node in n.nodes && l in n.links && NamesUnique(Connections(n, node))
    ensures SenderOf(l) == node ==> Sends(Connections(n, node), l.name) && !TunNamed(Connections(n, node), l.name)
    ensures TargetOf(l) == node ==> Receives(Connections(n, node), l.name) && !TunNamed(Connections(n, node), l.name)
  {
    LinkEndsHas(n.links, node, l);
    var cs := Connections(n, node);
    assert l.dialer == node ==> DialerEnd(l) in cs;
    assert l.acceptor == node ==> AcceptorEnd(l) in cs;
  }

  lemma CompiledNamesUnique(n: Network, node: Name)
    requires Validated(n) && GatewaysHaveLinks(n) && Compilable(n) && node in n.nodes && !n.nodes[node].kernel
    ensures NamesUnique(Connections(n, node))
    ensures forall c :: c in Connections(n, node) ==> c.name != ""
  {
    assert NodeValid(n, node, CompiledNode(n, node));
  }

  lemma PathTunEndpoint(n: Network, p: nat)
    requires Validated(n) && GatewaysHaveLinks(n) && Compilable(n) && p < |n.paths| && Userspace(n, n.paths[p])
    ensures OriginTun(n.nodes[n.paths[p].node]) == Some(PathTun(n, n.paths[p]))
    ensures TunNamed(Connections(n, n.paths[p].node), PathTun(n, n.paths[p])) && PathTun(n, n.paths[p]) != ""
  {
    var node := n.paths[p].node;
    assert OriginTun(n.nodes[node]).Some?;
    OriginTunConnected(n, node);
    CompiledNamesUnique(n, node);
  }

  lemma OriginTunConnected(n: Network, node: Name)
    requires node in n.nodes && !n.nodes[node].kernel && OriginTun(n.nodes[node]).Some?
    ensures TunNamed(Connections(n, node), OriginTun(n.nodes[node]).value)
  {
    var tun := OriginTun(n.nodes[node]).value;
    OriginTunIsTun(n.nodes[node].conns);
    TunEndsHas(n.nodes[node].conns, tun);
    assert Connection(tun, TunType, NoDirection, false, "") in Connections(n, node);
  }
}
