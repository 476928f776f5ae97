/** The schema compiler: expands a network into one configuration per node. Each loop of the
    compiler is a method proved against a closed description of what it leaves behind. */
module Compile {
  import opened Common
  import opened Schema

  datatype ConnType = TunType | ConnectType | ListenType

  datatype Direction = NoDirection | Incoming | Outgoing

  datatype Connection = Connection(name: Name, typ: ConnType, direction: Direction, multiple: bool, idSetter: Name)

  datatype Route = Route(processed: Option<bool>, source: Name, conditions: seq<Name>, egress: Name, target: Name)

  datatype Forward = Forward(when: seq<Name>, egress: Name)

  datatype NodeConfig = NodeConfig(
    connections: seq<Connection>, egresses: set<Name>, routes: seq<Route>, forward: seq<Forward>, conditions: set<Name>)

  /** A derived route before it is placed: `relay` marks the unprocessed leg past the origin. */
  datatype PendingRule = PendingRule(node: Name, route: Route, relay: bool, when: seq<Name>)

  // ---- connections -----------------------------------------------------------------

  predicate IsTunOf(nd: NodeSpec, t: Name) {
    exists i :: 0 <= i < |nd.conns| && nd.conns[i].name == t && nd.conns[i].tun
  }

  /** An id-setter needs a multiple downlink and a tun on the dialer. */
  predicate IdSetterOk(n: Network, l: Link)
    requires l.dialer in n.nodes
  {
    l.idSetter == "" || (l.dataflow.ToDialer? && l.multiple && IsTunOf(n.nodes[l.dialer], l.idSetter))
  }

  function DialerEnd(l: Link): Connection {
    Connection(l.name, ConnectType, if l.dataflow.ToAcceptor? then Outgoing else Incoming, false, l.idSetter)
  }

  function AcceptorEnd(l: Link): Connection {
    Connection(l.name, ListenType, if l.dataflow.ToAcceptor? then Incoming else Outgoing,
               l.dataflow.ToDialer? && l.multiple, "")
  }

  ghost function TunEnds(conns: seq<Conn>): seq<Connection> {
    if conns == [] then []
    else
      var c := conns[|conns| - 1];
      TunEnds(conns[..|conns| - 1]) + if c.tun then [Connection(c.name, TunType, NoDirection, false, "")] else []
  }

  ghost function LinkEnds(links: seq<Link>, node: Name): seq<Connection> {
    if links == [] then []
    else
      var l := links[|links| - 1];
      LinkEnds(links[..|links| - 1], node)
      + (if l.dialer == node then [DialerEnd(l)] else [])
      + (if l.acceptor == node then [AcceptorEnd(l)] else [])
  }

  /** A node's connections: its tuns, then one end of every link it takes part in. */
  ghost function Connections(n: Network, node: Name): seq<Connection>
    requires node in n.nodes
  {
    (if n.nodes[node].kernel then [] else TunEnds(n.nodes[node].conns)) + LinkEnds(n.links, node)
  }

  method NodeTuns(nd: NodeSpec) returns (cs: seq<Connection>)
    ensures cs == if nd.kernel then [] else TunEnds(nd.conns)
  {
    cs := [];
    if !nd.kernel {
      for i := 0 to |nd.conns|
        invariant cs == TunEnds(nd.conns[..i])
      {
        assert nd.conns[..i + 1][..i] == nd.conns[..i];
        if nd.conns[i].tun {
          cs := cs + [Connection(nd.conns[i].name, TunType, NoDirection, false, "")];
        }
      }
      assert nd.conns[..|nd.conns|] == nd.conns;
    }
  }

  lemma LinkEndsNext(links: seq<Link>, i: nat, node: Name, before: seq<Connection>)
    requires i < |links|
    ensures before + LinkEnds(links[..i + 1], node)
         == before + LinkEnds(links[..i], node) + (if links[i].dialer == node then [DialerEnd(links[i])] else [])
            + (if links[i].acceptor == node then [AcceptorEnd(links[i])] else [])
  {
    assert links[..i + 1][..i] == links[..i];
  }

  method NodeConnections(n: Network, node: Name) returns (cs: seq<Connection>)
    requires node in n.nodes
    ensures cs == Connections(n, node)
  {
    cs := NodeTuns(n.nodes[node]);
    ghost var tuns := cs;
    for i := 0 to |n.links|
      invariant cs == tuns + LinkEnds(n.links[..i], node)
    {
      LinkEndsNext(n.links, i, node, tuns);
      var l := n.links[i];
      if l.dialer == node {
        cs := cs + [DialerEnd(l)];
      }
      if l.acceptor == node {
        cs := cs + [AcceptorEnd(l)];
      }
    }
    assert n.links[..|n.links|] == n.links;
  }

  // ---- rules one branch derives -------------------------------------------------------

  function Lk(links: map<Name, Link>, l: Name): Link {
    if l in links then links[l] else Link("", "", "", ToDialer, false, "")
  }

  /** At every shared node the chain's links meet: it receives over one and sends over the next. */
  ghost predicate Chained(chain: seq<Name>, links: map<Name, Link>) {
    forall i :: 0 <= i < |chain| - 1 ==> RelayOk(chain, links, i)
  }

  predicate RelayOk(chain: seq<Name>, links: map<Name, Link>, i: nat)
    requires i + 1 < |chain|
  {
    SenderOf(Lk(links, chain[i + 1])) == TargetOf(Lk(links, chain[i]))
  }

  /** A gateway branch is oriented: the origin sends, every relay receives then sends, and the
      origin receives the reply. */
  ghost predicate Oriented(origin: Name, br: Branch, links: map<Name, Link>) {
    br.gateway != "" && br.up != [] ==>
      && SenderOf(Lk(links, br.up[0])) == origin
      && Chained(br.up, links)
      && (br.down != [] ==> Chained(br.down, links) && TargetOf(Lk(links, br.down[|br.down| - 1])) == origin)
  }

  function OriginRule(origin: Name, br: Branch, tun: Name): PendingRule
    requires br.gateway != "" ==> br.up != []
  {
    if br.gateway == "" then PendingRule(origin, Route(Some(false), tun, br.when, br.egress, tun), false, [])
    else PendingRule(origin, Route(Some(false), tun, br.when, "", br.up[0]), false, [])
  }

  /** The rule for a packet that arrived over up-link `i`: relay it, or finalize it at the gateway. */
  function UpRule(br: Branch, tun: Name, links: map<Name, Link>, i: nat): PendingRule
    requires i < |br.up|
  {
    if i + 1 < |br.up| then
      PendingRule(TargetOf(Lk(links, br.up[i])), Route(Some(false), br.up[i], [], "", br.up[i + 1]), true, br.when)
    else
      PendingRule(br.gateway, Route(Some(false), br.up[i], [], br.egress, if br.down != [] then br.down[0] else tun),
                  true, br.when)
  }

  /** The rule for a reply that arrived over down-link `j`: relay it, or deliver it to the tun. */
  function DownRule(origin: Name, br: Branch, tun: Name, links: map<Name, Link>, j: nat): PendingRule
    requires j < |br.down|
  {
    if j + 1 < |br.down| then
      PendingRule(TargetOf(Lk(links, br.down[j])), Route(Some(true), br.down[j], [], "", br.down[j + 1]), false, [])
    else
      PendingRule(origin, Route(Some(true), br.down[j], [], "", tun), false, [])
  }

  ghost function UpRules(br: Branch, tun: Name, links: map<Name, Link>): seq<PendingRule> {
    seq(|br.up|, i requires 0 <= i < |br.up| => UpRule(br, tun, links, i))
  }

  ghost function DownRules(origin: Name, br: Branch, tun: Name, links: map<Name, Link>): seq<PendingRule> {
    seq(|br.down|, j requires 0 <= j < |br.down| => DownRule(origin, br, tun, links, j))
  }

  ghost function BranchRules(origin: Name, br: Branch, tun: Name, links: map<Name, Link>): seq<PendingRule>
    requires br.gateway != "" ==> br.up != []
  {
    [OriginRule(origin, br, tun)]
    + if br.gateway == "" then [] else UpRules(br, tun, links) + DownRules(origin, br, tun, links)
  }

  /** The up-path: a relay rule at every shared node, then the gateway's finalize rule. */
  method DeriveUp(br: Branch, tun: Name, links: map<Name, Link>) returns (r: Result<seq<PendingRule>, Error>)
    requires br.up != []
    ensures r.Ok? <==> Chained(br.up, links)
    ensures r.Ok? ==> r.value == UpRules(br, tun, links)
  {
    var pend := [];
    var i := 0;
    while i + 1 < |br.up|
      invariant 0 <= i < |br.up| && |pend| == i
      invariant forall k :: 0 <= k < i ==> RelayOk(br.up, links, k)
      invariant forall k :: 0 <= k < i ==> pend[k] == UpRule(br, tun, links, k)
    {
      if !RelayOk(br.up, links, i) {
        return Err(MisChained(br.up[i], br.up[i + 1]));
      }
      pend := pend + [UpRule(br, tun, links, i)];
      i := i + 1;
    }
    return Ok(pend + [UpRule(br, tun, links, i)]);
  }

  /** The down-path: a relay rule at every shared node, then delivery to the origin's tun. */
  method DeriveDown(origin: Name, br: Branch, tun: Name, links: map<Name, Link>)
    returns (r: Result<seq<PendingRule>, Error>)
    ensures r.Ok? <==>
              br.down == [] || (Chained(br.down, links) && TargetOf(Lk(links, br.down[|br.down| - 1])) == origin)
    ensures r.Ok? ==> r.value == DownRules(origin, br, tun, links)
  {
    var pend := [];
    if br.down == [] {
      return Ok(pend);
    }
    var j := 0;
    while j + 1 < |br.down|
      invariant 0 <= j < |br.down| && |pend| == j
      invariant forall k :: 0 <= k < j ==> RelayOk(br.down, links, k)
      invariant forall k :: 0 <= k < j ==> pend[k] == DownRule(origin, br, tun, links, k)
    {
      if !RelayOk(br.down, links, j) {
        return Err(MisChained(br.down[j], br.down[j + 1]));
      }
      pend := pend + [DownRule(origin, br, tun, links, j)];
      j := j + 1;
    }
    if TargetOf(Lk(links, br.down[j])) != origin {
      return Err(ReplyLost(br.down[j], origin));
    }
    return Ok(pend + [DownRule(origin, br, tun, links, j)]);
  }

  method DeriveBranch(origin: Name, br: Branch, tun: Name, links: map<Name, Link>)
    returns (r: Result<seq<PendingRule>, Error>)
    requires br.gateway != "" ==> br.up != []
    ensures r.Ok? <==> Oriented(origin, br, links)
    ensures r.Ok? ==> r.value == BranchRules(origin, br, tun, links)
  {
    var first := [OriginRule(origin, br, tun)];
    if br.gateway == "" {
      return Ok(first);
    }
    if SenderOf(Lk(links, br.up[0])) != origin {
      return Err(NotSender(origin, br.up[0]));
    }
    var up := DeriveUp(br, tun, links);
    if up.Err? {
      return up;
    }
    var down := DeriveDown(origin, br, tun, links);
    if down.Err? {
      return down;
    }
    return Ok(first + (up.value + down.value));
  }

  // ---- rules of the whole network ------------------------------------------------------

  ghost function PathTun(n: Network, p: Path): Name {
    if p.node in n.nodes && OriginTun(n.nodes[p.node]).Some? then OriginTun(n.nodes[p.node]).value else ""
  }

  ghost predicate Userspace(n: Network, p: Path) {
    p.node in n.nodes && !n.nodes[p.node].kernel
  }

  /** Rules of the first `b` branches of a path; a kernel path derives none. */
  ghost function PathRules(n: Network, p: Path, b: nat): seq<PendingRule>
    requires b <= |p.routes|
    requires forall k :: 0 <= k < |p.routes| ==> (p.routes[k].gateway != "" ==> p.routes[k].up != [])
  {
    if b == 0 || !Userspace(n, p) then []
    else PathRules(n, p, b - 1) + BranchRules(p.node, p.routes[b - 1], PathTun(n, p), LinkMap(n.links))
  }

  ghost predicate GatewaysHaveLinks(n: Network) {
    forall p, b :: 0 <= p < |n.paths| && 0 <= b < |n.paths[p].routes| ==>
      (n.paths[p].routes[b].gateway != "" ==> n.paths[p].routes[b].up != [])
  }

  ghost function Pending(n: Network, p: nat): seq<PendingRule>
    requires p <= |n.paths| && GatewaysHaveLinks(n)
  {
    if p == 0 then [] else Pending(n, p - 1) + PathRules(n, n.paths[p - 1], |n.paths[p - 1].routes|)
  }

  ghost predicate PathOriented(n: Network, p: Path) {
    Userspace(n, p) ==> forall b :: 0 <= b < |p.routes| ==> Oriented(p.node, p.routes[b], LinkMap(n.links))
  }

  ghost predicate AllOriented(n: Network) {
    forall p :: 0 <= p < |n.paths| ==> PathOriented(n, n.paths[p])
  }

  function RefsAt(node: Name, conditions: seq<Name>): set<(Name, Name)> {
    set c | c in conditions :: (node, c)
  }

  /** Conditions the origins themselves evaluate, as (node, condition) pairs. */
  ghost function OriginRefs(n: Network, p: nat): set<(Name, Name)>
    requires p <= |n.paths|
  {
    if p == 0 then {} else OriginRefs(n, p - 1) + PathRefs(n.paths[p - 1], |n.paths[p - 1].routes|)
  }

  ghost function PathRefs(p: Path, b: nat): set<(Name, Name)>
    requires b <= |p.routes|
  {
    if b == 0 then {} else PathRefs(p, b - 1) + RefsAt(p.node, p.routes[b - 1].when)
  }

  ghost function Forwards(n: Network, node: Name, p: nat): seq<Forward>
    requires p <= |n.paths|
  {
    if p == 0 then []
    else Forwards(n, node, p - 1) +
         if n.paths[p - 1].node == node && !Userspace(n, n.paths[p - 1])
         then seq(|n.paths[p - 1].routes|, b requires 0 <= b < |n.paths[p - 1].routes| =>
                    Forward(n.paths[p - 1].routes[b].when, n.paths[p - 1].routes[b].egress))
         else []
  }

  /** The branch loop of one userspace path. */
  method DerivePath(n: Network, path: Path, links: map<Name, Link>) returns (r: Result<seq<PendingRule>, Error>)
    requires links == LinkMap(n.links) && Userspace(n, path)
    requires forall k :: 0 <= k < |path.routes| ==> (path.routes[k].gateway != "" ==> path.routes[k].up != [])
    ensures r.Ok? <==> forall b :: 0 <= b < |path.routes| ==> Oriented(path.node, path.routes[b], links)
    ensures r.Ok? ==> r.value == PathRules(n, path, |path.routes|)
  {
    var found := FindOriginTun(n.nodes[path.node]);
    var tun := if found.Some? then found.value else "";
    var pend := [];
    for b := 0 to |path.routes|
      invariant pend == PathRules(n, path, b)
      invariant forall k :: 0 <= k < b ==> Oriented(path.node, path.routes[k], links)
    {
      var rules := DeriveBranch(path.node, path.routes[b], tun, links);
      if rules.Err? {
        return Err(rules.error);
      }
      pend := pend + rules.value;
    }
    return Ok(pend);
  }

  /** The path loop: collects the rules of every branch, in path and branch order. */
  method DerivePending(n: Network) returns (r: Result<seq<PendingRule>, Error>)
    requires GatewaysHaveLinks(n)
    requires forall p :: 0 <= p < |n.paths| ==> n.paths[p].node in n.nodes
    ensures r.Ok? <==> AllOriented(n)
    ensures r.Ok? ==> r.value == Pending(n, |n.paths|)
  {
    var links := BuildLinkMap(n.links);
    var pend := [];
    for p := 0 to |n.paths|
      invariant pend == Pending(n, p)
      invariant forall q :: 0 <= q < p ==> PathOriented(n, n.paths[q])
    {
      var path := n.paths[p];
      if n.nodes[path.node].kernel {
        KernelPathDerivesNothing(n, path, |path.routes|);
      } else {
        var rules := DerivePath(n, path, links);
        if rules.Err? {
          return rules;
        }
        pend := pend + rules.value;
      }
    }
    return Ok(pend);
  }

  lemma KernelPathDerivesNothing(n: Network, p: Path, b: nat)
    requires b <= |p.routes| && !Userspace(n, p)
    requires forall k :: 0 <= k < |p.routes| ==> (p.routes[k].gateway != "" ==> p.routes[k].up != [])
    ensures PathRules(n, p, b) == []
  {
  }

  // ---- restating conditions where branches diverge ---------------------------------------

  const NUL: char := '\0'
  const ARROW: char := '\U{2192}'

  /** Where a packet is when the rule applies: node and arrival connection, as the compiler keys it. */
  function Arrival(pr: PendingRule): string {
    pr.node + [NUL] + pr.route.source
  }

  function ActionKey(r: Route): string {
    r.egress + [ARROW] + r.target
  }

  ghost function Actions(pend: seq<PendingRule>, at: string): set<string> {
    set i | 0 <= i < |pend| && pend[i].relay && Arrival(pend[i]) == at :: ActionKey(pend[i].route)
  }

  ghost predicate Diverges(pend: seq<PendingRule>, pr: PendingRule) {
    pr.relay && |Actions(pend, Arrival(pr))| >= 2
  }

  /** The part of a branch condition that can be evaluated away from the origin. */
  function Restate(n: Network, when: seq<Name>): seq<Name> {
    if when == [] then []
    else (if when[0] in n.conditions && n.conditions[when[0]].DstIn? then [when[0]] else []) + Restate(n, when[1..])
  }

  /** A diverging rule that stays unguarded. */
  ghost predicate CatchAll(n: Network, pend: seq<PendingRule>, pr: PendingRule) {
    Diverges(pend, pr) && Restate(n, pr.when) == []
  }

  /** Arrivals already claimed by an unguarded rule among the first `k`. */
  ghost function Claimed(n: Network, pend: seq<PendingRule>, k: nat): set<string>
    requires k <= |pend|
  {
    if k == 0 then {}
    else Claimed(n, pend, k - 1) + if CatchAll(n, pend, pend[k - 1]) then {Arrival(pend[k - 1])} else {}
  }

  /** An unguarded diverging rule is a default, and no guarded one comes after it. */
  ghost predicate RestateOk(n: Network, pend: seq<PendingRule>, i: nat)
    requires i < |pend|
  {
    Diverges(pend, pend[i]) ==>
      if Restate(n, pend[i].when) == [] then pend[i].when == [] else Arrival(pend[i]) !in Claimed(n, pend, i)
  }

  ghost function QualifyRule(n: Network, pend: seq<PendingRule>, pr: PendingRule): PendingRule {
    if Diverges(pend, pr) && Restate(n, pr.when) != []
    then pr.(route := pr.route.(conditions := Restate(n, pr.when)))
    else pr
  }

  ghost function Qualified(n: Network, pend: seq<PendingRule>, k: nat): (out: seq<PendingRule>)
    requires k <= |pend|
    ensures |out| == k
  {
    if k == 0 then [] else Qualified(n, pend, k - 1) + [QualifyRule(n, pend, pend[k - 1])]
  }

  ghost predicate AllRestateOk(n: Network, pend: seq<PendingRule>, k: nat)
    requires k <= |pend|
  {
    k == 0 || (AllRestateOk(n, pend, k - 1) && RestateOk(n, pend, k - 1))
  }

  lemma RestateFails(n: Network, pend: seq<PendingRule>, i: nat, k: nat)
    requires i < k <= |pend| && !RestateOk(n, pend, i)
    ensures !AllRestateOk(n, pend, k)
  {
  }

  /** The restated conditions of the first `k` rules, as (node, condition) pairs. */
  ghost function RestatedRefs(n: Network, pend: seq<PendingRule>, k: nat): set<(Name, Name)>
    requires k <= |pend|
  {
    if k == 0 then {}
    else RestatedRefs(n, pend, k - 1) +
         if Diverges(pend, pend[k - 1]) then RefsAt(pend[k - 1].node, Restate(n, pend[k - 1].when)) else {}
  }

  lemma RestateNext(n: Network, when: seq<Name>, k: nat, done: seq<Name>)
    requires k < |when|
    ensures done + Restate(n, when[k..])
         == (if when[k] in n.conditions && n.conditions[when[k]].DstIn? then done + [when[k]] else done)
            + Restate(n, when[k + 1..])
  {
    assert when[k..][1..] == when[k + 1..];
  }

  method RestateConditions(n: Network, when: seq<Name>) returns (restate: seq<Name>)
    ensures restate == Restate(n, when)
  {
    restate := [];
    for k := 0 to |when|
      invariant restate + Restate(n, when[k..]) == Restate(n, when)
    {
      RestateNext(n, when, k, restate);
      if when[k] in n.conditions && n.conditions[when[k]].DstIn? {
        restate := restate + [when[k]];
      }
    }
  }

  method CollectActions(pend: seq<PendingRule>) returns (actions: map<string, set<string>>)
    ensures forall at :: at in actions ==> actions[at] == Actions(pend, at)
    ensures forall at :: at !in actions ==> Actions(pend, at) == {}
  {
    actions := map[];
    for i := 0 to |pend|
      invariant forall at :: at in actions ==> actions[at] == Actions(pend[..i], at)
      invariant forall at :: at !in actions ==> Actions(pend[..i], at) == {}
    {
      var pr := pend[i];
      ghost var before := actions;
      if pr.relay {
        var k := Arrival(pr);
        var old_ := if k in actions then actions[k] else {};
        actions := actions[k := old_ + {ActionKey(pr.route)}];
      }
      forall at
        ensures Actions(pend[..i + 1], at)
             == Actions(pend[..i], at) + if pr.relay && Arrival(pr) == at then {ActionKey(pr.route)} else {}
      {
        ActionsGrow(pend, i, at);
      }
    }
    assert pend[..|pend|] == pend;
  }

  lemma ActionsGrow(pend: seq<PendingRule>, i: nat, at: string)
    requires i < |pend|
    ensures Actions(pend[..i + 1], at)
         == Actions(pend[..i], at) + if pend[i].relay && Arrival(pend[i]) == at then {ActionKey(pend[i].route)} else {}
  {
    var a, b := pend[..i], pend[..i + 1];
    forall x | x in Actions(b, at)
      ensures x in Actions(a, at) + if pend[i].relay && Arrival(pend[i]) == at then {ActionKey(pend[i].route)} else {}
    {
      var k :| 0 <= k < |b| && b[k].relay && Arrival(b[k]) == at && ActionKey(b[k].route) == x;
      if k < i {
        assert a[k] == b[k];
      }
    }
    forall x | x in Actions(a, at) ensures x in Actions(b, at) {
      var k :| 0 <= k < |a| && a[k].relay && Arrival(a[k]) == at && ActionKey(a[k].route) == x;
      assert b[k] == a[k];
    }
    if pend[i].relay && Arrival(pend[i]) == at {
      assert b[i] == pend[i];
    }
  }

  /** The two passes of condition restatement: count the actions per arrival, then rewrite. */
  lemma QualifiedNext(n: Network, pend: seq<PendingRule>, i: nat)
    requires i < |pend|
    ensures Qualified(n, pend, i + 1) == Qualified(n, pend, i) + [QualifyRule(n, pend, pend[i])]
    ensures AllRestateOk(n, pend, i + 1) <==> AllRestateOk(n, pend, i) && RestateOk(n, pend, i)
    ensures Claimed(n, pend, i + 1)
         == Claimed(n, pend, i) + if CatchAll(n, pend, pend[i]) then {Arrival(pend[i])} else {}
    ensures RestatedRefs(n, pend, i + 1)
         == RestatedRefs(n, pend, i)
            + if Diverges(pend, pend[i]) then RefsAt(pend[i].node, Restate(n, pend[i].when)) else {}
  {
  }

  /** Restates one rule if its arrival diverges: the rule, the conditions it now refers to, and the arrival it claims
      if it stays unguarded. */
  method QualifyOne(n: Network, pend: seq<PendingRule>, i: nat, diverges: bool, catchAll: set<string>)
    returns (r: Result<PendingRule, Error>, refs: set<(Name, Name)>, claims: set<string>)
    requires i < |pend| && diverges == Diverges(pend, pend[i]) && catchAll == Claimed(n, pend, i)
    ensures r.Ok? <==> RestateOk(n, pend, i)
    ensures r.Ok? ==> r.value == QualifyRule(n, pend, pend[i])
    ensures r.Ok? ==> refs == if diverges then RefsAt(pend[i].node, Restate(n, pend[i].when)) else {}
    ensures r.Ok? ==> claims == if CatchAll(n, pend, pend[i]) then {Arrival(pend[i])} else {}
  {
    var pr := pend[i];
    var at := Arrival(pr);
    refs, claims := {}, {};
    if diverges {
      var restate := RestateConditions(n, pr.when);
      refs := RefsAt(pr.node, restate);
      if restate == [] {
        if pr.when != [] {
          return Err(Unrestatable(pr.node, pr.route.source)), refs, claims;
        }
        claims := {at};
      } else {
        if at in catchAll {
          return Err(DeadBranch(pr.node, pr.route.source)), refs, claims;
        }
        pr := pr.(route := pr.route.(conditions := restate));
      }
    }
    return Ok(pr), refs, claims;
  }

  method QualifyRules(n: Network, pend: seq<PendingRule>)
    returns (r: Result<seq<PendingRule>, Error>, refs: set<(Name, Name)>)
    ensures r.Ok? <==> AllRestateOk(n, pend, |pend|)
    ensures r.Ok? ==> r.value == Qualified(n, pend, |pend|) && refs == RestatedRefs(n, pend, |pend|)
  {
    var actions := CollectActions(pend);
    var out, catchAll := [], {};
    refs := {};
    for i := 0 to |pend|
      invariant out == Qualified(n, pend, i)
      invariant catchAll == Claimed(n, pend, i)
      invariant AllRestateOk(n, pend, i)
      invariant refs == RestatedRefs(n, pend, i)
    {
      var at := Arrival(pend[i]);
      var diverges := pend[i].relay && at in actions && |actions[at]| >= 2;
      assert diverges == Diverges(pend, pend[i]);
      QualifiedNext(n, pend, i);
      var one, restated, claims := QualifyOne(n, pend, i, diverges, catchAll);
      if one.Err? {
        RestateFails(n, pend, i, |pend|);
        return Err(one.error), refs;
      }
      refs, catchAll, out := refs + restated, catchAll + claims, out + [one.value];
    }
    return Ok(out), refs;
  }

  // ---- placing rules on nodes --------------------------------------------------------------

  const BAR: char := '|'

  function BoolText(b: Option<bool>): string {
    if b == Some(true) then "true" else "false"
  }

  function Join(names: seq<Name>): string {
    if names == [] then "" else if |names| == 1 then names[0] else names[0] + "," + Join(names[1..])
  }

  function MatchKey(r: Route): string {
    BoolText(r.processed) + [BAR] + r.source + [BAR] + Join(r.conditions)
  }

  function RouteKey(r: Route): string {
    MatchKey(r) + [BAR] + r.egress + [BAR] + r.target
  }

  /** The dedup keys of the placed rules. */
  ghost function Seen(pend: seq<PendingRule>): set<(Name, string)> {
    if pend == [] then {} else Seen(pend[..|pend| - 1]) + {(pend[|pend| - 1].node, RouteKey(pend[|pend| - 1].route))}
  }

  /** The routes placed on a node: derivation order, later duplicates dropped. */
  ghost function Emitted(pend: seq<PendingRule>, node: Name): seq<Route> {
    if pend == [] then []
    else
      var k := |pend| - 1;
      var done := Emitted(pend[..k], node);
      if pend[k].node != node || (node, RouteKey(pend[k].route)) in Seen(pend[..k]) then done
      else done + [pend[k].route]
  }

  /** The last finalize action recorded per node and match. */
  ghost function FinAt(pend: seq<PendingRule>): map<(Name, string), (Name, Name)> {
    if pend == [] then map[]
    else
      var pr := pend[|pend| - 1];
      var rest := FinAt(pend[..|pend| - 1]);
      if pr.route.egress == "" then rest else rest[(pr.node, MatchKey(pr.route)) := (pr.route.egress, pr.route.target)]
  }

  ghost predicate FinalizeOk(pend: seq<PendingRule>, i: nat)
    requires i < |pend|
  {
    var at := (pend[i].node, MatchKey(pend[i].route));
    pend[i].route.egress != "" && at in FinAt(pend[..i]) ==>
      FinAt(pend[..i])[at] == (pend[i].route.egress, pend[i].route.target)
  }

  ghost predicate NoFinalizeConflict(pend: seq<PendingRule>, k: nat)
    requires k <= |pend|
  {
    k == 0 || (NoFinalizeConflict(pend, k - 1) && FinalizeOk(pend, k - 1))
  }

  lemma FinalizeFails(pend: seq<PendingRule>, i: nat, k: nat)
    requires i < k <= |pend| && !FinalizeOk(pend, i)
    ensures !NoFinalizeConflict(pend, k)
  {
  }

  /** One more rule: what is seen and recorded. */
  lemma SeenStep(pend: seq<PendingRule>, i: nat)
    requires i < |pend|
    ensures var pr := pend[i];
            && Seen(pend[..i + 1]) == Seen(pend[..i]) + {(pr.node, RouteKey(pr.route))}
            && FinAt(pend[..i + 1])
               == (if pr.route.egress == "" then FinAt(pend[..i])
                   else FinAt(pend[..i])[(pr.node, MatchKey(pr.route)) := (pr.route.egress, pr.route.target)])
  {
    assert pend[..i + 1][..i] == pend[..i];
  }

  /** Every node has the routes the first `i` rules place on it. */
  ghost predicate Placed(out: map<Name, seq<Route>>, nodes: set<Name>, pend: seq<PendingRule>, i: nat)
    requires i <= |pend|
  {
    out.Keys == nodes && forall node :: node in nodes ==> out[node] == Emitted(pend[..i], node)
  }

  method PlaceRule(out: map<Name, seq<Route>>, nodes: set<Name>, seen: set<(Name, string)>, pend: seq<PendingRule>,
                   i: nat)
    returns (next: map<Name, seq<Route>>)
    requires i < |pend| && pend[i].node in nodes && Placed(out, nodes, pend, i) && seen == Seen(pend[..i])
    ensures Placed(next, nodes, pend, i + 1)
  {
    assert pend[..i + 1][..i] == pend[..i];
    var pr := pend[i];
    next := out;
    if (pr.node, RouteKey(pr.route)) !in seen {
      next := out[pr.node := out[pr.node] + [pr.route]];
    }
  }

  method EmitRules(nodes: set<Name>, pend: seq<PendingRule>) returns (r: Result<map<Name, seq<Route>>, Error>)
    requires forall i :: 0 <= i < |pend| ==> pend[i].node in nodes
    ensures r.Ok? <==> NoFinalizeConflict(pend, |pend|)
    ensures r.Ok? ==> r.value.Keys == nodes && forall node :: node in nodes ==> r.value[node] == Emitted(pend, node)
  {
    var out: map<Name, seq<Route>> := map node | node in nodes :: [];
    var seen, finAt: map<(Name, string), (Name, Name)> := {}, map[];
    for i := 0 to |pend|
      invariant Placed(out, nodes, pend, i)
      invariant seen == Seen(pend[..i]) && finAt == FinAt(pend[..i])
      invariant NoFinalizeConflict(pend, i)
    {
      var pr := pend[i];
      var at := (pr.node, MatchKey(pr.route));
      SeenStep(pend, i);
      if pr.route.egress != "" {
        if at in finAt && finAt[at] != (pr.route.egress, pr.route.target) {
          FinalizeFails(pend, i, |pend|);
          return Err(FinalizeConflict(pr.node, pr.route.source));
        }
        finAt := finAt[at := (pr.route.egress, pr.route.target)];
      }
      out := PlaceRule(out, nodes, seen, pend, i);
      seen := seen + {(pr.node, RouteKey(pr.route))};
    }
    assert pend[..|pend|] == pend;
    return Ok(out);
  }

  // ---- own-tun replies first ------------------------------------------------------------------

  predicate IsProcessedTun(r: Route, tun: Name) {
    r.processed == Some(true) && r.target == tun
  }

  ghost function OwnTun(tun: Name): Route -> bool {
    r => IsProcessedTun(r, tun)
  }

  ghost function NotOwnTun(tun: Name): Route -> bool {
    r => !IsProcessedTun(r, tun)
  }

  ghost function TunFirst(routes: seq<Route>, tun: Name): seq<Route> {
    Filter(routes, OwnTun(tun)) + Filter(routes, NotOwnTun(tun))
  }

  /** One step of the stable insertion sort: move `r` back while it compares less. */
  method InsertTunFirst(sorted: seq<Route>, r: Route, tun: Name, ghost mine: seq<Route>, ghost rest: seq<Route>)
    returns (out: seq<Route>)
    requires sorted == mine + rest
    requires forall x :: x in mine ==> IsProcessedTun(x, tun)
    requires forall x :: x in rest ==> !IsProcessedTun(x, tun)
    ensures out == if IsProcessedTun(r, tun) then mine + [r] + rest else mine + rest + [r]
  {
    var j := |sorted|;
    while j > 0 && IsProcessedTun(r, tun) && !IsProcessedTun(sorted[j - 1], tun)
      invariant 0 <= j <= |sorted|
      invariant if IsProcessedTun(r, tun) then j >= |mine| else j == |sorted|
    {
      assert sorted[j - 1] in mine || sorted[j - 1] in rest;
      j := j - 1;
    }
    out := sorted[..j] + [r] + sorted[j..];
    assert IsProcessedTun(r, tun) ==> j == |mine| by {
      assert forall k :: |mine| <= k < |sorted| ==> sorted[k] == rest[k - |mine|];
    }
    assert sorted[..|mine|] == mine && sorted[|mine|..] == rest;
  }

  lemma TunFirstSnoc(routes: seq<Route>, r: Route, tun: Name)
    ensures TunFirst(routes + [r], tun) ==
            if IsProcessedTun(r, tun) then Filter(routes, OwnTun(tun)) + [r] + Filter(routes, NotOwnTun(tun))
            else Filter(routes, OwnTun(tun)) + Filter(routes, NotOwnTun(tun)) + [r]
    ensures forall x :: x in Filter(routes, OwnTun(tun)) ==> IsProcessedTun(x, tun)
    ensures forall x :: x in Filter(routes, NotOwnTun(tun)) ==> !IsProcessedTun(x, tun)
  {
    SnocFilter(routes, r, OwnTun(tun));
    SnocFilter(routes, r, NotOwnTun(tun));
    Regroup(Filter(routes, OwnTun(tun)), Filter(routes, NotOwnTun(tun)), [r]);
  }

  lemma Regroup(a: seq<Route>, b: seq<Route>, c: seq<Route>)
    ensures a + (b + c) == a + b + c && a + c + (b + []) == a + c + b && (a + []) + (b + c) == a + b + c
  {
  }

  lemma SnocFilter(routes: seq<Route>, r: Route, p: Route -> bool)
    ensures Filter(routes + [r], p) == Filter(routes, p) + if p(r) then [r] else []
    ensures forall x :: x in Filter(routes, p) ==> p(x)
  {
    FilterConcat(routes, [r], p);
    FilterMembers(routes, p);
    assert Filter([r], p) == (if p(r) then [r] else []) + Filter([r][1..], p);
    assert [r][1..] == [];
  }

  method PlaceTunFirst(sorted: seq<Route>, ghost done: seq<Route>, r: Route, tun: Name) returns (out: seq<Route>)
    requires sorted == TunFirst(done, tun)
    ensures out == TunFirst(done + [r], tun)
  {
    TunFirstSnoc(done, r, tun);
    out := InsertTunFirst(sorted, r, tun, Filter(done, OwnTun(tun)), Filter(done, NotOwnTun(tun)));
  }

  method SortTunFirst(routes: seq<Route>, tun: Name) returns (out: seq<Route>)
    ensures out == TunFirst(routes, tun)
  {
    out := [];
    for i := 0 to |routes|
      invariant out == TunFirst(routes[..i], tun)
    {
      out := PlaceTunFirst(out, routes[..i], routes[i], tun);
      assert routes[..i + 1] == routes[..i] + [routes[i]];
    }
    assert routes[..|routes|] == routes;
  }
}
