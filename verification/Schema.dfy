/** The network schema: nodes, links, and paths whose ordered branches pick a way out.
    A path is a switch: the first branch whose condition holds fixes the up-links, the gateway,
    the egress and the down-links of a packet. */
module Schema {
  import opened Common

  type Name = string

  datatype Dataflow = ToAcceptor | ToDialer

  datatype Link = Link(name: Name, dialer: Name, acceptor: Name, dataflow: Dataflow, multiple: bool, idSetter: Name)

  /** A node attachment; the list holds the schema's mapping in key order. */
  datatype Conn = Conn(name: Name, tun: bool, captureDefault: bool)

  datatype NodeSpec = NodeSpec(kernel: bool, conns: seq<Conn>, egresses: set<Name>)

  datatype Condition = DstIn | SrcIn | Health(path: Name, gateway: Name)

  datatype Branch = Branch(when: seq<Name>, egress: Name, up: seq<Name>, down: seq<Name>, gateway: Name)

  datatype Path = Path(name: Name, node: Name, routes: seq<Branch>)

  datatype Network =
    Network(nodes: map<Name, NodeSpec>, links: seq<Link>, paths: seq<Path>, conditions: map<Name, Condition>)

  datatype Error =
    | DownWithoutUp
    | UnknownLink(link: Name)
    | GatewayMismatch(gateway: Name, sender: Name)
    | BadIdSetter(link: Name)
    | NotSender(origin: Name, link: Name)
    | MisChained(prev: Name, next: Name)
    | ReplyLost(link: Name, origin: Name)
    | Unrestatable(node: Name, source: Name)
    | DeadBranch(node: Name, source: Name)
    | FinalizeConflict(node: Name, source: Name)
    | BadHealthcheck(condition: Name)
    | InvalidConfig(node: Name)

  // ---- links -------------------------------------------------------------------

  /** The node a link delivers data to. */
  function TargetOf(l: Link): Name {
    if l.dataflow.ToAcceptor? then l.acceptor else l.dialer
  }

  /** The node that sends data on a link. */
  function SenderOf(l: Link): Name {
    if l.dataflow.ToAcceptor? then l.dialer else l.acceptor
  }

  ghost function LinkMap(links: seq<Link>): map<Name, Link> {
    if links == [] then map[] else LinkMap(links[..|links| - 1])[links[|links| - 1].name := links[|links| - 1]]
  }

  method BuildLinkMap(links: seq<Link>) returns (m: map<Name, Link>)
    ensures m == LinkMap(links)
  {
    m := map[];
    for i := 0 to |links|
      invariant m == LinkMap(links[..i])
    {
      assert links[..i + 1][..i] == links[..i];
      m := m[links[i].name := links[i]];
    }
    assert links[..|links|] == links;
  }

  ghost predicate UniqueLinkNames(links: seq<Link>) {
    forall i, j :: 0 <= i < j < |links| ==> links[i].name != links[j].name
  }

  /** With unique names the index finds every link under its own name and nothing else. */
  lemma {:induction false} LinkMapExact(links: seq<Link>)
    ensures forall n :: n in LinkMap(links) ==> LinkMap(links)[n] in links && LinkMap(links)[n].name == n
    ensures UniqueLinkNames(links) ==>
              forall l :: l in links ==> l.name in LinkMap(links) && LinkMap(links)[l.name] == l
  {
    if links != [] {
      var k := |links| - 1;
      LinkMapExact(links[..k]);
      assert forall l :: l in links <==> l in links[..k] || l == links[k];
      assert UniqueLinkNames(links) ==> forall l :: l in links[..k] ==> l.name != links[k].name;
    }
  }

  // ---- origin tun --------------------------------------------------------------

  ghost function TunNames(conns: seq<Conn>): seq<Name> {
    if conns == [] then []
    else TunNames(conns[..|conns| - 1]) + if conns[|conns| - 1].tun then [conns[|conns| - 1].name] else []
  }

  /** The name of the last capturing tun visited, "" if there is none. */
  ghost function LastCapture(conns: seq<Conn>): Name {
    if conns == [] then ""
    else
      var c := conns[|conns| - 1];
      if c.tun && c.captureDefault then c.name else LastCapture(conns[..|conns| - 1])
  }

  ghost function OriginTun(nd: NodeSpec): Option<Name> {
    var tuns := TunNames(nd.conns);
    if LastCapture(nd.conns) != "" then Some(LastCapture(nd.conns))
    else if |tuns| == 1 then Some(tuns[0])
    else None
  }

  method FindOriginTun(nd: NodeSpec) returns (r: Option<Name>)
    ensures r == OriginTun(nd)
  {
    var capture, sole, n := "", "", 0;
    for i := 0 to |nd.conns|
      invariant capture == LastCapture(nd.conns[..i])
      invariant n == |TunNames(nd.conns[..i])|
      invariant n > 0 ==> sole == TunNames(nd.conns[..i])[n - 1]
    {
      assert nd.conns[..i + 1][..i] == nd.conns[..i];
      var c := nd.conns[i];
      if c.tun {
        n, sole := n + 1, c.name;
        if c.captureDefault {
          capture := c.name;
        }
      }
    }
    assert nd.conns[..|nd.conns|] == nd.conns;
    if capture != "" {
      return Some(capture);
    }
    return if n == 1 then Some(sole) else None;
  }

  /** The origin tun is a tun of the node. */
  lemma {:induction false} OriginTunIsTun(conns: seq<Conn>)
    ensures forall t :: t in TunNames(conns) ==> exists c :: c in conns && c.tun && c.name == t
    ensures LastCapture(conns) != "" ==> LastCapture(conns) in TunNames(conns)
  {
    if conns != [] {
      var k := |conns| - 1;
      OriginTunIsTun(conns[..k]);
      forall t | t in TunNames(conns)
        ensures exists c :: c in conns && c.tun && c.name == t
      {
        if t in TunNames(conns[..k]) {
          var c :| c in conns[..k] && c.tun && c.name == t;
          assert c in conns;
        } else {
          assert conns[k] in conns;
        }
      }
    }
  }

  predicate Captures(c: Conn) {
    c.tun && c.captureDefault
  }

  /** With a capturing tun the origin tun is such a tun, and otherwise it is the only tun, if there is just one. */
  lemma OriginTunExactly(nd: NodeSpec)
    requires forall c :: c in nd.conns && Captures(c) ==> c.name != ""
    ensures if exists c :: c in nd.conns && Captures(c)
            then OriginTun(nd).Some? && exists c :: c in nd.conns && Captures(c) && OriginTun(nd) == Some(c.name)
            else forall t :: OriginTun(nd) == Some(t) <==> OnlyTun(nd.conns, t)
  {
    CaptureFound(nd.conns);
    forall t ensures TunNames(nd.conns) == [t] <==> OnlyTun(nd.conns, t) {
      OnlyTunNamed(nd.conns, t);
    }
  }

  /** Just one of the connections is a tun, and it is named `t`. */
  ghost predicate OnlyTun(conns: seq<Conn>, t: Name) {
    exists i: nat :: OnlyAt(conns, i, t)
  }

  lemma {:induction false} CaptureFound(conns: seq<Conn>)
    requires forall c :: c in conns && Captures(c) ==> c.name != ""
    ensures LastCapture(conns) != "" <==> exists c :: c in conns && Captures(c)
    ensures LastCapture(conns) != "" ==> exists c :: c in conns && Captures(c) && c.name == LastCapture(conns)
  {
    if conns != [] {
      var k := |conns| - 1;
      assert conns[k] in conns;
      CaptureFound(conns[..k]);
      if LastCapture(conns[..k]) != "" {
        var c :| c in conns[..k] && Captures(c) && c.name == LastCapture(conns[..k]);
        assert c in conns;
      }
      if c :| c in conns && Captures(c) {
        assert c in conns[..k] || c == conns[k];
      }
    }
  }

  /** `i` is the only tun. */
  predicate OnlyAt(conns: seq<Conn>, i: nat, t: Name) {
    && i < |conns| && conns[i].tun && conns[i].name == t
    && forall j :: 0 <= j < |conns| && j != i ==> !conns[j].tun
  }

  ghost predicate NoTun(conns: seq<Conn>) {
    forall j :: 0 <= j < |conns| ==> !conns[j].tun
  }

  lemma {:induction false} NoTunNamed(conns: seq<Conn>)
    ensures TunNames(conns) == [] <==> NoTun(conns)
  {
    if conns != [] {
      NoTunNamed(conns[..|conns| - 1]);
    }
  }

  /** What one more connection does to being the only tun. */
  lemma OnlyTunSnoc(conns: seq<Conn>, c: Conn, t: Name)
    ensures OnlyTun(conns + [c], t) <==> if c.tun then NoTun(conns) && c.name == t else OnlyTun(conns, t)
  {
    var all := conns + [c];
    assert all[|conns|] == c && forall j :: 0 <= j < |conns| ==> all[j] == conns[j];
    if OnlyTun(all, t) {
      var i: nat :| OnlyAt(all, i, t);
      if c.tun {
        assert i == |conns|;
        forall j | 0 <= j < |conns| ensures !conns[j].tun {
          assert !all[j].tun;
        }
      } else {
        assert OnlyAt(conns, i, t);
      }
    }
    if c.tun && NoTun(conns) && c.name == t {
      assert OnlyAt(all, |conns|, t);
    }
    if !c.tun && OnlyTun(conns, t) {
      var i: nat :| OnlyAt(conns, i, t);
      assert OnlyAt(all, i, t);
    }
  }

  lemma {:induction false} OnlyTunNamed(conns: seq<Conn>, t: Name)
    ensures TunNames(conns) == [t] <==> OnlyTun(conns, t)
  {
    if conns != [] {
      var k := |conns| - 1;
      OnlyTunNamed(conns[..k], t);
      NoTunNamed(conns[..k]);
      OnlyTunSnoc(conns[..k], conns[k], t);
      assert conns[..k] + [conns[k]] == conns;
      LastIs(TunNames(conns[..k]), conns[k].name, t);
    }
  }

  lemma LastIs(names: seq<Name>, x: Name, t: Name)
    ensures names + [x] == [t] <==> names == [] && x == t
  {
    if names + [x] == [t] {
      assert |names + [x]| == 1 && (names + [x])[0] == t;
    }
  }

  // ---- gateways ----------------------------------------------------------------

  /** The terminus of the last up-link, which must also send the first down-link. */
  function GatewayOf(br: Branch, links: map<Name, Link>): Result<Name, Error> {
    if br.up == [] then
      if br.down != [] then Err(DownWithoutUp) else Ok("")
    else
      var last := br.up[|br.up| - 1];
      if last !in links then Err(UnknownLink(last))
      else
        var gw := TargetOf(links[last]);
        if br.down == [] then Ok(gw)
        else if br.down[0] !in links then Err(UnknownLink(br.down[0]))
        else if SenderOf(links[br.down[0]]) != gw then Err(GatewayMismatch(gw, SenderOf(links[br.down[0]])))
        else Ok(gw)
  }

  /** A branch is local, or its up-path ends where its down-path, if it has one, starts. */
  lemma GatewayExactly(br: Branch, links: map<Name, Link>, gw: Name)
    ensures GatewayOf(br, links) == Ok(gw) <==>
              if br.up == [] then br.down == [] && gw == ""
              else
                && br.up[|br.up| - 1] in links && TargetOf(links[br.up[|br.up| - 1]]) == gw
                && (br.down != [] ==> br.down[0] in links && SenderOf(links[br.down[0]]) == gw)
  {
  }

  /** Every branch carries the gateway its links imply. */
  ghost predicate Inferred(n: Network) {
    forall p, b :: 0 <= p < |n.paths| && 0 <= b < |n.paths[p].routes| ==>
      GatewayOf(n.paths[p].routes[b], LinkMap(n.links)) == Ok(n.paths[p].routes[b].gateway)
  }

  method InferBranchGateways(routes: seq<Branch>, links: map<Name, Link>) returns (r: Result<seq<Branch>, Error>)
    ensures r.Ok? <==> forall b :: 0 <= b < |routes| ==> GatewayOf(routes[b], links).Ok?
    ensures r.Ok? ==> |r.value| == |routes| && forall b :: 0 <= b < |routes| ==>
                        r.value[b] == routes[b].(gateway := GatewayOf(routes[b], links).value)
  {
    var out := routes;
    for b := 0 to |routes|
      invariant |out| == |routes|
      invariant forall k :: 0 <= k < b ==> GatewayOf(routes[k], links).Ok?
      invariant forall k :: 0 <= k < b ==> out[k] == routes[k].(gateway := GatewayOf(routes[k], links).value)
      invariant forall k :: b <= k < |routes| ==> out[k] == routes[k]
    {
      var gw := GatewayOf(out[b], links);
      if gw.Err? {
        return Err(gw.error);
      }
      out := out[b := out[b].(gateway := gw.value)];
    }
    return Ok(out);
  }

  /** Fills every branch's gateway; on an already inferred network it changes nothing. */
  method InferGateways(n: Network) returns (r: Result<Network, Error>)
    ensures r.Ok? ==> Inferred(r.value)
    ensures r.Ok? <==> forall p, b :: 0 <= p < |n.paths| && 0 <= b < |n.paths[p].routes| ==>
                         GatewayOf(n.paths[p].routes[b], LinkMap(n.links)).Ok?
    ensures r.Ok? ==> r.value.(paths := n.paths) == n && |r.value.paths| == |n.paths|
    ensures Inferred(n) ==> r == Ok(n)
  {
    var links := BuildLinkMap(n.links);
    var paths := n.paths;
    for i := 0 to |n.paths|
      invariant |paths| == |n.paths|
      invariant forall p, b :: 0 <= p < i && 0 <= b < |n.paths[p].routes| ==> GatewayOf(n.paths[p].routes[b], links).Ok?
      invariant forall p :: 0 <= p < i ==>
                  |paths[p].routes| == |n.paths[p].routes| && paths[p].(routes := n.paths[p].routes) == n.paths[p]
      invariant forall p, b :: 0 <= p < i && 0 <= b < |n.paths[p].routes| ==>
                  paths[p].routes[b] == n.paths[p].routes[b].(gateway := GatewayOf(n.paths[p].routes[b], links).value)
      invariant forall p :: i <= p < |n.paths| ==> paths[p] == n.paths[p]
    {
      var routes := InferBranchGateways(paths[i].routes, links);
      if routes.Err? {
        return Err(routes.error);
      }
      paths := paths[i := paths[i].(routes := routes.value)];
    }
    r := Ok(n.(paths := paths));
    if Inferred(n) {
      forall p | 0 <= p < |paths| ensures paths[p] == n.paths[p] {
        assert paths[p].routes == n.paths[p].routes;
      }
      assert paths == n.paths;
    }
  }

  // ---- what a loaded schema guarantees -------------------------------------------

  /** Some branch is a default, and only defaults follow it. */
  ghost predicate DefaultsLast(routes: seq<Branch>) {
    && (exists d :: 0 <= d < |routes| && routes[d].when == [])
    && forall i, j :: 0 <= i < j < |routes| && routes[i].when == [] ==> routes[j].when == []
  }

  ghost predicate UserspaceBranchOk(n: Network, br: Branch) {
    && (forall c :: c in br.when ==> c in n.conditions && !n.conditions[c].SrcIn?)
    && br.egress != ""
    && (forall l :: l in br.up + br.down ==> l in LinkMap(n.links))
  }

  ghost predicate UserspacePathOk(n: Network, p: Path) {
    && DefaultsLast(p.routes)
    && forall b :: 0 <= b < |p.routes| ==> UserspaceBranchOk(n, p.routes[b])
  }

  /** The branch loop of a path's validation, with its running `sawDefault` flag. */
  method ValidatePath(n: Network, p: Path) returns (ok: bool)
    ensures ok <==> UserspacePathOk(n, p)
  {
    var links := BuildLinkMap(n.links);
    var sawDefault := false;
    for i := 0 to |p.routes|
      invariant sawDefault <==> exists b :: 0 <= b < i && p.routes[b].when == []
      invariant forall a, b :: 0 <= a < b < i && p.routes[a].when == [] ==> p.routes[b].when == []
      invariant forall b :: 0 <= b < i ==> UserspaceBranchOk(n, p.routes[b])
    {
      var br := p.routes[i];
      if br.when == [] {
        sawDefault := true;
      } else if sawDefault {
        return false;
      }
      if c :| c in br.when && (c !in n.conditions || n.conditions[c].SrcIn?) {
        assert !UserspaceBranchOk(n, p.routes[i]);
        return false;
      }
      if br.egress == "" {
        assert !UserspaceBranchOk(n, p.routes[i]);
        return false;
      }
      if l :| l in br.up + br.down && l !in links {
        assert !UserspaceBranchOk(n, p.routes[i]);
        return false;
      }
    }
    return sawDefault;
  }

  // ---- kernel paths --------------------------------------------------------------

  predicate SrcBranch(n: Network, br: Branch) {
    |br.when| == 1 && br.when[0] in n.conditions && n.conditions[br.when[0]].SrcIn?
  }

  predicate DstBranch(n: Network, br: Branch) {
    |br.when| == 1 && br.when[0] in n.conditions && n.conditions[br.when[0]].DstIn?
  }

  /** Local branches by egresses of the node: src_in branches, then dst_in branches, then one default. */
  ghost predicate KernelPathOk(n: Network, p: Path)
    requires p.node in n.nodes
  {
    var last := |p.routes| - 1;
    && last >= 0 && p.routes[last].when == []
    && (forall b :: 0 <= b <= last ==> KernelBranchOk(n, p, b))
    && (forall b :: 0 <= b < last ==> SrcBranch(n, p.routes[b]) || DstBranch(n, p.routes[b]))
    && (forall a, b :: 0 <= a < b < last && DstBranch(n, p.routes[a]) ==> DstBranch(n, p.routes[b]))
  }

  predicate KernelBranchOk(n: Network, p: Path, b: nat)
    requires p.node in n.nodes && b < |p.routes|
  {
    var br := p.routes[b];
    br.up == [] && br.down == [] && br.egress != "" && br.egress in n.nodes[p.node].egresses
  }

  /** The branch loop of a kernel path's validation: a phase that only moves forward and a count of defaults. */
  method ValidateKernelPath(n: Network, p: Path) returns (ok: bool)
    requires p.node in n.nodes
    ensures ok <==> KernelPathOk(n, p)
  {
    var phase, defaults := 0, 0;
    for i := 0 to |p.routes|
      invariant 0 <= phase <= 2 && 0 <= defaults && (defaults == 0 ==> phase < 2)
      invariant forall b :: 0 <= b < i ==> KernelBranchOk(n, p, b)
      invariant defaults == 0 ==> forall b :: 0 <= b < i ==> SrcBranch(n, p.routes[b]) || DstBranch(n, p.routes[b])
      invariant defaults == 0 && phase == 0 ==> forall b :: 0 <= b < i ==> SrcBranch(n, p.routes[b])
      invariant phase == 1 ==> exists b :: 0 <= b < i && DstBranch(n, p.routes[b])
      invariant forall a, b :: 0 <= a < b < i && DstBranch(n, p.routes[a]) && p.routes[b].when != [] ==>
                  DstBranch(n, p.routes[b])
      invariant defaults > 0 ==> phase == 2 && i > 0 && p.routes[i - 1].when == []
      invariant defaults == 1 ==>
                  forall b :: 0 <= b < i - 1 ==> SrcBranch(n, p.routes[b]) || DstBranch(n, p.routes[b])
      invariant defaults > 1 ==> i > 1 && p.routes[i - 2].when == []
    {
      var br := p.routes[i];
      if br.up != [] || br.down != [] || br.egress == "" || br.egress !in n.nodes[p.node].egresses {
        assert !KernelBranchOk(n, p, i);
        return false;
      }
      if br.when == [] {
        defaults, phase := defaults + 1, 2;
      } else if phase == 2 || |br.when| != 1 || br.when[0] !in n.conditions {
        return false;
      } else {
        match n.conditions[br.when[0]]
        case SrcIn =>
          if phase > 0 {
            return false;
          }
        case DstIn =>
          phase := 1;
        case Health(_, _) =>
          return false;
      }
    }
    return defaults == 1;
  }

  /** What loading a schema checks, as far as routing is concerned. Link endpoints are non-empty because the
      one-line link syntax insists on them. */
  ghost predicate Validated(n: Network) {
    && UniqueLinkNames(n.links)
    && (forall l :: l in n.links ==> l.name != "" && l.dialer != "" && l.acceptor != "")
    && (forall l :: l in n.links ==> l.dialer in n.nodes && l.acceptor in n.nodes)
    && (forall l :: l in n.links ==> !n.nodes[l.dialer].kernel && !n.nodes[l.acceptor].kernel)
    && Inferred(n)
    && (forall p, q :: 0 <= p < q < |n.paths| ==> n.paths[p].node != n.paths[q].node)
    && (forall p :: 0 <= p < |n.paths| ==> n.paths[p].node in n.nodes)
    && (forall p :: 0 <= p < |n.paths| && !n.nodes[n.paths[p].node].kernel ==>
          OriginTun(n.nodes[n.paths[p].node]).Some? && UserspacePathOk(n, n.paths[p]))
    && (forall p {:trigger KernelLoads(n, p)} :: 0 <= p < |n.paths| ==> KernelLoads(n, p))
  }

  ghost predicate KernelLoads(n: Network, p: int)
    requires 0 <= p < |n.paths|
  {
    n.paths[p].node in n.nodes && n.nodes[n.paths[p].node].kernel ==> KernelPathOk(n, n.paths[p])
  }
}
