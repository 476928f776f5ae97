/** The compiled network as it runs: a router built from a node's configuration does with a packet what the hop
    semantics of the mesh theorems says. */
module Deployed {
  import opened Common
  import opened Schema
  import opened Compile
  import opened NetworkCompiler
  import opened Routing
  import Mesh
  import MatchCache
  import Router

  /** A condition of the schema and the guard that evaluates it: a destination set answers as the set does for the
      packet's destination, a healthcheck as its probe. */
  ghost predicate GuardFor(n: Network, w: Mesh.World, t: nat, pkt: Mesh.Packet, c: Name, g: Router.Guard,
                           env: Router.Env)
    reads if g.DstGuard? then {g.m} else {}
  {
    && c in n.conditions
    && match n.conditions[c]
       case DstIn =>
         && g.DstGuard? && (env.dst.Some? <==> pkt.dst.Some?)
         && (env.dst.Some? ==> g.m.table(MatchCache.Unmap(env.dst.value)) == w.dstIn(c, pkt.dst.value))
       case Health(_, _) => g == Router.HealthGuard(c) && env.healthy(c) == w.health(t, c)
       case SrcIn => false
  }

  /** The connections of a configuration, each with whether it can send. */
  ghost predicate ConnectionsOf(cfg: NodeConfig, s: Router.Setup) {
    && (forall x :: x in s.conns <==> Named(cfg, x))
    && (forall x :: x in s.conns ==> (s.conns[x] <==> Sends(cfg.connections, x)))
  }

  /** The guards of a configuration. */
  ghost predicate GuardsOf(n: Network, w: Mesh.World, t: nat, pkt: Mesh.Packet, cfg: NodeConfig, s: Router.Setup,
                           env: Router.Env)
    reads set c | c in s.conditions && s.conditions[c].DstGuard? :: s.conditions[c].m
  {
    && s.conditions.Keys == cfg.conditions
    && forall c :: c in s.conditions ==> GuardFor(n, w, t, pkt, c, s.conditions[c], env)
  }

  /** A tun takes packets of its own identity only, any other connection all it can send. */
  ghost predicate TakesPackets(cfg: NodeConfig, w: Mesh.World, node: Name, owner: Mesh.Owner, env: Router.Env) {
    && (forall x :: env.accepts(x) <==> (TunNamed(cfg.connections, x) ==> w.id(node, x) == owner))
    && (forall x :: env.delivers(x) <==> env.accepts(x) && Sends(cfg.connections, x))
  }

  /** The router and the runtime around one packet at a node of the compiled network. */
  ghost predicate Runs(n: Network, w: Mesh.World, t: nat, pkt: Mesh.Packet, node: Name, s: Router.Setup,
                       env: Router.Env)
    requires GatewaysHaveLinks(n) && node in n.nodes
    reads set c | c in s.conditions && s.conditions[c].DstGuard? :: s.conditions[c].m
  {
    var cfg := CompiledNode(n, node);
    && ConnectionsOf(cfg, s) && GuardsOf(n, w, t, pkt, cfg, s, env) && TakesPackets(cfg, w, node, pkt.owner, env)
    && s.finalizers == cfg.egresses
  }

  /** The router accepts every table the compiler makes. */
  lemma CompiledAccepted(n: Network, node: Name, s: Router.Setup)
    requires Validated(n) && GatewaysHaveLinks(n) && Compilable(n) && node in n.nodes
    requires var cfg := CompiledNode(n, node);
             ConnectionsOf(cfg, s) && cfg.conditions <= s.conditions.Keys && s.finalizers == cfg.egresses
    ensures forall r :: r in CompiledNode(n, node).routes ==> Router.RuleOk(r, s)
  {
    var cfg := CompiledNode(n, node);
    assert NodeValid(n, node, cfg);
    forall r | r in cfg.routes ensures Router.RuleOk(r, s) {
      assert RouteOk(n, cfg, r);
      forall i | 0 <= i < |r.conditions| ensures r.conditions[i] in s.conditions {
        assert r.conditions[i] in r.conditions;
      }
    }
  }

  lemma SendersNamed(cs: seq<Connection>, cfg: NodeConfig, x: Name)
    requires cs == cfg.connections && Sends(cs, x)
    ensures Named(cfg, x)
  {
  }

  /** The runtime answers as the oracle of the mesh. */
  lemma RuntimeAgrees(n: Network, w: Mesh.World, t: nat, pkt: Mesh.Packet, node: Name, s: Router.Setup,
                      env: Router.Env)
    requires GatewaysHaveLinks(n) && node in n.nodes && Runs(n, w, t, pkt, node, s, env)
    ensures Router.Agrees(Mesh.OracleAt(n, w, t, node, pkt), env, s)
  {
    var o, cfg := Mesh.OracleAt(n, w, t, node, pkt), CompiledNode(n, node);
    forall x ensures o.accepts(x) == (x in s.conns && s.conns[x] && env.accepts(x)) {
      if Sends(cfg.connections, x) {
        SendersNamed(cfg.connections, cfg, x);
      }
    }
    forall c | c in s.conditions ensures o.passes(c) == Router.Passes(s.conditions[c], env) {
      assert GuardFor(n, w, t, pkt, c, s.conditions[c], env);
    }
  }

  /** A router compiled from the node's configuration handles a packet of any compiled source as one hop of the mesh:
      it forwards, delivers, finalizes or drops it just so. */
  method Handle(c: Router.Compiled, ghost sources: seq<Name>, s: Router.Setup, source: Name, processed: bool,
                env: Router.Env, ghost n: Network, ghost w: Mesh.World, ghost t: nat, ghost pkt: Mesh.Packet,
                ghost node: Name)
    returns (r: Option<Route>)
    requires GatewaysHaveLinks(n) && node in n.nodes && Runs(n, w, t, pkt, node, s, env) && "" !in s.finalizers
    requires Router.CompiledFor(c, CompiledNode(n, node).routes, sources, s) && source in sources
    requires Router.Sound(Router.MatchersOf(s)) && (env.dst.Some? ==> MatchCache.WellFormed(env.dst.value))
    modifies set m | m in Router.MatchersOf(s) :: m.slots
    ensures Mesh.Act(Connections(n, node), r) == Mesh.Hop(n, w, t, node, source, processed, pkt)
  {
    RuntimeAgrees(n, w, t, pkt, node, s, env);
    r := Router.RoutePacket(c, CompiledNode(n, node).routes, sources, s, source, processed, env,
                            Mesh.OracleAt(n, w, t, node, pkt));
  }
}
