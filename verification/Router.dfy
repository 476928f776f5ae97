/** The packet router: rules compiled into one target list per processed flag and source, and a dispatch
    that walks the list with a lazily parsed destination and cached matchers. It chooses what a first-match
    walk of the raw rules with uncached membership would. */
module Router {
  import opened Common
  import opened Schema
  import opened Compile
  import opened Routing
  import opened MatchCache

  /** A destination set, or the liveness of a probe. */
  datatype Guard = DstGuard(m: Matcher) | HealthGuard(probe: Name)

  /** A resolved rule, which keeps the rule it came from. */
  datatype Target = Target(rule: Route, finalize: bool, conn: Name, sender: bool, guards: seq<Guard>)

  /** `conns` says of each connection whether it can send. */
  datatype Setup = Setup(conns: map<Name, bool>, conditions: map<Name, Guard>, finalizers: set<Name>)

  datatype Compiled = Compiled(lists: map<(bool, Name), seq<Target>>, warnings: seq<nat>)

  // ---- compiling ---------------------------------------------------------------------------------------

  predicate RuleOk(r: Route, s: Setup) {
    && (r.egress != "" ==> r.processed == Some(false) && r.egress in s.finalizers)
    && r.target in s.conns && (r.source == "" || r.source in s.conns)
    && forall i :: 0 <= i < |r.conditions| ==> r.conditions[i] in s.conditions
  }

  function GuardsOf(r: Route, s: Setup): (g: seq<Guard>)
    requires RuleOk(r, s)
    ensures |g| == |r.conditions|
  {
    seq(|r.conditions|, i requires 0 <= i < |r.conditions| => s.conditions[r.conditions[i]])
  }

  function Resolved(r: Route, s: Setup): Target
    requires RuleOk(r, s)
  {
    Target(r, r.egress in s.finalizers, r.target, s.conns[r.target], GuardsOf(r, s))
  }

  predicate Matches(r: Route, processed: bool, src: Name) {
    (r.processed.Some? ==> r.processed.value == processed) && (r.source == "" || r.source == src)
  }

  ghost function Matching(processed: bool, src: Name): Route -> bool {
    r => Matches(r, processed, src)
  }

  /** `list` is the rows for a flag and a source, in table order, resolved. */
  ghost predicate ListFor(list: seq<Target>, rows: seq<Route>, s: Setup) {
    && |list| == |rows|
    && forall i :: 0 <= i < |list| ==> RuleOk(rows[i], s) && list[i] == Resolved(rows[i], s)
  }

  ghost predicate CompiledFor(c: Compiled, rules: seq<Route>, sources: seq<Name>, s: Setup) {
    && (forall p, src :: (p, src) in c.lists <==> src in sources)
    && (forall p, src :: (p, src) in c.lists ==> ListFor(c.lists[(p, src)], Filter(rules, Matching(p, src)), s))
    && (forall i :: i in c.warnings <==> 0 <= i < |rules| && rules[i].target in s.conns && !s.conns[rules[i].target])
  }

  method BuildList(rules: seq<Route>, resolved: seq<Target>, processed: bool, src: Name, ghost s: Setup)
    returns (list: seq<Target>)
    requires ListFor(resolved, rules, s)
    ensures ListFor(list, Filter(rules, Matching(processed, src)), s)
  {
    list := [];
    for i := 0 to |rules|
      invariant ListFor(list, Filter(rules[..i], Matching(processed, src)), s)
    {
      FilterSnoc(rules, i, Matching(processed, src));
      if Matches(rules[i], processed, src) {
        list := list + [resolved[i]];
      }
    }
    assert rules[..|rules|] == rules;
  }

  lemma FilterSnoc(rules: seq<Route>, i: nat, p: Route -> bool)
    requires i < |rules|
    ensures Filter(rules[..i + 1], p) == Filter(rules[..i], p) + if p(rules[i]) then [rules[i]] else []
  {
    assert rules[..i + 1] == rules[..i] + [rules[i]];
    SnocFilter(rules[..i], rules[i], p);
  }

  /** Validates and resolves every rule; `None` exactly if some rule is bad. */
  method ResolveRules(rules: seq<Route>, s: Setup) returns (r: Option<(seq<Target>, seq<nat>)>)
    ensures r.Some? <==> forall i :: 0 <= i < |rules| ==> RuleOk(rules[i], s)
    ensures r.Some? ==> ListFor(r.value.0, rules, s)
    ensures r.Some? ==> forall i :: i in r.value.1 <==> 0 <= i < |rules| && !s.conns[rules[i].target]
  {
    var resolved: seq<Target>, warnings: seq<nat> := [], [];
    for i := 0 to |rules|
      invariant forall k :: 0 <= k < i ==> RuleOk(rules[k], s)
      invariant |resolved| == i && forall k :: 0 <= k < i ==> resolved[k] == Resolved(rules[k], s)
      invariant forall k :: k in warnings <==> 0 <= k < i && !s.conns[rules[k].target]
    {
      var ru := rules[i];
      var ok := CheckRule(ru, s);
      if !ok {
        return None;
      }
      if !s.conns[ru.target] {
        warnings := warnings + [i];
      }
      resolved := resolved + [Resolved(ru, s)];
    }
    return Some((resolved, warnings));
  }

  method CheckRule(ru: Route, s: Setup) returns (ok: bool)
    ensures ok <==> RuleOk(ru, s)
  {
    if ru.egress != "" {
      if ru.processed.None? || ru.processed.value {
        return false;
      }
      if ru.egress !in s.finalizers {
        return false;
      }
    }
    if ru.target !in s.conns || (ru.source != "" && ru.source !in s.conns) {
      return false;
    }
    for i := 0 to |ru.conditions|
      invariant forall k :: 0 <= k < i ==> ru.conditions[k] in s.conditions
    {
      if ru.conditions[i] !in s.conditions {
        return false;
      }
    }
    return true;
  }

  /** A table is refused exactly if a rule is bad; a warning names each rule whose target cannot send. */
  method CompileTable(rules: seq<Route>, sources: seq<Name>, s: Setup) returns (r: Option<Compiled>)
    ensures r.Some? <==> forall i :: 0 <= i < |rules| ==> RuleOk(rules[i], s)
    ensures r.Some? ==> CompiledFor(r.value, rules, sources, s)
  {
    var resolved := ResolveRules(rules, s);
    if resolved.None? {
      return None;
    }
    var lists: map<(bool, Name), seq<Target>> := map[];
    for k := 0 to |sources|
      invariant forall p, src :: (p, src) in lists <==> src in sources[..k]
      invariant forall p, src :: (p, src) in lists ==> ListFor(lists[(p, src)], Filter(rules, Matching(p, src)), s)
    {
      var src := sources[k];
      var unproc := BuildList(rules, resolved.value.0, false, src, s);
      var proc := BuildList(rules, resolved.value.0, true, src, s);
      lists := lists[(false, src) := unproc][(true, src) := proc];
    }
    return Some(Compiled(lists, resolved.value.1));
  }

  // ---- dispatching -------------------------------------------------------------------------------------

  /** The runtime around one packet: which connections accept and deliver it, which probes are up, and
      the destination its payload parses to, if any. */
  datatype Env = Env(accepts: Name -> bool, delivers: Name -> bool, healthy: Name -> bool, dst: Option<Addr>)

  /** Uncached truth of a guard. */
  ghost predicate Passes(g: Guard, env: Env)
    reads if g.DstGuard? then {g.m} else {}
  {
    match g
    case DstGuard(m) => env.dst.Some? && m.table(Unmap(env.dst.value))
    case HealthGuard(probe) => env.healthy(probe)
  }

  /** The matchers in use: each truthful, no two sharing a cache. */
  ghost predicate Sound(ms: set<Matcher>)
    reads ms, set m | m in ms :: m.slots
  {
    && (forall m :: m in ms ==> m.Valid())
    && (forall a, b :: a in ms && b in ms && a != b ==> a.slots != b.slots)
  }

  predicate Uses(gs: seq<Guard>, ms: set<Matcher>) {
    forall i :: 0 <= i < |gs| && gs[i].DstGuard? ==> gs[i].m in ms
  }

  ghost predicate AllPass(gs: seq<Guard>, env: Env, ms: set<Matcher>)
    requires Uses(gs, ms)
    reads ms
  {
    forall i :: 0 <= i < |gs| ==> Passes(gs[i], env)
  }

  ghost predicate TargetEligible(t: Target, env: Env, ms: set<Matcher>)
    requires Uses(t.guards, ms)
    reads ms
  {
    t.sender && env.accepts(t.conn) && AllPass(t.guards, env, ms) && (t.finalize || env.delivers(t.conn))
  }

  method Lookup(m: Matcher, dst: Addr, ms: set<Matcher>) returns (res: bool)
    requires Sound(ms) && m in ms && WellFormed(dst)
    modifies set m | m in ms :: m.slots
    ensures Sound(ms) && res == m.table(Unmap(dst))
  {
    res := m.Contains(dst);
  }

  method PassAll(gs: seq<Guard>, env: Env, dst: Option<Addr>, ms: set<Matcher>) returns (ok: bool)
    requires Sound(ms) && Uses(gs, ms) && dst == env.dst && (dst.Some? ==> WellFormed(dst.value))
    modifies set m | m in ms :: m.slots
    ensures Sound(ms) && (ok <==> AllPass(gs, env, ms))
  {
    for i := 0 to |gs|
      invariant Sound(ms) && forall k :: 0 <= k < i ==> Passes(gs[k], env)
    {
      var pass := false;
      match gs[i] {
        case DstGuard(m) =>
          if dst.Some? {
            pass := Lookup(m, dst.value, ms);
          }
        case HealthGuard(probe) =>
          pass := env.healthy(probe);
      }
      if !pass {
        assert !Passes(gs[i], env);
        return false;
      }
    }
    return true;
  }

  /** Walks the list; the destination is parsed at the first guarded target, and only then. */
  method Dispatch(list: seq<Target>, env: Env, ms: set<Matcher>) returns (chosen: Option<nat>)
    requires Sound(ms) && (forall i :: 0 <= i < |list| ==> Uses(list[i].guards, ms))
    requires env.dst.Some? ==> WellFormed(env.dst.value)
    modifies set m | m in ms :: m.slots
    ensures Sound(ms)
    ensures chosen.Some? ==> chosen.value < |list| && TargetEligible(list[chosen.value], env, ms)
    ensures forall i :: 0 <= i < |list| && (chosen.Some? ==> i < chosen.value) ==> !TargetEligible(list[i], env, ms)
  {
    var dst: Option<Addr>, parsed := None, false;
    for i := 0 to |list|
      invariant Sound(ms) && (parsed ==> dst == env.dst)
      invariant forall k :: 0 <= k < i ==> !TargetEligible(list[k], env, ms)
    {
      var t := list[i];
      if t.sender && env.accepts(t.conn) {
        var pass := true;
        if |t.guards| > 0 {
          if !parsed {
            dst, parsed := env.dst, true;
          }
          pass := PassAll(t.guards, env, dst, ms);
        }
        if pass && (t.finalize || env.delivers(t.conn)) {
          return Some(i);
        }
      }
    }
    return None;
  }

  // ---- refinement --------------------------------------------------------------------------------------

  /** The naive walk's view of the same runtime. */
  ghost predicate Agrees(o: Oracle, env: Env, s: Setup)
    reads set c | c in s.conditions && s.conditions[c].DstGuard? :: s.conditions[c].m
  {
    && (forall c :: o.accepts(c) == (c in s.conns && s.conns[c] && env.accepts(c)))
    && (forall c :: o.delivers(c) == env.delivers(c))
    && (forall c :: c in s.conditions ==> o.passes(c) == Passes(s.conditions[c], env))
  }

  ghost function MatchersOf(s: Setup): set<Matcher> {
    set c | c in s.conditions && s.conditions[c].DstGuard? :: s.conditions[c].m
  }

  lemma GuardsInUse(r: Route, s: Setup)
    requires RuleOk(r, s)
    ensures Uses(GuardsOf(r, s), MatchersOf(s))
  {
  }

  /** A resolved target is eligible exactly when its row is, given that the row matches. */
  lemma SameEligible(r: Route, s: Setup, env: Env, o: Oracle, processed: bool, src: Name)
    requires RuleOk(r, s) && Agrees(o, env, s) && Matches(r, processed, src) && "" !in s.finalizers
    ensures Uses(GuardsOf(r, s), MatchersOf(s))
    ensures TargetEligible(Resolved(r, s), env, MatchersOf(s)) <==> Eligible(r, src, processed, o)
  {
    GuardsInUse(r, s);
    var gs := GuardsOf(r, s);
    if AllPass(gs, env, MatchersOf(s)) {
      forall c | c in r.conditions ensures o.passes(c) {
        var i :| 0 <= i < |r.conditions| && r.conditions[i] == c;
        assert Passes(gs[i], env);
      }
    }
    if forall c :: c in r.conditions ==> o.passes(c) {
      forall i | 0 <= i < |gs| ensures Passes(gs[i], env) {
        assert r.conditions[i] in r.conditions;
      }
    }
  }

  lemma {:induction false} FirstAt<T>(xs: seq<T>, p: T -> bool, k: nat)
    requires k < |xs| && p(xs[k]) && forall i :: 0 <= i < k ==> !p(xs[i])
    ensures First(xs, p) == Some(xs[k])
  {
    if k > 0 {
      assert !p(xs[0]);
      forall i | 0 <= i < k - 1 ensures !p(xs[1..][i]) {
        assert !p(xs[i + 1]);
      }
      FirstAt(xs[1..], p, k - 1);
    }
  }

  lemma NoneAt<T>(xs: seq<T>, p: T -> bool)
    requires forall i :: 0 <= i < |xs| ==> !p(xs[i])
    ensures First(xs, p) == None
  {
    FirstFound(xs, p);
  }

  /** The first eligible target of a compiled list is the row a walk of the raw table selects. */
  lemma ListSelects(rules: seq<Route>, list: seq<Target>, s: Setup, env: Env, o: Oracle, processed: bool, src: Name,
                    chosen: Option<nat>)
    requires ListFor(list, Filter(rules, Matching(processed, src)), s) && Agrees(o, env, s) && "" !in s.finalizers
    requires forall i :: 0 <= i < |list| ==> Uses(list[i].guards, MatchersOf(s))
    requires chosen.Some? ==> chosen.value < |list| && TargetEligible(list[chosen.value], env, MatchersOf(s))
    requires forall i :: 0 <= i < |list| && (chosen.Some? ==> i < chosen.value) ==>
               !TargetEligible(list[i], env, MatchersOf(s))
    ensures Select(rules, src, processed, o) == if chosen.Some? then Some(list[chosen.value].rule) else None
  {
    var rows, p := Filter(rules, Matching(processed, src)), Eligibility(src, processed, o);
    FirstFilter(rules, Matching(processed, src), p);
    FilterMembers(rules, Matching(processed, src));
    forall i | 0 <= i < |rows| ensures p(rows[i]) <==> TargetEligible(list[i], env, MatchersOf(s)) {
      assert rows[i] in rows;
      SameEligible(rows[i], s, env, o, processed, src);
    }
    if chosen.Some? {
      FirstAt(rows, p, chosen.value);
    } else {
      NoneAt(rows, p);
    }
  }

  /** One list, walked for one packet, gives the choice of a first-match walk of the raw table with uncached
      membership. */
  method RouteList(list: seq<Target>, ghost rules: seq<Route>, s: Setup, ghost src: Name, ghost processed: bool,
                   env: Env, ghost o: Oracle)
    returns (r: Option<Route>)
    requires ListFor(list, Filter(rules, Matching(processed, src)), s) && "" !in s.finalizers
    requires Sound(MatchersOf(s)) && (env.dst.Some? ==> WellFormed(env.dst.value)) && Agrees(o, env, s)
    modifies set m | m in MatchersOf(s) :: m.slots
    ensures Sound(MatchersOf(s)) && Agrees(o, env, s)
    ensures r == Select(rules, src, processed, o)
  {
    ghost var rows := Filter(rules, Matching(processed, src));
    forall i | 0 <= i < |list| ensures Uses(list[i].guards, MatchersOf(s)) {
      GuardsInUse(rows[i], s);
    }
    var ms := set n | n in s.conditions && s.conditions[n].DstGuard? :: s.conditions[n].m;
    var chosen := Dispatch(list, env, ms);
    ListSelects(rules, list, s, env, o, processed, src, chosen);
    r := if chosen.Some? then Some(list[chosen.value].rule) else None;
  }

  /** A packet from a source nobody compiled for drops. */
  method RoutePacket(c: Compiled, ghost rules: seq<Route>, ghost sources: seq<Name>, s: Setup, src: Name,
                     processed: bool, env: Env, ghost o: Oracle)
    returns (r: Option<Route>)
    requires CompiledFor(c, rules, sources, s) && "" !in s.finalizers
    requires Sound(MatchersOf(s)) && (env.dst.Some? ==> WellFormed(env.dst.value)) && Agrees(o, env, s)
    modifies set m | m in MatchersOf(s) :: m.slots
    ensures Sound(MatchersOf(s)) && Agrees(o, env, s)
    ensures r == if src in sources then Select(rules, src, processed, o) else None
  {
    if (processed, src) !in c.lists {
      return None;
    }
    r := RouteList(c.lists[(processed, src)], rules, s, src, processed, env, o);
  }

  // ---- an intake bound to one source ---------------------------------------------------------------------

  datatype Intake = Intake(unproc: seq<Target>, proc: seq<Target>)

  ghost predicate BoundTo(i: Intake, rules: seq<Route>, src: Name, s: Setup) {
    && ListFor(i.unproc, Filter(rules, Matching(false, src)), s)
    && ListFor(i.proc, Filter(rules, Matching(true, src)), s)
  }

  lemma NothingSelected(rules: seq<Route>, src: Name, processed: bool, o: Oracle)
    requires Filter(rules, Matching(processed, src)) == []
    ensures Select(rules, src, processed, o) == None
  {
    FirstFilter(rules, Matching(processed, src), Eligibility(src, processed, o));
  }

  /** Binds a compiled source to its two lists. It is refused to a source nobody compiled for, and to one
      whose packets the raw table would drop whatever the runtime answers. */
  method SourceRouter(c: Compiled, ghost rules: seq<Route>, ghost sources: seq<Name>, src: Name, ghost s: Setup)
    returns (r: Option<Intake>)
    requires CompiledFor(c, rules, sources, s)
    ensures r.Some? ==> src in sources && BoundTo(r.value, rules, src, s)
    ensures r.None? && src in sources ==> forall processed, o :: Select(rules, src, processed, o) == None
  {
    var unproc := if (false, src) in c.lists then c.lists[(false, src)] else [];
    var proc := if (true, src) in c.lists then c.lists[(true, src)] else [];
    if unproc == [] && proc == [] {
      forall processed, o | src in sources ensures Select(rules, src, processed, o) == None {
        assert (processed, src) in c.lists;
        NothingSelected(rules, src, processed, o);
      }
      return None;
    }
    return Some(Intake(unproc, proc));
  }

  /** What a bound intake does with a packet is what the raw table selects. */
  method RouteBound(i: Intake, ghost rules: seq<Route>, ghost src: Name, s: Setup, processed: bool, env: Env,
                    ghost o: Oracle)
    returns (r: Option<Route>)
    requires BoundTo(i, rules, src, s) && "" !in s.finalizers
    requires Sound(MatchersOf(s)) && (env.dst.Some? ==> WellFormed(env.dst.value)) && Agrees(o, env, s)
    modifies set m | m in MatchersOf(s) :: m.slots
    ensures Sound(MatchersOf(s)) && Agrees(o, env, s)
    ensures r == Select(rules, src, processed, o)
  {
    r := RouteList(if processed then i.proc else i.unproc, rules, s, src, processed, env, o);
  }

  // ---- any sequence of packets and reloads ---------------------------------------------------------------

  datatype Op = Packet(src: Name, processed: bool, env: Env) | Refresh(condition: Name, loaded: Option<Table>)

  /** The packet's destination parses to a well-formed address, the reload is of a destination condition. */
  predicate OpOk(op: Op, s: Setup) {
    match op
    case Packet(_, _, env) => env.dst.Some? ==> WellFormed(env.dst.value)
    case Refresh(c, _) => c in s.conditions && s.conditions[c].DstGuard?
  }

  /** The table behind every matcher. */
  type Tables = map<Matcher, Table>

  ghost predicate Holding(ms: set<Matcher>, tables: Tables)
    reads ms
  {
    forall m :: m in ms ==> m in tables && tables[m] == m.table
  }

  ghost predicate GuardTrue(g: Guard, env: Env, tables: Tables) {
    match g
    case DstGuard(m) => env.dst.Some? && m in tables && tables[m](Unmap(env.dst.value))
    case HealthGuard(probe) => env.healthy(probe)
  }

  /** What the runtime and these tables answer. */
  ghost function OracleFor(s: Setup, env: Env, tables: Tables): Oracle {
    Oracle(c => c in s.conns && s.conns[c] && env.accepts(c), c => env.delivers(c),
           c => c in s.conditions && GuardTrue(s.conditions[c], env, tables))
  }

  ghost function Refreshed(s: Setup, tables: Tables, op: Op): Tables
    requires OpOk(op, s)
  {
    match op
    case Packet(_, _, _) => tables
    case Refresh(c, loaded) => if loaded.Some? then tables[s.conditions[c].m := loaded.value] else tables
  }

  ghost function Loaded(s: Setup, tables: Tables, ops: seq<Op>): Tables
    requires forall i :: 0 <= i < |ops| ==> OpOk(ops[i], s)
  {
    if ops == [] then tables else Refreshed(s, Loaded(s, tables, ops[..|ops| - 1]), ops[|ops| - 1])
  }

  /** What a walk of the raw table would choose for each packet, asking whatever tables are current. */
  ghost function Choices(rules: seq<Route>, sources: seq<Name>, s: Setup, tables: Tables,
                         ops: seq<Op>)
    : seq<Option<Route>>
    requires forall i :: 0 <= i < |ops| ==> OpOk(ops[i], s)
  {
    if ops == [] then []
    else
      var before := ops[..|ops| - 1];
      match ops[|ops| - 1]
      case Packet(src, processed, env) =>
        Choices(rules, sources, s, tables, before)
        + [if src in sources then Select(rules, src, processed, OracleFor(s, env, Loaded(s, tables, before))) else None]
      case Refresh(_, _) => Choices(rules, sources, s, tables, before)
  }

  lemma HoldingAgrees(s: Setup, env: Env, tables: Tables)
    requires Holding(MatchersOf(s), tables)
    ensures Agrees(OracleFor(s, env, tables), env, s)
  {
  }

  method Reload(s: Setup, condition: Name, loaded: Option<Table>, ghost tables: Tables)
    requires OpOk(Refresh(condition, loaded), s) && Sound(MatchersOf(s)) && Holding(MatchersOf(s), tables)
    modifies MatchersOf(s)
    ensures Sound(MatchersOf(s))
    ensures forall m :: m in MatchersOf(s) ==> m.slots == old(m.slots) || fresh(m.slots)
    ensures Holding(MatchersOf(s), Refreshed(s, tables, Refresh(condition, loaded)))
  {
    var m := s.conditions[condition].m;
    assert m in MatchersOf(s);
    var ok := m.Reload(loaded);
  }

  /** The compiled lists and the caches never show: over any interleaving of packets and reloads of any
      condition, every packet gets the choice of the raw table with the tables current at that moment. */
  method RouteAll(c: Compiled, ghost rules: seq<Route>, ghost sources: seq<Name>, s: Setup, ops: seq<Op>,
                  ghost tables: Tables)
    returns (out: seq<Option<Route>>)
    requires CompiledFor(c, rules, sources, s) && "" !in s.finalizers
    requires forall i :: 0 <= i < |ops| ==> OpOk(ops[i], s)
    requires Sound(MatchersOf(s)) && Holding(MatchersOf(s), tables)
    modifies MatchersOf(s), set m | m in MatchersOf(s) :: m.slots
    ensures Sound(MatchersOf(s)) && Holding(MatchersOf(s), Loaded(s, tables, ops))
    ensures out == Choices(rules, sources, s, tables, ops)
  {
    out := [];
    for i := 0 to |ops|
      invariant Sound(MatchersOf(s)) && Holding(MatchersOf(s), Loaded(s, tables, ops[..i]))
      invariant forall m :: m in MatchersOf(s) ==> m.slots == old(m.slots) || fresh(m.slots)
      invariant out == Choices(rules, sources, s, tables, ops[..i])
    {
      assert ops[..i + 1][..i] == ops[..i];
      ghost var now := Loaded(s, tables, ops[..i]);
      match ops[i]
      case Packet(src, processed, env) =>
        HoldingAgrees(s, env, now);
        var r := RoutePacket(c, rules, sources, s, src, processed, env, OracleFor(s, env, now));
        out := out + [r];
      case Refresh(condition, loaded) =>
        Reload(s, condition, loaded, now);
    }
    assert ops[..|ops|] == ops;
  }
}
