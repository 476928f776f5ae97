/** A small model of Linux policy routing, and the theorem that the lowered plan routes as the policy
    says: rules in priority order, longest prefix inside a table, and a table miss falls through. */
module KernelRouting {
  import opened Common
  import opened KernelPlan

  // ---- the kernel ------------------------------------------------------------------------------

  /** Longest-prefix match; among equal prefixes the one installed first. */
  ghost function Best(routes: seq<Route>, dst: Bits): Option<Route> {
    if routes == [] then None
    else
      var r, rest := routes[|routes| - 1], Best(routes[..|routes| - 1], dst);
      if r.prefix <= dst && (rest.None? || |rest.value.prefix| < |r.prefix|) then Some(r) else rest
  }

  ghost function DefaultsIn(routes: seq<(int, Route)>, t: int): seq<Route> {
    if routes == [] then []
    else DefaultsIn(routes[..|routes| - 1], t) + if routes[|routes| - 1].0 == t then [routes[|routes| - 1].1] else []
  }

  ghost function PrefixRoutes(prefixes: seq<Bits>, via: Hop): seq<Route> {
    seq(|prefixes|, i requires 0 <= i < |prefixes| => Route(prefixes[i], via))
  }

  /** What loading the geo sets leaves in a table: loading one flushes its table first, so the last set of a
      table is all it holds. */
  ghost function LoadedIn(geo: seq<Geo>, t: int): Option<seq<Route>> {
    if geo == [] then None
    else
      var g := geo[|geo| - 1];
      if g.table == t then Some(PrefixRoutes(g.prefixes, g.via)) else LoadedIn(geo[..|geo| - 1], t)
  }

  /** What a table of the plan holds: a geo set, or else the egress's default route. */
  ghost function PlanTable(p: Plan, t: int): seq<Route> {
    match LoadedIn(p.geo, t)
    case Some(routes) => routes
    case None => DefaultsIn(p.tableRoutes, t)
  }

  /** The main table holds whatever the host already had and the plan's routes after it. */
  ghost function Contents(p: Plan, host: seq<Route>, t: int): seq<Route> {
    if t == TABLE_MAIN then host + p.mainRoutes else PlanTable(p, t)
  }

  ghost function Consult(p: Plan, host: seq<Route>, r: Rule, src: Bits, dst: Bits): Option<Hop> {
    if !(r.from <= src) then None
    else
      match Best(Contents(p, host, r.table), dst)
      case None => None
      case Some(best) => if r.suppressDefault && best.prefix == [] then None else Some(best.via)
  }

  ghost function Walk(p: Plan, host: seq<Route>, rules: seq<Rule>, src: Bits, dst: Bits): Option<Hop> {
    if rules == [] then None
    else
      var first := Walk(p, host, rules[..|rules| - 1], src, dst);
      if first.Some? then first else Consult(p, host, rules[|rules| - 1], src, dst)
  }

  /** A new rule goes after every installed rule of the same or a smaller priority. */
  ghost function InsertRule(rules: seq<Rule>, r: Rule): seq<Rule> {
    if rules != [] && rules[|rules| - 1].prio > r.prio
    then InsertRule(rules[..|rules| - 1], r) + [rules[|rules| - 1]]
    else rules + [r]
  }

  ghost function Install(rules: seq<Rule>): seq<Rule> {
    if rules == [] then [] else InsertRule(Install(rules[..|rules| - 1]), rules[|rules| - 1])
  }

  /** The next hop the kernel picks for a forwarded packet. */
  ghost function NextHop(p: Plan, host: seq<Route>, src: Bits, dst: Bits): Option<Hop> {
    Walk(p, host, Install(p.rules), src, dst)
  }

  // ---- longest prefix ------------------------------------------------------------------------------

  lemma {:induction false} BestIsLongest(routes: seq<Route>, dst: Bits)
    ensures Best(routes, dst).None? <==> forall r :: r in routes ==> !(r.prefix <= dst)
    ensures Best(routes, dst).Some? ==>
              && Best(routes, dst).value in routes && Best(routes, dst).value.prefix <= dst
              && forall r :: r in routes && r.prefix <= dst ==> |r.prefix| <= |Best(routes, dst).value.prefix|
  {
    if routes != [] {
      var k := |routes| - 1;
      BestIsLongest(routes[..k], dst);
      assert forall r :: r in routes <==> r in routes[..k] || r == routes[k];
    }
  }

  /** A table whose routes all leave alike sends whatever it covers that way. */
  lemma PrefixTable(prefixes: seq<Bits>, via: Hop, dst: Bits)
    ensures Best(PrefixRoutes(prefixes, via), dst).Some? <==> Covers(prefixes, dst)
    ensures Covers(prefixes, dst) ==> Best(PrefixRoutes(prefixes, via), dst).value.via == via
  {
    var routes := PrefixRoutes(prefixes, via);
    BestIsLongest(routes, dst);
    if p :| p in prefixes && p <= dst {
      var i :| 0 <= i < |prefixes| && prefixes[i] == p;
      assert routes[i] in routes;
    }
    if Best(routes, dst).Some? {
      var i :| 0 <= i < |routes| && routes[i] == Best(routes, dst).value;
      assert prefixes[i] in prefixes && prefixes[i] <= dst;
    }
  }

  lemma CoversSnoc(prefixes: seq<Bits>, p: Bits, a: Bits)
    ensures Covers(prefixes + [p], a) <==> Covers(prefixes, a) || p <= a
  {
    if Covers(prefixes, a) {
      var x :| x in prefixes && x <= a;
      assert x in prefixes + [p];
    }
    if p <= a {
      assert p in prefixes + [p];
    }
  }

  // ---- priorities ------------------------------------------------------------------------------------

  ghost predicate Ascending(rules: seq<Rule>) {
    forall i, j :: 0 <= i < j < |rules| ==> rules[i].prio <= rules[j].prio
  }

  lemma SnocBack<T>(xs: seq<T>)
    requires xs != []
    ensures xs[..|xs| - 1] + [xs[|xs| - 1]] == xs
  {
  }

  lemma InsertLast(rules: seq<Rule>, r: Rule)
    requires rules == [] || rules[|rules| - 1].prio <= r.prio
    ensures InsertRule(rules, r) == rules + [r]
  {
  }

  lemma AscendingPrefix(rules: seq<Rule>, k: nat)
    requires Ascending(rules) && k < |rules|
    ensures Ascending(rules[..k]) && (k > 0 ==> rules[..k][k - 1].prio <= rules[k].prio)
  {
  }

  /** Rules added in ascending order keep the order they were added in. */
  lemma {:induction false} InstallKeepsOrder(rules: seq<Rule>)
    requires Ascending(rules)
    ensures Install(rules) == rules
  {
    if rules != [] {
      var k := |rules| - 1;
      var before := rules[..k];
      AscendingPrefix(rules, k);
      InstallKeepsOrder(before);
      InsertLast(before, rules[k]);
      SnocBack(rules);
    }
  }

  lemma {:induction false} WalkConcat(p: Plan, host: seq<Route>, a: seq<Rule>, b: seq<Rule>, src: Bits, dst: Bits)
    ensures Walk(p, host, a + b, src, dst)
         == if Walk(p, host, a, src, dst).Some? then Walk(p, host, a, src, dst) else Walk(p, host, b, src, dst)
  {
    if b == [] {
      assert a + b == a;
    } else {
      assert (a + b)[..|a + b| - 1] == a + b[..|b| - 1];
      WalkConcat(p, host, a, b[..|b| - 1], src, dst);
    }
  }

  // ---- counters and tables of the plan -----------------------------------------------------------------

  ghost function SrcCount(c: Config, k: nat): nat
    requires k <= |c.forward|
  {
    if k == 0 then 0
    else
      SrcCount(c, k - 1)
      + if IsSrc(c, c.forward[k - 1]) then |c.conditions[c.forward[k - 1].when[0]].prefixes| else 0
  }

  ghost function DstCount(c: Config, k: nat): nat
    requires k <= |c.forward|
  {
    if k == 0 then 0 else DstCount(c, k - 1) + if IsDst(c, c.forward[k - 1]) then 1 else 0
  }

  ghost function SourceRulesFrom(prio: int, prefixes: seq<Bits>, table: int): seq<Rule> {
    seq(|prefixes|, i requires 0 <= i < |prefixes| => Rule(prio + i, prefixes[i], table, false))
  }

  lemma {:induction false} SourcesShape(c: Config, p: Plan, prefixes: seq<Bits>, table: int)
    ensures var q := AddSources(c, p, prefixes, table);
            && q.srcPrio == p.srcPrio + |prefixes| && q.dstIdx == p.dstIdx && q.geo == p.geo
            && q.tableRoutes == p.tableRoutes
            && q.rules == p.rules + SourceRulesFrom(p.srcPrio, prefixes, table)
  {
    if prefixes != [] {
      var k := |prefixes| - 1;
      SourcesShape(c, p, prefixes[..k], table);
      assert SourceRulesFrom(p.srcPrio, prefixes, table)
          == SourceRulesFrom(p.srcPrio, prefixes[..k], table) + [Rule(p.srcPrio + k, prefixes[k], table, false)];
    }
  }

  /** The rules branch `k` contributes. */
  ghost function Added(c: Config, k: nat): seq<Rule>
    requires k < |c.forward|
  {
    var f := c.forward[k];
    if f.when == [] then [Rule(PRIO_DEFAULT, [], EgressTable(c, f.egress), false)]
    else if IsSrc(c, f) then
      SourceRulesFrom(PRIO_SRC_BASE + SrcCount(c, k), c.conditions[f.when[0]].prefixes, EgressTable(c, f.egress))
    else if IsDst(c, f) then [Rule(PRIO_DST_BASE + DstCount(c, k), [], TABLE_GEO_BASE + DstCount(c, k), false)]
    else []
  }

  lemma RulesGrow(c: Config, wans: map<Name, Wan>, k: nat)
    requires Resolved(c, wans) && k < |c.forward|
    ensures PlanAt(c, wans, k + 1).rules == PlanAt(c, wans, k).rules + Added(c, k)
  {
    var f := c.forward[k];
    Counters(c, wans, k);
    if f.when != [] && IsSrc(c, f) {
      SourcesShape(c, PlanAt(c, wans, k), c.conditions[f.when[0]].prefixes, EgressTable(c, f.egress));
    }
  }

  lemma {:induction false} Counters(c: Config, wans: map<Name, Wan>, k: nat)
    requires Resolved(c, wans) && k <= |c.forward|
    ensures var p := PlanAt(c, wans, k);
            && p.srcPrio == PRIO_SRC_BASE + SrcCount(c, k) && p.dstIdx == |p.geo| == DstCount(c, k)
            && p.tableRoutes == EgressRoutes(c, wans, |c.egresses|)
            && p.rules != [] && p.rules[0] == Rule(PRIO_MAIN, [], TABLE_MAIN, true)
            && forall i :: 0 <= i < |p.geo| ==> p.geo[i].table == TABLE_GEO_BASE + i
  {
    if k == 0 {
      EgressPlanEmpty(c, wans, |c.egresses|);
      PlannedRoutes(c, wans, |c.egresses|);
    } else {
      Counters(c, wans, k - 1);
      var f := c.forward[k - 1];
      if f.when != [] && IsSrc(c, f) {
        SourcesShape(c, PlanAt(c, wans, k - 1), c.conditions[f.when[0]].prefixes, EgressTable(c, f.egress));
      }
    }
  }

  lemma {:induction false} EgressPlanEmpty(c: Config, wans: map<Name, Wan>, i: nat)
    requires i <= |c.egresses| && forall e :: e in c.egresses ==> e in wans
    ensures var p := EgressPlan(c, wans, i); p.rules == [] && p.geo == [] && p.srcPrio == PRIO_SRC_BASE && p.dstIdx == 0
  {
    if i > 0 {
      EgressPlanEmpty(c, wans, i - 1);
    }
  }

  /** The default route of each of the first `i` egresses, in its own table. */
  ghost function EgressRoutes(c: Config, wans: map<Name, Wan>, i: nat): seq<(int, Route)>
    requires i <= |c.egresses| && forall e :: e in c.egresses ==> e in wans
  {
    if i == 0 then []
    else EgressRoutes(c, wans, i - 1) + [(TABLE_EGRESS_BASE + i - 1, Route([], wans[c.egresses[i - 1]].hop))]
  }

  lemma {:induction false} PlannedRoutes(c: Config, wans: map<Name, Wan>, i: nat)
    requires i <= |c.egresses| && forall e :: e in c.egresses ==> e in wans
    ensures EgressPlan(c, wans, i).tableRoutes == EgressRoutes(c, wans, i)
  {
    if i > 0 {
      PlannedRoutes(c, wans, i - 1);
    }
  }

  lemma {:induction false} EgressTables(c: Config, wans: map<Name, Wan>, i: nat, t: int)
    requires i <= |c.egresses| && forall e :: e in c.egresses ==> e in wans
    ensures DefaultsIn(EgressRoutes(c, wans, i), t)
         == if TABLE_EGRESS_BASE <= t < TABLE_EGRESS_BASE + i
            then [Route([], wans[c.egresses[t - TABLE_EGRESS_BASE]].hop)] else []
  {
    if i > 0 {
      EgressTables(c, wans, i - 1, t);
      DefaultsSnoc(EgressRoutes(c, wans, i - 1), TABLE_EGRESS_BASE + i - 1, Route([], wans[c.egresses[i - 1]].hop), t);
    }
  }

  lemma DefaultsSnoc(routes: seq<(int, Route)>, table: int, r: Route, t: int)
    ensures DefaultsIn(routes + [(table, r)], t) == DefaultsIn(routes, t) + if table == t then [r] else []
  {
    var all := routes + [(table, r)];
    assert all[..|all| - 1] == routes;
  }

  lemma {:induction false} GeoTables(geo: seq<Geo>, t: int)
    requires forall i :: 0 <= i < |geo| ==> geo[i].table == TABLE_GEO_BASE + i
    ensures LoadedIn(geo, t) == if TABLE_GEO_BASE <= t < TABLE_GEO_BASE + |geo|
                                then Some(PrefixRoutes(geo[t - TABLE_GEO_BASE].prefixes, geo[t - TABLE_GEO_BASE].via))
                                else None
  {
    if geo != [] {
      var k := |geo| - 1;
      assert geo[k].table == TABLE_GEO_BASE + k;
      if t != TABLE_GEO_BASE + k {
        GeoTables(geo[..k], t);
      }
    }
  }

  lemma {:induction false} GeoGrows(c: Config, wans: map<Name, Wan>, k: nat, m: nat)
    requires Resolved(c, wans) && k <= m <= |c.forward|
    ensures PlanAt(c, wans, k).geo <= PlanAt(c, wans, m).geo
  {
    if k < m {
      GeoGrows(c, wans, k, m - 1);
      var f := c.forward[m - 1];
      if f.when != [] && IsSrc(c, f) {
        SourcesShape(c, PlanAt(c, wans, m - 1), c.conditions[f.when[0]].prefixes, EgressTable(c, f.egress));
      }
    }
  }

  /** Egress tables stay clear of geo tables. */
  ghost predicate TablesApart(c: Config) {
    |c.egresses| <= TABLE_GEO_BASE - TABLE_EGRESS_BASE || DstCount(c, |c.forward|) == 0
  }

  lemma EgressTableContents(c: Config, wans: map<Name, Wan>, host: seq<Route>, e: Name)
    requires Resolved(c, wans) && e in c.egresses && TablesApart(c)
    ensures Contents(Lowered(c, wans), host, EgressTable(c, e)) == [Route([], wans[e].hop)]
  {
    IndexOfFinds(c.egresses, e);
    Counters(c, wans, |c.forward|);
    NoGeoThere(c, wans, IndexOf(c.egresses, e));
    DefaultThere(c, wans, IndexOf(c.egresses, e));
  }

  /** The tables of egresses are loaded with a geo set exactly from the first geo table on. */
  lemma NoGeoThere(c: Config, wans: map<Name, Wan>, i: nat)
    requires Resolved(c, wans)
    requires var t := TABLE_EGRESS_BASE + i;
             t < TABLE_GEO_BASE || t >= TABLE_GEO_BASE + DstCount(c, |c.forward|)
    ensures LoadedIn(Lowered(c, wans).geo, TABLE_EGRESS_BASE + i) == None
  {
    Counters(c, wans, |c.forward|);
    GeoTables(Lowered(c, wans).geo, TABLE_EGRESS_BASE + i);
  }

  lemma DefaultThere(c: Config, wans: map<Name, Wan>, i: nat)
    requires Resolved(c, wans) && i < |c.egresses|
    ensures DefaultsIn(Lowered(c, wans).tableRoutes, TABLE_EGRESS_BASE + i) == [Route([], wans[c.egresses[i]].hop)]
  {
    PlanTables(c, wans, Lowered(c, wans));
    EgressTables(c, wans, |c.egresses|, TABLE_EGRESS_BASE + i);
  }

  /** A destination branch's table holds its prefixes, all by its egress, and nothing else. */
  lemma GeoTableContents(c: Config, wans: map<Name, Wan>, host: seq<Route>, k: nat)
    requires Resolved(c, wans) && k < |c.forward| && IsDst(c, c.forward[k])
    ensures Contents(Lowered(c, wans), host, TABLE_GEO_BASE + DstCount(c, k))
         == PrefixRoutes(c.conditions[c.forward[k].when[0]].prefixes, wans[c.forward[k].egress].hop)
  {
    GeoThere(c, wans, k);
  }

  lemma PlanTables(c: Config, wans: map<Name, Wan>, p: Plan)
    requires Resolved(c, wans) && p == Lowered(c, wans)
    ensures p.tableRoutes == EgressRoutes(c, wans, |c.egresses|)
    ensures forall i :: 0 <= i < |p.geo| ==> p.geo[i].table == TABLE_GEO_BASE + i
  {
    Counters(c, wans, |c.forward|);
  }

  lemma GeoThere(c: Config, wans: map<Name, Wan>, k: nat)
    requires Resolved(c, wans) && k < |c.forward| && IsDst(c, c.forward[k])
    ensures LoadedIn(Lowered(c, wans).geo, TABLE_GEO_BASE + DstCount(c, k))
         == Some(PrefixRoutes(c.conditions[c.forward[k].when[0]].prefixes, wans[c.forward[k].egress].hop))
  {
    GeoAt(c, wans, k);
    PlanTables(c, wans, Lowered(c, wans));
    GeoTables(Lowered(c, wans).geo, TABLE_GEO_BASE + DstCount(c, k));
  }

  /** The geo set of a destination branch sits at the branch's own count. */
  lemma GeoAt(c: Config, wans: map<Name, Wan>, k: nat)
    requires Resolved(c, wans) && k < |c.forward| && IsDst(c, c.forward[k])
    ensures var d, geo := DstCount(c, k), Lowered(c, wans).geo;
            && d < |geo|
            && geo[d]
               == Geo(TABLE_GEO_BASE + d, c.conditions[c.forward[k].when[0]].prefixes, wans[c.forward[k].egress].hop)
    ensures DstCount(c, k) < DstCount(c, |c.forward|)
  {
    var d := DstCount(c, k);
    Counters(c, wans, k);
    assert PlanAt(c, wans, k + 1).geo[d]
        == Geo(TABLE_GEO_BASE + d, c.conditions[c.forward[k].when[0]].prefixes, wans[c.forward[k].egress].hop);
    GeoGrows(c, wans, k + 1, |c.forward|);
    CountsGrow(c, k + 1, |c.forward|);
  }

  // ---- the walk decides as the policy does ---------------------------------------------------------------

  lemma DefaultTable(routes: seq<Route>, via: Hop, dst: Bits)
    requires routes == [Route([], via)]
    ensures Best(routes, dst) == Some(Route([], via))
  {
    assert routes[..0] == [];
    assert Best(routes[..0], dst) == None;
  }

  lemma {:induction false} SourceRules(p: Plan, host: seq<Route>, rules: seq<Rule>, prefixes: seq<Bits>, table: int,
                                       via: Hop, src: Bits, dst: Bits)
    requires |rules| == |prefixes|
    requires Best(Contents(p, host, table), dst).Some? && Best(Contents(p, host, table), dst).value.via == via
    requires forall i :: 0 <= i < |rules| ==>
               rules[i].from == prefixes[i] && rules[i].table == table && !rules[i].suppressDefault
    ensures Walk(p, host, rules, src, dst) == if Covers(prefixes, src) then Some(via) else None
  {
    if rules != [] {
      var k := |rules| - 1;
      SourceRules(p, host, rules[..k], prefixes[..k], table, via, src, dst);
      CoversSnoc(prefixes[..k], prefixes[k], src);
      assert prefixes == prefixes[..k] + [prefixes[k]];
    }
  }

  lemma OneRule(p: Plan, host: seq<Route>, r: Rule, src: Bits, dst: Bits)
    ensures Walk(p, host, [r], src, dst) == Consult(p, host, r, src, dst)
  {
    assert [r][..0] == [];
    assert Walk(p, host, [r][..0], src, dst) == None;
  }

  /** The rules branch `k` adds answer exactly when the branch holds, and then with its egress. */
  lemma BranchAnswers(c: Config, wans: map<Name, Wan>, host: seq<Route>, k: nat, src: Bits, dst: Bits)
    requires Resolved(c, wans) && TablesApart(c) && k < |c.forward|
    requires c.forward[k].when == [] || IsSrc(c, c.forward[k]) || IsDst(c, c.forward[k])
    ensures Walk(Lowered(c, wans), host, Added(c, k), src, dst)
         == if Holds(c, c.forward[k], src, dst) then Some(wans[c.forward[k].egress].hop) else None
  {
    var p, f := Lowered(c, wans), c.forward[k];
    if f.when == [] {
      EgressTableContents(c, wans, host, f.egress);
      OneRule(p, host, Added(c, k)[0], src, dst);
      DefaultTable(Contents(p, host, EgressTable(c, f.egress)), wans[f.egress].hop, dst);
    } else if IsSrc(c, f) {
      var t, via := EgressTable(c, f.egress), wans[f.egress].hop;
      EgressTableContents(c, wans, host, f.egress);
      DefaultTable(Contents(p, host, t), via, dst);
      SourceRules(p, host, Added(c, k), c.conditions[f.when[0]].prefixes, t, via, src, dst);
    } else {
      GeoTableContents(c, wans, host, k);
      OneRule(p, host, Added(c, k)[0], src, dst);
      PrefixTable(c.conditions[f.when[0]].prefixes, wans[f.egress].hop, dst);
    }
  }

  ghost function HopOf(wans: map<Name, Wan>, e: Option<Name>): Option<Hop> {
    if e.Some? && e.value in wans then Some(wans[e.value].hop) else None
  }

  /** The rules of the first `k` branches. */
  ghost function RulesUpTo(c: Config, k: nat): seq<Rule>
    requires k <= |c.forward|
  {
    if k == 0 then [] else RulesUpTo(c, k - 1) + Added(c, k - 1)
  }

  lemma {:induction false} PlanRules(c: Config, wans: map<Name, Wan>, k: nat)
    requires Resolved(c, wans) && k <= |c.forward|
    ensures PlanAt(c, wans, k).rules == [Rule(PRIO_MAIN, [], TABLE_MAIN, true)] + RulesUpTo(c, k)
  {
    if k == 0 {
      assert RulesUpTo(c, 0) == [];
    } else {
      PlanRules(c, wans, k - 1);
      NextRules(c, wans, k - 1, [Rule(PRIO_MAIN, [], TABLE_MAIN, true)]);
    }
  }

  lemma NextRules(c: Config, wans: map<Name, Wan>, k: nat, first: seq<Rule>)
    requires Resolved(c, wans) && k < |c.forward| && PlanAt(c, wans, k).rules == first + RulesUpTo(c, k)
    ensures PlanAt(c, wans, k + 1).rules == first + RulesUpTo(c, k + 1)
  {
    RulesGrow(c, wans, k);
    Regroup(first, RulesUpTo(c, k), Added(c, k));
  }

  ghost predicate Answers(c: Config, wans: map<Name, Wan>, p: Plan, host: seq<Route>, k: int, src: Bits, dst: Bits)
    requires 0 <= k < |c.forward| && c.forward[k].egress in wans
  {
    Walk(p, host, Added(c, k), src, dst)
    == if Holds(c, c.forward[k], src, dst) then Some(wans[c.forward[k].egress].hop) else None
  }

  lemma WalkStep(c: Config, wans: map<Name, Wan>, p: Plan, host: seq<Route>, k: nat, src: Bits, dst: Bits)
    requires k < |c.forward| && c.forward[k].egress in wans && Answers(c, wans, p, host, k, src, dst)
    ensures Walk(p, host, RulesUpTo(c, k + 1), src, dst)
         == if Walk(p, host, RulesUpTo(c, k), src, dst).Some? then Walk(p, host, RulesUpTo(c, k), src, dst)
            else if Holds(c, c.forward[k], src, dst) then Some(wans[c.forward[k].egress].hop) else None
  {
    WalkConcat(p, host, RulesUpTo(c, k), Added(c, k), src, dst);
  }

  /** The answer after `k` branches, as the kernel walks them and as the policy decides. */
  ghost function Walked(c: Config, p: Plan, host: seq<Route>, src: Bits, dst: Bits): nat -> Option<Hop> {
    (k: nat) => if k <= |c.forward| then Walk(p, host, RulesUpTo(c, k), src, dst) else None
  }

  ghost function Decided(c: Config, src: Bits, dst: Bits): nat -> Option<Name> {
    (k: nat) => if k <= |c.forward| then Decision(c, k, src, dst) else None
  }

  /** Branch `k` moves both answers alike. */
  ghost predicate MovesAlike(wans: map<Name, Wan>, walked: nat -> Option<Hop>, decided: nat -> Option<Name>, k: nat) {
    exists holds: bool, e: Name :: SameMove(wans, walked, decided, k, holds, e)
  }

  ghost predicate SameMove(wans: map<Name, Wan>, walked: nat -> Option<Hop>, decided: nat -> Option<Name>, k: nat,
                           holds: bool, e: Name)
  {
    && e in wans
    && walked(k + 1) == (if walked(k).Some? then walked(k) else if holds then Some(wans[e].hop) else None)
    && decided(k + 1) == (if decided(k).Some? then decided(k) else if holds then Some(e) else None)
  }

  lemma {:induction false} AnswersAgree(wans: map<Name, Wan>, walked: nat -> Option<Hop>, decided: nat -> Option<Name>,
                                        k: nat)
    requires walked(0) == None && decided(0) == None && forall i: nat :: i < k ==> MovesAlike(wans, walked, decided, i)
    ensures walked(k) == HopOf(wans, decided(k)) && (decided(k).Some? ==> decided(k).value in wans)
  {
    if k > 0 {
      AnswersAgree(wans, walked, decided, k - 1);
      assert MovesAlike(wans, walked, decided, k - 1);
      var holds, e :| SameMove(wans, walked, decided, k - 1, holds, e);
    }
  }

  lemma BranchMoves(c: Config, wans: map<Name, Wan>, p: Plan, host: seq<Route>, k: nat, src: Bits, dst: Bits)
    requires k < |c.forward| && c.forward[k].egress in wans && Answers(c, wans, p, host, k, src, dst)
    ensures SameMove(wans, Walked(c, p, host, src, dst), Decided(c, src, dst), k, Holds(c, c.forward[k], src, dst),
                     c.forward[k].egress)
  {
    WalkedMoves(c, wans, p, host, k, src, dst, Walked(c, p, host, src, dst));
    DecidedMoves(c, k, src, dst, Decided(c, src, dst));
  }

  lemma WalkedMoves(c: Config, wans: map<Name, Wan>, p: Plan, host: seq<Route>, k: nat, src: Bits, dst: Bits,
                    walked: nat -> Option<Hop>)
    requires k < |c.forward| && c.forward[k].egress in wans && Answers(c, wans, p, host, k, src, dst)
    requires walked == Walked(c, p, host, src, dst)
    ensures walked(k + 1)
         == if walked(k).Some? then walked(k)
            else if Holds(c, c.forward[k], src, dst) then Some(wans[c.forward[k].egress].hop) else None
  {
    WalkStep(c, wans, p, host, k, src, dst);
  }

  lemma DecidedMoves(c: Config, k: nat, src: Bits, dst: Bits, decided: nat -> Option<Name>)
    requires k < |c.forward| && decided == Decided(c, src, dst)
    ensures decided(k + 1)
         == if decided(k).Some? then decided(k)
            else if Holds(c, c.forward[k], src, dst) then Some(c.forward[k].egress) else None
  {
    DecisionStep(c, k, src, dst);
  }

  lemma DecisionStep(c: Config, k: nat, src: Bits, dst: Bits)
    requires k < |c.forward|
    ensures Decision(c, k + 1, src, dst)
         == if Decision(c, k, src, dst).Some? then Decision(c, k, src, dst)
            else if Holds(c, c.forward[k], src, dst) then Some(c.forward[k].egress) else None
  {
  }

  lemma PolicyWalk(c: Config, wans: map<Name, Wan>, p: Plan, host: seq<Route>, src: Bits, dst: Bits)
    requires forall i :: 0 <= i < |c.forward| ==> c.forward[i].egress in wans
    requires forall i :: 0 <= i < |c.forward| ==> Answers(c, wans, p, host, i, src, dst)
    ensures Walk(p, host, RulesUpTo(c, |c.forward|), src, dst) == HopOf(wans, Decision(c, |c.forward|, src, dst))
    ensures Decision(c, |c.forward|, src, dst).Some? ==> Decision(c, |c.forward|, src, dst).value in wans
  {
    forall k: nat | k < |c.forward| ensures MovesAlike(wans, Walked(c, p, host, src, dst), Decided(c, src, dst), k) {
      BranchMoves(c, wans, p, host, k, src, dst);
    }
    AnswersAgree(wans, Walked(c, p, host, src, dst), Decided(c, src, dst), |c.forward|);
  }

  // ---- ascending priorities ----------------------------------------------------------------------------

  /** Sources and destinations fit their priority ranges; ties fall on the right side. */
  ghost predicate RangesFit(c: Config) {
    && SrcCount(c, |c.forward|) <= PRIO_DST_BASE - PRIO_SRC_BASE + 1
    && DstCount(c, |c.forward|) <= PRIO_DEFAULT - PRIO_DST_BASE + 1
  }

  lemma {:induction false} CountsGrow(c: Config, k: nat, m: nat)
    requires k <= m <= |c.forward|
    ensures SrcCount(c, k) <= SrcCount(c, m) && DstCount(c, k) <= DstCount(c, m)
  {
    if k < m {
      CountsGrow(c, k, m - 1);
    }
  }

  /** The highest priority the first `k` branches can have used. */
  ghost function Ceiling(c: Config, k: nat): int
    requires k <= |c.forward|
  {
    if DstCount(c, k) > 0 then PRIO_DST_BASE + DstCount(c, k) - 1
    else if SrcCount(c, k) > 0 then PRIO_SRC_BASE + SrcCount(c, k) - 1 else PRIO_MAIN
  }

  lemma {:induction false} DstSeen(c: Config, k: nat) returns (i: nat)
    requires k <= |c.forward| && DstCount(c, k) > 0
    ensures i < k && IsDst(c, c.forward[i])
  {
    if IsDst(c, c.forward[k - 1]) {
      i := k - 1;
    } else {
      i := DstSeen(c, k - 1);
    }
  }

  lemma AscendingConcat(a: seq<Rule>, b: seq<Rule>, top: int)
    requires Ascending(a) && Ascending(b)
    requires (forall r :: r in a ==> r.prio <= top) && (forall r :: r in b ==> top <= r.prio)
    ensures Ascending(a + b)
  {
    forall i, j | 0 <= i < j < |a + b| ensures (a + b)[i].prio <= (a + b)[j].prio {
      assert i < |a| ==> a[i] in a;
      assert j >= |a| ==> b[j - |a|] in b;
    }
  }

  /** No source branch follows a destination branch. */
  lemma SourcesFirst(c: Config, k: nat)
    requires WellOrdered(c) && k < |c.forward| - 1 && IsSrc(c, c.forward[k])
    ensures DstCount(c, k) == 0
  {
    if DstCount(c, k) > 0 {
      var i := DstSeen(c, k);
    }
  }

  lemma AddedRange(c: Config, k: nat)
    requires k < |c.forward| && WellOrdered(c) && RangesFit(c)
    ensures Ascending(Added(c, k))
    ensures forall r :: r in Added(c, k) ==> Ceiling(c, k) <= r.prio
    ensures k + 1 < |c.forward| ==> Ceiling(c, k) <= Ceiling(c, k + 1)
    ensures k + 1 < |c.forward| ==> forall r :: r in Added(c, k) ==> r.prio <= Ceiling(c, k + 1)
  {
    CountsGrow(c, k, |c.forward|);
    CountsGrow(c, k + 1, |c.forward|);
    if k < |c.forward| - 1 && IsSrc(c, c.forward[k]) {
      SourcesFirst(c, k);
    }
  }

  ghost predicate Within(rules: seq<Rule>, lo: int, hi: int) {
    Ascending(rules) && forall r :: r in rules ==> lo <= r.prio <= hi
  }

  lemma WithinConcat(a: seq<Rule>, b: seq<Rule>, lo: int, mid: int, hi: int)
    requires Within(a, lo, mid) && Within(b, mid, hi) && lo <= mid <= hi
    ensures Within(a + b, lo, hi)
  {
    AscendingConcat(a, b, mid);
  }

  /** The highest priority in use after `k` branches, counting the default at the end. */
  ghost function Top(c: Config, k: nat): int
    requires k <= |c.forward|
  {
    if k < |c.forward| then Ceiling(c, k) else PRIO_DEFAULT
  }

  /** Branch `k` adds its rules between what came before and what comes after. */
  ghost predicate AddedFits(c: Config, k: nat)
    requires k < |c.forward|
  {
    PRIO_MAIN <= Top(c, k) <= Top(c, k + 1) && Within(Added(c, k), Top(c, k), Top(c, k + 1))
  }

  lemma AddedWithin(c: Config, k: nat)
    requires k < |c.forward| && WellOrdered(c) && RangesFit(c)
    ensures AddedFits(c, k)
  {
    AddedRange(c, k);
  }

  lemma {:induction false} WithinUpTo(c: Config, k: nat)
    requires k <= |c.forward| && forall i: nat :: i < k ==> AddedFits(c, i)
    ensures Within(RulesUpTo(c, k), PRIO_MAIN, Top(c, k))
  {
    if k > 0 {
      WithinUpTo(c, k - 1);
      assert AddedFits(c, k - 1);
      WithinConcat(RulesUpTo(c, k - 1), Added(c, k - 1), PRIO_MAIN, Top(c, k - 1), Top(c, k));
    }
  }

  /** The kernel keeps the plan's own order: the main table, then the branches one after another. */
  lemma PlanInOrder(c: Config, wans: map<Name, Wan>)
    requires Resolved(c, wans) && WellOrdered(c) && RangesFit(c)
    ensures Install(Lowered(c, wans).rules) == [Rule(PRIO_MAIN, [], TABLE_MAIN, true)] + RulesUpTo(c, |c.forward|)
  {
    var n := |c.forward|;
    PlanRules(c, wans, n);
    forall k: nat | k < n ensures AddedFits(c, k) {
      AddedWithin(c, k);
    }
    WithinUpTo(c, n);
    AscendingConcat([Rule(PRIO_MAIN, [], TABLE_MAIN, true)], RulesUpTo(c, n), PRIO_MAIN);
    InstallKeepsOrder(Lowered(c, wans).rules);
  }

  // ---- the theorems --------------------------------------------------------------------------------------

  /** No route of the main table other than a default covers the destination. */
  ghost predicate DefaultBound(p: Plan, host: seq<Route>, dst: Bits) {
    forall r :: r in host + p.mainRoutes && r.prefix <= dst ==> r.prefix == []
  }

  lemma AllAnswer(c: Config, wans: map<Name, Wan>, host: seq<Route>, src: Bits, dst: Bits)
    requires Resolved(c, wans) && WellOrdered(c) && TablesApart(c)
    ensures forall k :: 0 <= k < |c.forward| ==> Answers(c, wans, Lowered(c, wans), host, k, src, dst)
  {
    forall k | 0 <= k < |c.forward| ensures Answers(c, wans, Lowered(c, wans), host, k, src, dst) {
      BranchAnswers(c, wans, host, k, src, dst);
    }
  }

  /** Lowering preserves meaning: for default-bound traffic the kernel picks the egress of the first
      branch that holds, for any overlapping prefix sets. */
  lemma PolicyPreserved(c: Config, wans: map<Name, Wan>, host: seq<Route>, src: Bits, dst: Bits)
    requires Resolved(c, wans) && WellOrdered(c) && TablesApart(c) && RangesFit(c)
    requires DefaultBound(Lowered(c, wans), host, dst)
    ensures Decision(c, |c.forward|, src, dst).Some? && Decision(c, |c.forward|, src, dst).value in wans
    ensures NextHop(Lowered(c, wans), host, src, dst) == Some(wans[Decision(c, |c.forward|, src, dst).value].hop)
  {
    var p, n := Lowered(c, wans), |c.forward|;
    PlanInOrder(c, wans);
    AllAnswer(c, wans, host, src, dst);
    PolicyWalk(c, wans, p, host, src, dst);
    MainMisses(p, host, RulesUpTo(c, n), src, dst);
    DefaultDecides(c, src, dst);
  }

  /** The leading main-table rule says nothing about default-bound traffic. */
  lemma MainMisses(p: Plan, host: seq<Route>, rules: seq<Rule>, src: Bits, dst: Bits)
    requires DefaultBound(p, host, dst)
    ensures Walk(p, host, [Rule(PRIO_MAIN, [], TABLE_MAIN, true)] + rules, src, dst) == Walk(p, host, rules, src, dst)
  {
    var main := Rule(PRIO_MAIN, [], TABLE_MAIN, true);
    WalkConcat(p, host, [main], rules, src, dst);
    OneRule(p, host, main, src, dst);
    BestIsLongest(host + p.mainRoutes, dst);
  }

  lemma DefaultDecides(c: Config, src: Bits, dst: Bits)
    requires WellOrdered(c)
    ensures Decision(c, |c.forward|, src, dst).Some?
  {
  }

  lemma {:induction false} InsertKeepsHead(rules: seq<Rule>, r: Rule)
    requires rules != [] && rules[0].prio <= r.prio
    ensures InsertRule(rules, r) != [] && InsertRule(rules, r)[0] == rules[0]
  {
    if rules[|rules| - 1].prio > r.prio {
      InsertKeepsHead(rules[..|rules| - 1], r);
    }
  }

  /** The first rule of a plan stays first if no other has a smaller priority. */
  lemma {:induction false} InstallKeepsHead(rules: seq<Rule>)
    requires rules != [] && forall r :: r in rules ==> rules[0].prio <= r.prio
    ensures Install(rules) != [] && Install(rules)[0] == rules[0]
  {
    var k := |rules| - 1;
    if k > 0 {
      assert forall r :: r in rules[..k] ==> r in rules;
      InstallKeepsHead(rules[..k]);
      assert rules[k] in rules;
      InsertKeepsHead(Install(rules[..k]), rules[k]);
    }
  }

  lemma {:induction false} RulesBelowMain(c: Config, k: nat)
    requires k <= |c.forward|
    ensures forall r :: r in RulesUpTo(c, k) ==> PRIO_MAIN <= r.prio
  {
    if k > 0 {
      RulesBelowMain(c, k - 1);
    }
  }

  /** A walk that has an answer does not look further. */
  lemma WalkStops(p: Plan, host: seq<Route>, a: seq<Rule>, b: seq<Rule>, src: Bits, dst: Bits)
    requires a <= b && Walk(p, host, a, src, dst).Some?
    ensures Walk(p, host, b, src, dst) == Walk(p, host, a, src, dst)
  {
    assert b == a + b[|a|..];
    WalkConcat(p, host, a, b[|a|..], src, dst);
  }

  /** The main table is asked first, whatever the policy. */
  lemma MainFirst(c: Config, wans: map<Name, Wan>)
    requires Resolved(c, wans)
    ensures [Rule(PRIO_MAIN, [], TABLE_MAIN, true)] <= Install(Lowered(c, wans).rules)
  {
    PlanRules(c, wans, |c.forward|);
    RulesBelowMain(c, |c.forward|);
    InstallKeepsHead(Lowered(c, wans).rules);
  }

  /** Traffic to a pinned tunnel endpoint leaves by its underlay, whatever its source and whatever the policy:
      no rule can send the tunnel's own packets back into the tunnel. */
  lemma PinnedEndpointLeavesByUnderlay(c: Config, wans: map<Name, Wan>, host: seq<Route>, e: Name, src: Bits)
    requires Resolved(c, wans) && PinsAgree(c, wans)
    requires e in c.egresses && wans[e].ep.Some? && wans[e].ep.value.ip != []
    requires forall r :: r in host ==> r.prefix != wans[e].ep.value.ip
    ensures NextHop(Lowered(c, wans), host, src, wans[e].ep.value.ip) == Some(wans[e].ep.value.via)
  {
    var p, pin, main := Lowered(c, wans), wans[e].ep.value, Rule(PRIO_MAIN, [], TABLE_MAIN, true);
    MainFirst(c, wans);
    OneRule(p, host, main, src, pin.ip);
    PinWins(c, wans, host, e);
    WalkStops(p, host, [main], Install(p.rules), src, pin.ip);
  }

  /** The pinned part of the main table sends an endpoint by its underlay. */
  lemma PinBest(c: Config, wans: map<Name, Wan>, pins: seq<Route>, i: nat, pin: Pin)
    requires (forall e :: e in c.egresses ==> e in wans) && i < |c.egresses| && PinOk(c, wans, i)
    requires wans[c.egresses[i]].ep == Some(pin) && pins == EgressPlan(c, wans, |c.egresses|).mainRoutes
    ensures Best(pins, pin.ip) == Some(Route(pin.ip, pin.via))
  {
    PinnedKeeps(c, wans, i, |c.egresses|);
    PinRoutes(c, wans, |c.egresses|, pin.ip);
    BestFull(pins, pin.ip, Route(pin.ip, pin.via));
  }

  lemma PinAccepted(c: Config, wans: map<Name, Wan>, e: Name) returns (i: nat)
    requires (forall x :: x in c.egresses ==> x in wans) && PinsAgree(c, wans) && e in c.egresses
    ensures i < |c.egresses| && c.egresses[i] == e && PinOk(c, wans, i)
  {
    PinsAgreePairwise(c, wans);
    i :| 0 <= i < |c.egresses| && c.egresses[i] == e;
  }

  /** A full match at the front of a table wins. */
  lemma FrontWins(front: seq<Route>, all: seq<Route>, dst: Bits, r: Route)
    requires front <= all && Best(front, dst) == Some(r) && r.prefix == dst
    ensures Best(all, dst) == Some(r)
  {
    assert all == front + all[|front|..];
    BestStays(front, all[|front|..], dst);
  }

  lemma {:induction false} BehindOthers(others: seq<Route>, mine: seq<Route>, dst: Bits, r: Route)
    requires (forall x :: x in others ==> x.prefix != dst) && Best(mine, dst) == Some(r) && r.prefix == dst
    ensures Best(others + mine, dst) == Some(r)
  {
    var k := |mine| - 1;
    assert (others + mine)[..|others| + k] == others + mine[..k];
    if Best(mine[..k], dst) == Some(r) {
      BehindOthers(others, mine[..k], dst, r);
    } else {
      assert r == mine[k];
      BestIsLongest(mine[..k], dst);
      ShorterSoFar(others + mine[..k], dst);
    }
  }

  /** Routes of which none is a full match have a shorter best one, if any. */
  lemma ShorterSoFar(routes: seq<Route>, dst: Bits)
    requires forall x :: x in routes ==> x.prefix != dst
    ensures Best(routes, dst).Some? ==> |Best(routes, dst).value.prefix| < |dst|
  {
    BestIsLongest(routes, dst);
  }

  /** Pins are full addresses and come before the other routes of the plan, so nothing beats them. */
  lemma PinWins(c: Config, wans: map<Name, Wan>, host: seq<Route>, e: Name)
    requires Resolved(c, wans) && PinsAgree(c, wans) && e in c.egresses && wans[e].ep.Some?
    requires forall r :: r in host ==> r.prefix != wans[e].ep.value.ip
    ensures Best(host + Lowered(c, wans).mainRoutes, wans[e].ep.value.ip)
         == Some(Route(wans[e].ep.value.ip, wans[e].ep.value.via))
  {
    var pin, pins := wans[e].ep.value, EgressPlan(c, wans, |c.egresses|).mainRoutes;
    var i := PinAccepted(c, wans, e);
    PinBest(c, wans, pins, i, pin);
    MainGrows(c, wans, |c.forward|);
    FrontWins(pins, Lowered(c, wans).mainRoutes, pin.ip, Route(pin.ip, pin.via));
    BehindOthers(host, Lowered(c, wans).mainRoutes, pin.ip, Route(pin.ip, pin.via));
  }

  lemma {:induction false} MainGrows(c: Config, wans: map<Name, Wan>, k: nat)
    requires Resolved(c, wans) && k <= |c.forward|
    ensures EgressPlan(c, wans, |c.egresses|).mainRoutes <= PlanAt(c, wans, k).mainRoutes
  {
    if k > 0 {
      MainGrows(c, wans, k - 1);
      var f := c.forward[k - 1];
      if f.when != [] && IsSrc(c, f) {
        SourcesGrowMain(c, PlanAt(c, wans, k - 1), c.conditions[f.when[0]].prefixes, EgressTable(c, f.egress));
      }
    }
  }

  lemma {:induction false} SourcesGrowMain(c: Config, p: Plan, prefixes: seq<Bits>, table: int)
    ensures p.mainRoutes <= AddSources(c, p, prefixes, table).mainRoutes
  {
    if prefixes != [] {
      SourcesGrowMain(c, p, prefixes[..|prefixes| - 1], table);
    }
  }

  /** The pinned part of the main table holds one route per pinned endpoint. */
  lemma {:induction false} PinRoutes(c: Config, wans: map<Name, Wan>, i: nat, ip: Bits)
    requires i <= |c.egresses| && forall e :: e in c.egresses ==> e in wans
    ensures forall r :: r in EgressPlan(c, wans, i).mainRoutes ==>
              r.prefix in Pinned(c, wans, i) && Pinned(c, wans, i)[r.prefix] == r.via
    ensures ip in Pinned(c, wans, i) ==> Route(ip, Pinned(c, wans, i)[ip]) in EgressPlan(c, wans, i).mainRoutes
  {
    if i > 0 {
      PinRoutes(c, wans, i - 1, ip);
    }
  }

  lemma BestFull(routes: seq<Route>, dst: Bits, r: Route)
    requires r in routes && r.prefix == dst && forall x :: x in routes && x.prefix == dst ==> x == r
    ensures Best(routes, dst) == Some(r)
  {
    BestIsLongest(routes, dst);
    var b := Best(routes, dst).value;
    assert |b.prefix| == |dst| && b.prefix == dst[..|b.prefix|];
  }

  /** Later routes that are no longer than the best so far do not displace it. */
  lemma {:induction false} BestStays(a: seq<Route>, b: seq<Route>, dst: Bits)
    requires Best(a, dst).Some?
    requires forall r :: r in b && r.prefix <= dst ==> |r.prefix| <= |Best(a, dst).value.prefix|
    ensures Best(a + b, dst) == Best(a, dst)
  {
    if b == [] {
      assert a + b == a;
    } else {
      assert (a + b)[..|a + b| - 1] == a + b[..|b| - 1];
      BestStays(a, b[..|b| - 1], dst);
    }
  }
}
