/** Applying a plan to the kernel's routing tables, and reloading its geo sets. Every load of a set flushes its
    table first. What is then in the tables is what the routing theorems take to be there. */
module KernelApply {
  import opened Common
  import opened KernelPlan
  import opened KernelRouting

  /** The kernel's routing tables; a table exists only while it holds a route. */
  class Fib {
    var tables: map<int, seq<Route>>

    function At(t: int): seq<Route>
      reads this
    {
      if t in tables then tables[t] else []
    }

    constructor (tables: map<int, seq<Route>>)
      ensures this.tables == tables
    {
      this.tables := tables;
    }

    method Flush(t: int)
      modifies this
      ensures forall u :: At(u) == if u == t then [] else old(At(u))
    {
      tables := tables - {t};
    }

    /** The kernel refuses a second route for a prefix. */
    method Add(t: int, r: Route) returns (ok: bool)
      modifies this
      ensures ok <==> forall x :: x in old(At(t)) ==> x.prefix != r.prefix
      ensures forall u :: At(u) == if ok && u == t then old(At(u)) + [r] else old(At(u))
    {
      var routes := At(t);
      if i :| 0 <= i < |routes| && routes[i].prefix == r.prefix {
        assert routes[i] in old(At(t));
        return false;
      }
      tables := tables[t := routes + [r]];
      return true;
    }
  }

  // ---- one geo set ---------------------------------------------------------------------------------------

  ghost predicate Once(prefixes: seq<Bits>) {
    forall i, j :: 0 <= i < j < |prefixes| ==> prefixes[i] != prefixes[j]
  }

  /** The prefixes before the first repeated one. */
  ghost function Accepted(prefixes: seq<Bits>): seq<Bits> {
    if prefixes == [] then []
    else
      var k := |prefixes| - 1;
      if Accepted(prefixes[..k]) == prefixes[..k] && prefixes[k] !in prefixes[..k] then prefixes
      else Accepted(prefixes[..k])
  }

  lemma {:induction false} AcceptedWhole(prefixes: seq<Bits>)
    ensures |Accepted(prefixes)| <= |prefixes| && (Accepted(prefixes) == prefixes <==> Once(prefixes))
  {
    if prefixes != [] {
      var k := |prefixes| - 1;
      AcceptedWhole(prefixes[..k]);
      if Once(prefixes) {
        assert Once(prefixes[..k]) && prefixes[k] !in prefixes[..k];
      }
      if Accepted(prefixes) == prefixes {
        assert Once(prefixes[..k]) && prefixes[k] !in prefixes[..k];
        OnceSnoc(prefixes, k);
      }
    }
  }

  lemma OnceSnoc(prefixes: seq<Bits>, k: nat)
    requires |prefixes| == k + 1 && Once(prefixes[..k]) && prefixes[k] !in prefixes[..k]
    ensures Once(prefixes)
  {
    forall i, j | 0 <= i < j < |prefixes| ensures prefixes[i] != prefixes[j] {
      assert prefixes[i] == prefixes[..k][i];
      assert prefixes[i] in prefixes[..k];
    }
  }

  /** Nothing is added behind a repeated prefix. */
  lemma {:induction false} AcceptedStops(prefixes: seq<Bits>, i: nat)
    requires i < |prefixes| && Once(prefixes[..i]) && prefixes[i] in prefixes[..i]
    ensures Accepted(prefixes) == prefixes[..i]
  {
    var k := |prefixes| - 1;
    AcceptedWhole(prefixes[..k]);
    AcceptedWhole(prefixes[..i]);
    if i < k {
      assert prefixes[..k][..i] == prefixes[..i];
      AcceptedStops(prefixes[..k], i);
    }
  }

  lemma PrefixRoutesSnoc(prefixes: seq<Bits>, i: nat, via: Hop)
    requires i < |prefixes|
    ensures PrefixRoutes(prefixes[..i + 1], via) == PrefixRoutes(prefixes[..i], via) + [Route(prefixes[i], via)]
    ensures var routes := PrefixRoutes(prefixes[..i], via);
            (exists x :: x in routes && x.prefix == prefixes[i]) <==> prefixes[i] in prefixes[..i]
  {
    var routes := PrefixRoutes(prefixes[..i], via);
    if prefixes[i] in prefixes[..i] {
      var k :| 0 <= k < i && prefixes[..i][k] == prefixes[i];
      assert routes[k] in routes && routes[k].prefix == prefixes[i];
    }
  }

  /** Loads or reloads a set: its table is flushed, then filled in order until a prefix is refused. On a set that
      cannot be read or repeats a prefix the load fails, and what the table held before is gone. */
  method LoadGeo(f: Fib, table: int, read: Option<seq<Bits>>, via: Hop) returns (ok: bool)
    modifies f
    ensures forall t :: t != table ==> f.At(t) == old(f.At(t))
    ensures f.At(table) == PrefixRoutes(Accepted(if read.Some? then read.value else []), via)
    ensures ok <==> read.Some? && Once(read.value)
  {
    f.Flush(table);
    if read.None? {
      return false;
    }
    var prefixes := read.value;
    AcceptedWhole(prefixes);
    for i := 0 to |prefixes|
      invariant forall t :: t != table ==> f.At(t) == old(f.At(t))
      invariant f.At(table) == PrefixRoutes(prefixes[..i], via) && Once(prefixes[..i])
    {
      PrefixRoutesSnoc(prefixes, i, via);
      var added := f.Add(table, Route(prefixes[i], via));
      if !added {
        AcceptedStops(prefixes, i);
        assert !Once(prefixes) by {
          var k :| 0 <= k < i && prefixes[..i][k] == prefixes[i];
        }
        return false;
      }
      assert prefixes[..i + 1][..i] == prefixes[..i];
      OnceSnoc(prefixes[..i + 1], i);
    }
    assert prefixes[..|prefixes|] == prefixes;
    return true;
  }

  // ---- the whole plan ------------------------------------------------------------------------------------

  ghost function TablesOf(p: Plan): set<int> {
    (set x | x in p.tableRoutes :: x.0) + (set g | g in p.geo :: g.table)
  }

  /** The kernel holds the plan's tables. */
  ghost predicate Realizes(f: Fib, p: Plan)
    reads f
  {
    forall t :: t in TablesOf(p) ==> f.At(t) == PlanTable(p, t)
  }

  /** No table gets two routes for one prefix. */
  ghost predicate AddsOnce(routes: seq<(int, Route)>) {
    forall i, j :: 0 <= i < j < |routes| ==> routes[i].0 != routes[j].0 || routes[i].1.prefix != routes[j].1.prefix
  }

  lemma {:induction false} DefaultsAre(routes: seq<(int, Route)>, t: int, r: Route)
    ensures r in DefaultsIn(routes, t) <==> (t, r) in routes
  {
    if routes != [] {
      var k := |routes| - 1;
      DefaultsAre(routes[..k], t, r);
      assert routes == routes[..k] + [routes[k]];
    }
  }

  method FlushTables(f: Fib, p: Plan)
    modifies f
    ensures forall t :: t in TablesOf(p) ==> f.At(t) == []
  {
    for i := 0 to |p.tableRoutes|
      invariant forall k :: 0 <= k < i ==> f.At(p.tableRoutes[k].0) == []
    {
      f.Flush(p.tableRoutes[i].0);
    }
    for i := 0 to |p.geo|
      invariant forall k :: 0 <= k < |p.tableRoutes| ==> f.At(p.tableRoutes[k].0) == []
      invariant forall k :: 0 <= k < i ==> f.At(p.geo[k].table) == []
    {
      f.Flush(p.geo[i].table);
    }
  }

  /** The plan's tables hold the first `i` default routes. */
  ghost predicate HasDefaults(f: Fib, p: Plan, i: nat)
    requires i <= |p.tableRoutes|
    reads f
  {
    forall t :: t in TablesOf(p) ==> f.At(t) == DefaultsIn(p.tableRoutes[..i], t)
  }

  method AddDefault(f: Fib, p: Plan, i: nat) returns (ok: bool)
    requires i < |p.tableRoutes| && HasDefaults(f, p, i)
    modifies f
    ensures ok <==> forall x :: x in DefaultsIn(p.tableRoutes[..i], p.tableRoutes[i].0) ==>
                      x.prefix != p.tableRoutes[i].1.prefix
    ensures ok ==> HasDefaults(f, p, i + 1)
  {
    var (t, r) := p.tableRoutes[i];
    assert p.tableRoutes[i] in p.tableRoutes && t in TablesOf(p);
    assert p.tableRoutes[..i + 1] == p.tableRoutes[..i] + [(t, r)];
    ok := f.Add(t, r);
    forall u | ok && u in TablesOf(p) ensures f.At(u) == DefaultsIn(p.tableRoutes[..i + 1], u) {
      DefaultsSnoc(p.tableRoutes[..i], t, r, u);
    }
  }

  /** Adds the egress default routes to the flushed tables. */
  method AddDefaults(f: Fib, p: Plan) returns (ok: bool)
    requires HasDefaults(f, p, 0)
    modifies f
    ensures ok <==> AddsOnce(p.tableRoutes)
    ensures ok ==> HasDefaults(f, p, |p.tableRoutes|)
  {
    for i := 0 to |p.tableRoutes|
      invariant HasDefaults(f, p, i) && AddsOnce(p.tableRoutes[..i])
    {
      var added := AddDefault(f, p, i);
      AddedOrNot(p.tableRoutes, i, added);
      if !added {
        return false;
      }
    }
    assert p.tableRoutes[..|p.tableRoutes|] == p.tableRoutes;
    return true;
  }

  lemma AddedOrNot(routes: seq<(int, Route)>, i: nat, added: bool)
    requires i < |routes| && AddsOnce(routes[..i])
    requires added <==> forall x :: x in DefaultsIn(routes[..i], routes[i].0) ==> x.prefix != routes[i].1.prefix
    ensures added ==> AddsOnce(routes[..i + 1])
    ensures !added ==> !AddsOnce(routes)
  {
    var t := routes[i].0;
    if added {
      forall k | 0 <= k < i ensures routes[k].0 != t || routes[k].1.prefix != routes[i].1.prefix {
        DefaultsAre(routes[..i], t, routes[k].1);
        assert routes[..i][k] in routes[..i];
      }
      assert forall k :: 0 <= k < i ==> routes[..i][k] == routes[..i + 1][k];
    } else {
      var x :| x in DefaultsIn(routes[..i], t) && x.prefix == routes[i].1.prefix;
      DefaultsAre(routes[..i], t, x);
      var k :| 0 <= k < i && routes[..i][k] == (t, x);
    }
  }

  /** The plan's tables hold the default routes and the first `i` geo sets. */
  ghost predicate HasSets(f: Fib, p: Plan, i: nat)
    requires i <= |p.geo|
    reads f
  {
    forall t :: t in TablesOf(p) ==> f.At(t) == PlanTable(p.(geo := p.geo[..i]), t)
  }

  lemma NextSet(p: Plan, i: nat, t: int)
    requires i < |p.geo|
    ensures PlanTable(p.(geo := p.geo[..i + 1]), t)
         == if p.geo[i].table == t then PrefixRoutes(p.geo[i].prefixes, p.geo[i].via)
            else PlanTable(p.(geo := p.geo[..i]), t)
  {
    assert p.geo[..i + 1][..i] == p.geo[..i];
  }

  method LoadSet(f: Fib, p: Plan, i: nat) returns (ok: bool)
    requires i < |p.geo| && HasSets(f, p, i)
    modifies f
    ensures ok <==> Once(p.geo[i].prefixes)
    ensures ok ==> HasSets(f, p, i + 1)
  {
    AcceptedWhole(p.geo[i].prefixes);
    ok := LoadGeo(f, p.geo[i].table, Some(p.geo[i].prefixes), p.geo[i].via);
    forall t | ok && t in TablesOf(p) ensures f.At(t) == PlanTable(p.(geo := p.geo[..i + 1]), t) {
      NextSet(p, i, t);
    }
  }

  method LoadAll(f: Fib, p: Plan) returns (ok: bool)
    requires HasSets(f, p, 0)
    modifies f
    ensures ok <==> forall i :: 0 <= i < |p.geo| ==> Once(p.geo[i].prefixes)
    ensures ok ==> HasSets(f, p, |p.geo|)
  {
    for i := 0 to |p.geo|
      invariant HasSets(f, p, i) && forall k :: 0 <= k < i ==> Once(p.geo[k].prefixes)
    {
      ok := LoadSet(f, p, i);
      if !ok {
        return false;
      }
    }
    return true;
  }

  /** Installs the plan's tables: flush them, add the egress default routes, load the geo sets. It succeeds exactly
      if no table is given a prefix twice, and then the kernel holds the plan. */
  method Apply(f: Fib, p: Plan) returns (ok: bool)
    modifies f
    ensures ok <==> AddsOnce(p.tableRoutes) && forall i :: 0 <= i < |p.geo| ==> Once(p.geo[i].prefixes)
    ensures ok ==> Realizes(f, p)
  {
    FlushTables(f, p);
    assert p.tableRoutes[..0] == [] && p.tableRoutes[..|p.tableRoutes|] == p.tableRoutes;
    ok := AddDefaults(f, p);
    if ok {
      assert p.geo[..0] == [] && p.(geo := p.geo[..|p.geo|]) == p;
      ok := LoadAll(f, p);
    }
  }

  /** A lowered plan gives every egress and every geo set a table of its own kind, so only a set that repeats a
      prefix can be refused, and reloads do not touch each other. */
  lemma LoweredAddsOnce(c: Config, wans: map<Name, Wan>)
    requires Resolved(c, wans)
    ensures AddsOnce(Lowered(c, wans).tableRoutes) && OwnTables(Lowered(c, wans).geo)
  {
    PlanTables(c, wans, Lowered(c, wans));
    EgressRoutesAt(c, wans, |c.egresses|);
  }

  lemma {:induction false} EgressRoutesAt(c: Config, wans: map<Name, Wan>, i: nat)
    requires i <= |c.egresses| && forall e :: e in c.egresses ==> e in wans
    ensures |EgressRoutes(c, wans, i)| == i
    ensures forall k :: 0 <= k < i ==> EgressRoutes(c, wans, i)[k].0 == TABLE_EGRESS_BASE + k
  {
    if i > 0 {
      EgressRoutesAt(c, wans, i - 1);
    }
  }

  // ---- reloading -----------------------------------------------------------------------------------------

  ghost predicate OwnTables(geo: seq<Geo>) {
    forall i, j :: 0 <= i < j < |geo| ==> geo[i].table != geo[j].table
  }

  lemma {:induction false} LoadedAfter(geo: seq<Geo>, i: nat, prefixes: seq<Bits>, t: int)
    requires i < |geo| && OwnTables(geo)
    ensures LoadedIn(geo[i := geo[i].(prefixes := prefixes)], t)
         == if t == geo[i].table then Some(PrefixRoutes(prefixes, geo[i].via)) else LoadedIn(geo, t)
  {
    var k, next := |geo| - 1, geo[i := geo[i].(prefixes := prefixes)];
    if i < k {
      assert next[..k] == geo[..k][i := geo[i].(prefixes := prefixes)];
      LoadedAfter(geo[..k], i, prefixes, t);
    } else {
      assert next[..k] == geo[..k];
    }
  }

  ghost function Reloaded(p: Plan, i: nat, prefixes: seq<Bits>): Plan
    requires i < |p.geo|
  {
    p.(geo := p.geo[i := p.geo[i].(prefixes := prefixes)])
  }

  /** A reload that succeeds realizes the plan with the new set. */
  method ReloadGeo(f: Fib, p: Plan, i: nat, read: Option<seq<Bits>>) returns (ok: bool)
    requires i < |p.geo| && OwnTables(p.geo) && Realizes(f, p)
    modifies f
    ensures ok <==> read.Some? && Once(read.value)
    ensures Realizes(f, Reloaded(p, i, Accepted(if read.Some? then read.value else [])))
    ensures ok ==> Realizes(f, Reloaded(p, i, read.value))
  {
    ghost var now := Accepted(if read.Some? then read.value else []);
    ok := LoadGeo(f, p.geo[i].table, read, p.geo[i].via);
    forall t | t in TablesOf(Reloaded(p, i, now)) ensures f.At(t) == PlanTable(Reloaded(p, i, now), t) {
      LoadedAfter(p.geo, i, now, t);
      SameTables(p, i, now, t);
    }
    if ok {
      AcceptedWhole(read.value);
    }
  }

  lemma SameTables(p: Plan, i: nat, prefixes: seq<Bits>, t: int)
    requires i < |p.geo| && t in TablesOf(Reloaded(p, i, prefixes))
    ensures t in TablesOf(p)
  {
    var geo := Reloaded(p, i, prefixes).geo;
    if g :| g in geo && g.table == t {
      var k :| 0 <= k < |geo| && geo[k] == g;
      assert p.geo[k] in p.geo && p.geo[k].table == t;
    }
  }
}
