/** What the plan puts into the main table: a pin per tunnel endpoint, and a return route per source prefix, so
    that replies to a leg go back to the LAN whatever the policy says about their source. */
module KernelReturn {
  import opened Common
  import opened KernelPlan
  import opened KernelRouting

  /** `ip` is a source prefix of one of the first `k` branches. */
  ghost predicate LegBefore(c: Config, k: nat, ip: Bits)
    requires k <= |c.forward|
  {
    exists b :: 0 <= b < k && IsSrc(c, c.forward[b]) && ip in c.conditions[c.forward[b].when[0]].prefixes
  }

  /** `ip` is a source prefix of the policy. */
  ghost predicate IsLeg(c: Config, ip: Bits) {
    LegBefore(c, |c.forward|, ip)
  }

  ghost function LegRoute(c: Config, ip: Bits): Route {
    Route(ip, Hop(c.lan, ""))
  }

  // ---- the legs of a plan ----------------------------------------------------------------------------------

  /** The routes behind the first `n` are those of the legs, each once. */
  ghost predicate LegsFrom(c: Config, main: seq<Route>, legs: set<Bits>, n: nat) {
    && n <= |main|
    && (forall i :: n <= i < |main| ==> main[i].prefix in legs && main[i] == LegRoute(c, main[i].prefix))
    && (forall ip :: ip in legs ==> LegRoute(c, ip) in main[n..])
    && (forall i, j :: n <= i < j < |main| ==> main[i].prefix != main[j].prefix)
  }

  lemma LegsSnoc(c: Config, main: seq<Route>, legs: set<Bits>, n: nat, ip: Bits)
    requires LegsFrom(c, main, legs, n) && ip !in legs
    ensures LegsFrom(c, main + [LegRoute(c, ip)], legs + {ip}, n)
  {
    var all := main + [LegRoute(c, ip)];
    assert all[n..] == main[n..] + [LegRoute(c, ip)];
  }

  lemma {:induction false} SourceLegs(c: Config, p: Plan, prefixes: seq<Bits>, table: int, n: nat)
    requires LegsFrom(c, p.mainRoutes, p.legs, n)
    ensures var q := AddSources(c, p, prefixes, table);
            && LegsFrom(c, q.mainRoutes, q.legs, n) && p.mainRoutes <= q.mainRoutes
            && (forall ip :: ip in q.legs <==> ip in p.legs || (c.lan != "" && ip in prefixes))
  {
    if prefixes != [] {
      var k := |prefixes| - 1;
      SourceLegs(c, p, prefixes[..k], table, n);
      var q := AddSources(c, p, prefixes[..k], table);
      assert forall ip :: ip in prefixes <==> ip in prefixes[..k] || ip == prefixes[k];
      if c.lan != "" && prefixes[k] !in q.legs {
        LegsSnoc(c, q.mainRoutes, q.legs, n, prefixes[k]);
      }
    }
  }

  ghost function Pins(c: Config, wans: map<Name, Wan>): seq<Route>
    requires forall e :: e in c.egresses ==> e in wans
  {
    EgressPlan(c, wans, |c.egresses|).mainRoutes
  }

  /** After `k` branches: the pins, then a return route for every source prefix so far if there is a LAN. */
  ghost predicate MainAt(c: Config, wans: map<Name, Wan>, k: nat)
    requires Resolved(c, wans) && k <= |c.forward|
  {
    var p := PlanAt(c, wans, k);
    && Pins(c, wans) <= p.mainRoutes && LegsFrom(c, p.mainRoutes, p.legs, |Pins(c, wans)|)
    && (forall ip :: ip in p.legs <==> c.lan != "" && LegBefore(c, k, ip))
  }

  lemma {:induction false} NoLegsYet(c: Config, wans: map<Name, Wan>, i: nat)
    requires i <= |c.egresses| && forall e :: e in c.egresses ==> e in wans
    ensures EgressPlan(c, wans, i).legs == {}
  {
    if i > 0 {
      NoLegsYet(c, wans, i - 1);
    }
  }

  lemma LegBeforeNext(c: Config, k: nat, ip: Bits)
    requires k < |c.forward|
    ensures LegBefore(c, k + 1, ip)
       <==> LegBefore(c, k, ip) || (IsSrc(c, c.forward[k]) && ip in c.conditions[c.forward[k].when[0]].prefixes)
  {
    if LegBefore(c, k, ip) {
      var b :| 0 <= b < k && IsSrc(c, c.forward[b]) && ip in c.conditions[c.forward[b].when[0]].prefixes;
      assert 0 <= b < k + 1;
    }
  }

  lemma MainNext(c: Config, wans: map<Name, Wan>, k: nat)
    requires Resolved(c, wans) && k < |c.forward| && MainAt(c, wans, k)
    ensures MainAt(c, wans, k + 1)
  {
    var p, f, n := PlanAt(c, wans, k), c.forward[k], |Pins(c, wans)|;
    if f.when != [] && IsSrc(c, f) {
      SourceLegs(c, p, c.conditions[f.when[0]].prefixes, EgressTable(c, f.egress), n);
    }
    forall ip ensures LegBefore(c, k + 1, ip)
                 <==> LegBefore(c, k, ip) || (IsSrc(c, f) && ip in c.conditions[f.when[0]].prefixes)
    {
      LegBeforeNext(c, k, ip);
    }
  }

  lemma {:induction false} MainIs(c: Config, wans: map<Name, Wan>, k: nat)
    requires Resolved(c, wans) && k <= |c.forward|
    ensures MainAt(c, wans, k)
  {
    if k == 0 {
      NoLegsYet(c, wans, |c.egresses|);
    } else {
      MainIs(c, wans, k - 1);
      MainNext(c, wans, k - 1);
    }
  }

  // ---- the main table ----------------------------------------------------------------------------------------

  /** Some egress pins the endpoint to the underlay. */
  ghost predicate IsPin(c: Config, wans: map<Name, Wan>, r: Route) {
    exists e :: e in c.egresses && e in wans && wans[e].ep == Some(Pin(r.prefix, r.via))
  }

  lemma PinsArePinned(c: Config, wans: map<Name, Wan>, r: Route)
    requires (forall e :: e in c.egresses ==> e in wans) && r in Pins(c, wans)
    ensures IsPin(c, wans, r)
  {
    PinRoutes(c, wans, |c.egresses|, r.prefix);
    var k := PinnedSource(c, wans, |c.egresses|, r.prefix);
    assert c.egresses[k] in c.egresses;
  }

  lemma PinnedAreIn(c: Config, wans: map<Name, Wan>, r: Route)
    requires (forall e :: e in c.egresses ==> e in wans) && PinsAgree(c, wans) && IsPin(c, wans, r)
    ensures r in Pins(c, wans)
  {
    var e :| e in c.egresses && wans[e].ep == Some(Pin(r.prefix, r.via));
    var i := PinAccepted(c, wans, e);
    PinnedKeeps(c, wans, i, |c.egresses|);
    PinRoutes(c, wans, |c.egresses|, r.prefix);
  }

  /** The plan's main routes are exactly the pins and, with a LAN, an on-link route for every source prefix; and no
      source prefix gets two. */
  lemma MainRoutesExactly(c: Config, wans: map<Name, Wan>)
    requires Resolved(c, wans) && PinsAgree(c, wans)
    ensures forall r :: r in Lowered(c, wans).mainRoutes
                   <==> IsPin(c, wans, r) || (c.lan != "" && IsLeg(c, r.prefix) && r == LegRoute(c, r.prefix))
    ensures var main, n := Lowered(c, wans).mainRoutes, |Pins(c, wans)|;
            n <= |main| && forall i, j :: n <= i < j < |main| ==> main[i].prefix != main[j].prefix
  {
    var main, n := Lowered(c, wans).mainRoutes, |Pins(c, wans)|;
    MainIs(c, wans, |c.forward|);
    forall r ensures r in main
                <==> IsPin(c, wans, r) || (c.lan != "" && IsLeg(c, r.prefix) && r == LegRoute(c, r.prefix))
    {
      if r in main {
        MainRouteFrom(c, wans, r);
      }
      if IsPin(c, wans, r) {
        PinnedAreIn(c, wans, r);
      }
    }
  }

  lemma MainRouteFrom(c: Config, wans: map<Name, Wan>, r: Route)
    requires Resolved(c, wans) && r in Lowered(c, wans).mainRoutes
    ensures IsPin(c, wans, r) || (c.lan != "" && IsLeg(c, r.prefix) && r == LegRoute(c, r.prefix))
  {
    var main := Lowered(c, wans).mainRoutes;
    MainIs(c, wans, |c.forward|);
    var i :| 0 <= i < |main| && main[i] == r;
    if i < |Pins(c, wans)| {
      assert Pins(c, wans)[i] == r;
      PinsArePinned(c, wans, r);
    }
  }

  lemma LegRouteIn(c: Config, wans: map<Name, Wan>, ip: Bits)
    requires Resolved(c, wans) && c.lan != "" && IsLeg(c, ip)
    ensures LegRoute(c, ip) in Lowered(c, wans).mainRoutes
  {
    MainIs(c, wans, |c.forward|);
  }

  /** Whatever the main table covers with more than its default, it decides, for every source. */
  lemma MainDecides(c: Config, wans: map<Name, Wan>, host: seq<Route>, src: Bits, dst: Bits)
    requires Resolved(c, wans)
    ensures var best := Best(host + Lowered(c, wans).mainRoutes, dst);
            best.Some? && best.value.prefix != [] ==>
              NextHop(Lowered(c, wans), host, src, dst) == Some(best.value.via)
  {
    var p, main := Lowered(c, wans), Rule(PRIO_MAIN, [], TABLE_MAIN, true);
    MainFirst(c, wans);
    OneRule(p, host, main, src, dst);
    if Walk(p, host, [main], src, dst).Some? {
      WalkStops(p, host, [main], Install(p.rules), src, dst);
    }
  }

  /** `ip` is the longest prefix that covers the destination, among the host's routes, the pins and the legs. */
  ghost predicate LongestLeg(c: Config, wans: map<Name, Wan>, host: seq<Route>, ip: Bits, dst: Bits) {
    && IsLeg(c, ip) && ip <= dst
    && (forall r :: r in host && r.prefix <= dst ==> |r.prefix| < |ip|)
    && (forall r :: IsPin(c, wans, r) && r.prefix <= dst ==> |r.prefix| < |ip|)
    && (forall q :: IsLeg(c, q) && q <= dst ==> |q| <= |ip|)
  }

  /** Traffic to a leg goes back to the LAN, whatever its source and whatever the policy. */
  lemma LegsReturnToLan(c: Config, wans: map<Name, Wan>, host: seq<Route>, ip: Bits, src: Bits, dst: Bits)
    requires Resolved(c, wans) && c.lan != "" && ip != [] && LongestLeg(c, wans, host, ip, dst)
    ensures NextHop(Lowered(c, wans), host, src, dst) == Some(Hop(c.lan, ""))
  {
    var all := host + Lowered(c, wans).mainRoutes;
    LegRouteIn(c, wans, ip);
    assert LegRoute(c, ip) in all;
    BestIsLongest(all, dst);
    var best := Best(all, dst).value;
    if best in host {
      assert false;
    }
    MainRouteFrom(c, wans, best);
    MainDecides(c, wans, host, src, dst);
  }
}
