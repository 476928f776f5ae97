/** The kernel datapath: an ordered forwarding policy lowered to policy routing, and what the kernel
    then does with a packet. Addresses and prefixes are bit strings; a prefix covers the addresses it
    begins, so the default route is the empty prefix. */
module KernelPlan {
  import opened Common

  type Name = string
  type Bits = seq<bool>

  datatype Condition = SrcIn(prefixes: seq<Bits>) | DstIn(prefixes: seq<Bits>)

  datatype Branch = Branch(when: seq<Name>, egress: Name)

  datatype Hop = Hop(dev: Name, gw: Name)

  /** A warp egress also names its tunnel endpoint and the underlay that must carry it. */
  datatype Pin = Pin(ip: Bits, via: Hop)

  datatype Wan = Wan(hop: Hop, ep: Option<Pin>)

  /** `egresses` lists the egress names in key order. */
  datatype Config = Config(
    egresses: seq<Name>, conditions: map<Name, Condition>, forward: seq<Branch>, lan: Name)

  datatype Route = Route(prefix: Bits, via: Hop)

  datatype Rule = Rule(prio: int, from: Bits, table: int, suppressDefault: bool)

  datatype Geo = Geo(table: int, prefixes: seq<Bits>, via: Hop)

  datatype Plan = Plan(
    tableRoutes: seq<(int, Route)>, mainRoutes: seq<Route>, rules: seq<Rule>, geo: seq<Geo>,
    srcPrio: int, dstIdx: int, legs: set<Bits>)

  const TABLE_EGRESS_BASE := 300
  const TABLE_GEO_BASE := 350
  const TABLE_MAIN := 254
  const PRIO_MAIN := 10000
  const PRIO_SRC_BASE := 11000
  const PRIO_DST_BASE := 12000
  const PRIO_DEFAULT := 13000

  // ---- the forwarding policy -----------------------------------------------------------------

  predicate IsSrc(c: Config, b: Branch) {
    |b.when| == 1 && b.when[0] in c.conditions && c.conditions[b.when[0]].SrcIn?
  }

  predicate IsDst(c: Config, b: Branch) {
    |b.when| == 1 && b.when[0] in c.conditions && c.conditions[b.when[0]].DstIn?
  }

  /** src_in branches, then dst_in branches, then exactly one default. */
  ghost predicate WellOrdered(c: Config) {
    && |c.forward| > 0
    && c.forward[|c.forward| - 1].when == []
    && (forall i :: 0 <= i < |c.forward| ==> c.forward[i].egress != "" && c.forward[i].egress in c.egresses)
    && (forall i :: 0 <= i < |c.forward| - 1 ==> IsSrc(c, c.forward[i]) || IsDst(c, c.forward[i]))
    && (forall i, j :: 0 <= i < j < |c.forward| - 1 && IsDst(c, c.forward[i]) ==> IsDst(c, c.forward[j]))
  }

  /** The validator's loop: a phase that only moves forward and a count of defaults. */
  method ValidateForward(c: Config) returns (ok: bool)
    ensures ok <==> WellOrdered(c)
  {
    if |c.forward| == 0 {
      return false;
    }
    var phase, defaults := 0, 0;
    for i := 0 to |c.forward|
      invariant 0 <= phase <= 2 && 0 <= defaults
      invariant forall k :: 0 <= k < i ==> c.forward[k].egress != "" && c.forward[k].egress in c.egresses
      invariant defaults == 0 ==> phase < 2
      invariant defaults == 0 ==> forall k :: 0 <= k < i ==> IsSrc(c, c.forward[k]) || IsDst(c, c.forward[k])
      invariant defaults == 0 && phase == 0 ==> forall k :: 0 <= k < i ==> IsSrc(c, c.forward[k])
      invariant phase == 1 ==> exists k :: 0 <= k < i && IsDst(c, c.forward[k])
      invariant forall k, j :: 0 <= k < j < i && IsDst(c, c.forward[k]) && c.forward[j].when != [] ==>
                  IsDst(c, c.forward[j])
      invariant defaults > 0 ==> phase == 2 && i > 0 && c.forward[i - 1].when == []
      invariant defaults == 1 ==> forall k :: 0 <= k < i - 1 ==> IsSrc(c, c.forward[k]) || IsDst(c, c.forward[k])
      invariant defaults > 1 ==> i > 1 && c.forward[i - 2].when == []
    {
      var f := c.forward[i];
      if f.egress == "" || f.egress !in c.egresses {
        return false;
      }
      if f.when == [] {
        defaults := defaults + 1;
        phase := 2;
      } else {
        if phase == 2 {
          return false;
        }
        if |f.when| != 1 || f.when[0] !in c.conditions {
          return false;
        }
        if c.conditions[f.when[0]].SrcIn? {
          if phase > 0 {
            return false;
          }
        } else {
          phase := 1;
        }
      }
    }
    return defaults == 1;
  }

  // ---- what the policy means ---------------------------------------------------------------------

  ghost predicate Covers(prefixes: seq<Bits>, a: Bits) {
    exists p :: p in prefixes && p <= a
  }

  ghost predicate Holds(c: Config, b: Branch, src: Bits, dst: Bits) {
    if b.when == [] then true
    else if |b.when| == 1 && b.when[0] in c.conditions then
      match c.conditions[b.when[0]]
      case SrcIn(ps) => Covers(ps, src)
      case DstIn(ps) => Covers(ps, dst)
    else false
  }

  /** The egress of the first of the first `k` branches that holds. */
  ghost function Decision(c: Config, k: nat, src: Bits, dst: Bits): Option<Name>
    requires k <= |c.forward|
  {
    if k == 0 then None
    else if Decision(c, k - 1, src, dst).Some? then Decision(c, k - 1, src, dst)
    else if Holds(c, c.forward[k - 1], src, dst) then Some(c.forward[k - 1].egress)
    else None
  }

  // ---- lowering ------------------------------------------------------------------------------------

  function IndexOf(names: seq<Name>, x: Name): nat {
    if names == [] || names[0] == x then 0 else 1 + IndexOf(names[1..], x)
  }

  lemma {:induction false} IndexOfFinds(names: seq<Name>, x: Name)
    requires x in names
    ensures IndexOf(names, x) < |names| && names[IndexOf(names, x)] == x
  {
    if names[0] != x {
      IndexOfFinds(names[1..], x);
    }
  }

  function EgressTable(c: Config, egress: Name): int {
    TABLE_EGRESS_BASE + IndexOf(c.egresses, egress)
  }

  /** The endpoints pinned by the first `i` egresses. */
  ghost function Pinned(c: Config, wans: map<Name, Wan>, i: nat): map<Bits, Hop>
    requires i <= |c.egresses| && forall e :: e in c.egresses ==> e in wans
  {
    if i == 0 then map[]
    else
      var m, ep := Pinned(c, wans, i - 1), wans[c.egresses[i - 1]].ep;
      if ep.Some? && ep.value.ip !in m then m[ep.value.ip := ep.value.via] else m
  }

  /** The plan once the first `i` egresses have their table and their endpoint pin. */
  ghost function EgressPlan(c: Config, wans: map<Name, Wan>, i: nat): Plan
    requires i <= |c.egresses| && forall e :: e in c.egresses ==> e in wans
  {
    if i == 0 then Plan([], [], [], [], PRIO_SRC_BASE, 0, {})
    else
      var p, wan := EgressPlan(c, wans, i - 1), wans[c.egresses[i - 1]];
      p.(tableRoutes := p.tableRoutes + [(TABLE_EGRESS_BASE + i - 1, Route([], wan.hop))],
         mainRoutes := p.mainRoutes +
           if wan.ep.Some? && wan.ep.value.ip !in Pinned(c, wans, i - 1)
           then [Route(wan.ep.value.ip, wan.ep.value.via)] else [])
  }

  /** Egress `i` pins an endpoint nobody pinned before, or pins it to the same underlay. */
  ghost predicate PinOk(c: Config, wans: map<Name, Wan>, i: nat)
    requires i < |c.egresses| && forall e :: e in c.egresses ==> e in wans
  {
    var m, ep := Pinned(c, wans, i), wans[c.egresses[i]].ep;
    ep.Some? && ep.value.ip in m ==> m[ep.value.ip] == ep.value.via
  }

  /** No two warp egresses pin one endpoint to different underlays. */
  ghost predicate PinsAgree(c: Config, wans: map<Name, Wan>)
    requires forall e :: e in c.egresses ==> e in wans
  {
    forall i, j :: 0 <= i < j < |c.egresses| ==> PairAgrees(wans[c.egresses[i]], wans[c.egresses[j]])
  }

  predicate PairAgrees(a: Wan, b: Wan) {
    a.ep.Some? && b.ep.Some? && a.ep.value.ip == b.ep.value.ip ==> a.ep.value.via == b.ep.value.via
  }

  lemma {:induction false} PinnedSource(c: Config, wans: map<Name, Wan>, i: nat, ip: Bits) returns (k: nat)
    requires i <= |c.egresses| && (forall e :: e in c.egresses ==> e in wans) && ip in Pinned(c, wans, i)
    ensures k < i && wans[c.egresses[k]].ep == Some(Pin(ip, Pinned(c, wans, i)[ip]))
  {
    if ip in Pinned(c, wans, i - 1) {
      k := PinnedSource(c, wans, i - 1, ip);
    } else {
      k := i - 1;
    }
  }

  lemma {:induction false} PinnedKeeps(c: Config, wans: map<Name, Wan>, k: nat, i: nat)
    requires k < i <= |c.egresses| && (forall e :: e in c.egresses ==> e in wans)
    requires wans[c.egresses[k]].ep.Some? && PinOk(c, wans, k)
    ensures var ep := wans[c.egresses[k]].ep.value; ep.ip in Pinned(c, wans, i) && Pinned(c, wans, i)[ep.ip] == ep.via
  {
    if k < i - 1 {
      PinnedKeeps(c, wans, k, i - 1);
    }
  }

  /** The running check accepts exactly the egresses whose pins agree pairwise. */
  lemma PinsAgreePairwise(c: Config, wans: map<Name, Wan>)
    requires forall e :: e in c.egresses ==> e in wans
    ensures (forall i :: 0 <= i < |c.egresses| ==> PinOk(c, wans, i)) <==> PinsAgree(c, wans)
  {
    if forall i :: 0 <= i < |c.egresses| ==> PinOk(c, wans, i) {
      forall i, j | 0 <= i < j < |c.egresses| ensures PairAgrees(wans[c.egresses[i]], wans[c.egresses[j]]) {
        if wans[c.egresses[i]].ep.Some? {
          PinnedKeeps(c, wans, i, j);
          assert PinOk(c, wans, j);
        }
      }
    }
    if PinsAgree(c, wans) {
      forall i | 0 <= i < |c.egresses| ensures PinOk(c, wans, i) {
        var ep := wans[c.egresses[i]].ep;
        if ep.Some? && ep.value.ip in Pinned(c, wans, i) {
          var k := PinnedSource(c, wans, i, ep.value.ip);
          assert PairAgrees(wans[c.egresses[k]], wans[c.egresses[i]]);
        }
      }
    }
  }

  method LowerEgresses(c: Config, wans: map<Name, Wan>) returns (r: Option<Plan>)
    requires forall e :: e in c.egresses ==> e in wans
    ensures r.Some? <==> PinsAgree(c, wans)
    ensures r.Some? ==> r.value == EgressPlan(c, wans, |c.egresses|)
  {
    PinsAgreePairwise(c, wans);
    var p := Plan([], [], [], [], PRIO_SRC_BASE, 0, {});
    var pinned: map<Bits, Hop> := map[];
    for i := 0 to |c.egresses|
      invariant p == EgressPlan(c, wans, i) && pinned == Pinned(c, wans, i)
      invariant forall k :: 0 <= k < i ==> PinOk(c, wans, k)
    {
      var wan := wans[c.egresses[i]];
      p := p.(tableRoutes := p.tableRoutes + [(TABLE_EGRESS_BASE + i, Route([], wan.hop))]);
      if wan.ep.Some? {
        var ep := wan.ep.value;
        if ep.ip in pinned {
          if pinned[ep.ip] != ep.via {
            assert !PinOk(c, wans, i);
            return None;
          }
        } else {
          pinned := pinned[ep.ip := ep.via];
          p := p.(mainRoutes := p.mainRoutes + [Route(ep.ip, ep.via)]);
        }
      }
    }
    return Some(p);
  }

  /** One rule per source prefix, at consecutive priorities, and a return route the first time. */
  ghost function AddSources(c: Config, p: Plan, prefixes: seq<Bits>, table: int): Plan {
    if prefixes == [] then p
    else
      var q := AddSources(c, p, prefixes[..|prefixes| - 1], table);
      var ip := prefixes[|prefixes| - 1];
      q.(rules := q.rules + [Rule(q.srcPrio, ip, table, false)], srcPrio := q.srcPrio + 1,
         mainRoutes := if c.lan == "" || ip in q.legs then q.mainRoutes else q.mainRoutes + [Route(ip, Hop(c.lan, ""))],
         legs := if c.lan != "" && ip !in q.legs then q.legs + {ip} else q.legs)
  }

  ghost function AddBranch(c: Config, wans: map<Name, Wan>, p: Plan, f: Branch): Plan
    requires forall e :: e in c.egresses ==> e in wans
    requires f.egress in c.egresses
  {
    if f.when == [] then p.(rules := p.rules + [Rule(PRIO_DEFAULT, [], EgressTable(c, f.egress), false)])
    else if IsSrc(c, f) then AddSources(c, p, c.conditions[f.when[0]].prefixes, EgressTable(c, f.egress))
    else if IsDst(c, f) then
      p.(rules := p.rules + [Rule(PRIO_DST_BASE + p.dstIdx, [], TABLE_GEO_BASE + p.dstIdx, false)],
         geo := p.geo + [Geo(TABLE_GEO_BASE + p.dstIdx, c.conditions[f.when[0]].prefixes, wans[f.egress].hop)],
         dstIdx := p.dstIdx + 1)
    else p
  }

  ghost predicate Resolved(c: Config, wans: map<Name, Wan>) {
    && (forall e :: e in c.egresses ==> e in wans)
    && (forall i :: 0 <= i < |c.forward| ==> c.forward[i].egress in c.egresses)
  }

  /** The plan after the first `k` branches. */
  ghost function PlanAt(c: Config, wans: map<Name, Wan>, k: nat): Plan
    requires Resolved(c, wans) && k <= |c.forward|
  {
    if k == 0 then
      var p := EgressPlan(c, wans, |c.egresses|);
      p.(rules := [Rule(PRIO_MAIN, [], TABLE_MAIN, true)])
    else AddBranch(c, wans, PlanAt(c, wans, k - 1), c.forward[k - 1])
  }

  ghost function Lowered(c: Config, wans: map<Name, Wan>): Plan
    requires Resolved(c, wans)
  {
    PlanAt(c, wans, |c.forward|)
  }

  method LowerSources(c: Config, p: Plan, prefixes: seq<Bits>, table: int) returns (q: Plan)
    ensures q == AddSources(c, p, prefixes, table)
  {
    q := p;
    for i := 0 to |prefixes|
      invariant q == AddSources(c, p, prefixes[..i], table)
    {
      assert prefixes[..i + 1][..i] == prefixes[..i];
      var ip := prefixes[i];
      q := q.(rules := q.rules + [Rule(q.srcPrio, ip, table, false)], srcPrio := q.srcPrio + 1);
      if c.lan != "" && ip !in q.legs {
        q := q.(legs := q.legs + {ip}, mainRoutes := q.mainRoutes + [Route(ip, Hop(c.lan, ""))]);
      }
    }
    assert prefixes[..|prefixes|] == prefixes;
  }

  /** Lowers a policy: fails exactly on a pin conflict or a branch that is neither kind. */
  method Lower(c: Config, wans: map<Name, Wan>) returns (r: Option<Plan>)
    requires Resolved(c, wans)
    ensures r.Some? <==>
              && PinsAgree(c, wans)
              && forall i :: 0 <= i < |c.forward| ==> c.forward[i].when == [] || Single(c, c.forward[i])
    ensures r.Some? && (forall i :: 0 <= i < |c.forward| ==> |c.forward[i].when| <= 1) ==> r.value == Lowered(c, wans)
  {
    var base := LowerEgresses(c, wans);
    if base.None? {
      return None;
    }
    var p := base.value.(rules := [Rule(PRIO_MAIN, [], TABLE_MAIN, true)]);
    for k := 0 to |c.forward|
      invariant forall i :: 0 <= i < k ==> c.forward[i].when == [] || Single(c, c.forward[i])
      invariant (forall i :: 0 <= i < |c.forward| ==> |c.forward[i].when| <= 1) ==> p == PlanAt(c, wans, k)
    {
      var q := LowerBranch(c, wans, p, k);
      if q.None? {
        return None;
      }
      p := q.value;
    }
    return Some(p);
  }

  method LowerBranch(c: Config, wans: map<Name, Wan>, p: Plan, k: nat) returns (r: Option<Plan>)
    requires Resolved(c, wans) && k < |c.forward|
    ensures r.Some? <==> c.forward[k].when == [] || Single(c, c.forward[k])
    ensures r.Some? && p == PlanAt(c, wans, k) && |c.forward[k].when| <= 1 ==> r.value == PlanAt(c, wans, k + 1)
  {
    var f := c.forward[k];
    var table := EgressTable(c, f.egress);
    if f.when == [] {
      return Some(p.(rules := p.rules + [Rule(PRIO_DEFAULT, [], table, false)]));
    } else if f.when[0] !in c.conditions {
      return None;
    }
    match c.conditions[f.when[0]]
    case SrcIn(prefixes) =>
      var q := LowerSources(c, p, prefixes, table);
      return Some(q);
    case DstIn(prefixes) =>
      var t := TABLE_GEO_BASE + p.dstIdx;
      return Some(p.(rules := p.rules + [Rule(PRIO_DST_BASE + p.dstIdx, [], t, false)],
                     geo := p.geo + [Geo(t, prefixes, wans[f.egress].hop)], dstIdx := p.dstIdx + 1));
  }

  /** The branch's first condition is known; a kernel branch looks at no other. */
  predicate Single(c: Config, f: Branch) {
    f.when != [] && f.when[0] in c.conditions
  }
}
