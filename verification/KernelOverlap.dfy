/** What the kernel does once the egress tables have grown into the geo tables: more than fifty egresses and
    at least one destination branch. Loading a geo set flushes its table, so an egress whose table is shared
    has lost its default route: its own traffic is answered by the branch's prefixes or by nobody. */
module KernelOverlap {
  import opened Common
  import opened KernelPlan
  import opened KernelRouting

  const ROOM: nat := TABLE_GEO_BASE - TABLE_EGRESS_BASE

  /** Branch `d` is the first destination branch; only source branches come before it. */
  ghost predicate FirstGeo(c: Config, d: nat) {
    d < |c.forward| && IsDst(c, c.forward[d]) && forall i :: 0 <= i < d ==> IsSrc(c, c.forward[i])
  }

  ghost function PrefixesOf(c: Config, k: nat): seq<Bits>
    requires k < |c.forward|
  {
    var f := c.forward[k];
    if IsDst(c, f) then c.conditions[f.when[0]].prefixes else []
  }

  /** Destination branches are consecutive, so the one at distance `k - d` has geo table `k - d`. */
  lemma {:induction false} DstCountFrom(c: Config, d: nat, k: nat)
    requires WellOrdered(c) && FirstGeo(c, d) && k <= |c.forward|
    ensures DstCount(c, k) == if k <= d then 0 else if k < |c.forward| then k - d else |c.forward| - 1 - d
  {
    if k > 0 {
      DstCountFrom(c, d, k - 1);
    }
  }

  // ---- what an egress's table answers --------------------------------------------------------------------

  /** The destination branch whose set is loaded into the egress's table. */
  ghost function Captor(c: Config, d: nat, egress: Name): Option<nat> {
    var i := IndexOf(c.egresses, egress);
    if ROOM <= i && d + i - ROOM < |c.forward| - 1 then Some(d + i - ROOM) else None
  }

  /** By which egress the egress's own table sends the address: its own, that of the branch which captured the
      table where that branch covers the address, and none elsewhere. */
  ghost function TableEgress(c: Config, d: nat, egress: Name, dst: Bits): Option<Name> {
    match Captor(c, d, egress)
    case None => Some(egress)
    case Some(k) => if Covers(PrefixesOf(c, k), dst) then Some(c.forward[k].egress) else None
  }

  ghost function BestHop(p: Plan, host: seq<Route>, t: int, dst: Bits): Option<Hop> {
    var best := Best(Contents(p, host, t), dst);
    if best.Some? then Some(best.value.via) else None
  }

  lemma TableAnswers(c: Config, wans: map<Name, Wan>, host: seq<Route>, d: nat, egress: Name, dst: Bits)
    requires Resolved(c, wans) && WellOrdered(c) && FirstGeo(c, d) && egress in c.egresses
    ensures BestHop(Lowered(c, wans), host, EgressTable(c, egress), dst)
         == HopOf(wans, TableEgress(c, d, egress, dst))
  {
    var i := IndexOf(c.egresses, egress);
    IndexOfFinds(c.egresses, egress);
    if Captor(c, d, egress).Some? {
      CapturedAnswers(c, wans, host, d + i - ROOM, d, dst);
    } else {
      OwnAnswers(c, wans, host, d, i, dst);
    }
  }

  lemma CapturedAnswers(c: Config, wans: map<Name, Wan>, host: seq<Route>, k: nat, d: nat, dst: Bits)
    requires Resolved(c, wans) && WellOrdered(c) && FirstGeo(c, d) && d <= k < |c.forward| - 1
    ensures BestHop(Lowered(c, wans), host, TABLE_GEO_BASE + k - d, dst)
         == if Covers(PrefixesOf(c, k), dst) then Some(wans[c.forward[k].egress].hop) else None
  {
    DstCountFrom(c, d, k);
    GeoTableContents(c, wans, host, k);
    PrefixTable(PrefixesOf(c, k), wans[c.forward[k].egress].hop, dst);
  }

  lemma OwnAnswers(c: Config, wans: map<Name, Wan>, host: seq<Route>, d: nat, i: nat, dst: Bits)
    requires Resolved(c, wans) && WellOrdered(c) && FirstGeo(c, d) && i < |c.egresses|
    requires i < ROOM || d + i - ROOM >= |c.forward| - 1
    ensures BestHop(Lowered(c, wans), host, TABLE_EGRESS_BASE + i, dst) == Some(wans[c.egresses[i]].hop)
  {
    DstCountFrom(c, d, |c.forward|);
    NoGeoThere(c, wans, i);
    DefaultThere(c, wans, i);
    DefaultTable(Contents(Lowered(c, wans), host, TABLE_EGRESS_BASE + i), wans[c.egresses[i]].hop, dst);
  }

  // ---- the walk ------------------------------------------------------------------------------------------

  /** By which egress the rules of branch `k` send a packet, if they answer at all. */
  ghost function Answer(c: Config, d: nat, k: nat, src: Bits, dst: Bits): Option<Name>
    requires k < |c.forward|
  {
    if !Holds(c, c.forward[k], src, dst) then None
    else if IsDst(c, c.forward[k]) then Some(c.forward[k].egress)
    else TableEgress(c, d, c.forward[k].egress, dst)
  }

  lemma BranchGives(c: Config, wans: map<Name, Wan>, host: seq<Route>, d: nat, k: nat, src: Bits, dst: Bits)
    requires Resolved(c, wans) && WellOrdered(c) && FirstGeo(c, d) && k < |c.forward|
    ensures Walk(Lowered(c, wans), host, Added(c, k), src, dst) == HopOf(wans, Answer(c, d, k, src, dst))
  {
    var p, f := Lowered(c, wans), c.forward[k];
    if f.when != [] && IsDst(c, f) {
      GeoTableContents(c, wans, host, k);
      OneRule(p, host, Added(c, k)[0], src, dst);
      PrefixTable(PrefixesOf(c, k), wans[f.egress].hop, dst);
    } else {
      TableAnswers(c, wans, host, d, f.egress, dst);
      var t, hop := EgressTable(c, f.egress), HopOf(wans, TableEgress(c, d, f.egress, dst));
      if f.when == [] {
        OneRule(p, host, Added(c, k)[0], src, dst);
      } else {
        SourceAsks(p, host, Added(c, k), c.conditions[f.when[0]].prefixes, t, hop, src, dst);
      }
    }
  }

  /** Source rules into one table give what the table gives, to the sources they cover. */
  lemma {:induction false} SourceAsks(p: Plan, host: seq<Route>, rules: seq<Rule>, prefixes: seq<Bits>, table: int,
                                      hop: Option<Hop>, src: Bits, dst: Bits)
    requires |rules| == |prefixes| && BestHop(p, host, table, dst) == hop
    requires forall i :: 0 <= i < |rules| ==>
               rules[i].from == prefixes[i] && rules[i].table == table && !rules[i].suppressDefault
    ensures Walk(p, host, rules, src, dst) == if Covers(prefixes, src) then hop else None
  {
    if rules != [] {
      var k := |rules| - 1;
      SourceAsks(p, host, rules[..k], prefixes[..k], table, hop, src, dst);
      CoversSnoc(prefixes[..k], prefixes[k], src);
      assert prefixes == prefixes[..k] + [prefixes[k]];
    }
  }

  /** The first answer from branch `k` on. */
  ghost function FirstAnswer(c: Config, d: nat, k: nat, src: Bits, dst: Bits): Option<Name>
    requires k <= |c.forward|
    decreases |c.forward| - k
  {
    if k == |c.forward| then None
    else if Answer(c, d, k, src, dst).Some? then Answer(c, d, k, src, dst)
    else FirstAnswer(c, d, k + 1, src, dst)
  }

  /** The rules from branch `k` on. */
  ghost function RulesFrom(c: Config, k: nat): seq<Rule>
    requires k <= |c.forward|
    decreases |c.forward| - k
  {
    if k == |c.forward| then [] else Added(c, k) + RulesFrom(c, k + 1)
  }

  lemma {:induction false} AllRules(c: Config, k: nat)
    requires k <= |c.forward|
    ensures RulesUpTo(c, k) + RulesFrom(c, k) == RulesUpTo(c, |c.forward|)
    decreases |c.forward| - k
  {
    if k < |c.forward| {
      AllRules(c, k + 1);
      var before, added, after := RulesUpTo(c, k), Added(c, k), RulesFrom(c, k + 1);
      assert RulesUpTo(c, k + 1) == before + added && RulesFrom(c, k) == added + after;
      Regroup(before, added, after);
    } else {
      WithNothing(RulesUpTo(c, k));
    }
  }

  lemma WithNothing(rules: seq<Rule>)
    ensures rules + [] == rules && [] + rules == rules
  {
  }

  lemma AnswersKnown(c: Config, wans: map<Name, Wan>, d: nat, k: nat, src: Bits, dst: Bits)
    requires Resolved(c, wans) && k < |c.forward|
    ensures Answer(c, d, k, src, dst).Some? ==> Answer(c, d, k, src, dst).value in wans
  {
  }

  lemma {:induction false} WalkFrom(c: Config, wans: map<Name, Wan>, p: Plan, host: seq<Route>, d: nat, k: nat,
                                    src: Bits, dst: Bits)
    requires Resolved(c, wans) && k <= |c.forward|
    requires forall i: nat :: i < |c.forward| ==> Gives(c, wans, p, host, d, i, src, dst)
    ensures Walk(p, host, RulesFrom(c, k), src, dst) == HopOf(wans, FirstAnswer(c, d, k, src, dst))
    decreases |c.forward| - k
  {
    if k < |c.forward| {
      WalkFrom(c, wans, p, host, d, k + 1, src, dst);
      WalkBefore(c, wans, p, host, d, k, src, dst);
    }
  }

  lemma WalkBefore(c: Config, wans: map<Name, Wan>, p: Plan, host: seq<Route>, d: nat, k: nat, src: Bits, dst: Bits)
    requires Resolved(c, wans) && k < |c.forward| && Gives(c, wans, p, host, d, k, src, dst)
    requires Walk(p, host, RulesFrom(c, k + 1), src, dst) == HopOf(wans, FirstAnswer(c, d, k + 1, src, dst))
    ensures Walk(p, host, RulesFrom(c, k), src, dst) == HopOf(wans, FirstAnswer(c, d, k, src, dst))
  {
    AnswersKnown(c, wans, d, k, src, dst);
    WalkConcat(p, host, Added(c, k), RulesFrom(c, k + 1), src, dst);
  }

  ghost predicate Gives(c: Config, wans: map<Name, Wan>, p: Plan, host: seq<Route>, d: nat, k: nat, src: Bits,
                        dst: Bits)
    requires k < |c.forward|
  {
    Walk(p, host, Added(c, k), src, dst) == HopOf(wans, Answer(c, d, k, src, dst))
  }

  /** Default-bound traffic leaves by the first branch that holds and whose table answers. */
  lemma OverlapHop(c: Config, wans: map<Name, Wan>, host: seq<Route>, d: nat, src: Bits, dst: Bits)
    requires Resolved(c, wans) && WellOrdered(c) && RangesFit(c) && FirstGeo(c, d)
    requires DefaultBound(Lowered(c, wans), host, dst)
    ensures NextHop(Lowered(c, wans), host, src, dst) == HopOf(wans, FirstAnswer(c, d, 0, src, dst))
  {
    var p := Lowered(c, wans);
    PlanInOrder(c, wans);
    MainMisses(p, host, RulesUpTo(c, |c.forward|), src, dst);
    forall k: nat | k < |c.forward| ensures Gives(c, wans, p, host, d, k, src, dst) {
      BranchGives(c, wans, host, d, k, src, dst);
    }
    WalkFrom(c, wans, p, host, d, 0, src, dst);
    AllRules(c, 0);
    WithNothing(RulesFrom(c, 0));
  }

  // ---- which packets still leave as the policy says ------------------------------------------------------

  /** Branch `b` is the one that decides about the packet. */
  ghost predicate Decides(c: Config, b: nat, src: Bits, dst: Bits) {
    && b < |c.forward| && Holds(c, c.forward[b], src, dst)
    && forall i :: 0 <= i < b ==> !Holds(c, c.forward[i], src, dst)
  }

  lemma {:induction false} DecisionIs(c: Config, b: nat, k: nat, src: Bits, dst: Bits)
    requires Decides(c, b, src, dst) && k <= |c.forward|
    ensures Decision(c, k, src, dst) == if b < k then Some(c.forward[b].egress) else None
  {
    if k > 0 {
      DecisionIs(c, b, k - 1, src, dst);
    }
  }

  lemma {:induction false} NobodyBefore(c: Config, d: nat, b: nat, k: nat, src: Bits, dst: Bits)
    requires Decides(c, b, src, dst) && k <= b
    ensures FirstAnswer(c, d, k, src, dst) == FirstAnswer(c, d, b, src, dst)
    decreases b - k
  {
    if k < b {
      NobodyBefore(c, d, b, k + 1, src, dst);
    }
  }

  /** A captured default has nobody left to answer. */
  lemma CapturedDefault(c: Config, d: nat, b: nat, src: Bits, dst: Bits)
    requires WellOrdered(c) && FirstGeo(c, d) && Decides(c, b, src, dst) && c.forward[b].when == []
    requires Captor(c, d, c.forward[b].egress).Some?
    ensures FirstAnswer(c, d, b, src, dst) == None
  {
    var k := Captor(c, d, c.forward[b].egress).value;
    assert b == |c.forward| - 1;
    assert IsDst(c, c.forward[k]) && !Holds(c, c.forward[k], src, dst);
  }

  /** What becomes of a packet that branch `b` decides about. A destination branch, and any branch whose egress
      has its table to itself, is obeyed. A source branch whose egress lost its table is replaced by the branch
      that captured it, where that one covers the destination, and otherwise by the first later branch that
      answers. A default whose egress lost its table sends nothing. */
  ghost predicate Obeyed(c: Config, wans: map<Name, Wan>, d: nat, b: nat, src: Bits, dst: Bits)
    requires Resolved(c, wans) && b < |c.forward|
  {
    var f := c.forward[b];
    var captor := Captor(c, d, f.egress);
    if IsDst(c, f) || captor.None? then true
    else if f.when == [] then false
    else if Covers(PrefixesOf(c, captor.value), dst) then wans[c.forward[captor.value].egress].hop == wans[f.egress].hop
    else HopOf(wans, FirstAnswer(c, d, b + 1, src, dst)) == Some(wans[f.egress].hop)
  }

  /** Once the tables meet, a packet leaves as the policy says exactly if the branch that decides is obeyed. */
  lemma OverlapExactly(c: Config, wans: map<Name, Wan>, host: seq<Route>, d: nat, b: nat, src: Bits, dst: Bits)
    requires Resolved(c, wans) && WellOrdered(c) && RangesFit(c) && FirstGeo(c, d)
    requires DefaultBound(Lowered(c, wans), host, dst) && Decides(c, b, src, dst)
    ensures Decision(c, |c.forward|, src, dst) == Some(c.forward[b].egress)
    ensures NextHop(Lowered(c, wans), host, src, dst) == Some(wans[c.forward[b].egress].hop)
       <==> Obeyed(c, wans, d, b, src, dst)
  {
    OverlapHop(c, wans, host, d, src, dst);
    DecisionIs(c, b, |c.forward|, src, dst);
    NobodyBefore(c, d, b, 0, src, dst);
    if c.forward[b].when == [] && Captor(c, d, c.forward[b].egress).Some? {
      CapturedDefault(c, d, b, src, dst);
    }
  }

  /** The tables meet exactly with more than fifty egresses and a destination branch. */
  lemma TablesMeet(c: Config)
    requires WellOrdered(c)
    ensures !TablesApart(c) <==> |c.egresses| > ROOM && exists d: nat :: FirstGeo(c, d)
  {
    if d: nat :| FirstGeo(c, d) {
      assert DstCount(c, d + 1) > 0;
      CountsGrow(c, d + 1, |c.forward|);
    }
    if DstCount(c, |c.forward|) > 0 {
      var d := FirstGeoAt(c, |c.forward|);
    }
  }

  lemma {:induction false} FirstGeoAt(c: Config, k: nat) returns (d: nat)
    requires WellOrdered(c) && k <= |c.forward| && DstCount(c, k) > 0
    ensures FirstGeo(c, d)
  {
    if DstCount(c, k - 1) > 0 {
      d := FirstGeoAt(c, k - 1);
    } else {
      d := k - 1;
      assert d > 0 ==> !IsDst(c, c.forward[d - 1]);
    }
  }

  // ---- a configuration with fifty-one egresses -----------------------------------------------------------

  ghost function Label(i: nat): Name {
    seq(i + 1, _ => 'e')
  }

  ghost function Labels(): seq<Name> {
    seq(ROOM + 1, i requires 0 <= i => Label(i))
  }

  /** Sources below 1 leave by egress number fifty-one, destinations below 1 by the second, the rest by `last`. */
  ghost function Crowded(last: nat): Config {
    Config(Labels(), map["s" := SrcIn([[true]]), "g" := DstIn([[true]])],
           [Branch(["s"], Label(ROOM)), Branch(["g"], Label(1)), Branch([], Label(last))], "")
  }

  ghost function Uplinks(): map<Name, Wan> {
    map e | e in Labels() :: Wan(Hop(e, ""), None)
  }

  lemma {:induction false} LabelIndex(names: seq<Name>, i: nat)
    requires i < |names| && forall k, m :: 0 <= k < m < |names| ==> names[k] != names[m]
    ensures IndexOf(names, names[i]) == i
  {
    if i > 0 {
      LabelIndex(names[1..], i - 1);
    }
  }

  lemma LabelsNamed(i: nat)
    requires i <= ROOM
    ensures |Label(i)| == i + 1 && Labels()[i] == Label(i) && Label(i) in Labels() && Label(i) in Uplinks()
    ensures Uplinks()[Label(i)].hop == Hop(Label(i), "") && IndexOf(Labels(), Label(i)) == i
  {
    assert forall k, m :: 0 <= k < m < |Labels()| ==> |Labels()[k]| != |Labels()[m]|;
    LabelIndex(Labels(), i);
  }

  lemma CrowdedCounts(c: Config, last: nat)
    requires c == Crowded(last)
    ensures DstCount(c, 3) == 1 && SrcCount(c, 3) == 1
  {
    assert DstCount(c, 0) == DstCount(c, 1) == 0 && DstCount(c, 2) == 1;
    assert SrcCount(c, 0) == 0 && SrcCount(c, 1) == SrcCount(c, 2) == 1;
  }

  lemma CrowdedLoads(c: Config, last: nat)
    requires c == Crowded(last) && last <= ROOM
    ensures Resolved(c, Uplinks()) && WellOrdered(c) && RangesFit(c) && FirstGeo(c, 1) && !TablesApart(c)
  {
    LabelsNamed(last);
    LabelsNamed(1);
    LabelsNamed(ROOM);
    CrowdedCounts(c, last);
  }

  lemma {:induction false} NoPins(c: Config, wans: map<Name, Wan>, i: nat)
    requires i <= |c.egresses| && (forall e :: e in c.egresses ==> e in wans && wans[e].ep.None?)
    ensures EgressPlan(c, wans, i).mainRoutes == []
  {
    if i > 0 {
      NoPins(c, wans, i - 1);
    }
  }

  /** Without a LAN and pins the plan adds nothing to the main table. */
  lemma {:induction false} NoMain(c: Config, wans: map<Name, Wan>, k: nat)
    requires Resolved(c, wans) && k <= |c.forward| && c.lan == "" && forall e :: e in c.egresses ==> wans[e].ep.None?
    ensures PlanAt(c, wans, k).mainRoutes == []
  {
    if k == 0 {
      NoPins(c, wans, |c.egresses|);
    } else {
      NoMain(c, wans, k - 1);
      var f := c.forward[k - 1];
      if f.when != [] && IsSrc(c, f) {
        NoLegs(c, PlanAt(c, wans, k - 1), c.conditions[f.when[0]].prefixes, EgressTable(c, f.egress));
      }
    }
  }

  lemma {:induction false} NoLegs(c: Config, p: Plan, prefixes: seq<Bits>, table: int)
    requires c.lan == ""
    ensures AddSources(c, p, prefixes, table).mainRoutes == p.mainRoutes
  {
    if prefixes != [] {
      NoLegs(c, p, prefixes[..|prefixes| - 1], table);
    }
  }

  /** Which branches hold for an address bit pair. */
  lemma CrowdedHolds(c: Config, last: nat, s: bool, a: bool)
    requires c == Crowded(last)
    ensures Holds(c, c.forward[0], [s], [a]) == s && Holds(c, c.forward[1], [s], [a]) == a
    ensures Holds(c, c.forward[2], [s], [a]) && PrefixesOf(c, 1) == [[true]] && Covers([[true]], [a]) == a
  {
    OneBit(s);
    OneBit(a);
  }

  lemma OneBit(a: bool)
    ensures Covers([[true]], [a]) == a
  {
    var ps: seq<Bits> := [[true]];
    assert ps[0] in ps && (a ==> ps[0] <= [a]);
    if p :| p in ps && p <= [a] {
      assert p[0] == [a][0];
    }
  }

  lemma CrowdedAnswers(c: Config, last: nat, s: bool, a: bool)
    requires c == Crowded(last) && last <= ROOM
    ensures FirstAnswer(c, 1, 0, [s], [a])
         == if a then Some(Label(1)) else if last < ROOM then Some(Label(last)) else None
  {
    CrowdedHolds(c, last, s, a);
    LabelsNamed(last);
    LabelsNamed(ROOM);
    assert Captor(c, 1, Label(ROOM)) == Some(1);
    assert last < ROOM ==> Captor(c, 1, Label(last)) == None;
    assert FirstAnswer(c, 1, 3, [s], [a]) == None;
    assert FirstAnswer(c, 1, 2, [s], [a]) == Answer(c, 1, 2, [s], [a]);
    assert Answer(c, 1, 1, [s], [a]) == if a then Some(Label(1)) else None;
    assert Answer(c, 1, 0, [s], [a]) == if s && a then Some(Label(1)) else None;
  }

  lemma CrowdedHop(c: Config, last: nat, s: bool, a: bool)
    requires c == Crowded(last) && last <= ROOM && Resolved(c, Uplinks())
    requires WellOrdered(c) && RangesFit(c) && FirstGeo(c, 1)
    ensures NextHop(Lowered(c, Uplinks()), [], [s], [a])
         == if a then Some(Hop(Label(1), "")) else if last < ROOM then Some(Hop(Label(last), "")) else None
  {
    NoMain(c, Uplinks(), 3);
    OverlapHop(c, Uplinks(), [], 1, [s], [a]);
    CrowdedAnswers(c, last, s, a);
    LabelsNamed(1);
    LabelsNamed(last);
  }

  lemma CrowdedPolicy(c: Config, last: nat, s: bool, a: bool)
    requires c == Crowded(last) && (s || !a)
    ensures Decision(c, 3, [s], [a]) == Some(if s then Label(ROOM) else Label(last))
  {
    CrowdedHolds(c, last, s, a);
    DecisionIs(c, if s then 0 else 2, 3, [s], [a]);
  }

  /** The three ways to go wrong: a packet of the fifty-first egress's own sources leaves by the second egress
      or, to another destination, by the first, though the policy names the fifty-first; and if the default
      branch names it, the packet has no next hop. */
  lemma CrowdedFails()
    ensures Resolved(Crowded(0), Uplinks()) && WellOrdered(Crowded(0)) && RangesFit(Crowded(0))
    ensures !TablesApart(Crowded(0))
    ensures Decision(Crowded(0), 3, [true], [true]) == Decision(Crowded(0), 3, [true], [false]) == Some(Label(ROOM))
    ensures NextHop(Lowered(Crowded(0), Uplinks()), [], [true], [true]) == Some(Hop(Label(1), ""))
    ensures NextHop(Lowered(Crowded(0), Uplinks()), [], [true], [false]) == Some(Hop(Label(0), ""))
    ensures Resolved(Crowded(ROOM), Uplinks()) && WellOrdered(Crowded(ROOM)) && RangesFit(Crowded(ROOM))
    ensures Decision(Crowded(ROOM), 3, [false], [false]) == Some(Label(ROOM))
    ensures NextHop(Lowered(Crowded(ROOM), Uplinks()), [], [false], [false]) == None
  {
    CrowdedLoads(Crowded(0), 0);
    CrowdedLoads(Crowded(ROOM), ROOM);
    CrowdedPolicy(Crowded(0), 0, true, true);
    CrowdedPolicy(Crowded(0), 0, true, false);
    CrowdedPolicy(Crowded(ROOM), ROOM, false, false);
    CrowdedHop(Crowded(0), 0, true, true);
    CrowdedHop(Crowded(0), 0, true, false);
    CrowdedHop(Crowded(ROOM), ROOM, false, false);
  }
}
