/** Why the compiled tables can be read as the derived rules: duplicate removal and the own-tun
    sort are invisible to a first-match walk, and the compiler's joined text keys are injective on
    names free of its separators. */
module Tables {
  import opened Common
  import opened Schema
  import opened Compile
  import opened NetworkCompiler

  // ---- keys ------------------------------------------------------------------------------

  predicate Clean(s: Name) {
    BAR !in s
  }

  predicate CleanRoute(r: Route) {
    && r.processed.Some?
    && Clean(r.source) && Clean(r.egress) && Clean(r.target)
    && |r.conditions| <= 1
    && forall c :: c in r.conditions ==> c != "" && Clean(c)
  }

  lemma RouteKeyParts(r: Route)
    ensures RouteKey(r) == BoolText(r.processed) + [BAR] +
                           (r.source + [BAR] + (Join(r.conditions) + [BAR] + (r.egress + [BAR] + r.target)))
  {
  }

  /** On clean routes the dedup key identifies the route. */
  lemma RouteKeyInjective(a: Route, b: Route)
    requires CleanRoute(a) && CleanRoute(b) && RouteKey(a) == RouteKey(b)
    ensures a == b
  {
    RouteKeyParts(a);
    RouteKeyParts(b);
    var a3, b3 := a.egress + [BAR] + a.target, b.egress + [BAR] + b.target;
    var a2, b2 := Join(a.conditions) + [BAR] + a3, Join(b.conditions) + [BAR] + b3;
    var a1, b1 := a.source + [BAR] + a2, b.source + [BAR] + b2;
    SplitUnique(BoolText(a.processed), a1, BoolText(b.processed), b1, BAR);
    SplitUnique(a.source, a2, b.source, b2, BAR);
    JoinClean(a.conditions);
    JoinClean(b.conditions);
    SplitUnique(Join(a.conditions), a3, Join(b.conditions), b3, BAR);
    SplitUnique(a.egress, a.target, b.egress, b.target, BAR);
    BoolTextLength(a.processed);
    BoolTextLength(b.processed);
    assert a.conditions == b.conditions;
  }

  lemma BoolTextLength(p: Option<bool>)
    requires p.Some?
    ensures |BoolText(p)| == if p.value then 4 else 5
  {
    if p.value {
      assert p == Some(true);
    } else {
      assert p == Some(false);
    }
  }

  lemma JoinClean(cs: seq<Name>)
    requires |cs| <= 1 && forall c :: c in cs ==> c != "" && Clean(c)
    ensures BAR !in Join(cs)
    ensures cs == if Join(cs) == "" then [] else [Join(cs)]
  {
    if |cs| == 1 {
      assert cs[0] in cs;
    }
  }

  lemma ActionKeyInjective(a: Route, b: Route)
    requires ARROW !in a.egress && ARROW !in b.egress && ActionKey(a) == ActionKey(b)
    ensures a.egress == b.egress && a.target == b.target
  {
    SplitUnique(a.egress, a.target, b.egress, b.target, ARROW);
  }

  /** A divergent rule restates a branch's conditions in full exactly when all of them are dst_in; a list
      that mixes in a healthcheck is weakened. */
  lemma {:induction false} RestatesInFull(n: Network, when: seq<Name>)
    ensures |Restate(n, when)| <= |when|
    ensures Restate(n, when) == when <==> forall c :: c in when ==> c in n.conditions && n.conditions[c].DstIn?
  {
    if when != [] {
      RestatesInFull(n, when[1..]);
      var head := if when[0] in n.conditions && n.conditions[when[0]].DstIn? then [when[0]] else [];
      assert Restate(n, when) == head + Restate(n, when[1..]);
      assert when == [when[0]] + when[1..];
      if head == [] {
        assert when[0] in when;
      } else {
        assert (head + Restate(n, when[1..]))[1..] == Restate(n, when[1..]);
        assert forall c :: c in when <==> c == when[0] || c in when[1..];
      }
    }
  }

  // ---- duplicate removal -------------------------------------------------------------------

  lemma {:induction false} EmittedPrefix(rules: seq<PendingRule>, node: Name, m: nat)
    requires m <= |rules|
    ensures |Emitted(rules[..m], node)| <= |Emitted(rules, node)|
    ensures Emitted(rules, node)[..|Emitted(rules[..m], node)|] == Emitted(rules[..m], node)
  {
    if m == |rules| {
      assert rules[..m] == rules;
    } else {
      var k := |rules| - 1;
      assert rules[..k][..m] == rules[..m];
      EmittedPrefix(rules[..k], node, m);
    }
  }

  lemma {:induction false} EmittedSound(rules: seq<PendingRule>, node: Name, r: Route)
    requires r in Emitted(rules, node)
    ensures exists i :: 0 <= i < |rules| && rules[i].node == node && rules[i].route == r
  {
    var k := |rules| - 1;
    if r in Emitted(rules[..k], node) {
      EmittedSound(rules[..k], node, r);
      var i :| 0 <= i < k && rules[..k][i].node == node && rules[..k][i].route == r;
      assert rules[i] == rules[..k][i];
    } else {
      assert rules[k].node == node && rules[k].route == r;
    }
  }

  lemma {:induction false} SeenSound(rules: seq<PendingRule>, at: (Name, string))
    requires at in Seen(rules)
    ensures exists i :: 0 <= i < |rules| && (rules[i].node, RouteKey(rules[i].route)) == at
  {
    var k := |rules| - 1;
    if at in Seen(rules[..k]) {
      SeenSound(rules[..k], at);
      var i :| 0 <= i < k && (rules[..k][i].node, RouteKey(rules[..k][i].route)) == at;
      assert rules[i] == rules[..k][i];
    } else {
      assert (rules[k].node, RouteKey(rules[k].route)) == at;
    }
  }

  /** Every derived rule survives on its node, up to an identical earlier row. */
  lemma {:induction false} EmittedComplete(rules: seq<PendingRule>, node: Name, i: nat)
    requires i < |rules| && rules[i].node == node
    requires forall k :: 0 <= k < |rules| ==> CleanRoute(rules[k].route)
    ensures rules[i].route in Emitted(rules, node)
  {
    var k := |rules| - 1;
    assert forall x :: 0 <= x < k ==> rules[..k][x] == rules[x];
    if i < k {
      EmittedComplete(rules[..k], node, i);
    } else if (node, RouteKey(rules[k].route)) in Seen(rules[..k]) {
      SeenSound(rules[..k], (node, RouteKey(rules[k].route)));
      var j :| 0 <= j < k && rules[..k][j].node == node && RouteKey(rules[..k][j].route) == RouteKey(rules[k].route);
      RouteKeyInjective(rules[j].route, rules[k].route);
      EmittedComplete(rules[..k], node, j);
    }
  }

  // ---- the own-tun sort ----------------------------------------------------------------------

  /** A walk that rejects the node's own-tun rows does not notice the sort. */
  lemma SortInvisible(routes: seq<Route>, tun: Name, ok: Route -> bool)
    requires forall r :: r in routes && ok(r) ==> !IsProcessedTun(r, tun)
    ensures First(TunFirst(routes, tun), ok) == First(routes, ok)
  {
    var own, rest := Filter(routes, OwnTun(tun)), Filter(routes, NotOwnTun(tun));
    FilterMembers(routes, OwnTun(tun));
    FirstFound(own, ok);
    FirstConcat(own, rest, ok);
    FirstFilter(routes, NotOwnTun(tun), ok);
  }

  /** If one of the node's own-tun rows is acceptable, the sort makes an own-tun row win. */
  lemma SortPrefersTun(routes: seq<Route>, tun: Name, ok: Route -> bool, r: Route)
    requires r in routes && ok(r) && IsProcessedTun(r, tun)
    ensures First(TunFirst(routes, tun), ok).Some?
    ensures IsProcessedTun(First(TunFirst(routes, tun), ok).value, tun)
    ensures First(TunFirst(routes, tun), ok).value in routes && ok(First(TunFirst(routes, tun), ok).value)
  {
    var own, rest := Filter(routes, OwnTun(tun)), Filter(routes, NotOwnTun(tun));
    FilterMembers(routes, OwnTun(tun));
    FirstFound(own, ok);
    FirstConcat(own, rest, ok);
  }

  // ---- reading a table -------------------------------------------------------------------------

  /** If, among the first `m` derived rules, some rule on `node` is acceptable and all acceptable
      ones agree on egress and target, then the walk over the placed table takes that action. */
  lemma TableWalk(rules: seq<PendingRule>, m: nat, node: Name, ok: Route -> bool, egress: Name, target: Name)
    requires m <= |rules| && forall k :: 0 <= k < |rules| ==> CleanRoute(rules[k].route)
    requires exists k :: 0 <= k < m && rules[k].node == node && ok(rules[k].route)
    requires forall k :: 0 <= k < m && rules[k].node == node && ok(rules[k].route) ==>
               rules[k].route.egress == egress && rules[k].route.target == target
    ensures var r := First(Emitted(rules, node), ok); r.Some? && r.value.egress == egress && r.value.target == target
  {
    var pre, e := rules[..m], Emitted(rules[..m], node);
    assert forall k :: 0 <= k < m ==> pre[k] == rules[k];
    var k :| 0 <= k < m && rules[k].node == node && ok(rules[k].route);
    EmittedComplete(pre, node, k);
    EmittedPrefix(rules, node, m);
    FirstInPrefix(Emitted(rules, node), |e|, ok);
    EmittedSound(pre, node, First(Emitted(rules, node), ok).value);
  }
}
