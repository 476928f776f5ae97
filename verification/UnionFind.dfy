/** Union-find with path halving and no rank: every walk to a root ends, halving changes no class, and
    the classes are the connectivity classes of the union calls made so far. */
module UnionFind {

  // ---- forests -------------------------------------------------------------------------------------

  ghost predicate ClimbsAt<E>(parent: map<E, E>, height: map<E, nat>, top: nat, x: E)
    requires x in parent
  {
    && parent[x] in parent && x in height && height[x] <= top
    && (parent[x] != x ==> parent[x] in height && height[x] < height[parent[x]])
  }

  /** A height that nobody stores climbs strictly towards the roots, so every walk ends. */
  ghost predicate Climbs<E>(parent: map<E, E>, height: map<E, nat>, top: nat) {
    forall x {:trigger ClimbsAt(parent, height, top, x)} :: x in parent ==> ClimbsAt(parent, height, top, x)
  }

  ghost predicate ClassAt<E>(parent: map<E, E>, root: map<E, E>, x: E)
    requires x in parent
  {
    && parent[x] in parent && x in root && parent[x] in root
    && root[x] == root[parent[x]] && (parent[x] == x ==> root[x] == x)
  }

  /** `root` names each element's class: the same along every parent link, and itself at a root. */
  ghost predicate Classes<E>(parent: map<E, E>, root: map<E, E>) {
    && root.Keys == parent.Keys
    && forall x {:trigger ClassAt(parent, root, x)} :: x in parent ==> ClassAt(parent, root, x)
  }

  /** Where following parents ends. */
  ghost function RootOf<E>(parent: map<E, E>, height: map<E, nat>, top: nat, x: E): E
    requires Climbs(parent, height, top) && x in parent
    decreases if x in height then top - height[x] else 0
  {
    assert ClimbsAt(parent, height, top, x);
    assert ClimbsAt(parent, height, top, parent[x]);
    if parent[x] == x then x else RootOf(parent, height, top, parent[x])
  }

  /** The class of an element is the root its parents lead to. */
  lemma {:induction false} ClassIsRoot<E>(parent: map<E, E>, height: map<E, nat>, top: nat, root: map<E, E>, x: E)
    requires Climbs(parent, height, top) && Classes(parent, root) && x in parent
    ensures x in root && RootOf(parent, height, top, x) == root[x]
    ensures root[x] in parent && parent[root[x]] == root[x]
    decreases if x in height then top - height[x] else 0
  {
    assert ClimbsAt(parent, height, top, x) && ClassAt(parent, root, x);
    if parent[x] != x {
      assert ClimbsAt(parent, height, top, parent[x]);
      ClassIsRoot(parent, height, top, root, parent[x]);
    }
  }

  /** Pointing an element at its grandparent changes no class. */
  lemma Halved<E>(parent: map<E, E>, height: map<E, nat>, top: nat, root: map<E, E>, e: E)
    requires Climbs(parent, height, top) && Classes(parent, root) && e in parent && parent[e] != e
    ensures parent[e] in parent
    ensures var halved := parent[e := parent[parent[e]]];
            && Climbs(halved, height, top) && Classes(halved, root) && halved.Keys == parent.Keys
            && halved[e] in halved && halved[e] in height && e in height && height[e] < height[halved[e]] <= top
            && root[halved[e]] == root[e]
  {
    assert ClimbsAt(parent, height, top, e) && ClassAt(parent, root, e);
    var p := parent[e];
    assert ClimbsAt(parent, height, top, p) && ClassAt(parent, root, p);
    var halved := parent[e := parent[p]];
    assert ClimbsAt(parent, height, top, parent[p]);
    forall x | x in halved ensures ClimbsAt(halved, height, top, x) && ClassAt(halved, root, x) {
      assert ClimbsAt(parent, height, top, x) && ClassAt(parent, root, x);
    }
  }

  ghost function Lifted<E>(height: map<E, nat>, ra: E, rb: E): map<E, nat>
    requires ra in height && rb in height
  {
    height[rb := 1 + if height[ra] < height[rb] then height[rb] else height[ra]]
  }

  /** Everyone in class `ra` moves to class `rb`. */
  ghost function Moved<E>(root: map<E, E>, ra: E, rb: E): map<E, E> {
    map x | x in root :: if root[x] == ra then rb else root[x]
  }

  /** After the move two elements share a class exactly if they did, or were in the two classes merged. */
  lemma MovedMerges<E>(root: map<E, E>, ra: E, rb: E, x: E, y: E)
    requires x in root && y in root
    ensures Moved(root, ra, rb)[x] == Moved(root, ra, rb)[y]
       <==> root[x] == root[y] || (root[x] == ra && root[y] == rb) || (root[x] == rb && root[y] == ra)
  {
  }

  /** Linking one root below another moves exactly the one class. */
  lemma LinkedRoots<E>(parent: map<E, E>, height: map<E, nat>, top: nat, root: map<E, E>, ra: E, rb: E)
    requires Climbs(parent, height, top) && Classes(parent, root)
    requires ra in parent && rb in parent && ra != rb && parent[ra] == ra && parent[rb] == rb
    ensures ra in height && rb in height
    ensures Climbs(parent[ra := rb], Lifted(height, ra, rb), top + 1)
    ensures Classes(parent[ra := rb], Moved(root, ra, rb))
  {
    assert ClimbsAt(parent, height, top, ra) && ClimbsAt(parent, height, top, rb);
    assert ClassAt(parent, root, ra) && ClassAt(parent, root, rb);
    var linked, lifted, moved := parent[ra := rb], Lifted(height, ra, rb), Moved(root, ra, rb);
    forall x | x in linked ensures ClimbsAt(linked, lifted, top + 1, x) {
      assert ClimbsAt(parent, height, top, x);
    }
    forall x | x in linked ensures ClassAt(linked, moved, x) {
      assert ClassAt(parent, root, x);
    }
  }

  /** A new element is a root and its own class. */
  lemma AddedRoot<E>(parent: map<E, E>, height: map<E, nat>, top: nat, root: map<E, E>, e: E)
    requires Climbs(parent, height, top) && Classes(parent, root) && e !in parent
    ensures Climbs(parent[e := e], height[e := 0], top) && Classes(parent[e := e], root[e := e])
  {
    var p, h, r := parent[e := e], height[e := 0], root[e := e];
    forall x | x in p ensures ClimbsAt(p, h, top, x) && ClassAt(p, r, x) {
      if x != e {
        assert ClimbsAt(parent, height, top, x) && ClassAt(parent, root, x);
      }
    }
  }

  // ---- connectivity --------------------------------------------------------------------------------

  ghost predicate Linked<E>(edges: set<(E, E)>, x: E, y: E) {
    (x, y) in edges || (y, x) in edges
  }

  ghost predicate IsPath<E>(edges: set<(E, E)>, p: seq<E>) {
    p != [] && forall i :: 0 <= i < |p| - 1 ==> Linked(edges, p[i], p[i + 1])
  }

  ghost predicate PathBetween<E>(edges: set<(E, E)>, p: seq<E>, x: E, y: E) {
    IsPath(edges, p) && p[0] == x && p[|p| - 1] == y
  }

  /** A chain of union calls leads from `x` to `y`. */
  ghost predicate Connected<E(!new)>(edges: set<(E, E)>, x: E, y: E) {
    exists p :: PathBetween(edges, p, x, y)
  }

  lemma Reflexive<E(!new)>(edges: set<(E, E)>, x: E)
    ensures Connected(edges, x, x)
  {
    assert PathBetween(edges, [x], x, x);
  }

  lemma OneEdge<E(!new)>(edges: set<(E, E)>, x: E, y: E)
    requires Linked(edges, x, y)
    ensures Connected(edges, x, y)
  {
    assert PathBetween(edges, [x, y], x, y);
  }

  lemma Symmetric<E(!new)>(edges: set<(E, E)>, x: E, y: E)
    requires Connected(edges, x, y)
    ensures Connected(edges, y, x)
  {
    var p :| PathBetween(edges, p, x, y);
    var q := seq(|p|, i requires 0 <= i < |p| => p[|p| - 1 - i]);
    forall i | 0 <= i < |q| - 1 ensures Linked(edges, q[i], q[i + 1]) {
      assert Linked(edges, p[|p| - 2 - i], p[|p| - 2 - i + 1]);
    }
    assert PathBetween(edges, q, y, x);
  }

  lemma Transitive<E(!new)>(edges: set<(E, E)>, x: E, y: E, z: E)
    requires Connected(edges, x, y) && Connected(edges, y, z)
    ensures Connected(edges, x, z)
  {
    var p :| PathBetween(edges, p, x, y);
    var q :| PathBetween(edges, q, y, z);
    var r := p + q[1..];
    forall i | 0 <= i < |r| - 1 ensures Linked(edges, r[i], r[i + 1]) {
      if i < |p| - 1 {
        assert Linked(edges, p[i], p[i + 1]);
      } else {
        assert Linked(edges, q[i - |p| + 1], q[i - |p| + 1 + 1]);
      }
    }
    assert PathBetween(edges, r, x, z);
  }

  lemma MoreEdges<E(!new)>(edges: set<(E, E)>, more: set<(E, E)>, x: E, y: E)
    requires edges <= more && Connected(edges, x, y)
    ensures Connected(more, x, y)
  {
    var p :| PathBetween(edges, p, x, y);
    assert PathBetween(more, p, x, y);
  }

  /** The classes are those of the union calls: equal across each, and joined by nothing else. */
  ghost predicate Follows<E(!new)>(edges: set<(E, E)>, root: map<E, E>) {
    && (forall a, b :: (a, b) in edges ==> a in root && b in root && root[a] == root[b])
    && (forall x :: x in root ==> Connected(edges, x, root[x]))
  }

  lemma {:induction false} SameAlong<E(!new)>(edges: set<(E, E)>, root: map<E, E>, p: seq<E>)
    requires Follows(edges, root) && IsPath(edges, p) && p[0] in root
    ensures p[|p| - 1] in root && root[p[|p| - 1]] == root[p[0]]
    decreases |p|
  {
    if |p| > 1 {
      assert Linked(edges, p[0], p[0 + 1]);
      forall i | 0 <= i < |p[1..]| - 1 ensures Linked(edges, p[1..][i], p[1..][i + 1]) {
        assert Linked(edges, p[i + 1], p[i + 1 + 1]);
      }
      SameAlong(edges, root, p[1..]);
    }
  }

  /** Two elements have one class exactly when union calls connect them. */
  lemma ClassesAreConnectivity<E(!new)>(edges: set<(E, E)>, root: map<E, E>, x: E, y: E)
    requires Follows(edges, root) && x in root && y in root
    ensures root[x] == root[y] <==> Connected(edges, x, y)
  {
    if root[x] == root[y] {
      Symmetric(edges, y, root[y]);
      Transitive(edges, x, root[x], y);
    }
    if Connected(edges, x, y) {
      var p :| PathBetween(edges, p, x, y);
      SameAlong(edges, root, p);
    }
  }

  lemma FollowsMore<E(!new)>(edges: set<(E, E)>, root: map<E, E>, a: E, b: E)
    requires Follows(edges, root) && a in root && b in root
    ensures Follows(edges + {(a, b)}, Moved(root, root[a], root[b]))
  {
    var es, moved := edges + {(a, b)}, Moved(root, root[a], root[b]);
    forall x | x in moved ensures Connected(es, x, moved[x]) {
      StillConnected(edges, root, a, b, x);
    }
  }

  lemma StillConnected<E(!new)>(edges: set<(E, E)>, root: map<E, E>, a: E, b: E, x: E)
    requires Follows(edges, root) && a in root && b in root && x in root
    ensures Connected(edges + {(a, b)}, x, Moved(root, root[a], root[b])[x])
  {
    var es := edges + {(a, b)};
    MoreEdges(edges, es, x, root[x]);
    if root[x] == root[a] {
      MoreEdges(edges, es, a, root[a]);
      MoreEdges(edges, es, b, root[b]);
      Symmetric(es, a, root[a]);
      OneEdge(es, a, b);
      Transitive(es, x, root[a], a);
      Transitive(es, x, a, b);
      Transitive(es, x, b, root[b]);
    }
  }

  // ---- the structure -------------------------------------------------------------------------------

  class Sets<E(==, !new)> {
    var parent: map<E, E>
    ghost var height: map<E, nat>
    ghost var top: nat
    ghost var root: map<E, E>
    ghost var edges: set<(E, E)>

    ghost predicate Valid()
      reads this
    {
      Climbs(parent, height, top) && Classes(parent, root) && Follows(edges, root)
    }

    constructor ()
      ensures Valid() && parent == map[] && edges == {}
    {
      parent, height, top, root, edges := map[], map[], 0, map[], {};
    }

    method Add(e: E)
      requires Valid()
      modifies this
      ensures Valid() && edges == old(edges) && parent.Keys == old(parent.Keys) + {e}
      ensures root == if e in old(root) then old(root) else old(root)[e := e]
    {
      if e !in parent {
        Reflexive(edges, e);
        AddedRoot(parent, height, top, root, e);
        parent, height, root := parent[e := e], height[e := 0], root[e := e];
      }
    }

    /** Walks to the root, halving the path on the way; every element keeps its class. */
    method Find(x: E) returns (r: E)
      requires Valid()
      modifies this
      ensures Valid() && edges == old(edges) && parent.Keys == old(parent.Keys) + {x}
      ensures root == if x in old(root) then old(root) else old(root)[x := x]
      ensures r == root[x] && r in parent && parent[r] == r
    {
      Add(x);
      ghost var classes, keys := root, parent.Keys;
      r := x;
      assert ClimbsAt(parent, height, top, x);
      while parent[r] != r
        invariant Valid() && edges == old(edges) && root == classes && parent.Keys == keys
        invariant r in parent && root[r] == root[x] && r in height && height[r] <= top
        decreases top - height[r]
      {
        Halved(parent, height, top, root, r);
        parent := parent[r := parent[parent[r]]];
        r := parent[r];
      }
      assert ClassAt(parent, root, r);
    }

    /** Merges the classes of `a` and `b`, and no others. */
    method Union(a: E, b: E)
      requires Valid()
      modifies this
      ensures Valid() && edges == old(edges) + {(a, b)} && parent.Keys == old(parent.Keys) + {a, b}
      ensures var before := WithElement(WithElement(old(root), a), b); root == Moved(before, before[a], before[b])
    {
      var ra := Find(a);
      var rb := Find(b);
      ClassIsRoot(parent, height, top, root, a);
      FollowsMore(edges, root, a, b);
      Link(ra, rb);
      edges := edges + {(a, b)};
    }

    method Link(ra: E, rb: E)
      requires Climbs(parent, height, top) && Classes(parent, root)
      requires ra in parent && rb in parent && parent[ra] == ra && parent[rb] == rb
      modifies this`parent, this`height, this`top, this`root
      ensures Climbs(parent, height, top) && Classes(parent, root) && parent.Keys == old(parent.Keys)
      ensures root == Moved(old(root), ra, rb)
    {
      if ra != rb {
        LinkedRoots(parent, height, top, root, ra, rb);
        height := Lifted(height, ra, rb);
        parent, top := parent[ra := rb], top + 1;
      } else {
        assert Moved(root, ra, rb) == root;
      }
      root := Moved(root, ra, rb);
    }

    /** The elements grouped by root: two share a group exactly when union calls connect them. */
    method Components() returns (out: map<E, seq<E>>)
      requires Valid()
      modifies this
      ensures Valid() && edges == old(edges) && root == old(root) && parent.Keys == old(parent.Keys)
      ensures Grouped(out, root, root.Keys)
    {
      out := map[];
      var todo := parent.Keys;
      while todo != {}
        invariant Valid() && edges == old(edges) && root == old(root) && parent.Keys == old(parent.Keys)
        invariant todo <= parent.Keys && Grouped(out, root, parent.Keys - todo)
        decreases todo
      {
        var e :| e in todo;
        var r := Find(e);
        GroupedMore(out, root, parent.Keys - todo, e);
        out := out[r := (if r in out then out[r] else []) + [e]];
        todo := todo - {e};
        assert parent.Keys - todo == (parent.Keys - (todo + {e})) + {e};
      }
    }
  }

  ghost function WithElement<E>(root: map<E, E>, e: E): map<E, E> {
    if e in root then root else root[e := e]
  }

  /** `out` lists each element of `done` once, under its class and nowhere else. */
  ghost predicate Grouped<E>(out: map<E, seq<E>>, root: map<E, E>, done: set<E>) {
    && (forall r, i :: r in out && 0 <= i < |out[r]| ==> out[r][i] in done && out[r][i] in root && root[out[r][i]] == r)
    && (forall e :: e in done ==> e in root && root[e] in out && e in out[root[e]])
    && (forall r, i, j :: r in out && 0 <= i < j < |out[r]| ==> out[r][i] != out[r][j])
  }

  lemma GroupedMore<E>(out: map<E, seq<E>>, root: map<E, E>, done: set<E>, e: E)
    requires Grouped(out, root, done) && e in root && e !in done
    ensures var r := root[e]; Grouped(out[r := (if r in out then out[r] else []) + [e]], root, done + {e})
  {
    var r := root[e];
    var list := if r in out then out[r] else [];
    var next := out[r := list + [e]];
    forall x | x in done + {e} ensures x in root && root[x] in next && x in next[root[x]] {
      if x != e && root[x] == r {
        assert x in list;
      } else if x == e {
        assert (list + [e])[|list|] == e;
      }
    }
  }

  /** The groups are the connectivity classes. */
  lemma ComponentsAreConnectivity<E(!new)>(out: map<E, seq<E>>, root: map<E, E>, edges: set<(E, E)>, x: E, y: E)
    requires Follows(edges, root) && Grouped(out, root, root.Keys) && x in root && y in root
    ensures (exists r :: r in out && x in out[r] && y in out[r]) <==> Connected(edges, x, y)
  {
    ClassesAreConnectivity(edges, root, x, y);
    if root[x] == root[y] {
      assert root[x] in out && x in out[root[x]] && y in out[root[x]];
    }
  }
}
