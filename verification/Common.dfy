/** Option, Result and the few facts about sequences that several components share. */
module Common {

  datatype Option<+T> = None | Some(value: T)

  datatype Result<+T, +E> = Ok(value: T) | Err(error: E)

  /** The first element of `xs` that satisfies `p`: what a table walk selects. */
  ghost function First<T>(xs: seq<T>, p: T -> bool): Option<T>
  {
    if xs == [] then None
    else if p(xs[0]) then Some(xs[0])
    else First(xs[1..], p)
  }

  lemma FirstFound<T>(xs: seq<T>, p: T -> bool)
    ensures First(xs, p).Some? ==> p(First(xs, p).value) && First(xs, p).value in xs
    ensures First(xs, p).None? <==> forall x :: x in xs ==> !p(x)
  {
    if xs != [] {
      FirstFound(xs[1..], p);
      assert forall x :: x in xs <==> x == xs[0] || x in xs[1..];
    }
  }

  lemma {:induction false} FirstConcat<T>(xs: seq<T>, ys: seq<T>, p: T -> bool)
    ensures First(xs + ys, p) == if First(xs, p).Some? then First(xs, p) else First(ys, p)
  {
    if xs == [] {
      assert xs + ys == ys;
    } else {
      assert (xs + ys)[1..] == xs[1..] + ys;
      FirstConcat(xs[1..], ys, p);
    }
  }

  /** A walk never looks past a prefix that already holds a satisfying element. */
  lemma FirstInPrefix<T>(xs: seq<T>, k: nat, p: T -> bool)
    requires k <= |xs|
    requires exists x :: x in xs[..k] && p(x)
    ensures First(xs, p).Some?
    ensures First(xs, p).value in xs[..k] && p(First(xs, p).value)
  {
    assert xs == xs[..k] + xs[k..];
    FirstConcat(xs[..k], xs[k..], p);
    FirstFound(xs[..k], p);
  }

  ghost function Filter<T>(xs: seq<T>, p: T -> bool): seq<T>
  {
    if xs == [] then []
    else (if p(xs[0]) then [xs[0]] else []) + Filter(xs[1..], p)
  }

  lemma FilterMembers<T>(xs: seq<T>, p: T -> bool)
    ensures forall x :: x in Filter(xs, p) <==> x in xs && p(x)
  {
    if xs != [] {
      FilterMembers(xs[1..], p);
      assert forall x :: x in xs <==> x == xs[0] || x in xs[1..];
    }
  }

  /** Dropping elements that `q` rejects is invisible to a walk that only accepts `q` elements. */
  lemma {:induction false} FirstFilter<T>(xs: seq<T>, q: T -> bool, p: T -> bool)
    requires forall x :: x in xs && p(x) ==> q(x)
    ensures First(Filter(xs, q), p) == First(xs, p)
  {
    if xs != [] {
      assert forall x :: x in xs[1..] ==> x in xs;
      assert xs[0] in xs;
      FirstFilter(xs[1..], q, p);
      FirstConcat(if q(xs[0]) then [xs[0]] else [], Filter(xs[1..], q), p);
    }
  }

  lemma {:induction false} FilterConcat<T>(xs: seq<T>, ys: seq<T>, p: T -> bool)
    ensures Filter(xs + ys, p) == Filter(xs, p) + Filter(ys, p)
  {
    if xs == [] {
      assert xs + ys == ys;
    } else {
      assert (xs + ys)[1..] == xs[1..] + ys;
      FilterConcat(xs[1..], ys, p);
      JoinAgain(if p(xs[0]) then [xs[0]] else [], Filter(xs[1..], p), Filter(ys, p));
    }
  }

  lemma JoinAgain<T>(a: seq<T>, b: seq<T>, c: seq<T>)
    ensures a + (b + c) == (a + b) + c
  {
  }

  /** Concatenation of a sequence of sequences, oldest first. */
  ghost function Flatten<T>(xss: seq<seq<T>>): seq<T>
  {
    if xss == [] then [] else Flatten(xss[..|xss| - 1]) + xss[|xss| - 1]
  }

  lemma {:induction false} FlattenConcat<T>(a: seq<seq<T>>, b: seq<seq<T>>)
    ensures Flatten(a + b) == Flatten(a) + Flatten(b)
  {
    if b == [] {
      assert a + b == a;
    } else {
      assert (a + b)[..|a + b| - 1] == a + b[..|b| - 1];
      FlattenConcat(a, b[..|b| - 1]);
    }
  }

  /** The part of `s` before its first `sep`. */
  ghost function Before<T>(s: seq<T>, sep: T): seq<T>
  {
    if s == [] || s[0] == sep then [] else [s[0]] + Before(s[1..], sep)
  }

  lemma {:induction false} BeforeJoined<T>(a: seq<T>, sep: T, b: seq<T>)
    requires sep !in a
    ensures Before(a + [sep] + b, sep) == a
  {
    if a != [] {
      assert (a + [sep] + b)[1..] == a[1..] + [sep] + b;
      BeforeJoined(a[1..], sep, b);
    }
  }

  /** Text split at the first separator is unique, so joined keys are injective. */
  lemma SplitUnique<T>(a: seq<T>, b: seq<T>, c: seq<T>, d: seq<T>, sep: T)
    requires a + [sep] + b == c + [sep] + d
    requires sep !in a && sep !in c
    ensures a == c && b == d
  {
    BeforeJoined(a, sep, b);
    BeforeJoined(c, sep, d);
    assert b == (a + [sep] + b)[|a| + 1..] && d == (c + [sep] + d)[|c| + 1..];
  }

  lemma Regroup<T>(a: seq<T>, b: seq<T>, c: seq<T>)
    ensures a + (b + c) == a + b + c
  {
  }

  lemma SizeAfter<K, V>(m: map<K, V>, k: K, v: V)
    ensures |m[k := v]| == if k in m then |m| else |m| + 1
  {
    assert m[k := v].Keys == m.Keys + {k};
    assert |m[k := v]| == |m[k := v].Keys| && |m| == |m.Keys|;
  }

  lemma {:induction false} FewerMembers<T>(a: set<T>, b: set<T>)
    requires a <= b
    ensures |a| <= |b|
  {
    if a != {} {
      var x :| x in a;
      FewerMembers(a - {x}, b - {x});
    }
  }

  ghost predicate Ascends(xs: seq<nat>) {
    forall i, j :: 0 <= i < j < |xs| ==> xs[i] < xs[j]
  }

  lemma AscendsSnoc(xs: seq<nat>, x: nat)
    requires Ascends(xs) && (xs != [] ==> xs[|xs| - 1] < x)
    ensures Ascends(xs + [x])
  {
    forall i, j | 0 <= i < j < |xs + [x]| ensures (xs + [x])[i] < (xs + [x])[j] {
      if j == |xs| && i < |xs| - 1 {
        assert xs[i] < xs[|xs| - 1];
      }
    }
  }
}
