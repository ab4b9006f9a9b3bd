/** Python's ordering of `str` values and the `sorted` builtin over a list of paths,
    as `apply_manifests` uses them to order the wave directories. */
module Order {

  /** Python's `a < b` on strings: lexicographic by code point, a proper prefix first. */
  predicate Less(a: string, b: string)
    decreases |a|
  {
    if a == [] then b != []
    else if b == [] then false
    else if a[0] != b[0] then a[0] < b[0]
    else Less(a[1..], b[1..])
  }

  predicate LessEq(a: string, b: string)
  {
    a == b || Less(a, b)
  }

  lemma {:induction false} LessIrreflexive(a: string)
    ensures !Less(a, a)
  {
    if a != [] {
      LessIrreflexive(a[1..]);
    }
  }

  lemma {:induction false} LessTransitive(a: string, b: string, c: string)
    requires Less(a, b) && Less(b, c)
    ensures Less(a, c)
  {
    if a != [] && a[0] == b[0] && b[0] == c[0] {
      LessTransitive(a[1..], b[1..], c[1..]);
    }
  }

  lemma {:induction false} LessTotal(a: string, b: string)
    ensures a == b || Less(a, b) || Less(b, a)
  {
    if a != [] && b != [] && a[0] == b[0] {
      LessTotal(a[1..], b[1..]);
      if a[1..] == b[1..] {
        assert a == [a[0]] + a[1..] && b == [b[0]] + b[1..];
      }
    }
  }

  lemma LessEqTransitive(a: string, b: string, c: string)
    requires LessEq(a, b) && LessEq(b, c)
    ensures LessEq(a, c)
  {
    if a != b && b != c {
      LessTransitive(a, b, c);
    }
  }

  lemma LessEqAntisymmetric(a: string, b: string)
    requires LessEq(a, b) && LessEq(b, a)
    ensures a == b
  {
    if a != b {
      LessTransitive(a, b, a);
      LessIrreflexive(a);
    }
  }

  /** A common leading part does not change the order: the wave paths share the cluster
      directory, so sorting the paths sorts the wave names. */
  lemma {:induction false} LessUnderPrefix(p: string, a: string, b: string)
    ensures Less(p + a, p + b) <==> Less(a, b)
  {
    if p == [] {
      assert p + a == a && p + b == b;
    } else {
      assert (p + a)[1..] == p[1..] + a;
      assert (p + b)[1..] == p[1..] + b;
      LessUnderPrefix(p[1..], a, b);
    }
  }

  ghost predicate Sorted(s: seq<string>)
  {
    forall i, j :: 0 <= i < j < |s| ==> LessEq(s[i], s[j])
  }

  lemma SortedCons(x: string, s: seq<string>)
    requires Sorted(s)
    requires forall k :: 0 <= k < |s| ==> LessEq(x, s[k])
    ensures Sorted([x] + s)
  {
    var r := [x] + s;
    forall i, j | 0 <= i < j < |r|
      ensures LessEq(r[i], r[j])
    {
      if i > 0 {
        assert r[i] == s[i - 1] && r[j] == s[j - 1];
      }
    }
  }

  /** One step of insertion sort. */
  function Insert(x: string, s: seq<string>): (r: seq<string>)
    requires Sorted(s)
    ensures Sorted(r)
    ensures multiset(r) == multiset(s) + multiset{x}
    ensures forall y :: y in r <==> y == x || y in s
  {
    if s == [] then [x]
    else if LessEq(x, s[0]) then
      assert forall k :: 0 <= k < |s| ==> LessEq(x, s[k]) by {
        forall k | 0 <= k < |s| ensures LessEq(x, s[k]) {
          LessEqTransitive(x, s[0], s[k]);
        }
      }
      SortedCons(x, s);
      [x] + s
    else
      assert s == [s[0]] + s[1..];
      SortedTail(s);
      var rest := Insert(x, s[1..]);
      InsertBehindHead(x, s, rest);
      [s[0]] + rest
  }

  /** When `x` goes behind the head of `s`, the head stays first. */
  lemma InsertBehindHead(x: string, s: seq<string>, rest: seq<string>)
    requires Sorted(s) && s != [] && !LessEq(x, s[0])
    requires Sorted(rest) && forall y :: y in rest <==> y == x || y in s[1..]
    ensures Sorted([s[0]] + rest)
  {
    LessTotal(x, s[0]);
    forall k | 0 <= k < |rest| ensures LessEq(s[0], rest[k]) {
      assert rest[k] in rest;
      if rest[k] != x {
        var j :| 0 <= j < |s[1..]| && s[1..][j] == rest[k];
        assert s[j + 1] == rest[k];
      }
    }
    SortedCons(s[0], rest);
  }

  /** `sorted(s)` on a list of strings: an ascending permutation of `s`. */
  function Sort(s: seq<string>): (r: seq<string>)
    ensures Sorted(r)
    ensures multiset(r) == multiset(s)
  {
    if s == [] then []
    else
      assert s == [s[0]] + s[1..];
      Insert(s[0], Sort(s[1..]))
  }

  lemma SortedTail(s: seq<string>)
    requires Sorted(s) && s != []
    ensures Sorted(s[1..])
  {
    forall i, j | 0 <= i < j < |s[1..]| ensures LessEq(s[1..][i], s[1..][j]) {
      assert s[1..][i] == s[i + 1] && s[1..][j] == s[j + 1];
    }
  }

  /** The head of an ascending sequence is below everything in it. */
  lemma SortedHeadLeast(s: seq<string>, y: string)
    requires Sorted(s) && y in s
    ensures LessEq(s[0], y)
  {
    var i :| 0 <= i < |s| && s[i] == y;
    if i > 0 {
      assert LessEq(s[0], s[i]);
    }
  }

  lemma MultisetTail(a: seq<string>, b: seq<string>)
    requires a != [] && b != [] && a[0] == b[0]
    requires multiset(a) == multiset(b)
    ensures multiset(a[1..]) == multiset(b[1..])
  {
    assert a == [a[0]] + a[1..] && b == [b[0]] + b[1..];
    assert multiset(a[1..]) == multiset(a) - multiset{a[0]};
    assert multiset(b[1..]) == multiset(b) - multiset{b[0]};
  }

  /** There is only one ascending arrangement of a multiset of strings, so `Sort`
      agrees with every correct sort, Python's `sorted` among them. */
  lemma {:induction false} SortedUnique(a: seq<string>, b: seq<string>)
    requires Sorted(a) && Sorted(b)
    requires multiset(a) == multiset(b)
    ensures a == b
  {
    if a != [] {
      assert |b| == |multiset(b)| == |multiset(a)| == |a|;
      assert a[0] in multiset(b) && b[0] in multiset(a);
      SortedHeadLeast(b, a[0]);
      SortedHeadLeast(a, b[0]);
      LessEqAntisymmetric(a[0], b[0]);
      MultisetTail(a, b);
      SortedTail(a);
      SortedTail(b);
      SortedUnique(a[1..], b[1..]);
      assert a == [a[0]] + a[1..] && b == [b[0]] + b[1..];
    }
  }

  lemma SortIsTheSortedPermutation(s: seq<string>, r: seq<string>)
    requires Sorted(r) && multiset(r) == multiset(s)
    ensures r == Sort(s)
  {
    SortedUnique(r, Sort(s));
  }

  /** `[p + x for x in s]`. */
  function Prefixed(p: string, s: seq<string>): (r: seq<string>)
    ensures |r| == |s|
    ensures forall i :: 0 <= i < |s| ==> r[i] == p + s[i]
  {
    if s == [] then [] else [p + s[0]] + Prefixed(p, s[1..])
  }

  lemma PrefixInjective(p: string, a: string, b: string)
    requires p + a == p + b
    ensures a == b
  {
    assert a == (p + a)[|p|..] && b == (p + b)[|p|..];
  }

  lemma {:induction false} InsertPrefixed(p: string, x: string, s: seq<string>)
    requires Sorted(s) && Sorted(Prefixed(p, s))
    ensures Insert(p + x, Prefixed(p, s)) == Prefixed(p, Insert(x, s))
  {
    if s != [] {
      var ps := Prefixed(p, s);
      assert ps[0] == p + s[0];
      LessUnderPrefix(p, x, s[0]);
      if p + x == p + s[0] {
        PrefixInjective(p, x, s[0]);
      }
      if !LessEq(x, s[0]) {
        SortedTail(s);
        assert ps[1..] == Prefixed(p, s[1..]);
        InsertPrefixed(p, x, s[1..]);
      }
    }
  }

  lemma PrefixedSorted(p: string, s: seq<string>)
    requires Sorted(s)
    ensures Sorted(Prefixed(p, s))
  {
    var ps := Prefixed(p, s);
    forall i, j | 0 <= i < j < |ps| ensures LessEq(ps[i], ps[j]) {
      assert LessEq(s[i], s[j]);
      LessUnderPrefix(p, s[i], s[j]);
    }
  }

  /** Sorting paths that share a leading part orders them by what follows it. */
  lemma {:induction false} SortPrefixed(p: string, s: seq<string>)
    ensures Sort(Prefixed(p, s)) == Prefixed(p, Sort(s))
  {
    if s != [] {
      assert Prefixed(p, s)[1..] == Prefixed(p, s[1..]);
      SortPrefixed(p, s[1..]);
      PrefixedSorted(p, Sort(s[1..]));
      InsertPrefixed(p, s[0], Sort(s[1..]));
    }
  }
}
