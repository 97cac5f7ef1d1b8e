/** Slices sorted by a key, and Go's order of strings. */
module Sorting {
  ghost predicate StrictTotal<K(!new)>(less: (K, K) -> bool) {
    && (forall a :: !less(a, a))
    && (forall a, b, c :: less(a, b) && less(b, c) ==> less(a, c))
    && forall a, b :: a == b || less(a, b) || less(b, a)
  }

  ghost predicate SortedBy<T, K>(s: seq<T>, key: T -> K, less: (K, K) -> bool) {
    forall i, j :: 0 <= i < j < |s| ==> less(key(s[i]), key(s[j]))
  }

  ghost predicate DistinctKeys<T, K>(s: seq<T>, key: T -> K) {
    forall i, j :: 0 <= i < j < |s| ==> key(s[i]) != key(s[j])
  }

  /** s lists the elements of xs, sorted. */
  ghost predicate IsSorting<T, K>(xs: multiset<T>, s: seq<T>, key: T -> K, less: (K, K) -> bool) {
    multiset(s) == xs && SortedBy(s, key, less)
  }

  lemma FromSplit<T>(s: seq<T>, k: nat)
    requires k <= |s|
    ensures multiset(s) == multiset(s[..k]) + multiset(s[k..])
  {
    assert s == s[..k] + s[k..];
  }

  lemma InsertAt<T, K(!new)>(s: seq<T>, x: T, k: nat, key: T -> K, less: (K, K) -> bool)
    requires StrictTotal(less) && SortedBy(s, key, less) && k <= |s|
    requires forall i :: 0 <= i < k ==> less(key(s[i]), key(x))
    requires k < |s| ==> less(key(x), key(s[k]))
    ensures IsSorting(multiset(s) + multiset{x}, s[..k] + [x] + s[k..], key, less)
  {
    var t := s[..k] + [x] + s[k..];
    FromSplit(s, k);
    forall j | k <= j < |s| ensures less(key(x), key(s[j])) {
      assert j == k || less(key(s[k]), key(s[j]));
    }
    Inserted(s, x, k);
    StaysSorted(s, x, k, t, key, less);
  }

  lemma Inserted<T>(s: seq<T>, x: T, k: nat)
    requires k <= |s|
    ensures var t := s[..k] + [x] + s[k..];
      && |t| == |s| + 1 && t[k] == x
      && (forall i :: 0 <= i < k ==> t[i] == s[i])
      && forall i :: k < i < |t| ==> t[i] == s[i - 1]
  {
  }

  lemma StaysSorted<T, K(!new)>(s: seq<T>, x: T, k: nat, t: seq<T>, key: T -> K, less: (K, K) -> bool)
    requires SortedBy(s, key, less) && k <= |s| && |t| == |s| + 1 && t[k] == x
    requires forall i :: 0 <= i < k ==> t[i] == s[i]
    requires forall i :: k < i < |t| ==> t[i] == s[i - 1]
    requires forall i :: 0 <= i < k ==> less(key(s[i]), key(x))
    requires forall i :: k <= i < |s| ==> less(key(x), key(s[i]))
    ensures SortedBy(t, key, less)
  {
    forall i, j | 0 <= i < j < |t| ensures less(key(t[i]), key(t[j])) {
      if i != k && j != k {
        assert less(key(s[if i < k then i else i - 1]), key(s[if j < k then j else j - 1]));
      }
    }
  }

  /** Where x belongs: behind the keys less than its own. */
  method Place<T, K>(s: seq<T>, x: T, key: T -> K, less: (K, K) -> bool) returns (k: nat)
    ensures k <= |s| && forall i :: 0 <= i < k ==> less(key(s[i]), key(x))
    ensures k < |s| ==> !less(key(s[k]), key(x))
  {
    k := 0;
    while k < |s| && less(key(s[k]), key(x))
      invariant 0 <= k <= |s| && forall i :: 0 <= i < k ==> less(key(s[i]), key(x))
    {
      k := k + 1;
    }
  }

  lemma KeyIsNew<T, K>(xs: seq<T>, n: nat, y: T, key: T -> K)
    requires DistinctKeys(xs, key) && n < |xs| && y in multiset(xs[..n])
    ensures key(y) != key(xs[n])
  {
    var i :| 0 <= i < n && xs[i] == y;
  }

  /** Sorts a slice whose keys are all different. */
  method SortBy<T, K(!new)>(xs: seq<T>, key: T -> K, less: (K, K) -> bool) returns (s: seq<T>)
    requires StrictTotal(less) && DistinctKeys(xs, key)
    ensures IsSorting(multiset(xs), s, key, less)
  {
    s := [];
    for n := 0 to |xs|
      invariant IsSorting(multiset(xs[..n]), s, key, less)
    {
      var x := xs[n];
      var k := Place(s, x, key, less);
      if k < |s| {
        assert s[k] in multiset(s);
        KeyIsNew(xs, n, s[k], key);
      }
      InsertAt(s, x, k, key, less);
      s := s[..k] + [x] + s[k..];
      assert xs[..n + 1] == xs[..n] + [x];
    }
    assert xs[..|xs|] == xs;
  }

  /** Two sorted listings of the same elements are the same listing. */
  lemma {:induction false} SortingIsUnique<T, K(!new)>(xs: multiset<T>, a: seq<T>, b: seq<T>, key: T -> K, less: (K, K) -> bool)
    requires StrictTotal(less) && IsSorting(xs, a, key, less) && IsSorting(xs, b, key, less)
    ensures a == b
    decreases |a|
  {
    assert |a| == |multiset(a)| && |b| == |multiset(b)|;
    if a != [] {
      assert a[0] in multiset(b) && b[0] in multiset(a);
      HeadIsLeast(a, b[0], key, less);
      HeadIsLeast(b, a[0], key, less);
      TailsAgree(a, b);
      SortingIsUnique(multiset(a[1..]), a[1..], b[1..], key, less);
    }
  }

  lemma TailsAgree<T>(a: seq<T>, b: seq<T>)
    requires a != [] && b != [] && a[0] == b[0] && multiset(a) == multiset(b)
    ensures multiset(a[1..]) == multiset(b[1..])
    ensures a[1..] == b[1..] ==> a == b
  {
    assert a == [a[0]] + a[1..] && b == [b[0]] + b[1..];
    assert multiset(a[1..]) == multiset(a) - multiset{a[0]};
    assert multiset(b[1..]) == multiset(b) - multiset{b[0]};
  }

  lemma HeadIsLeast<T, K>(s: seq<T>, x: T, key: T -> K, less: (K, K) -> bool)
    requires SortedBy(s, key, less) && s != [] && x in multiset(s)
    ensures x == s[0] || less(key(s[0]), key(x))
  {
    var i :| 0 <= i < |s| && s[i] == x;
  }

  lemma {:induction false} OnceEach<T>(s: seq<T>, x: T)
    requires forall i, j :: 0 <= i < j < |s| ==> s[i] != s[j]
    ensures multiset(s)[x] == if x in s then 1 else 0
  {
    if s != [] {
      OnceEach(s[1..], x);
      assert s == [s[0]] + s[1..];
    }
  }

  lemma NoRepeats<T, K(!new)>(s: seq<T>, key: T -> K, less: (K, K) -> bool)
    requires StrictTotal(less) && SortedBy(s, key, less)
    ensures forall i, j :: 0 <= i < j < |s| ==> s[i] != s[j]
  {
    forall i, j | 0 <= i < j < |s| ensures s[i] != s[j] {
      assert less(key(s[i]), key(s[j]));
    }
  }

  lemma SortedSameElements<T, K(!new)>(a: seq<T>, b: seq<T>, key: T -> K, less: (K, K) -> bool)
    requires StrictTotal(less) && SortedBy(a, key, less) && SortedBy(b, key, less)
    requires forall x :: x in a <==> x in b
    ensures a == b
  {
    NoRepeats(a, key, less);
    NoRepeats(b, key, less);
    forall x ensures multiset(a)[x] == multiset(b)[x] {
      OnceEach(a, x);
      OnceEach(b, x);
    }
    SortingIsUnique(multiset(a), a, b, key, less);
  }

  /** The elements of a set in some order, as when ranging over a Go map. */
  method Listing<T(==)>(xs: set<T>) returns (s: seq<T>)
    ensures multiset(s) == multiset(xs)
    ensures forall i, j :: 0 <= i < j < |s| ==> s[i] != s[j]
  {
    s := [];
    var left := xs;
    while left != {}
      invariant left <= xs && multiset(s) == multiset(xs - left)
      invariant forall i, j :: 0 <= i < j < |s| ==> s[i] != s[j]
    {
      var x :| x in left;
      assert x !in multiset(s);
      s := s + [x];
      left := left - {x};
    }
    assert xs - left == xs;
  }

  // ---- Go's < on strings ----

  predicate StringLess(a: string, b: string) {
    if b == "" then false
    else if a == "" then true
    else a[0] < b[0] || (a[0] == b[0] && StringLess(a[1..], b[1..]))
  }

  lemma {:induction false} StringLessIrreflexive(a: string)
    ensures !StringLess(a, a)
  {
    if a != "" {
      StringLessIrreflexive(a[1..]);
    }
  }

  lemma {:induction false} StringLessTransitive(a: string, b: string, c: string)
    requires StringLess(a, b) && StringLess(b, c)
    ensures StringLess(a, c)
  {
    if a != "" && a[0] == b[0] == c[0] {
      StringLessTransitive(a[1..], b[1..], c[1..]);
    }
  }

  lemma {:induction false} StringLessTotal(a: string, b: string)
    ensures a == b || StringLess(a, b) || StringLess(b, a)
  {
    if a != "" && b != "" && a[0] == b[0] {
      StringLessTotal(a[1..], b[1..]);
      assert a == [a[0]] + a[1..] && b == [b[0]] + b[1..];
    }
  }

  /** a is a proper beginning of b, or is less at the first place where they differ. */
  lemma {:induction false} StringLessIsLexicographic(a: string, b: string)
    ensures StringLess(a, b) <==>
      (a <= b && a != b) || exists k :: 0 <= k < |a| && k < |b| && a[..k] == b[..k] && a[k] < b[k]
  {
    if a != "" && b != "" {
      if a[0] == b[0] {
        StringLessIsLexicographic(a[1..], b[1..]);
        FirstDifference(a, b);
      } else if a[0] < b[0] {
        assert a[..0] == b[..0];
      }
    }
  }

  lemma FirstDifference(a: string, b: string)
    requires a != "" && b != "" && a[0] == b[0]
    ensures (a <= b <==> a[1..] <= b[1..]) && (a == b <==> a[1..] == b[1..])
    ensures (exists k :: 0 <= k < |a| && k < |b| && a[..k] == b[..k] && a[k] < b[k]) <==>
            (exists k :: 0 <= k < |a[1..]| && k < |b[1..]| && a[1..][..k] == b[1..][..k] && a[1..][k] < b[1..][k])
  {
    assert a == [a[0]] + a[1..] && b == [b[0]] + b[1..];
    if k :| 0 <= k < |a| && k < |b| && a[..k] == b[..k] && a[k] < b[k] {
      assert k > 0;
      assert a[1..][..k - 1] == a[..k][1..] && b[1..][..k - 1] == b[..k][1..];
      assert a[1..][k - 1] < b[1..][k - 1];
    }
    if k :| 0 <= k < |a[1..]| && k < |b[1..]| && a[1..][..k] == b[1..][..k] && a[1..][k] < b[1..][k] {
      assert a[..k + 1] == [a[0]] + a[1..][..k] && b[..k + 1] == [b[0]] + b[1..][..k];
      assert a[k + 1] < b[k + 1];
    }
  }

  lemma StringsAreOrdered()
    ensures StrictTotal(StringLess)
  {
    forall a ensures !StringLess(a, a) {
      StringLessIrreflexive(a);
    }
    forall a, b, c | StringLess(a, b) && StringLess(b, c) ensures StringLess(a, c) {
      StringLessTransitive(a, b, c);
    }
    forall a, b ensures a == b || StringLess(a, b) || StringLess(b, a) {
      StringLessTotal(a, b);
    }
  }
}
