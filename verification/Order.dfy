/** Orders and sorted listings. Every list the control plane builds is sorted
    with an explicit comparison, so a listing is fixed by the set it lists. */
module Order {

  datatype Option<+T> = None | Some(value: T)

  // Strings compare code point by code point, as Go strings and SQLite TEXT do.
  predicate StrLess(a: string, b: string) {
    if b == [] then false
    else if a == [] then true
    else a[0] < b[0] || (a[0] == b[0] && StrLess(a[1..], b[1..]))
  }

  // a is less than b at position k: the same up to there, and then a ends or has the smaller character.
  predicate LessAt(a: string, b: string, k: nat) {
    && k <= |a| && k < |b| && a[..k] == b[..k]
    && (k == |a| || a[k] < b[k])
  }

  /** The comparison, without recursion: the first difference decides. */
  lemma {:induction false} StrLessExactly(a: string, b: string)
    ensures StrLess(a, b) <==> exists k: nat :: LessAt(a, b, k)
  {
    if a == [] || b == [] || a[0] != b[0] {
      if StrLess(a, b) { assert LessAt(a, b, 0); }
      if k: nat :| LessAt(a, b, k) { if k > 0 { assert a[..k][0] == b[..k][0]; } }
    } else {
      StrLessExactly(a[1..], b[1..]);
      if k: nat :| LessAt(a[1..], b[1..], k) {
        assert a[..k + 1] == [a[0]] + a[1..][..k] && b[..k + 1] == [b[0]] + b[1..][..k];
        assert LessAt(a, b, k + 1);
      }
      if k: nat :| LessAt(a, b, k) {
        assert k > 0;
        assert a[1..][..k - 1] == a[..k][1..] && b[1..][..k - 1] == b[..k][1..];
        assert LessAt(a[1..], b[1..], k - 1);
      }
    }
  }

  lemma {:induction false} StrIrreflexive(a: string)
    ensures !StrLess(a, a)
  {
    if a != [] { StrIrreflexive(a[1..]); }
  }

  lemma {:induction false} StrTransitive(a: string, b: string, c: string)
    requires StrLess(a, b) && StrLess(b, c)
    ensures StrLess(a, c)
  {
    if a != [] && a[0] == b[0] && b[0] == c[0] { StrTransitive(a[1..], b[1..], c[1..]); }
  }

  lemma {:induction false} StrTotal(a: string, b: string)
    ensures a == b || StrLess(a, b) || StrLess(b, a)
  {
    if a != [] && b != [] && a[0] == b[0] {
      StrTotal(a[1..], b[1..]);
      assert a == [a[0]] + a[1..] && b == [b[0]] + b[1..];
    }
  }

  lemma StrHead(x: char, a: string, b: string)
    ensures StrLess([x] + a, [x] + b) <==> StrLess(a, b)
  {
    assert ([x] + a)[1..] == a && ([x] + b)[1..] == b;
  }

  /** Common leading text does not affect the comparison. */
  lemma {:induction false} StrPrefix(p: string, a: string, b: string)
    ensures StrLess(p + a, p + b) <==> StrLess(a, b)
  {
    hide StrLess;
    if p == [] {
      assert p + a == a && p + b == b;
    } else {
      StrPrefix(p[1..], a, b);
      StrHead(p[0], p[1..] + a, p[1..] + b);
      assert p + a == [p[0]] + (p[1..] + a) && p + b == [p[0]] + (p[1..] + b);
    }
  }

  ghost predicate StrictOrder<T(!new)>(less: (T, T) -> bool) {
    && (forall x :: !less(x, x))
    && (forall x, y, z :: less(x, y) && less(y, z) ==> less(x, z))
  }

  // Any two different members of s are comparable.
  ghost predicate TotalOn<T>(s: set<T>, less: (T, T) -> bool) {
    forall x, y | x in s && y in s && x != y :: less(x, y) || less(y, x)
  }

  ghost predicate SortedBy<T>(xs: seq<T>, less: (T, T) -> bool) {
    forall i, j | 0 <= i < j < |xs| :: less(xs[i], xs[j])
  }

  // xs lists exactly the members of s, in strictly increasing order.
  ghost predicate IsListing<T(!new)>(xs: seq<T>, s: set<T>, less: (T, T) -> bool) {
    && SortedBy(xs, less)
    && (forall x :: x in xs <==> x in s)
  }

  ghost function Listing<T(!new)>(s: set<T>, less: (T, T) -> bool): seq<T> {
    if exists xs :: IsListing(xs, s, less) then
      var xs :| IsListing(xs, s, less); xs
    else []
  }

  lemma {:induction false} SortedUnique<T(!new)>(xs: seq<T>, ys: seq<T>, s: set<T>, less: (T, T) -> bool)
    requires StrictOrder(less)
    requires IsListing(xs, s, less) && IsListing(ys, s, less)
    ensures xs == ys
  {
    ListingDistinct(xs, s, less);
    ListingDistinct(ys, s, less);
    if xs != [] {
      var x := xs[0];
      assert x in ys && ys[0] in xs;
      TailLists(xs, s, less);
      TailLists(ys, s, less);
      SortedUnique(xs[1..], ys[1..], s - {x}, less);
      assert xs == [x] + xs[1..] && ys == [ys[0]] + ys[1..];
    }
  }

  lemma TailLists<T(!new)>(xs: seq<T>, s: set<T>, less: (T, T) -> bool)
    requires StrictOrder(less) && IsListing(xs, s, less) && xs != []
    ensures IsListing(xs[1..], s - {xs[0]}, less)
  {
    forall x ensures x in xs[1..] <==> x in s - {xs[0]} {
      if x in xs[1..] {
        var i :| 0 <= i < |xs[1..]| && xs[1..][i] == x;
        assert x == xs[i + 1] && less(xs[0], xs[i + 1]);
      }
      if x in s - {xs[0]} {
        var i :| 0 <= i < |xs| && xs[i] == x;
        assert x == xs[1..][i - 1];
      }
    }
  }

  /** A listing found by any route is the listing. */
  lemma ListingIs<T(!new)>(xs: seq<T>, s: set<T>, less: (T, T) -> bool)
    requires StrictOrder(less) && IsListing(xs, s, less)
    ensures Listing(s, less) == xs
  {
    SortedUnique(Listing(s, less), xs, s, less);
  }

  lemma ListingExists<T(!new)>(s: set<T>, less: (T, T) -> bool)
    requires StrictOrder(less) && TotalOn(s, less)
    ensures IsListing(Listing(s, less), s, less)
  {
    var xs := Enumerate(s);
    SortLists(xs, less);
    assert forall x :: x in xs <==> x in s;
    assert IsListing(Sort(xs, less), s, less);
  }

  ghost function Enumerate<T(!new)>(s: set<T>): (xs: seq<T>)
    ensures forall x :: x in xs <==> x in s
    ensures Distinct(xs)
  {
    if s == {} then [] else
      var x :| x in s;
      [x] + Enumerate(s - {x})
  }

  ghost predicate Distinct<T>(xs: seq<T>) {
    forall i, j | 0 <= i < j < |xs| :: xs[i] != xs[j]
  }

  /** Insertion into a sorted list, the step of the sort that stands for sort.Slice. */
  function Insert<T>(x: T, xs: seq<T>, less: (T, T) -> bool): (r: seq<T>) {
    if xs == [] || less(x, xs[0]) then [x] + xs
    else [xs[0]] + Insert(x, xs[1..], less)
  }

  function Sort<T>(xs: seq<T>, less: (T, T) -> bool): (r: seq<T>) {
    if xs == [] then [] else Insert(xs[0], Sort(xs[1..], less), less)
  }

  lemma {:induction false} InsertMembers<T(!new)>(x: T, xs: seq<T>, less: (T, T) -> bool)
    ensures forall y :: y in Insert(x, xs, less) <==> y == x || y in xs
    ensures |Insert(x, xs, less)| == |xs| + 1
  {
    if xs != [] && !less(x, xs[0]) {
      InsertMembers(x, xs[1..], less);
      assert xs == [xs[0]] + xs[1..];
      forall y ensures y in Insert(x, xs, less) <==> y == x || y in xs {
        assert y in xs <==> y == xs[0] || y in xs[1..];
      }
    }
  }

  lemma {:induction false} InsertSorts<T(!new)>(x: T, xs: seq<T>, less: (T, T) -> bool)
    requires StrictOrder(less) && SortedBy(xs, less)
    requires forall y | y in xs :: less(x, y) || less(y, x)
    ensures SortedBy(Insert(x, xs, less), less)
  {
    InsertMembers(x, xs, less);
    if xs == [] {
    } else if less(x, xs[0]) {
      var r := [x] + xs;
      forall i, j | 0 <= i < j < |r| ensures less(r[i], r[j]) {
        if i == 0 && j > 1 { assert less(xs[0], xs[j - 1]); }
      }
    } else {
      assert xs[0] in xs && less(xs[0], x);
      var t := Insert(x, xs[1..], less);
      assert forall y | y in xs[1..] :: y in xs;
      InsertSorts(x, xs[1..], less);
      InsertMembers(x, xs[1..], less);
      forall j | 0 <= j < |t| ensures less(xs[0], t[j]) {
        assert t[j] in t;
        if t[j] != x {
          var k :| 0 <= k < |xs[1..]| && xs[1..][k] == t[j];
          assert less(xs[0], xs[k + 1]);
        }
      }
    }
  }

  /** Sorting duplicate-free, pairwise comparable items gives their listing. */
  lemma {:induction false} SortLists<T(!new)>(xs: seq<T>, less: (T, T) -> bool)
    requires StrictOrder(less) && Distinct(xs)
    requires forall x, y | x in xs && y in xs && x != y :: less(x, y) || less(y, x)
    ensures SortedBy(Sort(xs, less), less)
    ensures forall x :: x in Sort(xs, less) <==> x in xs
    ensures |Sort(xs, less)| == |xs|
  {
    if xs != [] {
      var t := xs[1..];
      assert xs == [xs[0]] + t;
      assert forall x | x in t :: x in xs;
      SortLists(t, less);
      forall y | y in Sort(t, less) ensures less(xs[0], y) || less(y, xs[0]) {
        var k :| 0 <= k < |t| && t[k] == y;
        assert xs[k + 1] != xs[0];
      }
      InsertSorts(xs[0], Sort(t, less), less);
      InsertMembers(xs[0], Sort(t, less), less);
    }
  }

  lemma ListingDistinct<T(!new)>(xs: seq<T>, s: set<T>, less: (T, T) -> bool)
    requires StrictOrder(less) && IsListing(xs, s, less)
    ensures Distinct(xs) && |xs| == |s|
  {
    DistinctCard(xs, s);
  }

  lemma {:induction false} DistinctCard<T(!new)>(xs: seq<T>, s: set<T>)
    requires Distinct(xs) && forall x :: x in xs <==> x in s
    ensures |xs| == |s|
  {
    if xs == [] {
      assert s == {};
    } else {
      var t := xs[1..];
      forall x ensures x in t <==> x in s - {xs[0]} {
        if x in t { var i :| 0 <= i < |t| && t[i] == x; assert xs[i + 1] == x; }
        if x in s - {xs[0]} { var i :| 0 <= i < |xs| && xs[i] == x; assert t[i - 1] == x; }
      }
      assert xs[0] in s;
      DistinctCard(t, s - {xs[0]});
    }
  }

  lemma StrOrder()
    ensures StrictOrder(StrLess)
    ensures forall s: set<string> :: TotalOn(s, StrLess)
  {
    forall x: string ensures !StrLess(x, x) { StrIrreflexive(x); }
    forall x: string, y: string, z: string | StrLess(x, y) && StrLess(y, z) ensures StrLess(x, z) { StrTransitive(x, y, z); }
    forall s: set<string>, x: string, y: string | x in s && y in s && x != y ensures StrLess(x, y) || StrLess(y, x) {
      StrTotal(x, y);
    }
  }

  function Filter<T>(xs: seq<T>, p: T -> bool): seq<T> {
    if xs == [] then [] else
      var x := xs[|xs| - 1];
      Filter(xs[..|xs| - 1], p) + if p(x) then [x] else []
  }

  lemma FilterNone<T>(xs: seq<T>, p: T -> bool)
    ensures Filter(xs[..0], p) == []
  {
  }

  lemma FilterStep<T>(xs: seq<T>, i: nat, p: T -> bool)
    requires i < |xs|
    ensures Filter(xs[..i + 1], p) == Filter(xs[..i], p) + if p(xs[i]) then [xs[i]] else []
  {
    assert xs[..i + 1][..i] == xs[..i];
  }

  lemma {:induction false} FilterMembers<T(!new)>(xs: seq<T>, p: T -> bool)
    ensures forall x :: x in Filter(xs, p) <==> x in xs && p(x)
  {
    if xs != [] {
      FilterMembers(xs[..|xs| - 1], p);
      assert xs == xs[..|xs| - 1] + [xs[|xs| - 1]];
    }
  }

  lemma {:induction false} FilterSorted<T(!new)>(xs: seq<T>, p: T -> bool, less: (T, T) -> bool)
    requires SortedBy(xs, less)
    ensures SortedBy(Filter(xs, p), less)
  {
    if xs != [] {
      var k := |xs| - 1;
      FilterSorted(xs[..k], p, less);
      FilterMembers(xs[..k], p);
      var f := Filter(xs[..k], p);
      forall i | 0 <= i < |f| ensures less(f[i], xs[k]) {
        assert f[i] in f;
        var j :| 0 <= j < k && xs[j] == f[i];
      }
    }
  }

  /** Filtering a listing gives the listing of what passes the filter. */
  lemma FilterLists<T(!new)>(xs: seq<T>, s: set<T>, p: T -> bool, part: set<T>, less: (T, T) -> bool)
    requires StrictOrder(less) && IsListing(xs, s, less)
    requires forall x :: x in part <==> x in s && p(x)
    ensures Filter(xs, p) == Listing(part, less) && IsListing(Filter(xs, p), part, less)
  {
    FilterMembers(xs, p);
    FilterSorted(xs, p, less);
    ListingIs(Filter(xs, p), part, less);
  }
}
