/** Orders and sorting. The source sorts with library routines; here a sort is the stable
    insertion sort, and `SortedUnique` shows that no other sorted arrangement exists when the
    order separates the elements. */
module Ordering {

  /** Byte-wise lexicographic order on strings. */
  predicate StringLess(a: string, b: string)
    decreases |a|
  {
    b != "" && (a == "" || a[0] < b[0] || (a[0] == b[0] && StringLess(a[1..], b[1..])))
  }

  lemma {:induction false} StringLessTotal(a: string, b: string)
    ensures !(StringLess(a, b) && StringLess(b, a))
    ensures StringLess(a, b) || StringLess(b, a) <==> a != b
    decreases |a|
  {
    if a != "" && b != "" && a[0] == b[0] {
      StringLessTotal(a[1..], b[1..]);
      assert a == [a[0]] + a[1..] && b == [b[0]] + b[1..];
    }
  }

  lemma {:induction false} StringLessTransitive(a: string, b: string, c: string)
    requires StringLess(a, b) && StringLess(b, c)
    ensures StringLess(a, c)
    decreases |a|
  {
    if a != "" && a[0] == b[0] && b[0] == c[0] {
      StringLessTransitive(a[1..], b[1..], c[1..]);
    }
  }

  /** Asymmetric, and "not greater than" is transitive: what a comparator must satisfy. */
  ghost predicate WeakOrder<T(!new)>(less: (T, T) -> bool) {
    && (forall a, b :: less(a, b) ==> !less(b, a))
    && (forall a, b, c :: !less(b, a) && !less(c, b) ==> !less(c, a))
  }

  ghost predicate Sorted<T>(less: (T, T) -> bool, s: seq<T>) {
    forall i, j :: 0 <= i < j < |s| ==> !less(s[j], s[i])
  }

  /** Distinct elements are never tied. */
  ghost predicate Separates<T>(less: (T, T) -> bool, s: seq<T>) {
    forall i, j :: 0 <= i < |s| && 0 <= j < |s| && s[i] != s[j] ==> less(s[i], s[j]) || less(s[j], s[i])
  }

  function Insert<T>(less: (T, T) -> bool, x: T, s: seq<T>): seq<T> {
    if s == [] then [x]
    else if less(s[0], x) then [s[0]] + Insert(less, x, s[1..])
    else [x] + s
  }

  function Sort<T>(less: (T, T) -> bool, s: seq<T>): seq<T> {
    if s == [] then [] else Insert(less, s[0], Sort(less, s[1..]))
  }

  lemma {:induction false} InsertPermutes<T>(less: (T, T) -> bool, x: T, s: seq<T>)
    ensures multiset(Insert(less, x, s)) == multiset{x} + multiset(s)
  {
    if s != [] {
      assert s == [s[0]] + s[1..];
      if less(s[0], x) {
        InsertPermutes(less, x, s[1..]);
      }
    }
  }

  lemma {:induction false} SortPermutes<T>(less: (T, T) -> bool, s: seq<T>)
    ensures multiset(Sort(less, s)) == multiset(s)
    ensures |Sort(less, s)| == |s|
  {
    if s != [] {
      SortPermutes(less, s[1..]);
      InsertPermutes(less, s[0], Sort(less, s[1..]));
      assert s == [s[0]] + s[1..];
    }
    assert |multiset(Sort(less, s))| == |Sort(less, s)|;
  }

  lemma {:induction false} InsertSorts<T(!new)>(less: (T, T) -> bool, x: T, s: seq<T>)
    requires WeakOrder(less) && Sorted(less, s)
    ensures Sorted(less, Insert(less, x, s))
  {
    if s != [] {
      if less(s[0], x) {
        var rest := Insert(less, x, s[1..]);
        InsertSorts(less, x, s[1..]);
        InsertPermutes(less, x, s[1..]);
        forall j | 0 <= j < |rest|
          ensures !less(rest[j], s[0])
        {
          assert rest[j] in multiset(rest);
          if rest[j] != x {
            assert rest[j] in multiset(s[1..]);
            var k :| 0 <= k < |s[1..]| && s[1..][k] == rest[j];
            assert s[1..][k] == s[k + 1];
          }
        }
      } else {
        forall j | 0 <= j < |s|
          ensures !less(s[j], x)
        {
          assert j == 0 || !less(s[j], s[0]);
        }
      }
    }
  }

  lemma {:induction false} SortSorts<T(!new)>(less: (T, T) -> bool, s: seq<T>)
    requires WeakOrder(less)
    ensures Sorted(less, Sort(less, s))
  {
    if s != [] {
      SortSorts(less, s[1..]);
      InsertSorts(less, s[0], Sort(less, s[1..]));
    }
  }

  lemma SortedHeads<T>(less: (T, T) -> bool, s: seq<T>, t: seq<T>)
    requires Sorted(less, s) && Sorted(less, t) && multiset(s) == multiset(t) && Separates(less, s)
    requires s != [] && t != []
    ensures s[0] == t[0]
  {
    assert s[0] in multiset(t) && t[0] in multiset(s);
    var i :| 0 <= i < |t| && t[i] == s[0];
    var j :| 0 <= j < |s| && s[j] == t[0];
  }

  lemma SortedTail<T>(less: (T, T) -> bool, s: seq<T>)
    requires s != [] && Sorted(less, s)
    ensures Sorted(less, s[1..])
    ensures Separates(less, s) ==> Separates(less, s[1..])
    ensures multiset(s[1..]) == multiset(s) - multiset{s[0]}
  {
    var u := s[1..];
    assert s == [s[0]] + u;
    assert forall i :: 0 <= i < |u| ==> u[i] == s[i + 1];
  }

  lemma {:induction false} SortedUnique<T>(less: (T, T) -> bool, s: seq<T>, t: seq<T>)
    requires Sorted(less, s) && Sorted(less, t) && multiset(s) == multiset(t) && Separates(less, s)
    ensures s == t
  {
    assert |s| == |multiset(s)| == |multiset(t)| == |t|;
    hide Sorted, Separates;
    if s != [] {
      SortedHeads(less, s, t);
      SortedTail(less, s);
      SortedTail(less, t);
      var a, b := s[1..], t[1..];
      assert multiset(a) == multiset(b);
      SortedUnique(less, a, b);
      SameParts(s, t);
    }
  }

  lemma SameParts<T>(s: seq<T>, t: seq<T>)
    requires s != [] && t != [] && s[0] == t[0] && s[1..] == t[1..]
    ensures s == t
  {
    assert s == [s[0]] + s[1..] && t == [t[0]] + t[1..];
  }

  /** Sorting forgets the order of its input. */
  lemma SortIgnoresOrder<T(!new)>(less: (T, T) -> bool, s: seq<T>, t: seq<T>)
    requires WeakOrder(less) && Separates(less, s) && multiset(s) == multiset(t)
    ensures Sort(less, s) == Sort(less, t)
  {
    SortSorts(less, s);
    SortSorts(less, t);
    SortPermutes(less, s);
    SortPermutes(less, t);
    var u := Sort(less, s);
    assert Separates(less, u) by {
      forall i, j | 0 <= i < |u| && 0 <= j < |u| && u[i] != u[j]
        ensures less(u[i], u[j]) || less(u[j], u[i])
      {
        assert u[i] in multiset(s) && u[j] in multiset(s);
        var a :| 0 <= a < |s| && s[a] == u[i];
        var b :| 0 <= b < |s| && s[b] == u[j];
        assert s[a] != s[b];
      }
    }
    SortedUnique(less, u, Sort(less, t));
  }

  function RemoveAt<T>(s: seq<T>, j: nat): (t: seq<T>)
    requires j < |s|
    ensures |t| == |s| - 1
  {
    s[..j] + s[j + 1..]
  }

  lemma RemoveCounts<T>(s: seq<T>, j: nat)
    requires j < |s|
    ensures multiset(s) == multiset(RemoveAt(s, j)) + multiset{s[j]}
    ensures multiset(RemoveAt(s, j)) == multiset(s) - multiset{s[j]}
  {
    assert s == s[..j] + [s[j]] + s[j + 1..];
  }

  /** Permutations of each other have a common element wherever one has an element. */
  lemma FindIn<T>(s: seq<T>, t: seq<T>, i: nat) returns (j: nat)
    requires i < |s| && multiset(s) == multiset(t)
    ensures j < |t| && t[j] == s[i]
  {
    assert s[i] in multiset(t);
    j :| 0 <= j < |t| && t[j] == s[i];
  }

  /** Sorting commutes with a change of the elements that the order does not see. */
  lemma {:induction false} SortMaps<T, U>(less: (T, T) -> bool, under: (U, U) -> bool, f: T -> U, s: seq<T>)
    requires forall a, b :: under(f(a), f(b)) == less(a, b)
    ensures Sort(under, Mapped(f, s)) == Mapped(f, Sort(less, s))
  {
    if s != [] {
      assert Mapped(f, s)[1..] == Mapped(f, s[1..]);
      SortMaps(less, under, f, s[1..]);
      InsertMaps(less, under, f, s[0], Sort(less, s[1..]));
    }
  }

  function Mapped<T, U>(f: T -> U, s: seq<T>): seq<U> { seq(|s|, i requires 0 <= i < |s| => f(s[i])) }

  lemma {:induction false} InsertMaps<T, U>(less: (T, T) -> bool, under: (U, U) -> bool, f: T -> U, x: T, s: seq<T>)
    requires forall a, b :: under(f(a), f(b)) == less(a, b)
    ensures Insert(under, f(x), Mapped(f, s)) == Mapped(f, Insert(less, x, s))
  {
    if s == [] {
      assert Mapped(f, [x]) == [f(x)];
    } else {
      assert Mapped(f, s)[1..] == Mapped(f, s[1..]);
      InsertMaps(less, under, f, x, s[1..]);
      assert Mapped(f, [x] + s) == [f(x)] + Mapped(f, s);
      assert Mapped(f, [s[0]] + Insert(less, x, s[1..])) == [f(s[0])] + Mapped(f, Insert(less, x, s[1..]));
    }
  }

  // ---- Repetitions ------------------------------------------------------------------------

  lemma TwiceInMultiset<T>(s: seq<T>, x: T, i: nat, j: nat)
    requires i < j < |s| && s[i] == x && s[j] == x
    ensures multiset(s)[x] >= 2
  {
    assert s == s[..j] + [s[j]] + s[j + 1..];
    assert s[..j][i] == x;
    assert x in multiset(s[..j]);
  }

  lemma {:induction false} TwiceInSequence<T>(s: seq<T>, x: T) returns (i: nat, j: nat)
    requires multiset(s)[x] >= 2
    ensures i < j < |s| && s[i] == x && s[j] == x
  {
    var last := |s| - 1;
    assert s == s[..last] + [s[last]];
    if s[last] == x {
      assert x in multiset(s[..last]);
      i :| 0 <= i < last && s[..last][i] == x;
      j := last;
    } else {
      i, j := TwiceInSequence(s[..last], x);
    }
  }

  ghost predicate Distinct<T>(s: seq<T>) { forall i, j :: 0 <= i < j < |s| ==> s[i] != s[j] }

  lemma DistinctPermutes<T>(s: seq<T>, t: seq<T>)
    requires multiset(s) == multiset(t) && Distinct(s)
    ensures Distinct(t)
  {
    forall i, j | 0 <= i < j < |t|
      ensures t[i] != t[j]
    {
      if t[i] == t[j] {
        TwiceInMultiset(t, t[i], i, j);
        var a, b := TwiceInSequence(s, t[i]);
        assert false;
      }
    }
  }

  // ---- Strings ----------------------------------------------------------------------------

  lemma StringsAreOrdered()
    ensures WeakOrder(StringLess)
  {
    forall a, b | StringLess(a, b)
      ensures !StringLess(b, a)
    {
      StringLessTotal(a, b);
    }
    forall a, b, c | !StringLess(b, a) && !StringLess(c, b)
      ensures !StringLess(c, a)
    {
      StringLessTotal(a, b);
      StringLessTotal(b, c);
      StringLessTotal(a, c);
      if a != b && b != c { StringLessTransitive(a, b, c); }
    }
  }

  lemma StringsSeparate(s: seq<string>)
    ensures Separates(StringLess, s)
  {
    hide StringLess;
    forall i, j | 0 <= i < |s| && 0 <= j < |s| && s[i] != s[j]
      ensures StringLess(s[i], s[j]) || StringLess(s[j], s[i])
    {
      StringLessTotal(s[i], s[j]);
    }
  }

  // ---- Halving search ---------------------------------------------------------------------

  /** Where halving the range ends up; on a sorted range, the first element that is not below `x`. */
  function SearchFrom(s: seq<string>, x: string, first: nat, length: nat): (i: nat)
    requires first + length <= |s|
    ensures first <= i <= first + length
    decreases length
  {
    if length == 0 then first
    else
      var half := length / 2;
      if StringLess(s[first + half], x) then SearchFrom(s, x, first + half + 1, length - half - 1)
      else SearchFrom(s, x, first, half)
  }

  predicate Finds(s: seq<string>, x: string) {
    var i := SearchFrom(s, x, 0, |s|);
    i < |s| && !StringLess(x, s[i])
  }

  lemma {:induction false} SearchSplits(s: seq<string>, x: string, first: nat, length: nat)
    requires first + length <= |s| && Sorted(StringLess, s)
    ensures
      var i := SearchFrom(s, x, first, length);
      && (forall j :: first <= j < i ==> StringLess(s[j], x))
      && (forall j :: i <= j < first + length ==> !StringLess(s[j], x))
    decreases length
  {
    hide StringLess, Sorted;
    if length > 0 {
      var half := length / 2;
      var middle := first + half;
      if StringLess(s[middle], x) {
        SearchSplits(s, x, middle + 1, length - half - 1);
        forall j | first <= j < middle ensures StringLess(s[j], x) { BelowMiddle(s, x, j, middle); }
      } else {
        SearchSplits(s, x, first, half);
        forall j | middle < j < first + length ensures !StringLess(s[j], x) { if StringLess(s[j], x) { BelowMiddle(s, x, middle, j); } }
      }
    }
  }

  lemma BelowMiddle(s: seq<string>, x: string, j: nat, k: nat)
    requires Sorted(StringLess, s) && j < k < |s| && StringLess(s[k], x)
    ensures StringLess(s[j], x)
  {
    hide StringLess;
    StringLessTotal(s[j], s[k]);
    if s[j] != s[k] { StringLessTransitive(s[j], s[k], x); }
  }

  /** On a sorted list the search finds exactly the members. */
  lemma FindsMembers(s: seq<string>, x: string)
    requires Sorted(StringLess, s)
    ensures Finds(s, x) <==> x in s
  {
    hide StringLess, SearchFrom;
    var i := SearchFrom(s, x, 0, |s|);
    SearchSplits(s, x, 0, |s|);
    if x in s {
      var j :| 0 <= j < |s| && s[j] == x;
      StringLessTotal(x, x);
      assert i <= j && (i < j ==> !StringLess(s[j], s[i]));
    }
    if Finds(s, x) { StringLessTotal(s[i], x); }
  }
}
