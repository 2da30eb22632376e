/**
 * Stable sorting, as Python's `sorted` does it, and the code-point order on strings.
 *
 * The order is a parameter, any total preorder. Inserting each element before the first that is not below it keeps
 * equal elements in the order in which they came, which is what makes sorting by one key after another meaningful: the
 * later sort decides, and within its ties the earlier one.
 */
module Ordering {

  ghost predicate TotalPreorder<T(!new)>(le: (T, T) -> bool) {
    && (forall x, y :: le(x, y) || le(y, x))
    && (forall x, y, z :: le(x, y) && le(y, z) ==> le(x, z))
  }

  ghost predicate Ordered<T>(le: (T, T) -> bool, s: seq<T>) {
    forall i, j :: 0 <= i < j < |s| ==> le(s[i], s[j])
  }

  /** Places x before the first element that is not strictly smaller. */
  function Insert<T>(le: (T, T) -> bool, x: T, s: seq<T>): (r: seq<T>)
    ensures |r| == |s| + 1
    ensures multiset(r) == multiset(s) + multiset{x}
  {
    if s == [] then [x]
    else if le(x, s[0]) then [x] + s
    else
      assert s == [s[0]] + s[1..];
      [s[0]] + Insert(le, x, s[1..])
  }

  /** The stable sort of s: equal keys keep the order they had in s. */
  function StableSort<T>(le: (T, T) -> bool, s: seq<T>): (r: seq<T>)
    ensures |r| == |s|
    ensures multiset(r) == multiset(s)
  {
    if s == [] then []
    else
      assert s == [s[0]] + s[1..];
      Insert(le, s[0], StableSort(le, s[1..]))
  }

  lemma SameMultisetSameMembers<T>(s: seq<T>, t: seq<T>)
    requires multiset(s) == multiset(t)
    ensures forall x :: x in s <==> x in t
  {
    forall x ensures x in s <==> x in t {
      assert x in s <==> x in multiset(s);
      assert x in t <==> x in multiset(t);
    }
  }

  /** `SortsStably`: sorted, and ties in the result respect the order `earlier` the input already had. */
  ghost predicate SortsStably<T>(le: (T, T) -> bool, earlier: (T, T) -> bool, r: seq<T>) {
    forall i, j :: 0 <= i < j < |r| ==> le(r[i], r[j]) && (le(r[j], r[i]) ==> earlier(r[i], r[j]))
  }

  lemma InsertMembers<T>(le: (T, T) -> bool, x: T, s: seq<T>)
    ensures forall y :: y in Insert(le, x, s) <==> y == x || y in s
  {
    forall y ensures y in Insert(le, x, s) <==> y == x || y in s {
      assert y in Insert(le, x, s) <==> y in multiset(s) + multiset{x};
    }
  }

  lemma {:induction false} InsertSortsStably<T(!new)>(le: (T, T) -> bool, earlier: (T, T) -> bool, x: T, s: seq<T>)
    requires TotalPreorder(le)
    requires SortsStably(le, earlier, s)
    requires forall y :: y in s ==> earlier(x, y)
    ensures SortsStably(le, earlier, Insert(le, x, s))
  {
    var r := Insert(le, x, s);
    if s == [] {
    } else if le(x, s[0]) {
      forall i, j | 0 <= i < j < |r|
        ensures le(r[i], r[j]) && (le(r[j], r[i]) ==> earlier(r[i], r[j]))
      {
        if i == 0 { assert le(x, s[0]) && (j == 1 || le(s[0], s[j - 1])); }
      }
    } else {
      InsertSortsStably(le, earlier, x, s[1..]);
      InsertMembers(le, x, s[1..]);
      forall j | 1 <= j < |r|
        ensures le(s[0], r[j]) && (le(r[j], s[0]) ==> earlier(s[0], r[j]))
      {
        assert r[j] in Insert(le, x, s[1..]);
        if r[j] != x {
          var k :| 1 <= k < |s| && s[k] == r[j];
        }
      }
    }
  }

  /** A stable sort of an input that is ordered by `earlier` breaks every tie by `earlier`. */
  lemma {:induction false} StableSortIsStable<T(!new)>(le: (T, T) -> bool, earlier: (T, T) -> bool, s: seq<T>)
    requires TotalPreorder(le)
    requires Ordered(earlier, s)
    ensures SortsStably(le, earlier, StableSort(le, s))
  {
    if s == [] {
    } else {
      StableSortIsStable(le, earlier, s[1..]);
      SameMultisetSameMembers(s[1..], StableSort(le, s[1..]));
      InsertSortsStably(le, earlier, s[0], StableSort(le, s[1..]));
    }
  }

  lemma StableSortOrdered<T(!new)>(le: (T, T) -> bool, s: seq<T>)
    requires TotalPreorder(le)
    ensures Ordered(le, StableSort(le, s))
  {
    StableSortIsStable(le, (x, y) => true, s);
  }

  lemma HeadIsLeast<T>(lt: (T, T) -> bool, s: seq<T>)
    requires s != [] && Ordered(lt, s)
    ensures forall x :: x in s <==> x == s[0] || x in s[1..]
    ensures forall x :: x in s[1..] ==> lt(s[0], x)
  {
    assert s == [s[0]] + s[1..];
  }

  /** A list in strictly increasing order is determined by its members. */
  lemma {:induction false} StrictlyOrderedUnique<T(!new)>(lt: (T, T) -> bool, s: seq<T>, t: seq<T>)
    requires forall x :: !lt(x, x)
    requires forall x, y, z :: lt(x, y) && lt(y, z) ==> lt(x, z)
    requires Ordered(lt, s) && Ordered(lt, t)
    requires forall x :: x in s <==> x in t
    ensures s == t
  {
    assert s != [] ==> s[0] in s;
    assert t != [] ==> t[0] in t;
    if s != [] {
      HeadIsLeast(lt, s);
      HeadIsLeast(lt, t);
      assert s[0] == t[0];
      assert forall x :: x in s[1..] ==> x != s[0];
      assert forall x :: x in t[1..] ==> x != t[0];
      StrictlyOrderedUnique(lt, s[1..], t[1..]);
      assert s == [s[0]] + s[1..] && t == [t[0]] + t[1..];
    }
  }

  // ---- Strings, compared code point by code point ----

  predicate LexLe(a: string, b: string) {
    a == [] || (b != [] && (a[0] < b[0] || (a[0] == b[0] && LexLe(a[1..], b[1..]))))
  }

  predicate LexLt(a: string, b: string) {
    LexLe(a, b) && a != b
  }

  lemma {:induction false} LexTotal(a: string, b: string)
    ensures LexLe(a, b) || LexLe(b, a)
  {
    if a != [] && b != [] { LexTotal(a[1..], b[1..]); }
  }

  lemma {:induction false} LexAntisymmetric(a: string, b: string)
    requires LexLe(a, b) && LexLe(b, a)
    ensures a == b
  {
    if a != [] && b != [] {
      LexAntisymmetric(a[1..], b[1..]);
      assert a == [a[0]] + a[1..] && b == [b[0]] + b[1..];
    }
  }

  lemma {:induction false} LexTransitive(a: string, b: string, c: string)
    requires LexLe(a, b) && LexLe(b, c)
    ensures LexLe(a, c)
  {
    if a != [] && a[0] == b[0] == c[0] { LexTransitive(a[1..], b[1..], c[1..]); }
  }

  lemma LexIsTotalPreorder()
    ensures TotalPreorder(LexLe)
  {
    forall a, b ensures LexLe(a, b) || LexLe(b, a) { LexTotal(a, b); }
    forall a, b, c | LexLe(a, b) && LexLe(b, c) ensures LexLe(a, c) { LexTransitive(a, b, c); }
  }
}
