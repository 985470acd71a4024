/** Byte-wise string order and the sort used to put rows into canonical order.
    Go's sort.Slice is unstable; SortIgnoresOrder shows that the result does not depend on
    that wherever the compared keys tell the rows apart. */
module Ordering {

  /** The order of Go's string comparison. */
  predicate LexLe(a: string, b: string)
  {
    a == [] || (b != [] && (a[0] < b[0] || (a[0] == b[0] && LexLe(a[1..], b[1..]))))
  }

  lemma {:induction false} LexTotal(a: string, b: string)
    ensures LexLe(a, b) || LexLe(b, a)
  {
    if a != [] && b != [] && a[0] == b[0] {
      LexTotal(a[1..], b[1..]);
    }
  }

  lemma {:induction false} LexTransitive(a: string, b: string, c: string)
    requires LexLe(a, b) && LexLe(b, c)
    ensures LexLe(a, c)
  {
    if a != [] && a[0] == b[0] && b[0] == c[0] {
      LexTransitive(a[1..], b[1..], c[1..]);
    }
  }

  lemma {:induction false} LexAntisymmetric(a: string, b: string)
    requires LexLe(a, b) && LexLe(b, a)
    ensures a == b
  {
    if a != [] {
      LexAntisymmetric(a[1..], b[1..]);
      assert a == [a[0]] + a[1..] && b == [b[0]] + b[1..];
    }
  }

  /** Lexicographic order on a pair of keys. */
  predicate Lex2Le(a: (string, string), b: (string, string))
  {
    if a.0 == b.0 then LexLe(a.1, b.1) else LexLe(a.0, b.0)
  }

  lemma Lex2Laws(a: (string, string), b: (string, string), c: (string, string))
    ensures Lex2Le(a, b) || Lex2Le(b, a)
    ensures Lex2Le(a, b) && Lex2Le(b, c) ==> Lex2Le(a, c)
    ensures Lex2Le(a, b) && Lex2Le(b, a) ==> a == b
  {
    LexTotal(a.0, b.0);
    LexTotal(a.1, b.1);
    if Lex2Le(a, b) && Lex2Le(b, a) {
      if a.0 != b.0 { LexAntisymmetric(a.0, b.0); }
      LexAntisymmetric(a.1, b.1);
    }
    if Lex2Le(a, b) && Lex2Le(b, c) {
      if a.0 == b.0 && b.0 == c.0 {
        LexTransitive(a.1, b.1, c.1);
      } else if a.0 == c.0 {
        LexAntisymmetric(a.0, b.0);
      } else if a.0 != b.0 && b.0 != c.0 {
        LexTransitive(a.0, b.0, c.0);
      }
    }
  }

  ghost predicate TotalPreorder<T(!new)>(le: (T, T) -> bool)
  {
    && (forall x, y :: le(x, y) || le(y, x))
    && (forall x, y, z :: le(x, y) && le(y, z) ==> le(x, z))
  }

  /** The key that le compares tells the elements of s apart. */
  ghost predicate Distinguishes<T>(le: (T, T) -> bool, s: seq<T>)
  {
    forall x, y :: x in s && y in s && le(x, y) && le(y, x) ==> x == y
  }

  ghost predicate Sorted<T>(le: (T, T) -> bool, s: seq<T>)
  {
    forall i, j :: 0 <= i < j < |s| ==> le(s[i], s[j])
  }

  function Insert<T>(le: (T, T) -> bool, x: T, s: seq<T>): (r: seq<T>)
    ensures |r| == |s| + 1
  {
    if s == [] then [x]
    else if le(x, s[0]) then [x] + s
    else [s[0]] + Insert(le, x, s[1..])
  }

  function Sort<T>(le: (T, T) -> bool, s: seq<T>): (r: seq<T>)
    ensures |r| == |s|
  {
    if s == [] then [] else Insert(le, s[0], Sort(le, s[1..]))
  }

  lemma {:induction false} InsertKeeps<T>(le: (T, T) -> bool, x: T, s: seq<T>)
    ensures multiset(Insert(le, x, s)) == multiset{x} + multiset(s)
  {
    if s != [] {
      assert s == [s[0]] + s[1..];
      if !le(x, s[0]) { InsertKeeps(le, x, s[1..]); }
    }
  }

  lemma {:induction false} SortKeeps<T(!new)>(le: (T, T) -> bool, s: seq<T>)
    ensures multiset(Sort(le, s)) == multiset(s)
    ensures forall x :: x in Sort(le, s) <==> x in s
  {
    if s != [] {
      SortKeeps(le, s[1..]);
      InsertKeeps(le, s[0], Sort(le, s[1..]));
      assert s == [s[0]] + s[1..];
    }
    forall x ensures x in Sort(le, s) <==> x in s {
      assert x in s <==> x in multiset(s);
      assert x in Sort(le, s) <==> x in multiset(Sort(le, s));
    }
  }

  lemma {:induction false} InsertSorted<T(!new)>(le: (T, T) -> bool, x: T, s: seq<T>)
    requires TotalPreorder(le) && Sorted(le, s)
    ensures Sorted(le, Insert(le, x, s))
  {
    if s != [] && !le(x, s[0]) {
      InsertSorted(le, x, s[1..]);
      var r := Insert(le, x, s[1..]);
      InsertKeeps(le, x, s[1..]);
      forall k | 0 <= k < |r| ensures le(s[0], r[k]) {
        assert r[k] in multiset(r);
        assert r[k] == x || r[k] in s[1..];
      }
    } else if s != [] {
      forall k | 0 <= k < |s| ensures le(x, s[k]) { }
    }
  }

  lemma {:induction false} SortSorts<T(!new)>(le: (T, T) -> bool, s: seq<T>)
    requires TotalPreorder(le)
    ensures Sorted(le, Sort(le, s))
  {
    if s != [] {
      SortSorts(le, s[1..]);
      InsertSorted(le, s[0], Sort(le, s[1..]));
    }
  }

  /** Sorting what is already in order changes nothing. */
  lemma {:induction false} SortOfSorted<T>(le: (T, T) -> bool, s: seq<T>)
    requires Sorted(le, s)
    ensures Sort(le, s) == s
  {
    if s != [] {
      SortOfSorted(le, s[1..]);
      assert s == [s[0]] + s[1..];
    }
  }

  lemma SameFirst<T(!new)>(le: (T, T) -> bool, a: seq<T>, b: seq<T>)
    requires TotalPreorder(le) && Distinguishes(le, a) && a != [] && b != []
    requires Sorted(le, a) && Sorted(le, b) && a[0] in b && b[0] in a
    ensures a[0] == b[0]
  {
    var i :| 0 <= i < |b| && b[i] == a[0];
    var j :| 0 <= j < |a| && a[j] == b[0];
    assert le(a[0], a[0]) && le(b[0], b[0]);
    assert le(b[0], b[i]) && le(a[0], a[j]);
  }

  lemma RestOf<T>(s: seq<T>)
    requires s != []
    ensures s == [s[0]] + s[1..] && multiset(s[1..]) == multiset(s) - multiset{s[0]}
  {
    assert s == [s[0]] + s[1..];
  }

  lemma SortedRest<T>(le: (T, T) -> bool, s: seq<T>)
    requires Sorted(le, s) && s != []
    ensures Sorted(le, s[1..])
  {
  }

  lemma SameElements<T>(a: seq<T>, b: seq<T>)
    requires multiset(a) == multiset(b)
    ensures |a| == |b| && (a != [] ==> a[0] in b && b[0] in a)
  {
    assert |a| == |multiset(a)| == |multiset(b)| == |b|;
    if a != [] {
      assert a[0] in multiset(b) && b[0] in multiset(a);
    }
  }

  lemma {:induction false} SortedUnique<T(!new)>(le: (T, T) -> bool, a: seq<T>, b: seq<T>)
    requires TotalPreorder(le) && Distinguishes(le, a)
    requires Sorted(le, a) && Sorted(le, b) && multiset(a) == multiset(b)
    ensures a == b
  {
    hide Sorted, TotalPreorder;
    SameElements(a, b);
    if a != [] {
      SameFirst(le, a, b);
      RestOf(a);
      RestOf(b);
      SortedRest(le, a);
      SortedRest(le, b);
      SortedUnique(le, a[1..], b[1..]);
    }
  }

  /** Two arrangements of the same distinguishable rows sort to the same sequence. */
  lemma SortIgnoresOrder<T(!new)>(le: (T, T) -> bool, a: seq<T>, b: seq<T>)
    requires TotalPreorder(le) && Distinguishes(le, a) && multiset(a) == multiset(b)
    ensures Sort(le, a) == Sort(le, b)
  {
    SortSorts(le, a);
    SortSorts(le, b);
    SortKeeps(le, a);
    SortKeeps(le, b);
    SortedUnique(le, Sort(le, a), Sort(le, b));
  }

  lemma {:induction false} SortTwice<T(!new)>(le: (T, T) -> bool, s: seq<T>)
    requires TotalPreorder(le)
    ensures Sort(le, Sort(le, s)) == Sort(le, s)
  {
    SortSorts(le, s);
    SortOfSorted(le, Sort(le, s));
  }

  // ---- sequences without repetition ------------------------------------------------------------------

  ghost predicate Distinct<T>(s: seq<T>) { forall i, j :: 0 <= i < j < |s| ==> s[i] != s[j] }

  lemma {:induction false} DistinctOnce<T>(s: seq<T>, x: T)
    requires Distinct(s)
    ensures multiset(s)[x] <= 1
  {
    if s != [] {
      DistinctOnce(s[1..], x);
      RestOf(s);
      if s[0] == x { assert x !in s[1..]; }
    }
  }

  lemma OnceDistinct<T(!new)>(s: seq<T>)
    requires forall x :: multiset(s)[x] <= 1
    ensures Distinct(s)
  {
    forall i, j | 0 <= i < j < |s| ensures s[i] != s[j] {
      assert s == s[..j] + [s[j]] + s[j + 1..];
      assert multiset(s)[s[j]] == multiset(s[..j])[s[j]] + 1 + multiset(s[j + 1..])[s[j]];
      assert s[j] !in multiset(s[..j]);
      assert s[i] == s[..j][i] && s[i] in s[..j];
    }
  }

  lemma SortDistinct<T(!new)>(le: (T, T) -> bool, s: seq<T>)
    requires Distinct(s)
    ensures Distinct(Sort(le, s))
  {
    hide Sort, Distinct;
    SortKeeps(le, s);
    forall x ensures multiset(Sort(le, s))[x] <= 1 { DistinctOnce(s, x); }
    OnceDistinct(Sort(le, s));
  }

  predicate NatLe(a: nat, b: nat) { a <= b }

  predicate Ascends(s: seq<nat>) { forall i, j :: 0 <= i < j < |s| ==> s[i] < s[j] }

  /** Sorting distinct numbers puts them in strictly ascending order. */
  lemma SortAscends(s: seq<nat>)
    requires Distinct(s)
    ensures Ascends(Sort<nat>(NatLe, s)) && forall x: nat :: x in Sort<nat>(NatLe, s) <==> x in s
  {
    SortSorts<nat>(NatLe, s);
    SortKeeps<nat>(NatLe, s);
    SortDistinct<nat>(NatLe, s);
    var t := Sort<nat>(NatLe, s);
    forall i, j | 0 <= i < j < |t| ensures t[i] < t[j] { assert NatLe(t[i], t[j]); }
  }
}
