/** Python's order on strings, and sorting by a key order. */
module Ordering {
  /** Lexicographic by code point. */
  predicate StringLe(a: string, b: string) {
    a == "" || (b != "" && (a[0] < b[0] || (a[0] == b[0] && StringLe(a[1..], b[1..]))))
  }

  lemma {:induction false} StringLeTotal(a: string, b: string)
    ensures StringLe(a, b) || StringLe(b, a)
    ensures StringLe(a, b) && StringLe(b, a) ==> a == b
  {
    if a != "" && b != "" && a[0] == b[0] {
      StringLeTotal(a[1..], b[1..]);
      assert a == [a[0]] + a[1..] && b == [b[0]] + b[1..];
    }
  }

  lemma {:induction false} StringLeTransitive(a: string, b: string, c: string)
    requires StringLe(a, b) && StringLe(b, c)
    ensures StringLe(a, c)
  {
    if a != "" && a[0] == b[0] && b[0] == c[0] {
      StringLeTransitive(a[1..], b[1..], c[1..]);
    }
  }

  /** Any two elements compare, and comparisons chain. */
  ghost predicate TotalOrder<T(!new)>(le: (T, T) -> bool) {
    && (forall x, y :: le(x, y) || le(y, x))
    && (forall x, y, z :: le(x, y) && le(y, z) ==> le(x, z))
  }

  predicate SortedBy<T>(le: (T, T) -> bool, s: seq<T>) {
    forall i, j :: 0 <= i < j < |s| ==> le(s[i], s[j])
  }

  /** Stable: an element goes after the ones it does not precede. */
  function Insert<T>(le: (T, T) -> bool, x: T, s: seq<T>): (r: seq<T>)
    ensures multiset(r) == multiset(s) + multiset{x}
  {
    if s == [] then [x]
    else if le(x, s[0]) then [x] + s
    else
      assert s == [s[0]] + s[1..];
      [s[0]] + Insert(le, x, s[1..])
  }

  /** `sorted(s, key=...)` for the order of the keys. */
  function Sort<T>(le: (T, T) -> bool, s: seq<T>): (r: seq<T>)
    ensures multiset(r) == multiset(s)
  {
    if s == [] then []
    else
      assert s == [s[0]] + s[1..];
      Insert(le, s[0], Sort(le, s[1..]))
  }

  lemma {:induction false} InsertSorted<T(!new)>(le: (T, T) -> bool, x: T, s: seq<T>)
    requires TotalOrder(le) && SortedBy(le, s)
    ensures SortedBy(le, Insert(le, x, s))
  {
    if s != [] && !le(x, s[0]) {
      var tail := s[1..];
      InsertSorted(le, x, tail);
      var r := Insert(le, x, tail);
      forall j | 0 <= j < |r|
        ensures le(s[0], r[j])
      {
        assert r[j] in multiset(r);
        if r[j] != x {
          assert r[j] in multiset(tail);
          var i :| 0 <= i < |tail| && tail[i] == r[j];
          assert s[i + 1] == r[j];
        }
      }
    }
  }

  lemma {:induction false} SortSorts<T(!new)>(le: (T, T) -> bool, s: seq<T>)
    requires TotalOrder(le)
    ensures SortedBy(le, Sort(le, s))
  {
    if s != [] {
      SortSorts(le, s[1..]);
      InsertSorted(le, s[0], Sort(le, s[1..]));
    }
  }

  lemma SortKeepsElements<T>(le: (T, T) -> bool, s: seq<T>, x: T)
    ensures x in Sort(le, s) <==> x in s
    ensures |Sort(le, s)| == |s|
  {
    assert x in Sort(le, s) <==> x in multiset(Sort(le, s));
    assert x in s <==> x in multiset(s);
    assert |multiset(Sort(le, s))| == |multiset(s)|;
  }

  // ----- sorted(set of strings) -----

  predicate IsLeast(s: set<string>, m: string) {
    m in s && forall x :: x in s ==> StringLe(m, x)
  }

  lemma {:induction false} LeastExists(s: set<string>)
    requires s != {}
    ensures exists m :: IsLeast(s, m)
    decreases s
  {
    hide StringLe;
    var x :| x in s;
    StringLeTotal(x, x);
    if s - {x} == {} {
      assert s == {x};
      assert IsLeast(s, x);
    } else {
      LeastExists(s - {x});
      var m :| IsLeast(s - {x}, m);
      StringLeTotal(m, x);
      var least := if StringLe(m, x) then m else x;
      forall y | y in s ensures StringLe(least, y) {
        if y != x && least == x { StringLeTransitive(x, m, y); }
      }
      assert IsLeast(s, least);
    }
  }

  lemma LeastIsUnique(s: set<string>, a: string, b: string)
    requires IsLeast(s, a) && IsLeast(s, b)
    ensures a == b
  {
    StringLeTotal(a, b);
  }

  function Least(s: set<string>): (m: string)
    requires s != {}
    ensures IsLeast(s, m)
  {
    LeastExists(s);
    assert forall a, b | IsLeast(s, a) && IsLeast(s, b) :: a == b by {
      forall a, b | IsLeast(s, a) && IsLeast(s, b) ensures a == b { LeastIsUnique(s, a, b); }
    }
    var m :| IsLeast(s, m);
    m
  }

  /** `sorted(s)` */
  function SortedSet(s: set<string>): (r: seq<string>)
    ensures forall x :: x in r <==> x in s
    ensures |r| == |s|
    decreases s
  {
    if s == {} then [] else [Least(s)] + SortedSet(s - {Least(s)})
  }

  /** Sorted, and no element twice. */
  predicate Ascending(s: seq<string>) {
    forall i, j :: 0 <= i < j < |s| ==> StringLe(s[i], s[j]) && s[i] != s[j]
  }

  lemma AscendingFrom(m: string, tail: seq<string>)
    requires Ascending(tail)
    requires forall x :: x in tail ==> StringLe(m, x) && m != x
    ensures Ascending([m] + tail)
  {
    hide StringLe;
    var s := [m] + tail;
    forall i, j | 0 <= i < j < |s| ensures StringLe(s[i], s[j]) && s[i] != s[j] {
      assert s[j] == tail[j - 1];
      if i == 0 { assert tail[j - 1] in tail; } else { assert s[i] == tail[i - 1]; }
    }
  }

  lemma {:induction false} SortedSetAscends(s: set<string>)
    ensures Ascending(SortedSet(s))
    decreases s
  {
    hide StringLe, Ascending;
    if s == {} {
      NothingAscends();
    } else {
      SortedSetAscends(s - {Least(s)});
      AscendingFrom(Least(s), SortedSet(s - {Least(s)}));
    }
  }

  lemma NothingAscends()
    ensures Ascending([])
  {
  }
}
