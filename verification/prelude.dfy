/** Small facts about sequences, sets and strings that the model relies on. */
module Prelude {

  datatype Option<+T> = None | Some(value: T)

  function Max(a: int, b: int): int {
    if a < b then b else a
  }

  /** 1 if it is so, for counting. */
  function One(b: bool): nat {
    if b then 1 else 0
  }

  /** Go's conversion of a floating-point value to an integer: towards zero. */
  function Truncate(x: real): int {
    if x < 0.0 then -((-x).Floor) else x.Floor
  }

  ghost predicate NoDup<T(!new)>(q: seq<T>) {
    forall i, j :: 0 <= i < j < |q| ==> q[i] != q[j]
  }

  ghost function Elements<T(!new)>(q: seq<T>): set<T> {
    set x | x in q
  }

  /** `q` lists exactly the members of `s`, each once. */
  ghost predicate Enumerates<T(!new)>(q: seq<T>, s: set<T>) {
    NoDup(q) && forall x :: x in q <==> x in s
  }

  /** Some listing of a set. */
  ghost function Listing<T(!new)>(s: set<T>): (q: seq<T>)
    ensures Enumerates(q, s)
  {
    if s == {} then []
    else
      var x :| x in s;
      [x] + Listing(s - {x})
  }

  lemma SubsetCardinality<T>(a: set<T>, b: set<T>)
    requires a <= b
    ensures |a| <= |b|
    ensures |a| == |b| ==> a == b
  {
    assert b == a + (b - a);
  }

  /** Pigeonhole: a sequence has as many members as positions only if it repeats nothing. */
  lemma {:induction false} Pigeonhole<T(!new)>(q: seq<T>)
    ensures |Elements(q)| <= |q|
    ensures |Elements(q)| == |q| <==> NoDup(q)
  {
    if q != [] {
      var front, last := q[..|q| - 1], q[|q| - 1];
      Pigeonhole(front);
      assert q == front + [last];
      assert Elements(q) == Elements(front) + {last};
      if last in front {
        assert Elements(q) == Elements(front);
        var i :| 0 <= i < |front| && front[i] == last;
        assert q[i] == q[|q| - 1];
      } else if NoDup(front) {
        assert NoDup(q);
      } else {
        var i, j :| 0 <= i < j < |front| && front[i] == front[j];
        assert q[i] == q[j];
      }
    }
  }

  lemma EnumerationSize<T(!new)>(q: seq<T>, s: set<T>)
    requires Enumerates(q, s)
    ensures |q| == |s|
  {
    Pigeonhole(q);
    assert Elements(q) == s;
  }

  // Byte-wise string order, as the standard sort of strings uses it.

  predicate AtMost(a: string, b: string) {
    a == "" || (b != "" && (a[0] < b[0] || (a[0] == b[0] && AtMost(a[1..], b[1..]))))
  }

  lemma {:induction false} AtMostTotal(a: string, b: string)
    ensures AtMost(a, b) || AtMost(b, a)
  {
    if a != "" && b != "" && a[0] == b[0] {
      AtMostTotal(a[1..], b[1..]);
    }
  }

  lemma {:induction false} AtMostAntisymmetric(a: string, b: string)
    requires AtMost(a, b) && AtMost(b, a)
    ensures a == b
  {
    if a != "" && b != "" {
      AtMostAntisymmetric(a[1..], b[1..]);
      assert a == [a[0]] + a[1..] && b == [b[0]] + b[1..];
    }
  }

  lemma {:induction false} AtMostTransitive(a: string, b: string, c: string)
    requires AtMost(a, b) && AtMost(b, c)
    ensures AtMost(a, c)
  {
    if a != "" && a[0] == b[0] == c[0] {
      AtMostTransitive(a[1..], b[1..], c[1..]);
    }
  }

  ghost predicate Sorted(q: seq<string>) {
    forall i, j :: 0 <= i < j < |q| ==> AtMost(q[i], q[j])
  }

  function Insert(x: string, q: seq<string>): (r: seq<string>)
    ensures multiset(r) == multiset(q) + multiset{x}
  {
    if q == [] then [x]
    else if AtMost(x, q[0]) then [x] + q
    else
      assert q == [q[0]] + q[1..];
      [q[0]] + Insert(x, q[1..])
  }

  /** The library sort, `sort.Strings`: the same strings in ascending order. */
  function SortStrings(q: seq<string>): (r: seq<string>)
    ensures multiset(r) == multiset(q)
  {
    if q == [] then []
    else
      assert q == [q[0]] + q[1..];
      Insert(q[0], SortStrings(q[1..]))
  }

  lemma {:induction false} InsertSorted(x: string, q: seq<string>)
    requires Sorted(q)
    ensures Sorted(Insert(x, q))
  {
    if q == [] {
    } else if AtMost(x, q[0]) {
      forall j | 0 <= j < |q| ensures AtMost(x, q[j]) {
        AtMostTransitive(x, q[0], q[j]) by {
          assert AtMost(q[0], q[j]) by { AtMostTotal(q[0], q[0]); }
        }
      }
    } else {
      var r := Insert(x, q[1..]);
      InsertSorted(x, q[1..]);
      AtMostTotal(x, q[0]);
      forall j | 0 <= j < |r| ensures AtMost(q[0], r[j]) {
        assert r[j] in multiset(r);
        if r[j] != x {
          assert r[j] in multiset(q[1..]);
        }
      }
    }
  }

  lemma {:induction false} SortIsSorted(q: seq<string>)
    ensures Sorted(SortStrings(q))
  {
    if q != [] {
      SortIsSorted(q[1..]);
      InsertSorted(q[0], SortStrings(q[1..]));
    }
  }

  lemma FirstIsLeast(q: seq<string>, x: string)
    requires Sorted(q) && x in q
    ensures AtMost(q[0], x)
  {
    var i :| 0 <= i < |q| && q[i] == x;
    AtMostTotal(x, x);
  }

  lemma SplitFirst<T>(q: seq<T>)
    requires q != []
    ensures q == [q[0]] + q[1..] && multiset(q[1..]) == multiset(q) - multiset{q[0]}
  {
    assert q == [q[0]] + q[1..];
  }

  /** Two ascending sequences over the same strings are the same sequence. */
  lemma {:induction false} SortedUnique(a: seq<string>, b: seq<string>)
    requires Sorted(a) && Sorted(b) && multiset(a) == multiset(b)
    ensures a == b
  {
    hide AtMost;
    assert |a| == |multiset(a)| == |multiset(b)| == |b|;
    if a != [] {
      assert a[0] in multiset(b) && b[0] in multiset(a);
      FirstIsLeast(a, b[0]);
      FirstIsLeast(b, a[0]);
      AtMostAntisymmetric(a[0], b[0]);
      SplitFirst(a);
      SplitFirst(b);
      SortedUnique(a[1..], b[1..]);
    }
  }

  /** Sorting does not depend on the order in which a set of strings was listed. */
  lemma SortOfListing(a: seq<string>, b: seq<string>)
    requires NoDup(a) && NoDup(b) && Elements(a) == Elements(b)
    ensures SortStrings(a) == SortStrings(b)
    ensures NoDup(SortStrings(a)) && Elements(SortStrings(a)) == Elements(a)
  {
    ListingMultiset(a);
    ListingMultiset(b);
    SortIsSorted(a);
    SortIsSorted(b);
    SortedUnique(SortStrings(a), SortStrings(b));
    var r := SortStrings(a);
    forall x ensures x in r <==> x in a {
      assert x in multiset(r) <==> x in multiset(a);
    }
    assert |r| == |multiset(r)| == |multiset(a)| == |a|;
    Pigeonhole(a);
    assert Elements(r) == Elements(a);
    Pigeonhole(r);
  }

  lemma {:induction false} ListingMultiset<T(!new)>(q: seq<T>)
    requires NoDup(q)
    ensures multiset(q) == multiset(Elements(q))
  {
    if q != [] {
      var front, last := q[..|q| - 1], q[|q| - 1];
      assert q == front + [last];
      ListingMultiset(front);
      assert Elements(q) == Elements(front) + {last};
      assert last !in front;
    }
  }
}
