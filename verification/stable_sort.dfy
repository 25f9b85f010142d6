/** `Array.prototype.sort` with a comparator, which the language guarantees to be
    stable. The comparator `a - b <= 0` of the source is modelled by a boolean
    "less than or equal" relation `le`; the sort is insertion sort, each element
    being placed before the first element it is `le` to, so that equal elements
    keep their input order. */
module StableSort {

  /** `le` is total and transitive (hence reflexive): a valid sort comparator. */
  ghost predicate TotalPreorder<T(!new)>(le: (T, T) -> bool) {
    && (forall a, b :: le(a, b) || le(b, a))
    && (forall a, b, c :: le(a, b) && le(b, c) ==> le(a, c))
  }

  ghost predicate Sorted<T>(s: seq<T>, le: (T, T) -> bool) {
    forall i, j :: 0 <= i < j < |s| ==> le(s[i], s[j])
  }

  /** `a` and `b` compare equal: the comparator returns 0 for them. */
  predicate Tied<T>(le: (T, T) -> bool, a: T, b: T) {
    le(a, b) && le(b, a)
  }

  /** The elements of `s` tied with `y`, in their order in `s`. A sort is stable
      exactly when it leaves every such tie class as it found it. */
  function Ties<T(!new)>(s: seq<T>, y: T, le: (T, T) -> bool): (r: seq<T>)
    ensures forall x :: x in r <==> x in s && Tied(le, x, y)
  {
    if |s| == 0 then []
    else if Tied(le, s[0], y) then [s[0]] + Ties(s[1..], y, le)
    else Ties(s[1..], y, le)
  }

  function Insert<T>(x: T, s: seq<T>, le: (T, T) -> bool): (r: seq<T>)
    ensures multiset(r) == multiset(s) + multiset{x}
  {
    if |s| == 0 then [x]
    else if le(x, s[0]) then [x] + s
    else
      assert s == [s[0]] + s[1..];
      [s[0]] + Insert(x, s[1..], le)
  }

  /** The stable sort of `s` under `le`: a permutation of `s`. */
  function SortBy<T>(s: seq<T>, le: (T, T) -> bool): (r: seq<T>)
    ensures multiset(r) == multiset(s)
    ensures |r| == |s|
  {
    if |s| == 0 then []
    else
      assert s == [s[0]] + s[1..];
      Insert(s[0], SortBy(s[1..], le), le)
  }

  lemma {:induction false} InsertSorted<T(!new)>(x: T, s: seq<T>, le: (T, T) -> bool)
    requires TotalPreorder(le)
    requires Sorted(s, le)
    ensures Sorted(Insert(x, s, le), le)
  {
    if |s| == 0 || le(x, s[0]) {
    } else {
      InsertSorted(x, s[1..], le);
      var tail := Insert(x, s[1..], le);
      forall z | z in tail
        ensures le(s[0], z)
      {
        assert z in multiset(tail);
        if z != x {
          assert z in s[1..];
        }
      }
    }
  }

  /** The result of the sort is ordered by `le`. */
  lemma {:induction false} SortBySorted<T(!new)>(s: seq<T>, le: (T, T) -> bool)
    requires TotalPreorder(le)
    ensures Sorted(SortBy(s, le), le)
  {
    if |s| > 0 {
      SortBySorted(s[1..], le);
      InsertSorted(s[0], SortBy(s[1..], le), le);
    }
  }

  lemma {:induction false} InsertTies<T(!new)>(x: T, s: seq<T>, y: T, le: (T, T) -> bool)
    requires TotalPreorder(le)
    ensures Ties(Insert(x, s, le), y, le) == Ties([x] + s, y, le)
  {
    if |s| == 0 || le(x, s[0]) {
    } else {
      InsertTies(x, s[1..], y, le);
      assert ([s[0]] + Insert(x, s[1..], le))[1..] == Insert(x, s[1..], le);
      assert ([x] + s[1..])[1..] == s[1..];
      assert ([x] + s)[1..] == s;
      assert !(Tied(le, x, y) && Tied(le, s[0], y));
    }
  }

  /** Stability: every tie class appears in the result in its input order. */
  lemma {:induction false} SortByStable<T(!new)>(s: seq<T>, le: (T, T) -> bool)
    requires TotalPreorder(le)
    ensures forall y :: Ties(SortBy(s, le), y, le) == Ties(s, y, le)
  {
    if |s| > 0 {
      SortByStable(s[1..], le);
      forall y
        ensures Ties(SortBy(s, le), y, le) == Ties(s, y, le)
      {
        InsertTies(s[0], SortBy(s[1..], le), y, le);
        assert ([s[0]] + SortBy(s[1..], le))[1..] == SortBy(s[1..], le);
      }
    }
  }

  lemma {:induction false} TiesOfCons<T(!new)>(x: T, s: seq<T>, y: T, le: (T, T) -> bool)
    ensures Ties([x] + s, y, le) == (if Tied(le, x, y) then [x] else []) + Ties(s, y, le)
  {
    assert ([x] + s)[1..] == s;
  }

  lemma FirstIsTied<T(!new)>(s: seq<T>, le: (T, T) -> bool)
    requires TotalPreorder(le)
    requires |s| > 0
    ensures s[0] in Ties(s, s[0], le)
  {
  }

  /** Two sorted sequences with the same tie classes are equal. */
  lemma {:induction false} SortedTiesUnique<T(!new)>(a: seq<T>, b: seq<T>, le: (T, T) -> bool)
    requires TotalPreorder(le)
    requires Sorted(a, le) && Sorted(b, le)
    requires forall y :: Ties(a, y, le) == Ties(b, y, le)
    ensures a == b
    decreases |a|
  {
    if |a| == 0 || |b| == 0 {
      // the tie class of the non-empty side's first element is empty on the other side
      if |a| > 0 {
        FirstIsTied(a, le);
      } else if |b| > 0 {
        FirstIsTied(b, le);
      }
    } else {
      assert a[0] in Ties(a, a[0], le);
      assert b[0] in Ties(b, b[0], le);
      assert le(b[0], a[0]) by {
        var z :| z in b && Tied(le, z, a[0]);
        var k :| 0 <= k < |b| && b[k] == z;
        assert k == 0 || le(b[0], b[k]);
      }
      assert le(a[0], b[0]) by {
        var z :| z in a && Tied(le, z, b[0]);
        var k :| 0 <= k < |a| && a[k] == z;
        assert k == 0 || le(a[0], a[k]);
      }
      assert a == [a[0]] + a[1..] && b == [b[0]] + b[1..];
      TiesOfCons(a[0], a[1..], a[0], le);
      TiesOfCons(b[0], b[1..], a[0], le);
      assert a[0] == b[0];
      forall y
        ensures Ties(a[1..], y, le) == Ties(b[1..], y, le)
      {
        TiesOfCons(a[0], a[1..], y, le);
        TiesOfCons(b[0], b[1..], y, le);
        var h: seq<T> := if Tied(le, a[0], y) then [a[0]] else [];
        assert h + Ties(a[1..], y, le) == h + Ties(b[1..], y, le);
        assert Ties(a[1..], y, le) == (h + Ties(a[1..], y, le))[|h|..];
      }
      SortedTiesUnique(a[1..], b[1..], le);
    }
  }

  /** Everything a caller needs of a stable sort, in one place: the result holds
      the same elements as the input, is sorted, and keeps every tie class in
      input order. */
  lemma SortByCharacterization<T(!new)>(s: seq<T>, le: (T, T) -> bool)
    requires TotalPreorder(le)
    ensures forall x :: x in SortBy(s, le) <==> x in s
    ensures Sorted(SortBy(s, le), le)
    ensures forall y :: Ties(SortBy(s, le), y, le) == Ties(s, y, le)
  {
    SortBySorted(s, le);
    SortByStable(s, le);
    assert forall x :: x in SortBy(s, le) <==> x in multiset(SortBy(s, le));
    assert forall x :: x in s <==> x in multiset(s);
  }

  /** `SortBy` is the only ordering of `s` that is sorted and keeps every tie
      class in input order: the declarative meaning of a stable sort. */
  lemma SortByIsTheStableSort<T(!new)>(s: seq<T>, r: seq<T>, le: (T, T) -> bool)
    requires TotalPreorder(le)
    requires Sorted(r, le)
    requires forall y :: Ties(r, y, le) == Ties(s, y, le)
    ensures r == SortBy(s, le)
  {
    SortBySorted(s, le);
    SortByStable(s, le);
    SortedTiesUnique(r, SortBy(s, le), le);
  }
}
