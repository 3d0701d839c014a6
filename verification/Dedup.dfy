/** Keeping the first occurrence of each element, and how that meets filtering and sorting. */
module Dedup {
  import opened Order
  import opened Models

  function Unique<T(==)>(s: seq<T>): seq<T> {
    if s == [] then []
    else
      var front, last := Unique(s[..|s| - 1]), s[|s| - 1];
      if last in front then front else front + [last]
  }

  lemma UniqueNext<T>(s: seq<T>, x: T)
    ensures Unique(s + [x]) == if x in Unique(s) then Unique(s) else Unique(s) + [x]
  {
    assert (s + [x])[..|s|] == s;
  }

  lemma {:induction false} UniqueMembers<T>(s: seq<T>, x: T)
    ensures x in Unique(s) <==> x in s
  {
    if s != [] {
      UniqueMembers(s[..|s| - 1], x);
      assert s == s[..|s| - 1] + [s[|s| - 1]];
    }
  }

  lemma {:induction false} UniqueDistinct<T>(s: seq<T>)
    ensures Distinct(Unique(s))
  {
    if s != [] {
      UniqueDistinct(s[..|s| - 1]);
    }
  }

  // ----- filtering

  lemma {:induction false} UniqueFilter<T>(keep: T -> bool, s: seq<T>)
    ensures Filter(keep, Unique(s)) == Unique(Filter(keep, s))
  {
    if s != [] {
      var front, x := s[..|s| - 1], s[|s| - 1];
      UniqueFilter(keep, front);
      UniqueMembers(front, x);
      FilterMembers(keep, front, x);
      UniqueMembers(Filter(keep, front), x);
      FilterAppend(keep, Unique(front), x);
      UniqueNext(Filter(keep, front), x);
      assert Filter(keep, s) == if keep(x) then Filter(keep, front) + [x] else Filter(keep, front);
      assert Filter(keep, Unique(front) + [x]) == if keep(x) then Filter(keep, Unique(front)) + [x]
        else Filter(keep, Unique(front));
    }
  }

  // ----- stable sorting

  lemma {:induction false} InsertMembers<T>(le: (T, T) -> bool, s: seq<T>, x: T, y: T)
    ensures y in Insert(le, s, x) <==> y in s || y == x
  {
    InsertMultiset(le, s, x);
    assert y in multiset(Insert(le, s, x)) <==> y in multiset(s) || y == x;
  }

  lemma LastKept<T(!new)>(le: (T, T) -> bool, s: seq<T>, x: T)
    requires TotalPreorder(le) && SortedBy(le, s) && s != [] && le(s[|s| - 1], x) && Unique(s) != []
    ensures le(Unique(s)[|Unique(s)| - 1], x)
  {
    var last := Unique(s)[|Unique(s)| - 1];
    UniqueMembers(s, last);
    LastIsGreatest(le, s, last);
  }

  /** Inserting an element again changes nothing after removing repeats. */
  lemma {:induction false} InsertRepeat<T(!new)>(le: (T, T) -> bool, s: seq<T>, x: T)
    requires TotalPreorder(le) && SortedBy(le, s) && x in s
    ensures Unique(Insert(le, s, x)) == Unique(s)
  {
    var front, last := s[..|s| - 1], s[|s| - 1];
    if le(last, x) {
      UniqueNext(s, x);
      UniqueMembers(s, x);
    } else {
      assert x != last && x in front;
      InsertRepeat(le, front, x);
      UniqueNext(Insert(le, front, x), last);
    }
  }

  /** Inserting a new element commutes with removing repeats. */
  lemma {:induction false} InsertNew<T(!new)>(le: (T, T) -> bool, s: seq<T>, x: T)
    requires TotalPreorder(le) && SortedBy(le, s) && x !in s
    ensures Unique(Insert(le, s, x)) == Insert(le, Unique(s), x)
  {
    UniqueMembers(s, x);
    if s == [] {
      assert Insert(le, s, x) == [x];
      UniqueNext([], x);
    } else {
      var front, last := s[..|s| - 1], s[|s| - 1];
      if le(last, x) {
        UniqueNext(s, x);
        UniqueMembers(s, last);
        LastKept(le, s, x);
      } else {
        InsertNew(le, front, x);
        UniqueNext(Insert(le, front, x), last);
        InsertMembers(le, front, x, last);
        InsertMembers(le, Unique(front), x, last);
        InsertLast(le, Unique(front), last, x);
      }
    }
  }

  lemma InsertLast<T>(le: (T, T) -> bool, s: seq<T>, last: T, x: T)
    requires !le(last, x)
    ensures Insert(le, s + [last], x) == Insert(le, s, x) + [last]
  {
    assert (s + [last])[..|s|] == s;
  }

  /** A stable sort commutes with keeping first occurrences. */
  lemma {:induction false} UniqueSort<T(!new)>(le: (T, T) -> bool, s: seq<T>)
    requires TotalPreorder(le)
    ensures SortBy(le, Unique(s)) == Unique(SortBy(le, s))
  {
    if s != [] {
      var front, x := s[..|s| - 1], s[|s| - 1];
      UniqueSort(le, front);
      SortSorted(le, front);
      SortElements(le, front);
      UniqueMembers(front, x);
      if x in front {
        InsertRepeat(le, SortBy(le, front), x);
      } else {
        InsertNew(le, SortBy(le, front), x);
        SortNext(le, Unique(front), x);
      }
    }
  }

  lemma SortNext<T>(le: (T, T) -> bool, s: seq<T>, x: T)
    ensures SortBy(le, s + [x]) == Insert(le, SortBy(le, s), x)
  {
    assert (s + [x])[..|s|] == s;
  }

  // ----- sorting images

  lemma {:induction false} InsertImage<A(!new), B>(f: A -> B, le: (A, A) -> bool, ge: (B, B) -> bool, s: seq<A>, x: A)
    requires forall a, b :: ge(f(a), f(b)) <==> le(a, b)
    ensures Insert(ge, Map(f, s), f(x)) == Map(f, Insert(le, s, x))
  {
    if s != [] {
      var front, last := s[..|s| - 1], s[|s| - 1];
      assert s == front + [last];
      MapAppend(f, front, [last]);
      MapOne(f, last);
      assert Map(f, s)[..|s| - 1] == Map(f, front);
      if le(last, x) {
        MapAppend(f, s, [x]);
        MapOne(f, x);
      } else {
        InsertImage(f, le, ge, front, x);
        MapAppend(f, Insert(le, front, x), [last]);
      }
    } else {
      MapOne(f, x);
    }
  }

  /** Sorting encoded rows by an equivalent order is encoding the sorted rows. */
  lemma {:induction false} SortImage<A(!new), B>(f: A -> B, le: (A, A) -> bool, ge: (B, B) -> bool, s: seq<A>)
    requires forall a, b :: ge(f(a), f(b)) <==> le(a, b)
    ensures SortBy(ge, Map(f, s)) == Map(f, SortBy(le, s))
  {
    if s != [] {
      var front, last := s[..|s| - 1], s[|s| - 1];
      SortImage(f, le, ge, front);
      InsertImage(f, le, ge, SortBy(le, front), last);
      assert s == front + [last];
      MapAppend(f, front, [last]);
      MapOne(f, last);
      SortNext(ge, Map(f, front), f(last));
    }
  }
}
