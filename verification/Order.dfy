/** Orders on the tuples and strings the planner sorts by, and a stable sort.

    A sort key in the source is a tuple whose components are integers, strings
    or byte strings.  Here every component is a sequence of integers (an integer
    is a one-element sequence), a key is a sequence of components, and a
    tie-break key is a sequence of keys.  All three levels compare
    lexicographically, a proper prefix first. */
module Order {

  ghost predicate TotalOrder<T(!new)>(le: (T, T) -> bool) {
    && TotalPreorder(le)
    && (forall a: T, b: T :: le(a, b) && le(b, a) ==> a == b)
  }

  ghost predicate TotalPreorder<T(!new)>(le: (T, T) -> bool) {
    && (forall a: T, b: T :: le(a, b) || le(b, a))
    && (forall a: T, b: T, c: T :: le(a, b) && le(b, c) ==> le(a, c))
  }

  // ----- lexicographic comparison

  predicate LexLe<T(==)>(le: (T, T) -> bool, a: seq<T>, b: seq<T>) {
    if a == [] then true
    else if b == [] then false
    else if a[0] == b[0] then LexLe(le, a[1..], b[1..])
    else le(a[0], b[0])
  }

  lemma {:induction false} LexTotal<T(!new)>(le: (T, T) -> bool, a: seq<T>, b: seq<T>)
    requires TotalOrder(le)
    ensures LexLe(le, a, b) || LexLe(le, b, a)
    ensures LexLe(le, a, b) && LexLe(le, b, a) ==> a == b
  {
    if a != [] && b != [] && a[0] == b[0] {
      LexTotal(le, a[1..], b[1..]);
      assert a == [a[0]] + a[1..] && b == [b[0]] + b[1..];
    }
  }

  lemma {:induction false} LexTransitive<T(!new)>(le: (T, T) -> bool, a: seq<T>, b: seq<T>, c: seq<T>)
    requires TotalOrder(le)
    requires LexLe(le, a, b) && LexLe(le, b, c)
    ensures LexLe(le, a, c)
  {
    if a != [] && a[0] == b[0] && b[0] == c[0] {
      LexTransitive(le, a[1..], b[1..], c[1..]);
    }
  }

  /** Appending on the right keeps the order, unless one side is a proper prefix. */
  lemma {:induction false} LexAppend<T>(le: (T, T) -> bool, a: seq<T>, b: seq<T>, x: seq<T>, y: seq<T>)
    requires LexLe(le, a, b)
    requires !(a < b)
    requires a == b ==> LexLe(le, x, y)
    ensures LexLe(le, a + x, b + y)
  {
    if a == [] {
      assert b == [];
      assert a + x == x && b + y == y;
    } else {
      assert (a + x)[1..] == a[1..] + x && (b + y)[1..] == b[1..] + y;
      if a[0] == b[0] {
        assert a == [a[0]] + a[1..] && b == [b[0]] + b[1..];
        LexAppend(le, a[1..], b[1..], x, y);
      }
    }
  }

  type Text = seq<int>
  type SortKey = seq<Text>

  predicate IntLe(a: int, b: int) { a <= b }
  predicate TextLe(a: Text, b: Text) { LexLe(IntLe, a, b) }
  predicate KeyLe(a: SortKey, b: SortKey) { LexLe(TextLe, a, b) }
  predicate KeysLe(a: seq<SortKey>, b: seq<SortKey>) { LexLe(KeyLe, a, b) }

  lemma NumberText(x: int, y: int)
    ensures TextLe([x], [y]) <==> x <= y
    ensures [x] == [y] <==> x == y
  {
    assert [x][0] == x && [y][0] == y;
    assert LexLe(IntLe, [x][1..], [y][1..]);
  }

  lemma TextOrder()
    ensures TotalOrder(TextLe)
  {
    forall a: Text, b: Text
      ensures TextLe(a, b) || TextLe(b, a)
      ensures TextLe(a, b) && TextLe(b, a) ==> a == b
    {
      LexTotal(IntLe, a, b);
    }
    forall a: Text, b: Text, c: Text | TextLe(a, b) && TextLe(b, c)
      ensures TextLe(a, c)
    {
      LexTransitive(IntLe, a, b, c);
    }
  }

  lemma KeyOrder()
    ensures TotalOrder(KeyLe)
  {
    TextOrder();
    forall a: SortKey, b: SortKey
      ensures KeyLe(a, b) || KeyLe(b, a)
      ensures KeyLe(a, b) && KeyLe(b, a) ==> a == b
    {
      LexTotal(TextLe, a, b);
    }
    forall a: SortKey, b: SortKey, c: SortKey | KeyLe(a, b) && KeyLe(b, c)
      ensures KeyLe(a, c)
    {
      LexTransitive(TextLe, a, b, c);
    }
  }

  lemma KeysOrder()
    ensures TotalOrder(KeysLe)
  {
    KeyOrder();
    forall a: seq<SortKey>, b: seq<SortKey>
      ensures KeysLe(a, b) || KeysLe(b, a)
      ensures KeysLe(a, b) && KeysLe(b, a) ==> a == b
    {
      LexTotal(KeyLe, a, b);
    }
    forall a: seq<SortKey>, b: seq<SortKey>, c: seq<SortKey> | KeysLe(a, b) && KeysLe(b, c)
      ensures KeysLe(a, c)
    {
      LexTransitive(KeyLe, a, b, c);
    }
  }

  function CodePoints(s: string): (t: Text)
    ensures |t| == |s|
  {
    seq(|s|, i requires 0 <= i < |s| => s[i] as int)
  }

  // ----- stable sorting

  ghost predicate SortedBy<T(!new)>(le: (T, T) -> bool, s: seq<T>) {
    forall i, j :: 0 <= i < j < |s| ==> le(s[i], s[j])
  }

  /** Places `x` after every element that is not greater, so equal elements keep their order. */
  function Insert<T>(le: (T, T) -> bool, s: seq<T>, x: T): seq<T> {
    if s == [] || le(s[|s| - 1], x) then s + [x]
    else Insert(le, s[..|s| - 1], x) + [s[|s| - 1]]
  }

  function SortBy<T>(le: (T, T) -> bool, s: seq<T>): seq<T> {
    if s == [] then [] else Insert(le, SortBy(le, s[..|s| - 1]), s[|s| - 1])
  }

  lemma {:induction false} InsertMultiset<T>(le: (T, T) -> bool, s: seq<T>, x: T)
    ensures multiset(Insert(le, s, x)) == multiset(s) + multiset{x}
    ensures |Insert(le, s, x)| == |s| + 1
  {
    if s == [] || le(s[|s| - 1], x) {
    } else {
      InsertMultiset(le, s[..|s| - 1], x);
      assert s == s[..|s| - 1] + [s[|s| - 1]];
    }
  }

  lemma {:induction false} InsertSorted<T(!new)>(le: (T, T) -> bool, s: seq<T>, x: T)
    requires TotalPreorder(le) && SortedBy(le, s)
    ensures SortedBy(le, Insert(le, s, x))
  {
    if s == [] {
    } else if le(s[|s| - 1], x) {
      assert forall i :: 0 <= i < |s| ==> le(s[i], x);
    } else {
      var front, z := s[..|s| - 1], s[|s| - 1];
      InsertSorted(le, front, x);
      InsertMultiset(le, front, x);
      var t := Insert(le, front, x);
      forall i | 0 <= i < |t|
        ensures le(t[i], z)
      {
        assert t[i] in multiset(t);
        if t[i] != x {
          assert t[i] in multiset(front);
          assert t[i] in front;
        }
      }
    }
  }

  lemma {:induction false} SortMultiset<T>(le: (T, T) -> bool, s: seq<T>)
    ensures multiset(SortBy(le, s)) == multiset(s)
    ensures |SortBy(le, s)| == |s|
  {
    if s != [] {
      SortMultiset(le, s[..|s| - 1]);
      InsertMultiset(le, SortBy(le, s[..|s| - 1]), s[|s| - 1]);
      assert s == s[..|s| - 1] + [s[|s| - 1]];
    }
  }

  lemma {:induction false} SortSorted<T(!new)>(le: (T, T) -> bool, s: seq<T>)
    requires TotalPreorder(le)
    ensures SortedBy(le, SortBy(le, s))
  {
    if s != [] {
      SortSorted(le, s[..|s| - 1]);
      InsertSorted(le, SortBy(le, s[..|s| - 1]), s[|s| - 1]);
    }
  }

  lemma SortElements<T>(le: (T, T) -> bool, s: seq<T>)
    ensures |SortBy(le, s)| == |s|
    ensures forall x :: x in SortBy(le, s) <==> x in s
  {
    SortMultiset(le, s);
    forall x
      ensures x in SortBy(le, s) <==> x in s
    {
      assert x in multiset(SortBy(le, s)) <==> x in multiset(s);
    }
  }

  /** A sorted sequence is left as it is. */
  lemma {:induction false} SortIdentity<T(!new)>(le: (T, T) -> bool, s: seq<T>)
    requires SortedBy(le, s)
    ensures SortBy(le, s) == s
  {
    if s != [] {
      SortIdentity(le, s[..|s| - 1]);
      assert s == s[..|s| - 1] + [s[|s| - 1]];
      if |s| > 1 {
        assert le(s[|s| - 2], s[|s| - 1]);
      }
    }
  }

  lemma LastIsGreatest<T(!new)>(le: (T, T) -> bool, s: seq<T>, x: T)
    requires TotalPreorder(le) && SortedBy(le, s) && x in multiset(s)
    ensures s != [] && le(x, s[|s| - 1])
  {
    assert x in s;
    var i :| 0 <= i < |s| && s[i] == x;
    if i < |s| - 1 {
      assert le(s[i], s[|s| - 1]);
    }
  }

  lemma EmptyPermutation<T>(s: seq<T>, t: seq<T>)
    requires multiset(s) == multiset(t) && (s == [] || t == [])
    ensures s == t
  {
    assert |s| == |multiset(s)| == |multiset(t)| == |t|;
  }

  lemma DropLastPermutation<T>(s: seq<T>, t: seq<T>)
    requires s != [] && t != [] && multiset(s) == multiset(t) && s[|s| - 1] == t[|t| - 1]
    ensures |s| == |t|
    ensures multiset(s[..|s| - 1]) == multiset(t[..|t| - 1])
  {
    assert |s| == |multiset(s)| == |multiset(t)| == |t|;
    assert s == s[..|s| - 1] + [s[|s| - 1]] && t == t[..|t| - 1] + [t[|t| - 1]];
    assert multiset(s[..|s| - 1]) == multiset(s) - multiset{s[|s| - 1]};
    assert multiset(t[..|t| - 1]) == multiset(t) - multiset{t[|t| - 1]};
  }

  /** Whether the order has no ties among the elements of `s`. */
  ghost predicate TieFree<T(!new)>(le: (T, T) -> bool, s: seq<T>) {
    forall a, b :: a in multiset(s) && b in multiset(s) && le(a, b) && le(b, a) ==> a == b
  }

  /** Without ties, a multiset has one sorted arrangement. */
  lemma {:induction false} SortedUnique<T(!new)>(le: (T, T) -> bool, s: seq<T>, t: seq<T>)
    requires TotalPreorder(le) && TieFree(le, s) && SortedBy(le, s) && SortedBy(le, t)
    requires multiset(s) == multiset(t)
    ensures s == t
  {
    if s == [] || t == [] {
      EmptyPermutation(s, t);
    } else {
      SameLast(le, s, t);
      DropLastPermutation(s, t);
      FrontSorted(le, s);
      FrontSorted(le, t);
      SortedUnique(le, s[..|s| - 1], t[..|t| - 1]);
      Rejoin(s, t);
    }
  }

  lemma Rejoin<T>(s: seq<T>, t: seq<T>)
    requires |s| == |t| && s != [] && s[..|s| - 1] == t[..|t| - 1] && s[|s| - 1] == t[|t| - 1]
    ensures s == t
  {
    assert s == s[..|s| - 1] + [s[|s| - 1]] && t == t[..|t| - 1] + [t[|t| - 1]];
  }

  lemma SameLast<T(!new)>(le: (T, T) -> bool, s: seq<T>, t: seq<T>)
    requires TotalPreorder(le) && TieFree(le, s) && SortedBy(le, s) && SortedBy(le, t)
    requires multiset(s) == multiset(t) && s != [] && t != []
    ensures s[|s| - 1] == t[|t| - 1]
  {
    var x, y := s[|s| - 1], t[|t| - 1];
    assert x in multiset(s) && y in multiset(t);
    LastIsGreatest(le, t, x);
    LastIsGreatest(le, s, y);
  }

  lemma FrontSorted<T(!new)>(le: (T, T) -> bool, s: seq<T>)
    requires SortedBy(le, s) && s != []
    ensures SortedBy(le, s[..|s| - 1])
    ensures TieFree(le, s) ==> TieFree(le, s[..|s| - 1])
  {
    LastInBag(s);
  }

  /** Whether a sequence has no repeated element. */
  ghost predicate Distinct<T>(s: seq<T>) {
    forall i, j :: 0 <= i < j < |s| ==> s[i] != s[j]
  }

  lemma {:induction false} DistinctCount<T>(s: seq<T>, x: T)
    requires Distinct(s)
    ensures multiset(s)[x] == if x in s then 1 else 0
  {
    if s != [] {
      DistinctCount(s[..|s| - 1], x);
      assert s == s[..|s| - 1] + [s[|s| - 1]];
    }
  }

  lemma {:induction false} DistinctFromCounts<T(!new)>(s: seq<T>)
    requires forall x :: multiset(s)[x] <= 1
    ensures Distinct(s)
  {
    forall i, j | 0 <= i < j < |s|
      ensures s[i] != s[j]
    {
      assert s == s[..j] + [s[j]] + s[j + 1..];
      assert s[..j][i] == s[i];
      assert multiset(s)[s[j]] == multiset(s[..j])[s[j]] + 1 + multiset(s[j + 1..])[s[j]];
    }
  }

  lemma DistinctPermutation<T(!new)>(s: seq<T>, t: seq<T>)
    requires Distinct(s) && multiset(s) == multiset(t)
    ensures Distinct(t)
  {
    forall x
      ensures multiset(t)[x] <= 1
    {
      DistinctCount(s, x);
    }
    DistinctFromCounts(t);
  }

  lemma TakeNext<T>(s: seq<T>, k: nat)
    requires k < |s|
    ensures s[..k + 1] == s[..k] + [s[k]]
  {
  }

  lemma TakeAll<T>(s: seq<T>)
    ensures s[..|s|] == s
  {
  }

  lemma DropNext<T>(s: seq<T>, k: nat)
    requires k < |s|
    ensures s[k..] == [s[k]] + s[k + 1..] && s[k..][1..] == s[k + 1..]
  {
  }

  lemma LastInBag<T>(s: seq<T>)
    requires s != []
    ensures multiset(s) == multiset(s[..|s| - 1]) + multiset{s[|s| - 1]}
  {
    assert s == s[..|s| - 1] + [s[|s| - 1]];
  }

  function ToSet<T>(s: seq<T>): set<T> { set x | x in s }

  lemma DistinctFront<T>(s: seq<T>)
    requires Distinct(s) && s != []
    ensures Distinct(s[..|s| - 1])
    ensures ToSet(s) - {s[|s| - 1]} == ToSet(s[..|s| - 1])
  {
    var front, last := s[..|s| - 1], s[|s| - 1];
    forall x | x in ToSet(s) - {last}
      ensures x in ToSet(front)
    {
      var i :| 0 <= i < |s| && s[i] == x;
      assert front[i] == x;
    }
    forall x | x in ToSet(front)
      ensures x in ToSet(s) - {last}
    {
      var i :| 0 <= i < |front| && front[i] == x;
      assert s[i] == x;
    }
  }

  lemma {:induction false} DistinctSetSize<T>(s: seq<T>)
    requires Distinct(s)
    ensures |ToSet(s)| == |s|
  {
    if s == [] {
      assert ToSet(s) == {};
    } else {
      DistinctFront(s);
      DistinctSetSize(s[..|s| - 1]);
      assert s[|s| - 1] in ToSet(s);
    }
  }
}
