/** The stable sort every ordered result goes through, and the order on strings it mostly uses. */
module Sorting {
  import opened Wrappers

  ghost predicate TotalPreorder<T(!new)>(le: (T, T) -> bool) {
    && (forall a, b :: le(a, b) || le(b, a))
    && (forall a, b, c :: le(a, b) && le(b, c) ==> le(a, c))
  }

  ghost predicate Sorted<T(!new)>(s: seq<T>, le: (T, T) -> bool) {
    forall i, j :: 0 <= i < j < |s| ==> le(s[i], s[j])
  }

  function InsertBy<T>(x: T, s: seq<T>, le: (T, T) -> bool): (r: seq<T>)
    ensures multiset(r) == multiset{x} + multiset(s)
    ensures |r| == |s| + 1
  {
    if s == [] then [x]
    else if le(x, s[0]) then [x] + s
    else
      assert s == [s[0]] + s[1..];
      [s[0]] + InsertBy(x, s[1..], le)
  }

  /** Insertion from the right, before the first element not smaller: equal elements keep their order. */
  function SortBy<T>(s: seq<T>, le: (T, T) -> bool): (r: seq<T>)
    ensures multiset(r) == multiset(s)
    ensures |r| == |s|
  {
    if s == [] then []
    else
      assert s == [s[0]] + s[1..];
      InsertBy(s[0], SortBy(s[1..], le), le)
  }

  lemma InsertMembers<T>(x: T, s: seq<T>, le: (T, T) -> bool, y: T)
    ensures y in InsertBy(x, s, le) <==> y == x || y in s
  {
    hide InsertBy;
    assert y in InsertBy(x, s, le) <==> y in multiset(InsertBy(x, s, le));
    assert y in s <==> y in multiset(s);
  }

  lemma SortedCons<T(!new)>(x: T, s: seq<T>, le: (T, T) -> bool)
    requires Sorted(s, le) && forall y :: y in s ==> le(x, y)
    ensures Sorted([x] + s, le)
  {
    forall i, j | 0 <= i < j < |[x] + s|
      ensures le(([x] + s)[i], ([x] + s)[j])
    {
      assert ([x] + s)[j] == s[j - 1] && s[j - 1] in s;
      assert i > 0 ==> ([x] + s)[i] == s[i - 1];
    }
  }

  lemma SortedParts<T(!new)>(s: seq<T>, le: (T, T) -> bool)
    requires Sorted(s, le) && s != []
    ensures Sorted(s[1..], le) && forall y :: y in s[1..] ==> le(s[0], y)
  {
  }

  lemma {:induction false} InsertBySorted<T(!new)>(x: T, s: seq<T>, le: (T, T) -> bool)
    requires TotalPreorder(le) && Sorted(s, le)
    ensures Sorted(InsertBy(x, s, le), le)
  {
    hide Sorted;
    if s == [] {
      SortedCons(x, s, le);
      assert [x] + s == [x];
    } else {
      SortedParts(s, le);
      assert forall y :: y in s <==> y == s[0] || y in s[1..];
      if le(x, s[0]) {
        SortedCons(x, s, le);
      } else {
        var rest := InsertBy(x, s[1..], le);
        InsertBySorted(x, s[1..], le);
        forall y | y in rest
          ensures le(s[0], y)
        {
          InsertMembers(x, s[1..], le, y);
        }
        SortedCons(s[0], rest, le);
      }
    }
  }

  lemma {:induction false} SortBySorted<T(!new)>(s: seq<T>, le: (T, T) -> bool)
    requires TotalPreorder(le)
    ensures Sorted(SortBy(s, le), le)
  {
    if s != [] {
      SortBySorted(s[1..], le);
      InsertBySorted(s[0], SortBy(s[1..], le), le);
    }
  }

  lemma SameElements<T>(s: seq<T>, le: (T, T) -> bool, x: T)
    ensures x in SortBy(s, le) <==> x in s
  {
    assert x in SortBy(s, le) <==> x in multiset(SortBy(s, le));
    assert x in s <==> x in multiset(s);
  }

  function Keep<T>(s: seq<T>, p: T -> bool): seq<T> {
    if s == [] then [] else (if p(s[0]) then [s[0]] else []) + Keep(s[1..], p)
  }

  lemma {:induction false} KeepMembers<T(!new)>(s: seq<T>, p: T -> bool)
    ensures forall x :: x in Keep(s, p) <==> x in s && p(x)
  {
    if s != [] {
      KeepMembers(s[1..], p);
      assert forall x :: x in s <==> x == s[0] || x in s[1..];
    }
  }

  lemma {:induction false} KeepCount<T(!new)>(s: seq<T>, p: T -> bool, x: T)
    ensures multiset(Keep(s, p))[x] == if p(x) then multiset(s)[x] else 0
  {
    hide Keep;
    if s == [] {
      KeepNothing(s, p);
    } else {
      KeepCount(s[1..], p, x);
      KeepCons(s[0], s[1..], p);
      assert s == [s[0]] + s[1..];
    }
  }

  function Map<T, U>(s: seq<T>, f: T -> U): (r: seq<U>)
    ensures |r| == |s|
    ensures forall i :: 0 <= i < |r| ==> r[i] == f(s[i])
  {
    seq(|s|, i requires 0 <= i < |s| => f(s[i]))
  }

  lemma MapTakeOut<T, U>(s: seq<T>, f: T -> U, i: nat)
    requires i < |s|
    ensures multiset(Map(s, f)) == multiset(Map(s[..i] + s[i + 1..], f)) + multiset{f(s[i])}
  {
    assert Map(s, f) == Map(s[..i], f) + [f(s[i])] + Map(s[i + 1..], f);
    assert Map(s[..i] + s[i + 1..], f) == Map(s[..i], f) + Map(s[i + 1..], f);
  }

  lemma MapHead<T, U>(s: seq<T>, f: T -> U)
    requires s != []
    ensures multiset(Map(s, f)) == multiset(Map(s[1..], f)) + multiset{f(s[0])}
  {
    assert Map(s, f) == [f(s[0])] + Map(s[1..], f);
  }

  /** Mapping a rearrangement rearranges the images. */
  lemma {:induction false} MapPermuted<T, U>(a: seq<T>, b: seq<T>, f: T -> U)
    requires multiset(a) == multiset(b)
    ensures multiset(Map(a, f)) == multiset(Map(b, f))
    decreases |a|
  {
    hide Map;
    if a == [] {
      NothingElse(b);
    } else {
      var i := HeadSomewhere(a, b);
      var rest := b[..i] + b[i + 1..];
      MapPermuted(a[1..], rest, f);
      MapHead(a, f);
      MapTakeOut(b, f, i);
    }
  }

  lemma KeepCons<T(!new)>(x: T, s: seq<T>, p: T -> bool)
    ensures Keep([x] + s, p) == (if p(x) then [x] else []) + Keep(s, p)
  {
    assert ([x] + s)[1..] == s;
  }

  lemma {:induction false} KeepAll<T(!new)>(s: seq<T>, p: T -> bool)
    requires forall x :: x in s ==> p(x)
    ensures Keep(s, p) == s
  {
    if s != [] {
      assert s[0] in s && forall x :: x in s[1..] ==> x in s;
      KeepAll(s[1..], p);
      assert s == [s[0]] + s[1..];
    }
  }

  lemma KeepNothing<T(!new)>(s: seq<T>, p: T -> bool)
    requires s == []
    ensures Keep(s, p) == []
  {
  }

  lemma {:induction false} KeepAppend<T(!new)>(s: seq<T>, x: T, p: T -> bool)
    ensures Keep(s + [x], p) == Keep(s, p) + if p(x) then [x] else []
  {
    hide Keep;
    if s == [] {
      KeepNothing(s, p);
      KeepCons(x, s, p);
      assert s + [x] == [x] + s;
    } else {
      KeepAppend(s[1..], x, p);
      KeepCons(s[0], s[1..], p);
      KeepCons(s[0], s[1..] + [x], p);
      assert s == [s[0]] + s[1..] && s + [x] == [s[0]] + (s[1..] + [x]);
    }
  }

  lemma {:induction false} KeepConcat<T(!new)>(a: seq<T>, b: seq<T>, p: T -> bool)
    ensures Keep(a + b, p) == Keep(a, p) + Keep(b, p)
  {
    hide Keep;
    if a == [] {
      KeepNothing(a, p);
      assert a + b == b;
    } else {
      KeepConcat(a[1..], b, p);
      KeepCons(a[0], a[1..], p);
      KeepCons(a[0], a[1..] + b, p);
      assert a == [a[0]] + a[1..] && a + b == [a[0]] + (a[1..] + b);
    }
  }

  lemma Swap<T>(a: seq<T>, b: seq<T>, c: seq<T>)
    requires a == [] || b == []
    ensures a + (b + c) == b + (a + c)
  {
  }

  /** Elements of one class, mutually equal in the order, come out in the order they went in. */
  lemma {:induction false} InsertByStable<T(!new)>(x: T, s: seq<T>, le: (T, T) -> bool, p: T -> bool)
    requires forall a, b :: p(a) && p(b) ==> le(a, b)
    ensures Keep(InsertBy(x, s, le), p) == (if p(x) then [x] else []) + Keep(s, p)
  {
    if s == [] || le(x, s[0]) {
      hide Keep;
      KeepCons(x, s, p);
      assert s == [] ==> [x] + s == [x];
    } else {
      InsertByStable(x, s[1..], le, p);
      hide Keep;
      KeepCons(s[0], InsertBy(x, s[1..], le), p);
      KeepCons(s[0], s[1..], p);
      assert [s[0]] + s[1..] == s;
      Swap(if p(x) then [x] else [], if p(s[0]) then [s[0]] else [], Keep(s[1..], p));
    }
  }

  lemma {:induction false} SortByStable<T(!new)>(s: seq<T>, le: (T, T) -> bool, p: T -> bool)
    requires forall a, b :: p(a) && p(b) ==> le(a, b)
    ensures Keep(SortBy(s, le), p) == Keep(s, p)
  {
    if s != [] {
      SortByStable(s[1..], le, p);
      InsertByStable(s[0], SortBy(s[1..], le), le, p);
    }
  }

  // ---- When the order sorted into is determined ----

  /** No two different elements are equal in the order. */
  ghost predicate NoTies<T(!new)>(s: seq<T>, le: (T, T) -> bool) {
    forall x, y :: x in s && y in s && le(x, y) && le(y, x) ==> x == y
  }

  lemma SameMultisetMembers<T>(a: seq<T>, b: seq<T>, x: T)
    requires multiset(a) == multiset(b)
    ensures x in a <==> x in b
  {
    assert x in a <==> x in multiset(a);
    assert x in b <==> x in multiset(b);
  }

  /** Without ties a sorted sequence is determined by its elements. */
  lemma {:induction false} SortedIsUnique<T(!new)>(a: seq<T>, b: seq<T>, le: (T, T) -> bool)
    requires TotalPreorder(le) && Sorted(a, le) && Sorted(b, le) && NoTies(a, le) && multiset(a) == multiset(b)
    ensures a == b
  {
    hide Sorted;
    if a == [] {
      NothingElse(b);
    } else {
      assert |b| == |multiset(b)| == |a|;
      SortedParts(a, le);
      SortedParts(b, le);
      SameMultisetMembers(a, b, a[0]);
      SameMultisetMembers(a, b, b[0]);
      HeadIsLeast(a, le, b[0]);
      HeadIsLeast(b, le, a[0]);
      TailIsRest(a);
      TailIsRest(b);
      assert forall x :: x in a[1..] ==> x in a;
      SortedIsUnique(a[1..], b[1..], le);
      assert a == [a[0]] + a[1..] && b == [b[0]] + b[1..];
    }
  }

  lemma HeadIsLeast<T(!new)>(s: seq<T>, le: (T, T) -> bool, x: T)
    requires TotalPreorder(le) && x in s && forall y :: y in s[1..] ==> le(s[0], y)
    ensures le(s[0], x)
  {
    assert s == [s[0]] + s[1..];
  }

  /** Two elements equal in the order come out as they went in, so exchanging them shows. */
  lemma TiesShow<T(!new)>(x: T, y: T, rest: seq<T>, le: (T, T) -> bool)
    requires TotalPreorder(le) && le(x, y) && le(y, x) && x != y
    ensures SortBy([x, y] + rest, le) != SortBy([y, x] + rest, le)
  {
    hide SortBy, Keep;
    var p := (z: T) => z == x || z == y;
    SortByStable([x, y] + rest, le, p);
    SortByStable([y, x] + rest, le, p);
    KeepTwo(x, y, rest, p);
    KeepTwo(y, x, rest, p);
    assert ([x, y] + Keep(rest, p))[0] == x && ([y, x] + Keep(rest, p))[0] == y;
  }

  lemma KeepTwo<T(!new)>(x: T, y: T, rest: seq<T>, p: T -> bool)
    requires p(x) && p(y)
    ensures Keep([x, y] + rest, p) == [x, y] + Keep(rest, p)
  {
    hide Keep;
    KeepCons(y, rest, p);
    KeepCons(x, [y] + rest, p);
    assert [x, y] + rest == [x] + ([y] + rest);
  }

  lemma TakeOut<T>(s: seq<T>, x: T) returns (rest: seq<T>)
    requires x in s
    ensures multiset(s) == multiset{x} + multiset(rest)
  {
    var i :| 0 <= i < |s| && s[i] == x;
    MultisetTakeOut(s, i);
    rest := s[..i] + s[i + 1..];
  }

  lemma PairInFront<T>(x: T, y: T, rest: seq<T>)
    ensures multiset([x, y] + rest) == multiset{x} + (multiset{y} + multiset(rest))
  {
  }

  lemma TwoInFront<T>(s: seq<T>, x: T, y: T) returns (rest: seq<T>)
    requires x in s && y in s && x != y
    ensures multiset([x, y] + rest) == multiset(s) && multiset([y, x] + rest) == multiset(s)
  {
    var less := TakeOut(s, x);
    assert y in multiset(s);
    assert y in multiset(less);
    rest := TakeOut(less, y);
    PairInFront(x, y, rest);
    PairInFront(y, x, rest);
  }

  ghost predicate SortsAlike<T(!new)>(s: seq<T>, le: (T, T) -> bool) {
    forall a, b :: multiset(a) == multiset(s) && multiset(b) == multiset(s) ==> SortBy(a, le) == SortBy(b, le)
  }

  /** Sorting gives one result for all orders its input can come in exactly when nothing ties. */
  lemma SortIsDetermined<T(!new)>(s: seq<T>, le: (T, T) -> bool)
    requires TotalPreorder(le)
    ensures SortsAlike(s, le) <==> NoTies(s, le)
  {
    hide SortBy, Sorted;
    if NoTies(s, le) {
      forall a: seq<T>, b: seq<T> | multiset(a) == multiset(s) && multiset(b) == multiset(s)
        ensures SortBy(a, le) == SortBy(b, le)
      {
        SortBySorted(a, le);
        SortBySorted(b, le);
        forall x
          ensures x in SortBy(a, le) <==> x in s
        {
          SameMultisetMembers(SortBy(a, le), s, x);
        }
        SortedIsUnique(SortBy(a, le), SortBy(b, le), le);
      }
    } else {
      var x, y :| x in s && y in s && le(x, y) && le(y, x) && x != y;
      var rest := TwoInFront(s, x, y);
      TiesShow(x, y, rest, le);
    }
  }

  predicate NoRepeats<T(==)>(s: seq<T>) {
    forall i, j :: 0 <= i < j < |s| ==> s[i] != s[j]
  }

  lemma {:induction false} CountsOnce<T>(s: seq<T>, x: T)
    requires NoRepeats(s)
    ensures multiset(s)[x] == if x in s then 1 else 0
  {
    if s != [] {
      CountsOnce(s[1..], x);
      assert s == [s[0]] + s[1..];
      assert s[0] !in s[1..];
    }
  }

  /** Two listings of the same elements, each once, are rearrangements of each other. */
  lemma SameOnce<T>(a: seq<T>, b: seq<T>)
    requires NoRepeats(a) && NoRepeats(b) && forall x :: x in a <==> x in b
    ensures multiset(a) == multiset(b)
  {
    forall x
      ensures multiset(a)[x] == multiset(b)[x]
    {
      CountsOnce(a, x);
      CountsOnce(b, x);
    }
  }

  lemma RepeatCounts<T>(s: seq<T>, i: nat, j: nat)
    requires i < j < |s| && s[i] == s[j]
    ensures multiset(s)[s[i]] >= 2
  {
    MultisetTakeOut(s, i);
    assert (s[..i] + s[i + 1..])[j - 1] == s[j];
    assert s[j] in multiset(s[..i] + s[i + 1..]);
  }

  lemma NoRepeatsPermuted<T>(a: seq<T>, b: seq<T>)
    requires multiset(a) == multiset(b) && NoRepeats(a)
    ensures NoRepeats(b)
  {
    forall i, j | 0 <= i < j < |b|
      ensures b[i] != b[j]
    {
      if b[i] == b[j] {
        RepeatCounts(b, i, j);
        CountsOnce(a, b[i]);
      }
    }
  }

  // ---- Strings, compared character by character ----

  predicate StringLe(a: string, b: string) {
    if a == [] then true
    else if b == [] then false
    else if a[0] != b[0] then a[0] < b[0]
    else StringLe(a[1..], b[1..])
  }

  lemma {:induction false} StringTotal(a: string, b: string)
    ensures StringLe(a, b) || StringLe(b, a)
  {
    if a != [] && b != [] && a[0] == b[0] {
      StringTotal(a[1..], b[1..]);
    }
  }

  lemma {:induction false} StringTransitive(a: string, b: string, c: string)
    requires StringLe(a, b) && StringLe(b, c)
    ensures StringLe(a, c)
  {
    if a != [] && b != [] && c != [] && a[0] == b[0] == c[0] {
      StringTransitive(a[1..], b[1..], c[1..]);
    }
  }

  lemma {:induction false} StringAntisymmetric(a: string, b: string)
    requires StringLe(a, b) && StringLe(b, a)
    ensures a == b
  {
    if a != [] && b != [] {
      StringAntisymmetric(a[1..], b[1..]);
      assert a == [a[0]] + a[1..] && b == [b[0]] + b[1..];
    }
  }

  lemma StringOrder()
    ensures TotalPreorder(StringLe)
  {
    forall a, b
      ensures StringLe(a, b) || StringLe(b, a)
    {
      StringTotal(a, b);
    }
    forall a, b, c | StringLe(a, b) && StringLe(b, c)
      ensures StringLe(a, c)
    {
      StringTransitive(a, b, c);
    }
  }

  function SortStrings(s: seq<string>): seq<string> {
    SortBy(s, StringLe)
  }

  /** `Vec::dedup`: the first of every run of equal neighbours. */
  function Dedup(s: seq<string>): seq<string> {
    if |s| < 2 then s
    else (if s[0] == s[1] then [] else [s[0]]) + Dedup(s[1..])
  }

  lemma {:induction false} DedupMembers(s: seq<string>, x: string)
    ensures x in Dedup(s) <==> x in s
  {
    if |s| >= 2 {
      DedupMembers(s[1..], x);
      assert s == [s[0]] + s[1..] && s[1] in s[1..];
    }
  }

  predicate Ascending(s: seq<string>) {
    forall i, j :: 0 <= i < j < |s| ==> s[i] != s[j] && StringLe(s[i], s[j])
  }

  lemma AscendingCons(x: string, s: seq<string>)
    requires Ascending(s) && forall y :: y in s ==> y != x && StringLe(x, y)
    ensures Ascending([x] + s)
  {
    hide StringLe;
    forall i, j | 0 <= i < j < |[x] + s|
      ensures ([x] + s)[i] != ([x] + s)[j] && StringLe(([x] + s)[i], ([x] + s)[j])
    {
      assert ([x] + s)[j] == s[j - 1] && s[j - 1] in s;
      if i > 0 {
        assert ([x] + s)[i] == s[i - 1];
      }
    }
  }

  lemma LaterIsLarger(s: seq<string>, k: nat)
    requires Sorted(s, StringLe) && 0 < k < |s| && s[0] != s[1]
    ensures s[k] != s[0] && StringLe(s[0], s[k])
  {
    hide StringLe;
    assert StringLe(s[0], s[1]) && StringLe(s[0], s[k]);
    if k > 1 && s[k] == s[0] {
      assert StringLe(s[1], s[k]);
      StringAntisymmetric(s[0], s[1]);
    }
  }

  lemma {:induction false} DedupAscending(s: seq<string>)
    requires Sorted(s, StringLe)
    ensures Ascending(Dedup(s))
  {
    hide StringLe;
    if |s| >= 2 {
      var rest := s[1..];
      assert Sorted(rest, StringLe);
      DedupAscending(rest);
      if s[0] != s[1] {
        forall y | y in Dedup(rest)
          ensures y != s[0] && StringLe(s[0], y)
        {
          DedupMembers(rest, y);
          var k :| 0 <= k < |rest| && rest[k] == y;
          LaterIsLarger(s, k + 1);
        }
        AscendingCons(s[0], Dedup(rest));
      }
    }
  }

  /** Sorted, duplicate-free, and with exactly the members it was given. */
  lemma SortedOnce(s: seq<string>)
    ensures Ascending(Dedup(SortStrings(s)))
    ensures forall x :: x in Dedup(SortStrings(s)) <==> x in s
  {
    StringOrder();
    SortBySorted(s, StringLe);
    DedupAscending(SortStrings(s));
    forall x
      ensures x in Dedup(SortStrings(s)) <==> x in s
    {
      DedupMembers(SortStrings(s), x);
      SameElements(s, StringLe, x);
    }
  }
}
