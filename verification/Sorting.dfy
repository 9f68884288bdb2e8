/** Sorting, for whatever says which of two elements goes before the other. */
module Sorting {
  /** Nothing goes before what stands in front of it. */
  predicate InOrder<T>(s: seq<T>, before: (T, T) -> bool) {
    forall i, j | 0 <= i < j < |s| :: !before(s[j], s[i])
  }

  /** What `sort.Slice` and `sort.Strings` do. */
  function Insert<T(!new)>(x: T, s: seq<T>, before: (T, T) -> bool): (r: seq<T>)
    ensures multiset(r) == multiset(s) + multiset{x}
    ensures forall y :: y in r <==> y == x || y in s
  {
    if s == [] then [x]
    else if before(s[0], x) then
      assert s == [s[0]] + s[1..];
      [s[0]] + Insert(x, s[1..], before)
    else [x] + s
  }

  function Sort<T(!new)>(s: seq<T>, before: (T, T) -> bool): (r: seq<T>)
    ensures multiset(r) == multiset(s)
    ensures forall y :: y in r <==> y in s
  {
    if s == [] then []
    else
      assert s == [s[0]] + s[1..];
      Insert(s[0], Sort(s[1..], before), before)
  }

  /** An order that may leave elements level with each other. */
  ghost predicate IsOrder<T(!new)>(before: (T, T) -> bool) {
    && (forall a, b :: before(a, b) ==> !before(b, a))
    && (forall a, b, c :: !before(b, a) && !before(c, b) ==> !before(c, a))
  }

  lemma {:induction false} InsertKeepsOrder<T(!new)>(x: T, s: seq<T>, before: (T, T) -> bool)
    requires IsOrder(before) && InOrder(s, before)
    ensures InOrder(Insert(x, s, before), before)
  {
    if s != [] {
      if before(s[0], x) {
        var rest := Insert(x, s[1..], before);
        InsertKeepsOrder(x, s[1..], before);
        forall j | 0 <= j < |rest| ensures !before(rest[j], s[0]) {
          assert rest[j] in rest;
        }
      } else {
        forall j | 0 <= j < |s| ensures !before(s[j], x) {
          assert !before(s[j], s[0]);
        }
      }
    }
  }

  lemma {:induction false} SortPutsInOrder<T(!new)>(s: seq<T>, before: (T, T) -> bool)
    requires IsOrder(before)
    ensures InOrder(Sort(s, before), before)
  {
    if s != [] {
      SortPutsInOrder(s[1..], before);
      InsertKeepsOrder(s[0], Sort(s[1..], before), before);
    }
  }

  // ---------------------------------------------------------------- by a number

  function ByKey<T>(key: T -> nat): (T, T) -> bool {
    (a, b) => key(a) < key(b)
  }

  predicate Increasing<T>(s: seq<T>, key: T -> nat) {
    forall i, j | 0 <= i < j < |s| :: key(s[i]) < key(s[j])
  }

  predicate KeysDiffer<T>(s: seq<T>, key: T -> nat) {
    forall i, j | 0 <= i < j < |s| :: key(s[i]) != key(s[j])
  }

  lemma {:induction false} InsertKeepsIncreasing<T(!new)>(x: T, s: seq<T>, key: T -> nat)
    requires Increasing(s, key) && forall y | y in s :: key(y) != key(x)
    ensures Increasing(Insert(x, s, ByKey(key)), key)
  {
    if s != [] && key(s[0]) < key(x) {
      InsertKeepsIncreasing(x, s[1..], key);
      var rest := Insert(x, s[1..], ByKey(key));
      assert forall k | 0 <= k < |rest| :: rest[k] in rest;
    }
  }

  lemma {:induction false} SortIncreases<T(!new)>(s: seq<T>, key: T -> nat)
    requires KeysDiffer(s, key)
    ensures Increasing(Sort(s, ByKey(key)), key)
  {
    if s != [] {
      SortIncreases(s[1..], key);
      InsertKeepsIncreasing(s[0], Sort(s[1..], ByKey(key)), key);
    }
  }

  function Itself(n: nat): nat { n }

  /** Numbers in order of which none is there twice increase. */
  lemma OnceEachIncreases(s: seq<nat>)
    requires InOrder(s, ByKey(Itself)) && forall n :: multiset(s)[n] <= 1
    ensures Increasing(s, Itself)
  {
    forall i, j | 0 <= i < j < |s| ensures s[i] < s[j] {
      assert s == s[..j] + s[j..];
      assert s[..j][i] == s[i] && s[j..][0] == s[j];
      assert s[i] in multiset(s[..j]) && s[j] in multiset(s[j..]);
      assert multiset(s) == multiset(s[..j]) + multiset(s[j..]);
      assert multiset(s)[s[j]] == multiset(s[..j])[s[j]] + multiset(s[j..])[s[j]];
      assert Itself(s[j]) == s[j] && Itself(s[i]) == s[i];
      assert !ByKey(Itself)(s[j], s[i]) && !(Itself(s[j]) < Itself(s[i]));
      assert multiset(s)[s[j]] <= 1;
    }
  }

  /** There is one way to put a set of elements in increasing order. */
  lemma {:induction false} OneIncreasingOrder<T(!new)>(a: seq<T>, b: seq<T>, key: T -> nat)
    requires Increasing(a, key) && Increasing(b, key)
    requires forall x :: x in a <==> x in b
    ensures a == b
  {
    assert b != [] ==> b[0] in b;
    if a != [] {
      assert a[|a| - 1] in a;
      var m, n := |a| - 1, |b| - 1;
      SameLast(a, b, key);
      forall x ensures x in a[..m] <==> x in b[..n] {
        FrontWithoutLast(a, key, x);
        FrontWithoutLast(b, key, x);
      }
      OneIncreasingOrder(a[..m], b[..n], key);
      assert a == a[..m] + [a[m]] && b == b[..n] + [b[n]];
    }
  }

  lemma SameLast<T(!new)>(a: seq<T>, b: seq<T>, key: T -> nat)
    requires a != [] && b != [] && Increasing(a, key) && Increasing(b, key)
    requires forall x :: x in a <==> x in b
    ensures a[|a| - 1] == b[|b| - 1]
  {
    var x, y := a[|a| - 1], b[|b| - 1];
    assert x in a && y in b;
    var i :| 0 <= i < |b| && b[i] == x;
    var j :| 0 <= j < |a| && a[j] == y;
  }

  lemma FrontWithoutLast<T(!new)>(s: seq<T>, key: T -> nat, x: T)
    requires s != [] && Increasing(s, key)
    ensures x in s[..|s| - 1] <==> x in s && x != s[|s| - 1]
  {
  }
}
