// The two list operations behind sort_values, list.sort and Series.unique:
// sorting by a total preorder, modelled as insertion, and keeping the first
// occurrence of every value.
module Sorting {

  ghost predicate Total<T(!new)>(le: (T, T) -> bool) {
    forall a: T, b: T :: le(a, b) || le(b, a)
  }

  ghost predicate Transitive<T(!new)>(le: (T, T) -> bool) {
    forall a: T, b: T, c: T :: le(a, b) && le(b, c) ==> le(a, c)
  }

  ghost predicate SortedBy<T>(xs: seq<T>, le: (T, T) -> bool) {
    forall i, j :: 0 <= i < j < |xs| ==> le(xs[i], xs[j])
  }

  /** x placed after every element it is not less than: before the first
      element that exceeds it strictly, so that it follows its equals. */
  function Insert<T>(x: T, xs: seq<T>, le: (T, T) -> bool): (r: seq<T>)
    ensures multiset(r) == multiset(xs) + multiset{x}
    decreases |xs|
  {
    if xs == [] then [x]
    else if !le(xs[0], x) then [x] + xs
    else
      assert xs == [xs[0]] + xs[1..];
      [xs[0]] + Insert(x, xs[1..], le)
  }

  /** xs sorted by inserting its elements one by one, in order: a stable
      sort, as Array.prototype.sort and list.sort are. */
  function SortBy<T>(xs: seq<T>, le: (T, T) -> bool): (r: seq<T>)
    ensures multiset(r) == multiset(xs)
    decreases |xs|
  {
    if xs == [] then []
    else
      assert xs == xs[..|xs| - 1] + [xs[|xs| - 1]];
      Insert(xs[|xs| - 1], SortBy(xs[..|xs| - 1], le), le)
  }

  lemma {:induction false} InsertSorted<T(!new)>(x: T, xs: seq<T>, le: (T, T) -> bool)
    requires Total(le) && Transitive(le) && SortedBy(xs, le)
    ensures SortedBy(Insert(x, xs, le), le)
    decreases |xs|
  {
    if xs != [] && le(xs[0], x) {
      var rest := Insert(x, xs[1..], le);
      InsertSorted(x, xs[1..], le);
      forall y | y in rest ensures le(xs[0], y) {
        assert y in multiset(rest);
        if y != x {
          var k :| 0 <= k < |xs[1..]| && xs[1..][k] == y;
          assert xs[k + 1] == y;
        }
      }
      var r := [xs[0]] + rest;
      forall i, j | 0 <= i < j < |r| ensures le(r[i], r[j]) {
        if i == 0 {
          assert r[j] == rest[j - 1];
          assert r[j] in rest;
        } else {
          assert r[i] == rest[i - 1] && r[j] == rest[j - 1];
        }
      }
    } else if xs != [] {
      assert le(x, xs[0]);
      var r := [x] + xs;
      forall i, j | 0 <= i < j < |r| ensures le(r[i], r[j]) {
        if i == 0 {
          assert r[j] == xs[j - 1];
          if j > 1 { assert le(xs[0], xs[j - 1]); }
        } else {
          assert r[i] == xs[i - 1] && r[j] == xs[j - 1];
        }
      }
    }
  }

  /** The sort yields its input rearranged in ascending order. */
  lemma {:induction false} SortBySorted<T(!new)>(xs: seq<T>, le: (T, T) -> bool)
    requires Total(le) && Transitive(le)
    ensures SortedBy(SortBy(xs, le), le)
    ensures multiset(SortBy(xs, le)) == multiset(xs)
    decreases |xs|
  {
    if xs != [] {
      SortBySorted(xs[..|xs| - 1], le);
      InsertSorted(xs[|xs| - 1], SortBy(xs[..|xs| - 1], le), le);
    }
  }

  /** a and b are equivalent: each is at most the other. */
  predicate Equivalent<T>(le: (T, T) -> bool, a: T, b: T) {
    le(a, b) && le(b, a)
  }

  /** The elements of xs equivalent to k, in their order in xs. */
  function Tied<T>(xs: seq<T>, le: (T, T) -> bool, k: T): (r: seq<T>)
    ensures |r| <= |xs|
    decreases |xs|
  {
    if xs == [] then []
    else (if Equivalent(le, xs[0], k) then [xs[0]] else []) + Tied(xs[1..], le, k)
  }

  lemma {:induction false} TiedAppend<T>(a: seq<T>, b: seq<T>, le: (T, T) -> bool, k: T)
    ensures Tied(a + b, le, k) == Tied(a, le, k) + Tied(b, le, k)
    decreases |a|
  {
    if a == [] {
      assert a + b == b;
    } else {
      assert (a + b)[0] == a[0] && (a + b)[1..] == a[1..] + b;
      TiedAppend(a[1..], b, le, k);
    }
  }

  lemma {:induction false} TiedNone<T>(xs: seq<T>, le: (T, T) -> bool, k: T)
    requires forall i :: 0 <= i < |xs| ==> !Equivalent(le, xs[i], k)
    ensures Tied(xs, le, k) == []
    decreases |xs|
  {
    if xs != [] {
      assert forall i :: 0 <= i < |xs[1..]| ==> xs[1..][i] == xs[i + 1];
      TiedNone(xs[1..], le, k);
    }
  }

  lemma SortedTail<T>(xs: seq<T>, le: (T, T) -> bool)
    requires xs != [] && SortedBy(xs, le)
    ensures SortedBy(xs[1..], le)
  {
    forall i, j | 0 <= i < j < |xs[1..]| ensures le(xs[1..][i], xs[1..][j]) {
      assert xs[1..][i] == xs[i + 1] && xs[1..][j] == xs[j + 1];
    }
  }

  /** An x that goes in front is less than everything after it, so nothing
      after it is equivalent to anything x is equivalent to. */
  lemma InsertTiedFront<T(!new)>(x: T, xs: seq<T>, le: (T, T) -> bool, k: T)
    requires Total(le) && Transitive(le) && SortedBy(xs, le)
    requires xs != [] && !le(xs[0], x)
    ensures Tied([x] + xs, le, k) == Tied(xs, le, k) + Tied([x], le, k)
  {
    TiedAppend([x], xs, le, k);
    if Equivalent(le, x, k) {
      forall i | 0 <= i < |xs| ensures !Equivalent(le, xs[i], k) {
        if i > 0 { assert le(xs[0], xs[i]); }
      }
      TiedNone(xs, le, k);
    } else {
      assert Tied([x], le, k) == [];
    }
  }

  /** Inserting x puts it after every element equivalent to it. */
  lemma {:induction false} InsertTied<T(!new)>(x: T, xs: seq<T>, le: (T, T) -> bool, k: T)
    requires Total(le) && Transitive(le) && SortedBy(xs, le)
    ensures Tied(Insert(x, xs, le), le, k) == Tied(xs, le, k) + Tied([x], le, k)
    decreases |xs|
  {
    if xs == [] {
      assert Tied([x], le, k) == (if Equivalent(le, x, k) then [x] else []) + Tied([], le, k);
    } else if !le(xs[0], x) {
      InsertTiedFront(x, xs, le, k);
    } else {
      SortedTail(xs, le);
      var head := if Equivalent(le, xs[0], k) then [xs[0]] else [];
      calc {
        Tied(Insert(x, xs, le), le, k);
        Tied([xs[0]] + Insert(x, xs[1..], le), le, k);
        head + Tied(Insert(x, xs[1..], le), le, k);
        { InsertTied(x, xs[1..], le, k); }
        head + (Tied(xs[1..], le, k) + Tied([x], le, k));
        (head + Tied(xs[1..], le, k)) + Tied([x], le, k);
        Tied(xs, le, k) + Tied([x], le, k);
      }
    }
  }

  /** The sort is stable: the elements equivalent to any k come out in the
      order they went in. */
  lemma {:induction false} SortByStable<T(!new)>(xs: seq<T>, le: (T, T) -> bool, k: T)
    requires Total(le) && Transitive(le)
    ensures Tied(SortBy(xs, le), le, k) == Tied(xs, le, k)
    decreases |xs|
  {
    if xs != [] {
      var init, last := xs[..|xs| - 1], xs[|xs| - 1];
      SortByStable(init, le, k);
      SortBySorted(init, le);
      InsertTied(last, SortBy(init, le), le, k);
      TiedAppend(init, [last], le, k);
      assert init + [last] == xs;
    }
  }

  predicate Distinct<T(==)>(xs: seq<T>) {
    forall i, j :: 0 <= i < j < |xs| ==> xs[i] != xs[j]
  }

  /** Series.unique: each value once, in the order of its first occurrence. */
  function Unique<T(==)>(xs: seq<T>): seq<T>
    decreases |xs|
  {
    if xs == [] then []
    else
      var prev := Unique(xs[..|xs| - 1]);
      if xs[|xs| - 1] in prev then prev else prev + [xs[|xs| - 1]]
  }

  /** The unique values are distinct and are exactly the values of xs. */
  lemma {:induction false} UniqueSpec<T>(xs: seq<T>)
    ensures Distinct(Unique(xs))
    ensures forall x :: x in Unique(xs) <==> x in xs
    decreases |xs|
  {
    if xs != [] {
      UniqueSpec(xs[..|xs| - 1]);
      assert xs == xs[..|xs| - 1] + [xs[|xs| - 1]];
    }
  }

  lemma {:induction false} InsertDistinct<T>(x: T, xs: seq<T>, le: (T, T) -> bool)
    requires Distinct(xs) && x !in xs
    ensures Distinct(Insert(x, xs, le))
    decreases |xs|
  {
    if xs != [] && le(xs[0], x) {
      InsertDistinct(x, xs[1..], le);
      var rest := Insert(x, xs[1..], le);
      assert xs[0] !in xs[1..];
      assert xs[0] !in multiset(rest);
      var r := [xs[0]] + rest;
      forall i, j | 0 <= i < j < |r| ensures r[i] != r[j] {
        if i == 0 { assert r[j] == rest[j - 1]; assert r[j] in rest; }
        else { assert r[i] == rest[i - 1] && r[j] == rest[j - 1]; }
      }
    } else if xs != [] {
      var r := [x] + xs;
      forall i, j | 0 <= i < j < |r| ensures r[i] != r[j] {
        if i == 0 { assert r[j] == xs[j - 1]; }
        else { assert r[i] == xs[i - 1] && r[j] == xs[j - 1]; }
      }
    }
  }

  /** Sorting distinct values keeps them distinct. */
  lemma {:induction false} SortKeepsDistinct<T>(xs: seq<T>, le: (T, T) -> bool)
    requires Distinct(xs)
    ensures Distinct(SortBy(xs, le))
    decreases |xs|
  {
    if xs != [] {
      var init := xs[..|xs| - 1];
      assert Distinct(init);
      SortKeepsDistinct(init, le);
      assert xs[|xs| - 1] !in init;
      assert xs[|xs| - 1] !in multiset(SortBy(init, le));
      InsertDistinct(xs[|xs| - 1], SortBy(init, le), le);
    }
  }
}
