// The shape most extractor loops share: walk a list in order and append the
// datapoint each element yields, if it yields one.
module Sequences {
  import opened Wrappers

  /** The values f yields for the elements of xs, in order, skipping None. */
  function FilterMap<T, U>(xs: seq<T>, f: T -> Option<U>): seq<U>
  {
    if xs == [] then []
    else
      var prev := FilterMap(xs[..|xs| - 1], f);
      match f(xs[|xs| - 1])
      case None => prev
      case Some(u) => prev + [u]
  }

  /** At most one value per element, each yielded by some element; none at
      all exactly when no element yields one. */
  lemma {:induction false} FilterMapFrom<T, U>(xs: seq<T>, f: T -> Option<U>)
    ensures |FilterMap(xs, f)| <= |xs|
    ensures forall u :: u in FilterMap(xs, f) ==> exists i :: 0 <= i < |xs| && f(xs[i]) == Some(u)
    ensures FilterMap(xs, f) == [] <==> forall i :: 0 <= i < |xs| ==> f(xs[i]).None?
  {
    if xs != [] {
      var init := xs[..|xs| - 1];
      FilterMapFrom(init, f);
      assert forall i :: 0 <= i < |init| ==> init[i] == xs[i];
    }
  }

  /** The values of a + b are those of a followed by those of b. */
  lemma {:induction false} FilterMapAppend<T, U>(a: seq<T>, b: seq<T>, f: T -> Option<U>)
    ensures FilterMap(a + b, f) == FilterMap(a, f) + FilterMap(b, f)
    decreases |b|
  {
    if b == [] {
      assert a + b == a;
    } else {
      var b' := b[..|b| - 1];
      assert (a + b)[..|a + b| - 1] == a + b';
      assert (a + b)[|a + b| - 1] == b[|b| - 1];
      FilterMapAppend(a, b', f);
    }
  }

  /** One element yields its value, or nothing. */
  lemma FilterMapSingle<T, U>(x: T, f: T -> Option<U>)
    ensures FilterMap([x], f) == if f(x).Some? then [f(x).value] else []
  {
    assert [x][..0] == [];
  }

  /** Every value an element yields is in the result. */
  lemma FilterMapMember<T, U>(xs: seq<T>, i: nat, f: T -> Option<U>)
    requires i < |xs| && f(xs[i]).Some?
    ensures f(xs[i]).value in FilterMap(xs, f)
  {
    assert xs == xs[..i] + [xs[i]] + xs[i + 1..];
    FilterMapAppend(xs[..i] + [xs[i]], xs[i + 1..], f);
    FilterMapAppend(xs[..i], [xs[i]], f);
    FilterMapSingle(xs[i], f);
  }

  /** Extending the prefix by one element: the step of a loop that appends. */
  lemma FilterMapStep<T, U>(xs: seq<T>, j: nat, f: T -> Option<U>)
    requires j < |xs|
    ensures FilterMap(xs[..j + 1], f) == FilterMap(xs[..j], f) + (if f(xs[j]).Some? then [f(xs[j]).value] else [])
  {
    assert xs[..j + 1] == xs[..j] + [xs[j]];
    FilterMapAppend(xs[..j], [xs[j]], f);
    FilterMapSingle(xs[j], f);
  }

  /** Some value satisfies P exactly when some element yields a value that does. */
  lemma FilterMapExists<T, U>(xs: seq<T>, f: T -> Option<U>, P: U -> bool)
    ensures (exists k :: 0 <= k < |FilterMap(xs, f)| && P(FilterMap(xs, f)[k])) <==>
      (exists i :: 0 <= i < |xs| && f(xs[i]).Some? && P(f(xs[i]).value))
  {
    var r := FilterMap(xs, f);
    FilterMapFrom(xs, f);
    if exists i :: 0 <= i < |xs| && f(xs[i]).Some? && P(f(xs[i]).value) {
      var i :| 0 <= i < |xs| && f(xs[i]).Some? && P(f(xs[i]).value);
      FilterMapMember(xs, i, f);
      var k :| 0 <= k < |r| && r[k] == f(xs[i]).value;
    }
    if exists k :: 0 <= k < |r| && P(r[k]) {
      var k :| 0 <= k < |r| && P(r[k]);
      assert r[k] in r;
    }
  }

  /** The step of a loop that appends the value of xs[j], if any, to out. */
  lemma FilterMapLoopStep<T, U>(xs: seq<T>, j: nat, f: T -> Option<U>, acc: seq<U>, out: seq<U>, y: Option<U>)
    requires j < |xs| && out == acc + FilterMap(xs[..j], f) && y == f(xs[j])
    ensures (if y.Some? then out + [y.value] else out) == acc + FilterMap(xs[..j + 1], f)
  {
    FilterMapStep(xs, j, f);
  }

  /** Every element maps to a value: one value per element, in order. */
  lemma {:induction false} FilterMapTotal<T, U>(xs: seq<T>, f: T -> Option<U>)
    requires forall i :: 0 <= i < |xs| ==> f(xs[i]).Some?
    ensures |FilterMap(xs, f)| == |xs|
    ensures forall i :: 0 <= i < |xs| ==> FilterMap(xs, f)[i] == f(xs[i]).value
  {
    if xs != [] {
      var init := xs[..|xs| - 1];
      assert forall i :: 0 <= i < |init| ==> init[i] == xs[i];
      FilterMapTotal(init, f);
    }
  }
}
