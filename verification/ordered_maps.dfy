// Insertion-ordered dictionaries: a Python dict and a JavaScript object with
// string keys both iterate in the order in which keys were first inserted, and
// assigning to an existing key keeps that key where it was.
module OrderedMaps {
  import opened Wrappers

  type OMap<V> = seq<(string, V)>

  function Keys<V>(m: OMap<V>): (ks: seq<string>)
    ensures |ks| == |m|
    ensures forall i :: 0 <= i < |m| ==> ks[i] == m[i].0
  {
    if m == [] then [] else [m[0].0] + Keys(m[1..])
  }

  function Values<V>(m: OMap<V>): (vs: seq<V>)
    ensures |vs| == |m|
    ensures forall i :: 0 <= i < |m| ==> vs[i] == m[i].1
  {
    if m == [] then [] else [m[0].1] + Values(m[1..])
  }

  /** No key occurs twice: every map built with Put has this shape. */
  ghost predicate UniqueKeys<V>(m: OMap<V>) {
    forall i, j :: 0 <= i < j < |m| ==> m[i].0 != m[j].0
  }

  /** The value of the first entry with key k. */
  function Get<V>(m: OMap<V>, k: string): (r: Option<V>)
    ensures r.None? <==> k !in Keys(m)
    ensures r.Some? ==> exists i :: 0 <= i < |m| && m[i] == (k, r.value)
  {
    if m == [] then None
    else if m[0].0 == k then Some(m[0].1)
    else Get(m[1..], k)
  }

  /** d[k] = v on an insertion-ordered dictionary. */
  function Put<V>(m: OMap<V>, k: string, v: V): (r: OMap<V>)
    ensures k in Keys(m) ==> Keys(r) == Keys(m)
    ensures k !in Keys(m) ==> Keys(r) == Keys(m) + [k]
    ensures Get(r, k) == Some(v)
    ensures forall k' :: k' != k ==> Get(r, k') == Get(m, k')
  {
    if m == [] then [(k, v)]
    else if m[0].0 == k then [(k, v)] + m[1..]
    else [m[0]] + Put(m[1..], k, v)
  }

  lemma {:induction false} PutKeepsUnique<V>(m: OMap<V>, k: string, v: V)
    requires UniqueKeys(m)
    ensures UniqueKeys(Put(m, k, v))
  {
    var r := Put(m, k, v);
    assert Keys(r) == Keys(m) || Keys(r) == Keys(m) + [k];
    forall i, j | 0 <= i < j < |r| ensures r[i].0 != r[j].0 {
      assert Keys(r)[i] == r[i].0 && Keys(r)[j] == r[j].0;
      if j == |m| {
        assert k !in Keys(m);
        assert Keys(m)[i] == m[i].0;
      } else {
        assert Keys(m)[i] == m[i].0 && Keys(m)[j] == m[j].0;
      }
    }
  }

  /** Put each entry in turn, as a loop of d[k] = v assignments does. */
  function PutAll<V>(m: OMap<V>, entries: seq<(string, V)>): (r: OMap<V>)
    decreases |entries|
  {
    if entries == [] then m
    else PutAll(Put(m, entries[0].0, entries[0].1), entries[1..])
  }

  lemma {:induction false} PutAllAppend<V>(m: OMap<V>, a: seq<(string, V)>, b: seq<(string, V)>)
    ensures PutAll(m, a + b) == PutAll(PutAll(m, a), b)
    decreases |a|
  {
    if a == [] {
      assert a + b == b;
    } else {
      assert (a + b)[0] == a[0] && (a + b)[1..] == a[1..] + b;
      PutAllAppend(Put(m, a[0].0, a[0].1), a[1..], b);
    }
  }

  lemma {:induction false} PutFresh<V>(m: OMap<V>, k: string, v: V)
    requires k !in Keys(m)
    ensures Put(m, k, v) == m + [(k, v)]
  {
    if m != [] {
      assert m[0].0 == Keys(m)[0];
      assert Keys(m) == [m[0].0] + Keys(m[1..]);
      PutFresh(m[1..], k, v);
      assert m == [m[0]] + m[1..];
    }
  }

  lemma {:induction false} KeysAppend<V>(a: OMap<V>, b: OMap<V>)
    ensures Keys(a + b) == Keys(a) + Keys(b)
  {
    var l, r := Keys(a + b), Keys(a) + Keys(b);
    assert |l| == |r|;
    forall i | 0 <= i < |l| ensures l[i] == r[i] {
      if i < |a| { assert (a + b)[i] == a[i]; } else { assert (a + b)[i] == b[i - |a|]; }
    }
  }
}
