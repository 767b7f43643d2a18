/** Small value types and list/map helpers shared by the whiteboard and client models. */
module Common {

  datatype Option<+T> = None | Some(value: T)

  /** An opaque handle standing for one live Endpoint object (the value side of the
      `clients`/`sessions` maps); only its identity matters to the model. */
  datatype Conn = Conn(handle: nat)

  /** One recorded `endpoint.emit(event, arg)` call. */
  datatype Emission = Emission(to: Conn, event: string, arg: string)

  predicate Distinct<T(==)>(s: seq<T>) {
    forall i, j :: 0 <= i < j < |s| ==> s[i] != s[j]
  }

  /** Appending an element not yet listed keeps a list duplicate-free. */
  lemma DistinctSnoc<T>(s: seq<T>, x: T)
    requires Distinct(s) && x !in s
    ensures Distinct(s + [x])
  {
  }

  /** In a duplicate-free list every element occurs exactly once. */
  lemma {:induction false} DistinctOccursOnce<T>(s: seq<T>, x: T)
    requires Distinct(s) && x in s
    ensures multiset(s)[x] == 1
  {
    if s[0] == x {
      assert x !in s[1..];
      assert s == [s[0]] + s[1..];
    } else {
      assert Distinct(s[1..]);
      DistinctOccursOnce(s[1..], x);
      assert s == [s[0]] + s[1..];
    }
  }

  /** Index of the first occurrence of `x` in `s`. */
  function FirstIndex<T(==)>(s: seq<T>, x: T): (i: nat)
    requires x in s
    ensures i < |s| && s[i] == x && x !in s[..i]
  {
    if s[0] == x then 0
    else
      var j := FirstIndex(s[1..], x);
      assert s[..j + 1] == [s[0]] + s[1..][..j];
      j + 1
  }

  /** Java's `List.remove(Object)`: drops the first element equal to `x`, if there is one. */
  function RemoveFirst<T(==)>(s: seq<T>, x: T): (r: seq<T>)
    ensures x !in s ==> r == s
    ensures x in s ==> r == s[..FirstIndex(s, x)] + s[FirstIndex(s, x) + 1..]
  {
    if x !in s then s else s[..FirstIndex(s, x)] + s[FirstIndex(s, x) + 1..]
  }

  /** Removing the first occurrence takes exactly one copy of `x` out of the multiset,
      and keeps the order of what remains. */
  lemma RemoveFirstMultiset<T>(s: seq<T>, x: T)
    ensures multiset(RemoveFirst(s, x)) == multiset(s) - multiset{x}
    ensures x in s ==> |RemoveFirst(s, x)| == |s| - 1
  {
    if x in s {
      var i := FirstIndex(s, x);
      var before, after := s[..i], s[i + 1..];
      assert RemoveFirst(s, x) == before + after;
      SplitAround(s, i);
      CutOne(before, x, after);
    }
  }

  lemma SplitAround<T>(s: seq<T>, i: nat)
    requires i < |s|
    ensures s == s[..i] + [s[i]] + s[i + 1..]
  {
  }

  /** Cutting one element out of a sequence takes one copy of it out of the multiset. */
  lemma CutOne<T>(before: seq<T>, x: T, after: seq<T>)
    ensures multiset(before + after) == multiset(before + [x] + after) - multiset{x}
    ensures |before + after| == |before + [x] + after| - 1
  {
    var whole := multiset(before) + multiset{x} + multiset(after);
    assert multiset(before + [x] + after) == whole;
    assert multiset(before + after) == multiset(before) + multiset(after);
    assert whole - multiset{x} == multiset(before) + multiset(after);
  }

  /** Appending a fresh element and removing it again gives the list back. */
  lemma {:induction false} RemoveFirstOfAppended<T>(s: seq<T>, x: T)
    requires x !in s
    ensures RemoveFirst(s + [x], x) == s
  {
    var t := s + [x];
    assert forall j :: 0 <= j < |s| ==> t[j] == s[j];
    assert t[..|s|] == s;
  }

  /** The update "create an empty list under `k` if there is none, then append `v` to it",
      which the server and the peer both perform on their maps of lists. */
  function Appended<K, V>(m: map<K, seq<V>>, k: K, v: V): (r: map<K, seq<V>>)
    ensures r.Keys == m.Keys + {k}
    ensures k in m ==> r[k] == m[k] + [v]
    ensures k !in m ==> r[k] == [v]
    ensures forall j :: j in m && j != k ==> r[j] == m[j]
  {
    m[k := (if k in m then m[k] else []) + [v]]
  }

  /** A second update of the same key overrides the first. */
  lemma UpdateTwice<K, V>(m: map<K, V>, k: K, a: V, b: V)
    ensures m[k := a][k := b] == m[k := b]
  {
  }

  /** Writing back the value a key already has changes nothing. */
  lemma UpdateSame<K, V>(m: map<K, V>, k: K)
    requires k in m
    ensures m[k := m[k]] == m
  {
  }

  /** Adding a new key and taking it out again changes nothing. */
  lemma RemoveAdded<K, V>(m: map<K, V>, k: K, v: V)
    requires k !in m
    ensures m[k := v] - {k} == m
  {
  }

  /** A duplicate-free list of the elements of `keys` in an unspecified order: the model of
      iterating a Java `HashMap` key set, or copying it with `new ArrayList<>(m.keySet())`. */
  method KeysInSomeOrder<K>(keys: set<K>) returns (order: seq<K>)
    ensures Distinct(order)
    ensures forall k :: k in order <==> k in keys
    ensures |order| == |keys|
  {
    order := [];
    var rest := keys;
    while rest != {}
      invariant Distinct(order)
      invariant forall k :: k in order <==> k in keys && k !in rest
      invariant rest <= keys
      invariant |order| + |rest| == |keys|
      decreases |rest|
    {
      var k :| k in rest;
      order := order + [k];
      rest := rest - {k};
    }
  }
}
