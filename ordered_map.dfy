// A JavaScript `Map` with string keys, as the aggregation code uses it: `get`, `set`
// and iteration in insertion order. `set` on a present key keeps its position.
module OrderedMap {
  import opened Wrappers

  function Keys<V>(m: seq<(string, V)>): set<string> {
    set i | 0 <= i < |m| :: m[i].0
  }

  ghost predicate Distinct<V>(m: seq<(string, V)>) {
    forall i, j :: 0 <= i < j < |m| ==> m[i].0 != m[j].0
  }

  /** The position of a key. */
  function IndexOf<V>(m: seq<(string, V)>, k: string): (r: Option<nat>)
    ensures r.Some? ==> r.value < |m| && m[r.value].0 == k
    ensures r.None? <==> k !in Keys(m)
  {
    if m == [] then None
    else if m[0].0 == k then Some(0)
    else
      var r := IndexOf(m[1..], k);
      assert forall i :: 1 <= i < |m| ==> m[i] == m[1..][i - 1];
      assert Keys(m) == {m[0].0} + Keys(m[1..]) by {
        forall n | n in Keys(m) ensures n in {m[0].0} + Keys(m[1..]) {
          var i :| 0 <= i < |m| && m[i].0 == n;
          if i > 0 {
            assert m[1..][i - 1].0 == n;
          }
        }
      }
      if r.None? then None else Some(r.value + 1)
  }

  /** `map.get(k)`. */
  function Get<V>(m: seq<(string, V)>, k: string): Option<V> {
    var i := IndexOf(m, k);
    if i.None? then None else Some(m[i.value].1)
  }

  /** `map.get(k) || d` for values that are never falsy. */
  function GetOr<V>(m: seq<(string, V)>, k: string, d: V): V {
    var i := IndexOf(m, k);
    if i.None? then d else m[i.value].1
  }

  /** `map.set(k, v)`. */
  function Put<V>(m: seq<(string, V)>, k: string, v: V): seq<(string, V)> {
    var i := IndexOf(m, k);
    if i.None? then m + [(k, v)] else m[i.value := (k, v)]
  }

  lemma KeysSnoc<V>(m: seq<(string, V)>, e: (string, V))
    ensures Keys(m + [e]) == Keys(m) + {e.0}
  {
    var all := m + [e];
    assert all[|m|] == e;
    forall n | n in Keys(m) ensures n in Keys(all) {
      var i :| 0 <= i < |m| && m[i].0 == n;
      assert all[i] == m[i];
    }
  }

  /** In a map without repeated keys, a key sits at one place only. */
  lemma IndexOfDistinct<V>(m: seq<(string, V)>, i: nat)
    requires Distinct(m) && i < |m|
    ensures IndexOf(m, m[i].0) == Some(i)
  {
  }

  /** `set` changes the entry of its key alone, keeps every position, and appends a new
      key at the end. */
  lemma PutSpec<V>(m: seq<(string, V)>, k: string, v: V)
    requires Distinct(m)
    ensures var r := Put(m, k, v);
      && Distinct(r)
      && Keys(r) == Keys(m) + {k}
      && |r| == (if k in Keys(m) then |m| else |m| + 1)
      && (forall i :: 0 <= i < |m| ==> r[i].0 == m[i].0 && (m[i].0 != k ==> r[i] == m[i]))
      && Get(r, k) == Some(v)
      && (forall k' :: k' != k ==> Get(r, k') == Get(m, k'))
  {
    var r := Put(m, k, v);
    var i := IndexOf(m, k);
    if i.None? {
      KeysSnoc(m, (k, v));
      assert r[|m|] == (k, v);
      IndexOfDistinct(r, |m|);
      forall k' | k' != k ensures Get(r, k') == Get(m, k') {
        if k' in Keys(m) {
          var j := IndexOf(m, k').value;
          IndexOfDistinct(m, j);
          IndexOfDistinct(r, j);
        } else {
          assert k' !in Keys(r);
        }
      }
    } else {
      assert Keys(r) == Keys(m) by {
        forall n | n in Keys(m) ensures n in Keys(r) {
          var j :| 0 <= j < |m| && m[j].0 == n;
          assert r[j].0 == n;
        }
        forall n | n in Keys(r) ensures n in Keys(m) {
          var j :| 0 <= j < |r| && r[j].0 == n;
          assert m[j].0 == n;
        }
      }
      IndexOfDistinct(r, i.value);
      forall k' | k' != k ensures Get(r, k') == Get(m, k') {
        if k' in Keys(m) {
          var j := IndexOf(m, k').value;
          IndexOfDistinct(m, j);
          IndexOfDistinct(r, j);
        }
      }
    }
  }

  /** The empty map has no keys. */
  lemma EmptyMap<V>()
    ensures Keys<V>([]) == {} && Distinct<V>([])
  {
  }

  /** The sum of `f` over the values, in insertion order. */
  function SumOf<V>(m: seq<(string, V)>, f: V -> int): int
    decreases |m|
  {
    if m == [] then 0 else SumOf(m[..|m| - 1], f) + f(m[|m| - 1].1)
  }

  lemma {:induction false} SumOfUpdate<V>(m: seq<(string, V)>, i: nat, e: (string, V), f: V -> int)
    requires i < |m|
    ensures SumOf(m[i := e], f) == SumOf(m, f) - f(m[i].1) + f(e.1)
    decreases |m|
  {
    var u := m[i := e];
    if i == |m| - 1 {
      assert u[..|u| - 1] == m[..|m| - 1];
    } else {
      assert u[..|u| - 1] == m[..|m| - 1][i := e];
      SumOfUpdate(m[..|m| - 1], i, e, f);
    }
  }

  /** Setting a key moves the sum by the difference between the new value and the old
      one, a missing key counting as the default `d`, which adds nothing. */
  lemma SumOfPut<V>(m: seq<(string, V)>, k: string, v: V, d: V, f: V -> int)
    requires f(d) == 0
    ensures SumOf(Put(m, k, v), f) == SumOf(m, f) - f(GetOr(m, k, d)) + f(v)
  {
    var i := IndexOf(m, k);
    if i.None? {
      assert Put(m, k, v)[..|m|] == m;
    } else {
      SumOfUpdate(m, i.value, (k, v), f);
    }
  }
  /** Every entry after `set` is the new one or an entry from before. */
  lemma PutEntries<V>(m: seq<(string, V)>, k: string, v: V)
    ensures forall e :: e in Put(m, k, v) ==> e == (k, v) || e in m
  {
  }

  lemma {:induction false} SumOfNonNegative<V>(m: seq<(string, V)>, f: V -> int)
    requires forall e :: e in m ==> f(e.1) >= 0
    ensures SumOf(m, f) >= 0
    decreases |m|
  {
    if m != [] {
      SumOfNonNegative(m[..|m| - 1], f);
    }
  }

  /** With no negative values, no single value exceeds the sum. */
  lemma GetOrAtMostSum<V>(m: seq<(string, V)>, k: string, d: V, f: V -> int)
    requires forall e :: e in m ==> f(e.1) >= 0
    requires f(d) == 0
    ensures f(GetOr(m, k, d)) <= SumOf(m, f)
  {
    var i := IndexOf(m, k);
    SumOfNonNegative(m, f);
    if i.Some? {
      var u := m[i.value := (k, d)];
      SumOfUpdate(m, i.value, (k, d), f);
      forall e | e in u ensures f(e.1) >= 0 {
      }
      SumOfNonNegative(u, f);
    }
  }
  /** `get(t) ?? d` after `set(k, v)`. */
  lemma GetOrPut<V>(m: seq<(string, V)>, k: string, v: V, t: string, d: V)
    requires Distinct(m)
    ensures GetOr(Put(m, k, v), t, d) == if t == k then v else GetOr(m, t, d)
  {
    PutSpec(m, k, v);
    var r := Put(m, k, v);
    assert GetOr(r, t, d) == if Get(r, t).Some? then Get(r, t).value else d;
    assert GetOr(m, t, d) == if Get(m, t).Some? then Get(m, t).value else d;
  }
}
