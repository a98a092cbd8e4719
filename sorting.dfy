// The stable sort of `Array.prototype.sort` with a consistent comparator, and the
// `slice(0, n)` used for top-N lists, with the sums and counts taken over them. `le(a, b)` means "a may come before b";
// an earlier element is kept before a later one that compares equal.
module Sorting {

  ghost predicate Total<T(!new)>(le: (T, T) -> bool) {
    forall a, b :: le(a, b) || le(b, a)
  }

  ghost predicate Transitive<T(!new)>(le: (T, T) -> bool) {
    forall a, b, c :: le(a, b) && le(b, c) ==> le(a, c)
  }

  ghost predicate AdjacentSorted<T>(s: seq<T>, le: (T, T) -> bool) {
    forall i :: 0 <= i < |s| - 1 ==> le(s[i], s[i + 1])
  }

  ghost predicate Sorted<T>(s: seq<T>, le: (T, T) -> bool) {
    forall i, j :: 0 <= i < j < |s| ==> le(s[i], s[j])
  }

  ghost predicate Antisymmetric<T(!new)>(le: (T, T) -> bool) {
    forall a, b :: le(a, b) && le(b, a) ==> a == b
  }

  /** Two sorted sequences that each hold the other's first element start alike. */
  lemma SameHead<T(!new)>(a: seq<T>, b: seq<T>, le: (T, T) -> bool, i: nat, j: nat)
    requires Antisymmetric(le)
    requires Sorted(a, le) && Sorted(b, le)
    requires i < |a| && j < |b|
    requires a[i] == b[0] && b[j] == a[0]
    ensures a[0] == b[0]
  {
    if i > 0 && j > 0 {
      assert le(a[0], a[i]);
      assert le(b[0], b[j]);
    }
  }

  /** Under an antisymmetric order, a sorted arrangement of a multiset is unique. */
  lemma {:induction false} SortedUnique<T(!new)>(a: seq<T>, b: seq<T>, le: (T, T) -> bool)
    requires Antisymmetric(le)
    requires Sorted(a, le) && Sorted(b, le)
    requires multiset(a) == multiset(b)
    ensures a == b
  {
    if a == [] {
      assert |b| == |multiset(b)| == 0;
    } else {
      assert a[0] in multiset(b);
      assert b != [];
      assert b[0] in multiset(a);
      var i :| 0 <= i < |a| && a[i] == b[0];
      var j :| 0 <= j < |b| && b[j] == a[0];
      SameHead(a, b, le, i, j);
      assert a == [a[0]] + a[1..];
      assert b == [b[0]] + b[1..];
      assert multiset(a) == multiset{a[0]} + multiset(a[1..]);
      assert multiset(b) == multiset{a[0]} + multiset(b[1..]);
      assert multiset(a[1..]) == multiset(a) - multiset{a[0]};
      assert multiset(b[1..]) == multiset(b) - multiset{a[0]};
      SortedTail(a, le);
      SortedTail(b, le);
      SortedUnique(a[1..], b[1..], le);
    }
  }

  /** The rest of a sorted sequence is sorted. */
  lemma SortedTail<T>(a: seq<T>, le: (T, T) -> bool)
    requires a != [] && Sorted(a, le)
    ensures Sorted(a[1..], le)
  {
    forall i, j | 0 <= i < j < |a[1..]| ensures le(a[1..][i], a[1..][j]) {
      assert a[1..][i] == a[i + 1] && a[1..][j] == a[j + 1];
    }
  }

  function Insert<T>(x: T, s: seq<T>, le: (T, T) -> bool): (r: seq<T>)
    ensures |r| == |s| + 1
    ensures multiset(r) == multiset(s) + multiset{x}
  {
    if s == [] then [x]
    else if le(x, s[0]) then [x] + s
    else
      assert s == [s[0]] + s[1..];
      [s[0]] + Insert(x, s[1..], le)
  }

  /** Stable insertion sort. */
  function Sort<T>(s: seq<T>, le: (T, T) -> bool): (r: seq<T>)
    ensures |r| == |s|
    ensures multiset(r) == multiset(s)
  {
    if s == [] then []
    else
      assert s == [s[0]] + s[1..];
      Insert(s[0], Sort(s[1..], le), le)
  }

  lemma {:induction false} InsertHead<T>(x: T, s: seq<T>, le: (T, T) -> bool)
    requires s != []
    ensures Insert(x, s, le)[0] == x || Insert(x, s, le)[0] == s[0]
  {
  }

  lemma {:induction false} InsertSorted<T(!new)>(x: T, s: seq<T>, le: (T, T) -> bool)
    requires Total(le)
    requires AdjacentSorted(s, le)
    ensures AdjacentSorted(Insert(x, s, le), le)
  {
    if s != [] && !le(x, s[0]) {
      assert le(s[0], x);
      var t := Insert(x, s[1..], le);
      InsertSorted(x, s[1..], le);
      if s[1..] != [] {
        InsertHead(x, s[1..], le);
        assert le(s[0], s[1]);
      }
      assert Insert(x, s, le) == [s[0]] + t;
    }
  }

  /** With a total comparator every neighbouring pair of the output is in order. */
  lemma {:induction false} SortAdjacentSorted<T(!new)>(s: seq<T>, le: (T, T) -> bool)
    requires Total(le)
    ensures AdjacentSorted(Sort(s, le), le)
  {
    if s != [] {
      SortAdjacentSorted(s[1..], le);
      InsertSorted(s[0], Sort(s[1..], le), le);
    }
  }

  lemma {:induction false} AdjacentToSorted<T(!new)>(s: seq<T>, le: (T, T) -> bool)
    requires Transitive(le)
    requires AdjacentSorted(s, le)
    ensures Sorted(s, le)
  {
    if |s| > 1 {
      AdjacentToSorted(s[1..], le);
      forall j | 1 <= j < |s| ensures le(s[0], s[j]) {
        var k := 1;
        while k < j
          invariant 1 <= k <= j
          invariant le(s[0], s[k])
        {
          assert le(s[k], s[k + 1]);
          k := k + 1;
        }
      }
      forall i, j | 0 <= i < j < |s| ensures le(s[i], s[j]) {
        if i > 0 {
          assert le(s[1..][i - 1], s[1..][j - 1]);
        }
      }
    }
  }

  /** For a total preorder the output is sorted and a permutation of the input. */
  lemma SortSpec<T(!new)>(s: seq<T>, le: (T, T) -> bool)
    requires Total(le) && Transitive(le)
    ensures Sorted(Sort(s, le), le)
    ensures multiset(Sort(s, le)) == multiset(s)
  {
    SortAdjacentSorted(s, le);
    AdjacentToSorted(Sort(s, le), le);
  }

  /** Descending order of an integer key (`(a, b) => key(b) - key(a)`). */
  function Desc<T>(key: T -> int): (T, T) -> bool {
    (a, b) => key(a) >= key(b)
  }

  /** Ascending order of an integer key (`(a, b) => key(a) - key(b)`). */
  function Asc<T>(key: T -> int): (T, T) -> bool {
    (a, b) => key(a) <= key(b)
  }

  /** Sorting by a descending integer key: keys never increase along the output. */
  lemma SortDescSpec<T(!new)>(s: seq<T>, key: T -> int)
    ensures forall i, j :: 0 <= i < j < |Sort(s, Desc(key))| ==>
      key(Sort(s, Desc(key))[i]) >= key(Sort(s, Desc(key))[j])
    ensures multiset(Sort(s, Desc(key))) == multiset(s)
  {
    var le := Desc(key);
    assert Total(le);
    assert Transitive(le);
    SortSpec(s, le);
    var r := Sort(s, le);
    forall i, j | 0 <= i < j < |r| ensures key(r[i]) >= key(r[j]) {
      assert le(r[i], r[j]);
    }
  }

  lemma SortAscSpec<T(!new)>(s: seq<T>, key: T -> int)
    ensures forall i, j :: 0 <= i < j < |Sort(s, Asc(key))| ==>
      key(Sort(s, Asc(key))[i]) <= key(Sort(s, Asc(key))[j])
    ensures multiset(Sort(s, Asc(key))) == multiset(s)
  {
    var le := Asc(key);
    assert Total(le);
    assert Transitive(le);
    SortSpec(s, le);
    var r := Sort(s, le);
    forall i, j | 0 <= i < j < |r| ensures key(r[i]) <= key(r[j]) {
      assert le(r[i], r[j]);
    }
  }

  /** `s.slice(0, n)`. */
  function Take<T>(s: seq<T>, n: nat): (r: seq<T>)
    ensures |r| == if |s| <= n then |s| else n
    ensures r == s[..|r|]
  {
    if |s| <= n then s else s[..n]
  }
  /** A list splits into a prefix and the rest, as multisets too. */
  lemma TakeSplit<T>(s: seq<T>, n: nat)
    ensures s == Take(s, n) + s[|Take(s, n)|..]
    ensures multiset(Take(s, n)) <= multiset(s)
    ensures multiset(s) - multiset(Take(s, n)) == multiset(s[|Take(s, n)|..])
  {
    var r := Take(s, n);
    assert s == r + s[|r|..];
  }

  /** A prefix of a list in descending key order is no lower than what is left out. */
  lemma TakeOfDescending<T>(sorted: seq<T>, key: T -> int, n: nat)
    requires forall i, j :: 0 <= i < j < |sorted| ==> key(sorted[i]) >= key(sorted[j])
    ensures var r := Take(sorted, n);
      && multiset(r) <= multiset(sorted)
      && (forall i, j :: 0 <= i < j < |r| ==> key(r[i]) >= key(r[j]))
      && (forall x, y :: x in r && y in multiset(sorted) - multiset(r) ==> key(x) >= key(y))
  {
    var r := Take(sorted, n);
    TakeSplit(sorted, n);
    forall x, y | x in r && y in multiset(sorted) - multiset(r) ensures key(x) >= key(y) {
      assert y in multiset(sorted[|r|..]);
      PrefixAboveRest(sorted, key, |r|, x, y);
    }
  }

  /** In descending key order, everything before position `m` is no lower than
      everything from `m` on. */
  lemma PrefixAboveRest<T>(sorted: seq<T>, key: T -> int, m: nat, x: T, y: T)
    requires forall i, j :: 0 <= i < j < |sorted| ==> key(sorted[i]) >= key(sorted[j])
    requires m <= |sorted| && x in sorted[..m] && y in sorted[m..]
    ensures key(x) >= key(y)
  {
    var i :| 0 <= i < m && sorted[..m][i] == x;
    var j :| 0 <= j < |sorted| - m && sorted[m..][j] == y;
    assert sorted[i] == x && sorted[m + j] == y;
  }

  /** The first `n` of a list sorted by a descending key: at most `n` of the input,
      still in descending order, and none below an element left out. */
  lemma TakeDescSpec<T(!new)>(s: seq<T>, key: T -> int, n: nat)
    ensures var r := Take(Sort(s, Desc(key)), n);
      && |r| <= n && multiset(r) <= multiset(s)
      && (forall i, j :: 0 <= i < j < |r| ==> key(r[i]) >= key(r[j]))
      && (forall x, y :: x in r && y in multiset(s) - multiset(r) ==> key(x) >= key(y))
  {
    var sorted := Sort(s, Desc(key));
    SortDescSpec(s, key);
    TakeOfDescending(sorted, key, n);
  }

  /** The sum of `f` over a sequence. */
  function SumBy<T>(s: seq<T>, f: T -> int): int
    decreases |s|
  {
    if s == [] then 0 else SumBy(s[..|s| - 1], f) + f(s[|s| - 1])
  }

  lemma {:induction false} SumByAppend<T>(a: seq<T>, b: seq<T>, f: T -> int)
    ensures SumBy(a + b, f) == SumBy(a, f) + SumBy(b, f)
    decreases |b|
  {
    if b == [] {
      assert a + b == a;
    } else {
      assert (a + b)[..|a + b| - 1] == a + b[..|b| - 1];
      SumByAppend(a, b[..|b| - 1], f);
    }
  }

  /** A sequence is what comes before position `j`, the element there, and the rest. */
  lemma SplitAt<T>(t: seq<T>, j: nat)
    requires j < |t|
    ensures t == t[..j] + ([t[j]] + t[j + 1..])
    ensures t == t[..j] + [t[j]] + t[j + 1..]
  {
  }

  /** A non-empty sequence is its front and its last element, as a multiset too. */
  lemma SplitLast<T>(s: seq<T>)
    requires s != []
    ensures s == s[..|s| - 1] + [s[|s| - 1]]
    ensures multiset(s[..|s| - 1]) == multiset(s) - multiset{s[|s| - 1]}
  {
    assert s == s[..|s| - 1] + [s[|s| - 1]];
  }

  /** Taking one element out of a sequence takes its value out of the sum. */
  lemma SumByRemove<T>(t: seq<T>, j: nat, f: T -> int)
    requires j < |t|
    ensures SumBy(t, f) == f(t[j]) + SumBy(t[..j] + t[j + 1..], f)
  {
    var before, x, after := t[..j], t[j], t[j + 1..];
    SplitAt(t, j);
    SumByAppend(before, [x] + after, f);
    SumByAppend([x], after, f);
    SumByAppend(before, after, f);
    assert SumBy([x], f) == f(x) by { assert [x][..0] == []; }
  }

  /** Taking one element out of a sequence takes it out of the multiset. */
  lemma MultisetRemove<T>(t: seq<T>, j: nat)
    requires j < |t|
    ensures multiset(t[..j] + t[j + 1..]) == multiset(t) - multiset{t[j]}
  {
    SplitAt(t, j);
  }

  /** The sum depends only on the multiset of elements, so sorting keeps it. */
  lemma {:induction false} SumByPerm<T>(s: seq<T>, t: seq<T>, f: T -> int)
    requires multiset(s) == multiset(t)
    ensures SumBy(s, f) == SumBy(t, f)
    decreases |s|
  {
    if s == [] {
      assert |t| == |multiset(t)| == 0;
    } else {
      var init, last := s[..|s| - 1], s[|s| - 1];
      SplitLast(s);
      assert last in multiset(t);
      var j :| 0 <= j < |t| && t[j] == last;
      var rest := t[..j] + t[j + 1..];
      MultisetRemove(t, j);
      SumByRemove(t, j, f);
      SumByPerm(init, rest, f);
    }
  }

  /** The number of elements that satisfy `P`. */
  function CountWhere<T>(ps: seq<T>, P: T -> bool): (n: nat)
    ensures n <= |ps|
    decreases |ps|
  {
    if ps == [] then 0 else CountWhere(ps[..|ps| - 1], P) + (if P(ps[|ps| - 1]) then 1 else 0)
  }

  lemma {:induction false} CountWhereAppend<T>(a: seq<T>, b: seq<T>, P: T -> bool)
    ensures CountWhere(a + b, P) == CountWhere(a, P) + CountWhere(b, P)
    decreases |b|
  {
    if b == [] {
      assert a + b == a;
    } else {
      assert (a + b)[..|a + b| - 1] == a + b[..|b| - 1];
      CountWhereAppend(a, b[..|b| - 1], P);
    }
  }

  /** Taking out the element at `j` lowers the count by its own contribution. */
  lemma CountWhereRemove<T>(t: seq<T>, j: nat, P: T -> bool)
    requires j < |t|
    ensures CountWhere(t, P) == CountWhere(t[..j] + t[j + 1..], P) + (if P(t[j]) then 1 else 0)
  {
    var before, x, after := t[..j], t[j], t[j + 1..];
    SplitAt(t, j);
    CountWhereAppend(before, [x] + after, P);
    CountWhereAppend([x], after, P);
    CountWhereAppend(before, after, P);
    assert CountWhere([x], P) == (if P(x) then 1 else 0) by { assert [x][..0] == []; }
  }

  /** The count depends only on the multiset of elements. */
  lemma {:induction false} CountWherePerm<T>(s: seq<T>, t: seq<T>, P: T -> bool)
    requires multiset(s) == multiset(t)
    ensures CountWhere(s, P) == CountWhere(t, P)
    decreases |s|
  {
    if s == [] {
      assert |t| == |multiset(t)| == 0;
      assert t == [];
    } else {
      var init, last := s[..|s| - 1], s[|s| - 1];
      SplitLast(s);
      assert last in multiset(t);
      var j :| 0 <= j < |t| && t[j] == last;
      var rest := t[..j] + t[j + 1..];
      MultisetRemove(t, j);
      CountWhereRemove(t, j, P);
      CountWherePerm(init, rest, P);
      assert CountWhere(s, P) == CountWhere(init, P) + (if P(last) then 1 else 0);
    }
  }

  lemma {:induction false} CountWhereAll<T>(ps: seq<T>, P: T -> bool)
    requires forall i :: 0 <= i < |ps| ==> P(ps[i])
    ensures CountWhere(ps, P) == |ps|
    decreases |ps|
  {
    if ps != [] {
      CountWhereAll(ps[..|ps| - 1], P);
    }
  }

  lemma {:induction false} CountWhereNone<T>(ps: seq<T>, P: T -> bool)
    requires forall i :: 0 <= i < |ps| ==> !P(ps[i])
    ensures CountWhere(ps, P) == 0
    decreases |ps|
  {
    if ps != [] {
      CountWhereNone(ps[..|ps| - 1], P);
    }
  }

  lemma {:induction false} CountWhereMap<T>(raw: seq<T>, r: seq<T>, P: T -> bool, Q: T -> bool)
    requires |r| == |raw| && forall i :: 0 <= i < |r| ==> (P(r[i]) <==> Q(raw[i]))
    ensures CountWhere(r, P) == CountWhere(raw, Q)
    decreases |r|
  {
    if r != [] {
      CountWhereMap(raw[..|raw| - 1], r[..|r| - 1], P, Q);
    }
  }

  /** The first and the last of an ascending sort are a smallest and a largest element. */
  lemma SortedEnds<T(!new)>(rows: seq<T>, at: T -> int)
    requires rows != []
    ensures var sorted := Sort(rows, Asc(at));
      && |sorted| == |rows|
      && sorted[0] in rows && sorted[|sorted| - 1] in rows
      && forall x :: x in rows ==> at(sorted[0]) <= at(x) <= at(sorted[|sorted| - 1])
  {
    var sorted := Sort(rows, Asc(at));
    SortAscSpec(rows, at);
    assert |sorted| == |multiset(sorted)| == |multiset(rows)| == |rows|;
    assert sorted[0] in multiset(rows);
    assert sorted[|sorted| - 1] in multiset(rows);
    forall x | x in rows ensures at(sorted[0]) <= at(x) <= at(sorted[|sorted| - 1]) {
      assert x in multiset(sorted);
      AscEnds(sorted, at, x);
    }
  }

  /** In ascending key order, the first element is no higher and the last no lower
      than any element. */
  lemma AscEnds<T>(sorted: seq<T>, key: T -> int, x: T)
    requires forall i, j :: 0 <= i < j < |sorted| ==> key(sorted[i]) <= key(sorted[j])
    requires x in sorted
    ensures key(sorted[0]) <= key(x) <= key(sorted[|sorted| - 1])
  {
    var b :| 0 <= b < |sorted| && sorted[b] == x;
  }
}
