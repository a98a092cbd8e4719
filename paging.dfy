// The offset-paged collection loop shared by the Mercado Libre scripts: request a
// page at `offset`, stop on an empty or short page, otherwise advance by the page
// size. `pages[k]` is the page the server returns for the k-th request; a request
// past the last page gets the empty answer of a 416 out-of-range reply. `fails(k)`
// says that the k-th request gets any other non-OK answer, on which `fetchPage`
// throws and the whole collection fails.
module Paging {
  import opened Wrappers

  function Concat<T>(pages: seq<seq<T>>): (r: seq<T>)
    ensures pages == [] ==> r == []
  {
    if pages == [] then [] else pages[0] + Concat(pages[1..])
  }

  lemma {:induction false} ConcatSnoc<T>(pages: seq<seq<T>>, p: seq<T>)
    ensures Concat(pages + [p]) == Concat(pages) + p
  {
    if pages == [] {
      assert [] + [p] == [p];
    } else {
      assert (pages + [p])[1..] == pages[1..] + [p];
      ConcatSnoc(pages[1..], p);
    }
  }

  /** What the loop collects from request `k` on. */
  function CollectFrom<T>(pages: seq<seq<T>>, size: nat, k: nat): seq<T>
    decreases |pages| - k
  {
    if k >= |pages| || pages[k] == [] then []
    else if |pages[k]| < size then pages[k]
    else pages[k] + CollectFrom(pages, size, k + 1)
  }

  /** How many pages the loop keeps, from request `k` on. */
  function Kept<T>(pages: seq<seq<T>>, size: nat, k: nat): (n: nat)
    ensures k + n <= |pages| || n == 0
    decreases |pages| - k
  {
    if k >= |pages| || pages[k] == [] then 0
    else if |pages[k]| < size then 1
    else 1 + Kept(pages, size, k + 1)
  }

  /** How many requests the loop makes from request `k` on, the last one included
      (the short page, or the empty answer that ended the loop). */
  function Requests<T>(pages: seq<seq<T>>, size: nat, k: nat): (n: nat)
    ensures n >= 1
    decreases |pages| - k
  {
    if k >= |pages| || pages[k] == [] || |pages[k]| < size then 1
    else 1 + Requests(pages, size, k + 1)
  }

  /** Every kept page cost one request, plus one for the empty answer that ended the loop
      unless it ended on a short page. */
  lemma {:induction false} RequestsKept<T>(pages: seq<seq<T>>, size: nat, k: nat)
    ensures Requests(pages, size, k) == Kept(pages, size, k)
         || (Requests(pages, size, k) == Kept(pages, size, k) + 1
             && (k + Kept(pages, size, k) >= |pages| || pages[k + Kept(pages, size, k)] == []))
    decreases |pages| - k
  {
    if k < |pages| && pages[k] != [] && |pages[k]| >= size {
      RequestsKept(pages, size, k + 1);
    }
  }

  /** `collectAll` when request `j` throws exactly when `fails(j)`: the rows collected,
      or None when one of the requests made threw. */
  function CollectOrFail<T>(pages: seq<seq<T>>, size: nat, fails: nat -> bool, k: nat): Option<seq<T>>
    decreases |pages| - k
  {
    if fails(k) then None
    else if k >= |pages| || pages[k] == [] then Some([])
    else if |pages[k]| < size then Some(pages[k])
    else Prepend(pages[k], CollectOrFail(pages, size, fails, k + 1))
  }

  /** The rows collected before, in front of the rest of the collection unless it failed. */
  function Prepend<T>(rows: seq<T>, rest: Option<seq<T>>): Option<seq<T>> {
    if rest.None? then None else Some(rows + rest.value)
  }

  lemma PrependPrepend<T>(a: seq<T>, b: seq<T>, rest: Option<seq<T>>)
    ensures Prepend(a, Prepend(b, rest)) == Prepend(a + b, rest)
  {
    if rest.Some? {
      assert (a + b) + rest.value == a + (b + rest.value);
    }
  }

  /** The collection fails exactly when one of the requests the loop makes throws;
      otherwise it collects what the loop collects with every request answered. */
  lemma {:induction false} CollectOrFailSpec<T>(pages: seq<seq<T>>, size: nat, fails: nat -> bool, k: nat)
    ensures var r := CollectOrFail(pages, size, fails, k);
      && (r.None? <==> exists j :: k <= j < k + Requests(pages, size, k) && fails(j))
      && (r.Some? ==> r.value == CollectFrom(pages, size, k))
    decreases |pages| - k
  {
    if !fails(k) && k < |pages| && pages[k] != [] && |pages[k]| >= size {
      CollectOrFailSpec(pages, size, fails, k + 1);
      var n := Requests(pages, size, k + 1);
      if exists j :: k + 1 <= j < k + 1 + n && fails(j) {
        var j :| k + 1 <= j < k + 1 + n && fails(j);
        assert k <= j < k + Requests(pages, size, k);
      }
      if exists j :: k <= j < k + Requests(pages, size, k) && fails(j) {
        var j :| k <= j < k + Requests(pages, size, k) && fails(j);
        assert k + 1 <= j < k + 1 + n;
      }
    }
  }

  /** The collected rows are the kept pages in request order; every kept page but the
      last is full, and the loop stopped on a short last page, an empty page or the end. */
  lemma CollectShape<T>(pages: seq<seq<T>>, size: nat, k: nat)
    requires k <= |pages|
    ensures var n := Kept(pages, size, k);
      && k + n <= |pages|
      && CollectFrom(pages, size, k) == Concat(pages[k..k + n])
      && (forall j :: k <= j < k + n ==> pages[j] != [])
      && (forall j :: k <= j < k + n - 1 ==> |pages[j]| >= size)
      && (k + n == |pages| || pages[k + n] == [] || (n > 0 && |pages[k + n - 1]| < size))
  {
    CollectKept(pages, size, k);
    KeptPages(pages, size, k);
  }

  /** The collected rows are the concatenation of the kept pages. */
  lemma {:induction false} CollectKept<T>(pages: seq<seq<T>>, size: nat, k: nat)
    requires k <= |pages|
    ensures var n := Kept(pages, size, k);
      k + n <= |pages| && CollectFrom(pages, size, k) == Concat(pages[k..k + n])
    decreases |pages| - k
  {
    if k < |pages| && pages[k] != [] {
      var n := Kept(pages, size, k);
      var kept := pages[k..k + n];
      assert kept[0] == pages[k];
      if |pages[k]| < size {
        assert kept[1..] == [];
      } else {
        CollectKept(pages, size, k + 1);
        assert kept[1..] == pages[k + 1..k + n];
      }
    }
  }

  /** The kept pages are not empty, all but the last are full, and the loop stopped on the
      page after them. */
  lemma {:induction false} KeptPages<T>(pages: seq<seq<T>>, size: nat, k: nat)
    requires k <= |pages|
    ensures var n := Kept(pages, size, k);
      && (forall j :: k <= j < k + n ==> pages[j] != [])
      && (forall j :: k <= j < k + n - 1 ==> |pages[j]| >= size)
      && (k + n == |pages| || pages[k + n] == [] || (n > 0 && |pages[k + n - 1]| < size))
    decreases |pages| - k
  {
    if k < |pages| && pages[k] != [] && |pages[k]| >= size {
      KeptPages(pages, size, k + 1);
    }
  }

  /** The `while (true)` loop of `collectAll`; `offsets` are the offsets requested, the
      last one the request that threw when the collection failed. */
  method CollectAll<T>(pages: seq<seq<T>>, size: nat, fails: nat -> bool) returns (all: Option<seq<T>>, offsets: seq<nat>)
    ensures all == CollectOrFail(pages, size, fails, 0)
    ensures all.Some? ==> |offsets| == Requests(pages, size, 0)
    ensures forall j :: 0 <= j < |offsets| ==> offsets[j] == j * size
  {
    var rows := [];
    offsets := [];
    var offset: nat := 0;
    var k := 0;
    ghost var whole := CollectOrFail(pages, size, fails, 0);
    if whole.Some? {
      assert rows + whole.value == whole.value;
    }
    while true
      invariant k <= |pages| && offset == k * size && |offsets| == k
      invariant forall j :: 0 <= j < k ==> offsets[j] == j * size
      invariant CollectOrFail(pages, size, fails, 0) == Prepend(rows, CollectOrFail(pages, size, fails, k))
      invariant Requests(pages, size, 0) == k + Requests(pages, size, k)
      decreases |pages| - k
    {
      offsets := offsets + [offset];
      if fails(k) {
        return None, offsets;
      }
      if k == |pages| || pages[k] == [] {
        assert rows + [] == rows;
        return Some(rows), offsets;
      }
      var page := pages[k];
      if |page| < size {
        return Some(rows + page), offsets;
      }
      PrependPrepend(rows, page, CollectOrFail(pages, size, fails, k + 1));
      rows := rows + page;
      offset := offset + size;
      k := k + 1;
    }
  }

  /** The pages a server returns for `rows` when each range request yields `size` rows:
      consecutive slices, the last one possibly short, nothing after the last row. */
  function Chunks<T>(rows: seq<T>, size: nat): (r: seq<seq<T>>)
    requires size > 0
    ensures Concat(r) == rows
    ensures forall j :: 0 <= j < |r| ==> 0 < |r[j]| <= size
    ensures forall j :: 0 <= j < |r| - 1 ==> |r[j]| == size
    decreases |rows|
  {
    if rows == [] then []
    else if |rows| <= size then [rows]
    else
      var rest := Chunks(rows[size..], size);
      assert rows == rows[..size] + rows[size..];
      [rows[..size]] + rest
  }

  lemma {:induction false} CollectFromShift<T>(c: seq<T>, rest: seq<seq<T>>, size: nat, k: nat)
    ensures CollectFrom([c] + rest, size, k + 1) == CollectFrom(rest, size, k)
    decreases |rest| - k
  {
    var p := [c] + rest;
    if k < |rest| {
      assert p[k + 1] == rest[k];
      if rest[k] != [] && |rest[k]| >= size {
        CollectFromShift(c, rest, size, k + 1);
      }
    }
  }

  /** Paging through the whole result set gives back exactly the rows, in order. */
  lemma {:induction false} CollectChunks<T>(rows: seq<T>, size: nat)
    requires size > 0
    ensures CollectFrom(Chunks(rows, size), size, 0) == rows
    decreases |rows|
  {
    if |rows| > size {
      var rest := Chunks(rows[size..], size);
      CollectChunks(rows[size..], size);
      CollectFromShift(rows[..size], rest, size, 0);
      assert rows == rows[..size] + rows[size..];
    }
  }
}
