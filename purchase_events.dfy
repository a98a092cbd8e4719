// src/hooks/useCustomers.ts: purchase events. Mercado Libre rows that share a
// `pack_id` are one purchase; every other row is a purchase of its own.
module PurchaseEvents {
  import opened Wrappers
  import opened Text
  import opened OrderModel

  /** The database id of a stored row. */
  function RowId(o: Order): string { o.id.GetOr("") }

  /** A Mercado Libre row that belongs to a pack. */
  predicate IsPackRow(o: Order) { Truthy(o.packId) && o.channel == MercadoLibre }

  /** The key `countPurchaseEvents` adds to its set: the pack id of a pack row, the row
      id otherwise (the two share one namespace). */
  function EventKey(o: Order): string { if IsPackRow(o) then o.packId.value else RowId(o) }

  function EventKeys(orders: seq<Order>): (s: set<string>)
    ensures forall o :: o in orders ==> EventKey(o) in s
    ensures forall k :: k in s ==> exists o :: o in orders && EventKey(o) == k
  {
    set o | o in orders :: EventKey(o)
  }

  lemma EventKeysSnoc(orders: seq<Order>, o: Order)
    ensures EventKeys(orders + [o]) == EventKeys(orders) + {EventKey(o)}
  {
  }

  /** `countPurchaseEvents`: the size of the set of event keys. */
  method CountPurchaseEvents(orders: seq<Order>) returns (n: nat)
    ensures n == |EventKeys(orders)|
  {
    var seen: set<string> := {};
    var i := 0;
    while i < |orders|
      invariant i <= |orders|
      invariant seen == EventKeys(orders[..i])
    {
      PrefixNext(orders, i);
      EventKeysSnoc(orders[..i], orders[i]);
      seen := seen + {EventKey(orders[i])};
      i := i + 1;
    }
    assert orders[..i] == orders;
    n := |seen|;
  }

  /** There are at least one and at most as many events as rows; rows of one pack count
      once. */
  lemma {:induction false} EventCountBounds(orders: seq<Order>)
    ensures |EventKeys(orders)| <= |orders|
    ensures orders != [] ==> |EventKeys(orders)| >= 1
    ensures forall a, b :: (a in orders && b in orders && IsPackRow(a) && IsPackRow(b) && a.packId == b.packId)
                           ==> EventKey(a) == EventKey(b)
  {
    if orders != [] {
      var init := orders[..|orders| - 1];
      assert orders == init + [orders[|orders| - 1]];
      EventCountBounds(init);
      EventKeysSnoc(init, orders[|orders| - 1]);
    }
  }

  /** An amount as JavaScript adds it: null counts as 0. */
  function Amount(o: Order): int { AmountOrZero(o.totalAmount) }

  function SumAmounts(s: seq<Order>): int
    decreases |s|
  {
    if s == [] then 0 else SumAmounts(s[..|s| - 1]) + Amount(s[|s| - 1])
  }

  lemma {:induction false} SumAmountsUpdate(s: seq<Order>, k: nat, x: Order)
    requires k < |s|
    ensures SumAmounts(s[k := x]) == SumAmounts(s) - Amount(s[k]) + Amount(x)
    decreases |s|
  {
    var n := |s|;
    if k < n - 1 {
      assert s[k := x][..n - 1] == s[..n - 1][k := x];
      SumAmountsUpdate(s[..n - 1], k, x);
    } else {
      assert s[k := x][..n - 1] == s[..n - 1];
    }
  }

  lemma SumAmountsSnoc(s: seq<Order>, o: Order)
    ensures SumAmounts(s + [o]) == SumAmounts(s) + Amount(o)
  {
    assert (s + [o])[..|s|] == s;
  }

  /** The first event of pack `p`, if any. */
  function FindPack(events: seq<Order>, p: string): (r: Option<nat>)
    ensures r.Some? ==> r.value < |events| && IsPackRow(events[r.value]) && events[r.value].packId.value == p
    ensures r.Some? ==> forall k :: 0 <= k < r.value ==> !(IsPackRow(events[k]) && events[k].packId.value == p)
    ensures r.None? <==> forall k :: 0 <= k < |events| ==> !(IsPackRow(events[k]) && events[k].packId.value == p)
  {
    if events == [] then None
    else if IsPackRow(events[0]) && events[0].packId.value == p then Some(0)
    else
      var r := FindPack(events[1..], p);
      assert forall k :: 1 <= k < |events| ==> events[k] == events[1..][k - 1];
      if r.None? then None else Some(r.value + 1)
  }

  /** `existing.total_amount += order.total_amount` on the merged copy. */
  function AddAmount(e: Order, o: Order): (r: Order)
    ensures Amount(r) == Amount(e) + Amount(o)
    ensures r == e.(totalAmount := r.totalAmount)
  {
    e.(totalAmount := Some(Amount(e) + Amount(o)))
  }

  /** `groupToEvents`, row by row: a non-pack row is appended; the first row of a pack
      is appended as the pack's event; a later row of the pack adds its amount to that
      event. */
  function Group(orders: seq<Order>): seq<Order>
    decreases |orders|
  {
    if orders == [] then [] else GroupRow(Group(orders[..|orders| - 1]), orders[|orders| - 1])
  }

  /** One row of `groupToEvents` applied to the events so far. */
  function GroupRow(init: seq<Order>, o: Order): seq<Order> {
    if !IsPackRow(o) then init + [o]
    else
      var k := FindPack(init, o.packId.value);
      if k.None? then init + [o] else init[k.value := AddAmount(init[k.value], o)]
  }

  lemma GroupSnoc(orders: seq<Order>, o: Order)
    ensures Group(orders + [o]) == GroupRow(Group(orders), o)
  {
    assert (orders + [o])[..|orders|] == orders;
  }

  /** A row adds its amount to the events' total, whichever way it is grouped. */
  lemma GroupRowSum(init: seq<Order>, o: Order)
    ensures SumAmounts(GroupRow(init, o)) == SumAmounts(init) + Amount(o)
  {
    SumAmountsSnoc(init, o);
    if IsPackRow(o) && FindPack(init, o.packId.value).Some? {
      var k := FindPack(init, o.packId.value).value;
      SumAmountsUpdate(init, k, AddAmount(init[k], o));
    }
  }

  lemma {:induction false} FindPackSnoc(events: seq<Order>, o: Order, p: string)
    ensures FindPack(events + [o], p) ==
      if FindPack(events, p).Some? then FindPack(events, p)
      else if IsPackRow(o) && o.packId.value == p then Some(|events|) else None
  {
    if events != [] {
      assert (events + [o])[0] == events[0];
      assert (events + [o])[1..] == events[1..] + [o];
      FindPackSnoc(events[1..], o, p);
    }
  }

  lemma {:induction false} FindPackUpdate(events: seq<Order>, k: nat, x: Order, p: string)
    requires k < |events| && IsPackRow(x) && IsPackRow(events[k]) && x.packId == events[k].packId
    ensures FindPack(events[k := x], p) == FindPack(events, p)
  {
    var e := events[k := x];
    var r, r0 := FindPack(e, p), FindPack(events, p);
    if r0.Some? {
      SameMatch(events, k, x, p, r0.value);
      SameMatch(events, k, x, p, r.value);
      assert r.value == r0.value;
    } else {
      forall j | 0 <= j < |e|
        ensures !(IsPackRow(e[j]) && e[j].packId.value == p)
      {
        SameMatch(events, k, x, p, j);
      }
    }
  }

  lemma SameMatch(events: seq<Order>, k: nat, x: Order, p: string, j: nat)
    requires k < |events| && IsPackRow(x) && IsPackRow(events[k]) && x.packId == events[k].packId
    requires j < |events|
    ensures IsPackRow(events[k := x][j]) && events[k := x][j].packId.value == p <==>
      IsPackRow(events[j]) && events[j].packId.value == p
  {
  }

  /** `packMap` holds, for every pack with an event in `result`, the index of that
      event (the merged copy the JavaScript map points to). */
  ghost predicate MapOk(packMap: map<string, nat>, result: seq<Order>) {
    && (forall p :: p in packMap <==> FindPack(result, p).Some?)
    && (forall p :: p in packMap ==> packMap[p] == FindPack(result, p).value)
  }

  lemma MapOkSingle(packMap: map<string, nat>, result: seq<Order>, o: Order)
    requires MapOk(packMap, result) && !IsPackRow(o)
    ensures MapOk(packMap, result + [o])
  {
    forall p ensures FindPack(result + [o], p) == FindPack(result, p) {
      FindPackSnoc(result, o, p);
    }
  }

  lemma MapOkNew(packMap: map<string, nat>, result: seq<Order>, o: Order)
    requires MapOk(packMap, result) && IsPackRow(o) && o.packId.value !in packMap
    ensures MapOk(packMap[o.packId.value := |result|], result + [o])
  {
    forall p ensures FindPack(result + [o], p) == if p == o.packId.value then Some(|result|) else FindPack(result, p) {
      FindPackSnoc(result, o, p);
    }
  }

  lemma MapOkUpdate(packMap: map<string, nat>, result: seq<Order>, o: Order)
    requires MapOk(packMap, result) && IsPackRow(o) && o.packId.value in packMap
    ensures packMap[o.packId.value] < |result|
    ensures MapOk(packMap, result[packMap[o.packId.value] := AddAmount(result[packMap[o.packId.value]], o)])
  {
    var k := packMap[o.packId.value];
    var x := AddAmount(result[k], o);
    forall p ensures FindPack(result[k := x], p) == FindPack(result, p) {
      FindPackUpdate(result, k, x, p);
    }
  }

  /** One iteration of the loop, stated on the map. */
  lemma GroupStep(orders: seq<Order>, i: nat, result: seq<Order>, packMap: map<string, nat>)
    requires i < |orders| && result == Group(orders[..i]) && MapOk(packMap, result)
    ensures var o := orders[i];
      IsPackRow(o) && o.packId.value in packMap ==> packMap[o.packId.value] < |result|
    ensures var o := orders[i];
      Group(orders[..i + 1]) ==
        if !IsPackRow(o) || o.packId.value !in packMap then result + [o]
        else result[packMap[o.packId.value] := AddAmount(result[packMap[o.packId.value]], o)]
  {
    PrefixNext(orders, i);
    GroupSnoc(orders[..i], orders[i]);
  }

  /** The loop of `groupToEvents`. */
  method GroupToEvents(orders: seq<Order>) returns (result: seq<Order>)
    ensures result == Group(orders)
  {
    result := [];
    var packMap: map<string, nat> := map[];
    var i := 0;
    while i < |orders|
      invariant i <= |orders|
      invariant result == Group(orders[..i])
      invariant MapOk(packMap, result)
    {
      var o := orders[i];
      GroupStep(orders, i, result, packMap);
      if !IsPackRow(o) {
        MapOkSingle(packMap, result, o);
        result := result + [o];
      } else if o.packId.value !in packMap {
        MapOkNew(packMap, result, o);
        packMap := packMap[o.packId.value := |result|];
        result := result + [o];
      } else {
        MapOkUpdate(packMap, result, o);
        var k := packMap[o.packId.value];
        result := result[k := AddAmount(result[k], o)];
      }
      i := i + 1;
    }
    assert orders[..i] == orders;
  }

  /** The rows of pack `p`. */
  function PackRows(orders: seq<Order>, p: string): (r: seq<Order>)
    ensures forall x :: x in r <==> x in orders && IsPackRow(x) && x.packId.value == p
    decreases |orders|
  {
    if orders == [] then []
    else
      var init := PackRows(orders[..|orders| - 1], p);
      var o := orders[|orders| - 1];
      assert orders == orders[..|orders| - 1] + [o];
      if IsPackRow(o) && o.packId.value == p then init + [o] else init
  }

  /** The rows that are not pack rows, in order. */
  function Singles(orders: seq<Order>): (r: seq<Order>)
    ensures forall x :: x in r ==> !IsPackRow(x)
    decreases |orders|
  {
    if orders == [] then []
    else
      var init := Singles(orders[..|orders| - 1]);
      var o := orders[|orders| - 1];
      if !IsPackRow(o) then init + [o] else init
  }

  lemma SinglesSnoc(s: seq<Order>, o: Order)
    ensures Singles(s + [o]) == if !IsPackRow(o) then Singles(s) + [o] else Singles(s)
  {
    assert (s + [o])[..|s|] == s;
  }

  lemma PackRowsSnoc(s: seq<Order>, o: Order, p: string)
    ensures PackRows(s + [o], p) == if IsPackRow(o) && o.packId.value == p then PackRows(s, p) + [o] else PackRows(s, p)
  {
    assert (s + [o])[..|s|] == s;
  }

  lemma {:induction false} SinglesUpdate(s: seq<Order>, k: nat, x: Order)
    requires k < |s| && IsPackRow(s[k]) && IsPackRow(x)
    ensures Singles(s[k := x]) == Singles(s)
    decreases |s|
  {
    var n := |s|;
    if k < n - 1 {
      assert s[k := x][..n - 1] == s[..n - 1][k := x];
      SinglesUpdate(s[..n - 1], k, x);
    } else {
      assert s[k := x][..n - 1] == s[..n - 1];
    }
  }

  /** The non-pack rows pass through `groupToEvents` unchanged and in order. */
  lemma {:induction false} GroupSingles(orders: seq<Order>)
    ensures Singles(Group(orders)) == Singles(orders)
    decreases |orders|
  {
    if orders != [] {
      var s := orders[..|orders| - 1];
      var o := orders[|orders| - 1];
      assert orders == s + [o];
      GroupSingles(s);
      GroupSnoc(s, o);
      SinglesSnoc(s, o);
      var init := Group(s);
      SinglesSnoc(init, o);
      if IsPackRow(o) && FindPack(init, o.packId.value).Some? {
        var k := FindPack(init, o.packId.value).value;
        SinglesUpdate(init, k, AddAmount(init[k], o));
      }
    }
  }

  /** No amount is lost or counted twice. */
  lemma {:induction false} GroupSum(orders: seq<Order>)
    ensures SumAmounts(Group(orders)) == SumAmounts(orders)
    decreases |orders|
  {
    if orders != [] {
      var s := orders[..|orders| - 1];
      var o := orders[|orders| - 1];
      assert orders == s + [o];
      GroupSum(s);
      GroupSnoc(s, o);
      SumAmountsSnoc(s, o);
      GroupRowSum(Group(s), o);
    }
  }

  /** No two events belong to the same pack. */
  lemma {:induction false} GroupDistinct(orders: seq<Order>)
    ensures DistinctPacks(Group(orders))
    decreases |orders|
  {
    if orders != [] {
      var s := orders[..|orders| - 1];
      var o := orders[|orders| - 1];
      assert orders == s + [o];
      GroupDistinct(s);
      GroupSnoc(s, o);
      var init := Group(s);
      if IsPackRow(o) && FindPack(init, o.packId.value).Some? {
        var k := FindPack(init, o.packId.value).value;
        DistinctAfterUpdate(init, k, AddAmount(init[k], o));
      } else {
        DistinctAfterSnoc(init, o);
      }
    }
  }

  /** The event of pack `p`, when the pack has rows: the pack's first row carrying the
      pack's total amount. */
  ghost predicate PackEventOk(events: seq<Order>, orders: seq<Order>, p: string) {
    && (FindPack(events, p).Some? <==> PackRows(orders, p) != [])
    && (FindPack(events, p).Some? ==>
         var e := events[FindPack(events, p).value];
         && Amount(e) == SumAmounts(PackRows(orders, p))
         && e.(totalAmount := None) == PackRows(orders, p)[0].(totalAmount := None))
  }

  /** A row outside pack `p` leaves its event as it was. */
  lemma PackEventOther(s: seq<Order>, o: Order, p: string)
    requires PackEventOk(Group(s), s, p)
    requires !(IsPackRow(o) && o.packId.value == p)
    ensures PackEventOk(Group(s + [o]), s + [o], p)
  {
    GroupSnoc(s, o);
    PackRowsSnoc(s, o, p);
    var init := Group(s);
    if IsPackRow(o) && FindPack(init, o.packId.value).Some? {
      var k := FindPack(init, o.packId.value).value;
      FindPackUpdate(init, k, AddAmount(init[k], o), p);
    } else {
      FindPackSnoc(init, o, p);
    }
  }

  /** A later row of pack `p` adds its amount to the pack's event. */
  lemma PackEventMerge(s: seq<Order>, o: Order, p: string)
    requires PackEventOk(Group(s), s, p)
    requires IsPackRow(o) && o.packId.value == p && FindPack(Group(s), p).Some?
    ensures PackEventOk(Group(s + [o]), s + [o], p)
  {
    GroupSnoc(s, o);
    PackRowsSnoc(s, o, p);
    var init := Group(s);
    var k := FindPack(init, p).value;
    FindPackUpdate(init, k, AddAmount(init[k], o), p);
    SumAmountsSnoc(PackRows(s, p), o);
  }

  /** The first row of pack `p` becomes the pack's event. */
  lemma PackEventNew(s: seq<Order>, o: Order, p: string)
    requires PackEventOk(Group(s), s, p)
    requires IsPackRow(o) && o.packId.value == p && FindPack(Group(s), p).None?
    ensures PackEventOk(Group(s + [o]), s + [o], p)
  {
    GroupSnoc(s, o);
    PackRowsSnoc(s, o, p);
    FindPackSnoc(Group(s), o, p);
    assert PackRows(s + [o], p) == [o];
    assert SumAmounts([o]) == SumAmounts([]) + Amount(o);
  }

  lemma PackEventStep(s: seq<Order>, o: Order, p: string)
    requires PackEventOk(Group(s), s, p)
    ensures PackEventOk(Group(s + [o]), s + [o], p)
  {
    if !(IsPackRow(o) && o.packId.value == p) {
      PackEventOther(s, o, p);
    } else if FindPack(Group(s), p).Some? {
      PackEventMerge(s, o, p);
    } else {
      PackEventNew(s, o, p);
    }
  }

  /** Every pack present has exactly one event (see `GroupDistinct`), which is its
      first row with the pack's total amount. */
  lemma {:induction false} GroupPacks(orders: seq<Order>, p: string)
    ensures PackEventOk(Group(orders), orders, p)
    decreases |orders|
  {
    if orders != [] {
      var s := orders[..|orders| - 1];
      assert orders == s + [orders[|orders| - 1]];
      GroupPacks(s, p);
      PackEventStep(s, orders[|orders| - 1], p);
    }
  }

  ghost predicate DistinctPacks(events: seq<Order>) {
    forall i, j :: 0 <= i < j < |events| && IsPackRow(events[i]) && IsPackRow(events[j])
      ==> events[i].packId != events[j].packId
  }

  lemma DistinctAfterSnoc(events: seq<Order>, o: Order)
    requires DistinctPacks(events)
    requires IsPackRow(o) ==> FindPack(events, o.packId.value).None?
    ensures DistinctPacks(events + [o])
  {
    var e := events + [o];
    forall i, j | 0 <= i < j < |e| && IsPackRow(e[i]) && IsPackRow(e[j]) ensures e[i].packId != e[j].packId {
      if j == |events| {
        assert !(IsPackRow(events[i]) && events[i].packId.value == o.packId.value);
      }
    }
  }

  lemma DistinctAfterUpdate(events: seq<Order>, k: nat, x: Order)
    requires DistinctPacks(events)
    requires k < |events| && IsPackRow(events[k]) && IsPackRow(x) && x.packId == events[k].packId
    ensures DistinctPacks(events[k := x])
  {
  }
}
