// src/hooks/useCustomers.ts: customer profiles built from the stored orders, the
// VIP cut (top 20% by lifetime value) and the summary figures.
module Customers {
  import opened Wrappers
  import opened Text
  import opened OrderModel
  import opened PurchaseEvents
  import opened OrderedMap
  import Sorting

  /** The profile key: `ml:<id>` for Mercado Libre customers, otherwise
      `wix:<email or id, lower-cased>`; Falabella customers fall into the second form. */
  function CustomerKey(c: Customer): string {
    if c.source == MercadoLibre then "ml:" + c.id else "wix:" + ToLower(Or(c.email, c.id))
  }

  /** Mercado Libre keys and the others never collide, and a Mercado Libre key
      identifies the customer id; a Falabella customer is keyed like a Wix one. */
  lemma KeyHead(c: Customer)
    ensures |CustomerKey(c)| >= 3 && CustomerKey(c)[0] == if c.source == MercadoLibre then 'm' else 'w'
  {
  }

  lemma CustomerKeySpec(a: Customer, b: Customer)
    ensures CustomerKey(a) == CustomerKey(b) ==> (a.source == MercadoLibre <==> b.source == MercadoLibre)
    ensures CustomerKey(a) == CustomerKey(b) && a.source == MercadoLibre ==> a.id == b.id
    ensures a.source == Falabella ==> CustomerKey(a)[..4] == "wix:"
  {
    KeyHead(a);
    KeyHead(b);
    if CustomerKey(a) == CustomerKey(b) && a.source == MercadoLibre && b.source == MercadoLibre {
      assert CustomerKey(a)[3..] == a.id && CustomerKey(b)[3..] == b.id;
    }
  }

  /** The display name chosen when a profile is created. */
  function DisplayName(c: Customer): string {
    if c.source == Wix then
      var names := Join(NonEmpty([OrEmpty(c.firstName), OrEmpty(c.lastName)]), " ");
      if names != "" then names else Or(c.email, c.id)
    else Or(c.nickname, "ML-" + c.id)
  }

  /** Wix: both names when present, one of them when only one is, else the email, else
      the id. Every other source (Falabella included): the nickname, else `ML-<id>`. */
  lemma DisplayNameSpec(c: Customer)
    ensures c.source == Wix && Truthy(c.firstName) && Truthy(c.lastName) ==>
      DisplayName(c) == c.firstName.value + " " + c.lastName.value
    ensures c.source == Wix && Truthy(c.firstName) && !Truthy(c.lastName) ==> DisplayName(c) == c.firstName.value
    ensures c.source == Wix && !Truthy(c.firstName) && Truthy(c.lastName) ==> DisplayName(c) == c.lastName.value
    ensures c.source == Wix && !Truthy(c.firstName) && !Truthy(c.lastName) ==> DisplayName(c) == Or(c.email, c.id)
    ensures c.source != Wix ==> DisplayName(c) == Or(c.nickname, "ML-" + c.id)
  {
    var f := OrEmpty(c.firstName);
    var l := OrEmpty(c.lastName);
    assert [f, l][1..] == [l];
    assert NonEmpty([l]) == if l == "" then [] else [l];
  }

  function KeyOf(o: Order): string { CustomerKey(o.customer) }

  /** The keys in the order the profile map first sees them. */
  function KeyOrder(orders: seq<Order>): seq<string>
    decreases |orders|
  {
    if orders == [] then []
    else
      var init := KeyOrder(orders[..|orders| - 1]);
      var k := KeyOf(orders[|orders| - 1]);
      if k in init then init else init + [k]
  }

  /** The orders of one key, in input order. */
  function OrdersOf(orders: seq<Order>, key: string): seq<Order>
    decreases |orders|
  {
    if orders == [] then []
    else
      var init := OrdersOf(orders[..|orders| - 1], key);
      if KeyOf(orders[|orders| - 1]) == key then init + [orders[|orders| - 1]] else init
  }

  /** A profile-map record before the profile is built. */
  datatype Entry = Entry(
    channel: Channel,
    displayName: string,
    email: Option<string>,
    phone: Option<string>,
    nickname: Option<string>,
    customerId: string,
    orders: seq<Order>,
    ltv: int)

  /** The record of a key's orders: identity fields from the first of them, all of
      them, and the sum of their amounts. */
  function EntryOf(rows: seq<Order>): Entry {
    if rows == [] then Entry(Wix, "", None, None, None, "", [], 0)
    else
      var c := rows[0].customer;
      Entry(c.source, DisplayName(c), c.email, c.phone, c.nickname, c.id, rows, SumAmounts(rows))
  }

  lemma KeyOrderSnoc(s: seq<Order>, o: Order)
    ensures KeyOrder(s + [o]) == if KeyOf(o) in KeyOrder(s) then KeyOrder(s) else KeyOrder(s) + [KeyOf(o)]
  {
    assert (s + [o])[..|s|] == s;
  }

  lemma OrdersOfSnoc(s: seq<Order>, o: Order, key: string)
    ensures OrdersOf(s + [o], key) == if KeyOf(o) == key then OrdersOf(s, key) + [o] else OrdersOf(s, key)
  {
    assert (s + [o])[..|s|] == s;
  }

  /** The keys are those of the orders, each listed once. */
  lemma {:induction false} KeyOrderSpec(orders: seq<Order>)
    ensures forall k :: k in KeyOrder(orders) <==> exists i :: 0 <= i < |orders| && KeyOf(orders[i]) == k
    ensures forall i, j :: 0 <= i < j < |KeyOrder(orders)| ==> KeyOrder(orders)[i] != KeyOrder(orders)[j]
    decreases |orders|
  {
    if orders != [] {
      var s := orders[..|orders| - 1];
      assert orders == s + [orders[|orders| - 1]];
      KeyOrderSpec(s);
      KeyOrderSnoc(s, orders[|orders| - 1]);
      assert forall i :: 0 <= i < |s| ==> s[i] == orders[i];
    }
  }

  /** A key's rows are exactly the orders of that key, its first row is the first
      order of the key, and a key has rows iff it is listed. */
  lemma OrdersOfSpec(orders: seq<Order>, key: string)
    ensures forall o :: o in OrdersOf(orders, key) <==> o in orders && KeyOf(o) == key
    ensures OrdersOf(orders, key) != [] <==> key in KeyOrder(orders)
    ensures OrdersOf(orders, key) != [] ==>
      exists i :: FirstOfKeyAt(orders, key, i) && orders[i] == OrdersOf(orders, key)[0]
  {
    OrdersOfMembers(orders, key);
    OrdersOfListed(orders, key);
    OrdersOfFirst(orders, key);
  }

  lemma {:induction false} OrdersOfMembers(orders: seq<Order>, key: string)
    ensures forall o :: o in OrdersOf(orders, key) <==> o in orders && KeyOf(o) == key
    decreases |orders|
  {
    if orders != [] {
      var s := orders[..|orders| - 1];
      var o := orders[|orders| - 1];
      Sorting.SplitLast(orders);
      OrdersOfMembers(s, key);
      OrdersOfSnoc(s, o, key);
    }
  }

  lemma {:induction false} OrdersOfListed(orders: seq<Order>, key: string)
    ensures OrdersOf(orders, key) != [] <==> key in KeyOrder(orders)
    decreases |orders|
  {
    if orders != [] {
      var s := orders[..|orders| - 1];
      var o := orders[|orders| - 1];
      Sorting.SplitLast(orders);
      OrdersOfListed(s, key);
      OrdersOfSnoc(s, o, key);
      KeyOrderSnoc(s, o);
    }
  }

  /** Row `i` is the first order of `key`. */
  ghost predicate FirstOfKeyAt(orders: seq<Order>, key: string, i: int) {
    0 <= i < |orders| && KeyOf(orders[i]) == key && forall j :: 0 <= j < i ==> KeyOf(orders[j]) != key
  }

  lemma {:induction false} OrdersOfFirst(orders: seq<Order>, key: string)
    ensures OrdersOf(orders, key) != [] ==>
      exists i :: FirstOfKeyAt(orders, key, i) && orders[i] == OrdersOf(orders, key)[0]
    decreases |orders|
  {
    if orders != [] {
      var s := orders[..|orders| - 1];
      var o := orders[|orders| - 1];
      assert OrdersOf(orders, key) == if KeyOf(o) == key then OrdersOf(s, key) + [o] else OrdersOf(s, key);
      if OrdersOf(s, key) != [] {
        OrdersOfFirst(s, key);
        var i :| FirstOfKeyAt(s, key, i) && s[i] == OrdersOf(s, key)[0];
        assert OrdersOf(orders, key)[0] == OrdersOf(s, key)[0];
        FirstOfKeyPrefix(orders, s, key, i);
      } else if KeyOf(o) == key {
        OrdersOfMembers(s, key);
        FirstOfKeyLast(orders, s, key);
        assert orders[|s|] == OrdersOf(orders, key)[0];
      }
    }
  }

  lemma FirstOfKeyPrefix(orders: seq<Order>, s: seq<Order>, key: string, i: int)
    requires |s| <= |orders| && s == orders[..|s|] && FirstOfKeyAt(s, key, i)
    ensures FirstOfKeyAt(orders, key, i) && orders[i] == s[i]
  {
    assert forall j :: 0 <= j <= i ==> orders[j] == s[j];
  }

  lemma FirstOfKeyLast(orders: seq<Order>, s: seq<Order>, key: string)
    requires |orders| == |s| + 1 && s == orders[..|s|] && KeyOf(orders[|s|]) == key
    requires forall o :: o in s ==> KeyOf(o) != key
    ensures FirstOfKeyAt(orders, key, |s|)
  {
    assert forall j :: 0 <= j < |s| ==> s[j] in s && orders[j] == s[j];
  }

  /** The profile map after `orders`, as the loop keeps it. */
  ghost predicate MapMatches(orders: seq<Order>, keys: seq<string>, profileMap: map<string, Entry>) {
    && keys == KeyOrder(orders)
    && (forall k :: k in profileMap <==> k in keys)
    && EntriesMatch(orders, profileMap)
  }

  /** Every record holds its key's rows. */
  ghost predicate EntriesMatch(orders: seq<Order>, profileMap: map<string, Entry>) {
    forall k :: k in profileMap ==> profileMap[k] == EntryOf(OrdersOf(orders, k))
  }

  /** An order of a key already in the map joins that key's record. */
  lemma MapStepKnown(orders: seq<Order>, i: nat, keys: seq<string>, profileMap: map<string, Entry>)
    requires i < |orders| && MapMatches(orders[..i], keys, profileMap) && KeyOf(orders[i]) in profileMap
    ensures var o := orders[i];
      var e := profileMap[KeyOf(o)];
      MapMatches(orders[..i + 1], keys, profileMap[KeyOf(o) := e.(orders := e.orders + [o], ltv := e.ltv + Amount(o))])
  {
    PrefixNext(orders, i);
    KeyOrderSnoc(orders[..i], orders[i]);
    OrdersOfListed(orders[..i], KeyOf(orders[i]));
    EntriesKnown(orders[..i], orders[i], profileMap);
  }

  lemma EntriesKnown(s: seq<Order>, o: Order, profileMap: map<string, Entry>)
    requires EntriesMatch(s, profileMap) && KeyOf(o) in profileMap && OrdersOf(s, KeyOf(o)) != []
    ensures var e := profileMap[KeyOf(o)];
      EntriesMatch(s + [o], profileMap[KeyOf(o) := e.(orders := e.orders + [o], ltv := e.ltv + Amount(o))])
  {
    var k0 := KeyOf(o);
    var e := profileMap[k0];
    var m := profileMap[k0 := e.(orders := e.orders + [o], ltv := e.ltv + Amount(o))];
    forall k | k in m ensures m[k] == EntryOf(OrdersOf(s + [o], k)) {
      OrdersOfSnoc(s, o, k);
      if k == k0 {
        var rows := OrdersOf(s, k0);
        SumAmountsSnoc(rows, o);
        assert (rows + [o])[0] == rows[0];
      }
    }
  }

  /** An order of a new key opens a record of its own. */
  lemma MapStepNew(orders: seq<Order>, i: nat, keys: seq<string>, profileMap: map<string, Entry>)
    requires i < |orders| && MapMatches(orders[..i], keys, profileMap) && KeyOf(orders[i]) !in profileMap
    ensures var o := orders[i];
      MapMatches(orders[..i + 1], keys + [KeyOf(o)], profileMap[KeyOf(o) := EntryOf([o])])
  {
    PrefixNext(orders, i);
    KeyOrderSnoc(orders[..i], orders[i]);
    OrdersOfListed(orders[..i], KeyOf(orders[i]));
    EntriesNew(orders[..i], orders[i], profileMap);
  }

  lemma EntriesNew(s: seq<Order>, o: Order, profileMap: map<string, Entry>)
    requires EntriesMatch(s, profileMap) && OrdersOf(s, KeyOf(o)) == []
    ensures EntriesMatch(s + [o], profileMap[KeyOf(o) := EntryOf([o])])
  {
    var k0 := KeyOf(o);
    var m := profileMap[k0 := EntryOf([o])];
    forall k | k in m ensures m[k] == EntryOf(OrdersOf(s + [o], k)) {
      OrdersOfSnoc(s, o, k);
      if k == k0 {
        assert [] + [o] == [o];
      }
    }
  }

  /** One pass of the loop: the order joins its key's record, or opens a new one. */
  method AddOrder(orders: seq<Order>, i: nat, keys: seq<string>, profileMap: map<string, Entry>)
    returns (keysAfter: seq<string>, mapAfter: map<string, Entry>)
    requires i < |orders| && MapMatches(orders[..i], keys, profileMap)
    ensures MapMatches(orders[..i + 1], keysAfter, mapAfter)
  {
    var order := orders[i];
    var key := KeyOf(order);
    if key in profileMap {
      MapStepKnown(orders, i, keys, profileMap);
      var existing := profileMap[key];
      mapAfter := profileMap[key := existing.(orders := existing.orders + [order], ltv := existing.ltv + Amount(order))];
      keysAfter := keys;
    } else {
      MapStepNew(orders, i, keys, profileMap);
      mapAfter := profileMap[key := EntryOf([order])];
      keysAfter := keys + [key];
    }
  }

  /** The `for (const order of orders)` loop that fills `profileMap`; `keys` is the
      map's insertion order. */
  method CollectProfiles(orders: seq<Order>) returns (keys: seq<string>, profileMap: map<string, Entry>)
    ensures keys == KeyOrder(orders)
    ensures forall k :: k in profileMap <==> k in keys
    ensures forall k :: k in profileMap ==> OrdersOf(orders, k) != [] && profileMap[k] == EntryOf(OrdersOf(orders, k))
  {
    keys := [];
    profileMap := map[];
    var i := 0;
    while i < |orders|
      invariant i <= |orders|
      invariant MapMatches(orders[..i], keys, profileMap)
    {
      keys, profileMap := AddOrder(orders, i, keys, profileMap);
      i := i + 1;
    }
    assert orders[..i] == orders;
    forall k | k in profileMap ensures OrdersOf(orders, k) != [] {
      OrdersOfListed(orders, k);
    }
  }

  // ----- Frequency tables: `itemFreq` and `cityFreq` -----

  /** A map from name to accumulated weight, in insertion order. */
  function Freq(pairs: seq<(string, int)>): (f: seq<(string, int)>)
    decreases |pairs|
  {
    if pairs == [] then []
    else
      var init := Freq(pairs[..|pairs| - 1]);
      var p := pairs[|pairs| - 1];
      Put(init, p.0, GetOr(init, p.0, 0) + p.1)
  }

  /** The total weight of a name. */
  function WeightOf(pairs: seq<(string, int)>, name: string): int
    decreases |pairs|
  {
    if pairs == [] then 0
    else
      var p := pairs[|pairs| - 1];
      WeightOf(pairs[..|pairs| - 1], name) + (if p.0 == name then p.1 else 0)
  }

  ghost predicate FreqOk(f: seq<(string, int)>, pairs: seq<(string, int)>) {
    && Distinct(f)
    && (forall i :: 0 <= i < |f| ==> f[i].1 == WeightOf(pairs, f[i].0))
    && Keys(f) == Keys(pairs)
  }

  lemma WeightOfSnoc(pairs: seq<(string, int)>, p: (string, int), name: string)
    ensures WeightOf(pairs + [p], name) == WeightOf(pairs, name) + (if p.0 == name then p.1 else 0)
  {
    assert (pairs + [p])[..|pairs|] == pairs;
  }

  lemma {:induction false} WeightOfAbsent(pairs: seq<(string, int)>, name: string)
    requires name !in Keys(pairs)
    ensures WeightOf(pairs, name) == 0
    decreases |pairs|
  {
    if pairs != [] {
      var s := pairs[..|pairs| - 1];
      assert pairs == s + [pairs[|pairs| - 1]];
      KeysSnoc(s, pairs[|pairs| - 1]);
      WeightOfAbsent(s, name);
    }
  }

  /** A name not yet in the table is appended with its weight. */
  lemma FreqStepNew(init: seq<(string, int)>, pairs: seq<(string, int)>, p: (string, int))
    requires FreqOk(init, pairs) && p.0 !in Keys(init)
    ensures FreqOk(init + [p], pairs + [p])
  {
    var f := init + [p];
    KeysSnoc(init, p);
    KeysSnoc(pairs, p);
    WeightOfAbsent(pairs, p.0);
    forall i | 0 <= i < |f| ensures f[i].1 == WeightOf(pairs + [p], f[i].0) {
      WeightOfSnoc(pairs, p, f[i].0);
      if i < |init| {
        assert f[i].0 in Keys(init);
      }
    }
    forall i, j | 0 <= i < j < |f| ensures f[i].0 != f[j].0 {
      if j == |init| {
        assert f[i].0 in Keys(init);
      }
    }
  }

  /** A name already at index `k` has its weight increased. */
  lemma FreqStepOld(init: seq<(string, int)>, pairs: seq<(string, int)>, p: (string, int), k: nat)
    requires FreqOk(init, pairs) && k < |init| && init[k].0 == p.0
    ensures FreqOk(init[k := (p.0, init[k].1 + p.1)], pairs + [p])
  {
    var f := init[k := (p.0, init[k].1 + p.1)];
    KeysSnoc(pairs, p);
    forall i | 0 <= i < |f| ensures f[i].1 == WeightOf(pairs + [p], f[i].0) {
      WeightOfSnoc(pairs, p, f[i].0);
    }
    assert forall i :: 0 <= i < |f| ==> f[i].0 == init[k].0 || f[i] == init[i];
    assert Keys(f) == Keys(init) by {
      forall n | n in Keys(init) ensures n in Keys(f) {
        var i :| 0 <= i < |init| && init[i].0 == n;
        assert f[i].0 == n;
      }
    }
  }

  /** Each name appears once with its total weight, and exactly the names of the pairs
      appear. */
  lemma {:induction false} FreqSpec(pairs: seq<(string, int)>)
    ensures FreqOk(Freq(pairs), pairs)
    decreases |pairs|
  {
    if pairs != [] {
      var s := pairs[..|pairs| - 1];
      var p := pairs[|pairs| - 1];
      assert pairs == s + [p];
      FreqSpec(s);
      var init := Freq(s);
      var k := IndexOf(init, p.0);
      if k.None? {
        assert Freq(pairs) == init + [(p.0, 0 + p.1)];
        assert (p.0, 0 + p.1) == p;
        FreqStepNew(init, s, p);
      } else {
        assert Freq(pairs) == init[k.value := (p.0, init[k.value].1 + p.1)];
        FreqStepOld(init, s, p, k.value);
      }
    }
  }

  /** The loop that fills a frequency map. */
  method CountFreq(pairs: seq<(string, int)>) returns (f: seq<(string, int)>)
    ensures f == Freq(pairs)
  {
    f := [];
    var i := 0;
    while i < |pairs|
      invariant i <= |pairs| && f == Freq(pairs[..i])
    {
      var p := pairs[i];
      PrefixNext(pairs, i);
      assert (pairs[..i] + [p])[..i] == pairs[..i];
      f := Put(f, p.0, GetOr(f, p.0, 0) + p.1);
      i := i + 1;
    }
    assert pairs[..i] == pairs;
  }

  /** The first entry after a stable sort by descending weight. */
  function Top(f: seq<(string, int)>): (r: Option<string>)
    ensures r.None? <==> f == []
  {
    var sorted := Sorting.Sort(f, Sorting.Desc((e: (string, int)) => e.1));
    if sorted == [] then None else Some(sorted[0].0)
  }

  /** The top name is one of the table's names and carries the largest weight. */
  lemma TopSpec(f: seq<(string, int)>)
    requires f != []
    ensures exists i :: 0 <= i < |f| && f[i].0 == Top(f).value && forall j :: 0 <= j < |f| ==> f[i].1 >= f[j].1
  {
    var key := (e: (string, int)) => e.1;
    var sorted := Sorting.Sort(f, Sorting.Desc(key));
    Sorting.SortDescSpec(f, key);
    assert sorted[0] in multiset(f);
    var i :| 0 <= i < |f| && f[i] == sorted[0];
    forall j | 0 <= j < |f| ensures f[i].1 >= f[j].1 {
      assert f[j] in multiset(sorted);
      var b :| 0 <= b < |sorted| && sorted[b] == f[j];
      if b > 0 {
        assert key(sorted[0]) >= key(sorted[b]);
      }
    }
  }

  /** The (title, quantity) of every item of every order, in order. */
  function ItemPairs(orders: seq<Order>): seq<(string, int)>
    decreases |orders|
  {
    if orders == [] then []
    else ItemPairs(orders[..|orders| - 1]) + seq(|orders[|orders| - 1].items|,
           i requires 0 <= i < |orders[|orders| - 1].items| =>
             (orders[|orders| - 1].items[i].title, orders[|orders| - 1].items[i].quantity))
  }

  /** One (city, 1) per order with a non-empty shipping city. */
  function CityPairs(orders: seq<Order>): seq<(string, int)>
    decreases |orders|
  {
    if orders == [] then []
    else
      var o := orders[|orders| - 1];
      var init := CityPairs(orders[..|orders| - 1]);
      if o.shippingAddress.Some? && o.shippingAddress.value.city != "" then init + [(o.shippingAddress.value.city, 1)]
      else init
  }

  // ----- Profiles -----

  /** A fraction kept exact: `num / den`. */
  datatype Ratio = Ratio(num: int, den: nat)

  datatype Profile = Profile(
    key: string,
    channel: Channel,
    displayName: string,
    email: Option<string>,
    phone: Option<string>,
    nickname: Option<string>,
    customerId: string,
    orderCount: nat,
    ltv: int,
    avgTicket: Ratio,
    firstOrderDate: Option<string>,
    lastOrderDate: Option<string>,
    orders: seq<Order>,
    isVip: bool,
    isRepeat: bool,
    mostPurchasedProduct: Option<string>,
    preferredCity: Option<string>)

  /** The `rawProfiles` element of one entry; `at` is `new Date(order_date).getTime()`. */
  function RawProfile(key: string, e: Entry, at: Order -> int): Profile {
    var sorted := Sorting.Sort(e.orders, Sorting.Asc(at));
    var eventCount := |EventKeys(e.orders)|;
    Profile(key, e.channel, e.displayName, e.email, e.phone, e.nickname, e.customerId,
            eventCount, e.ltv, Ratio(e.ltv, eventCount),
            if sorted == [] then None else Some(sorted[0].orderDate).value,
            if sorted == [] then None else Some(sorted[|sorted| - 1].orderDate).value,
            Group(sorted), false, eventCount > 1,
            Top(Freq(ItemPairs(e.orders))), Top(Freq(CityPairs(e.orders))))
  }

  /** The `.map` body over one profile-map entry. */
  method BuildProfile(key: string, e: Entry, at: Order -> int) returns (p: Profile)
    ensures p == RawProfile(key, e, at)
  {
    var sorted := Sorting.Sort(e.orders, Sorting.Asc(at));
    var itemFreq := CountFreq(ItemPairs(e.orders));
    var cityFreq := CountFreq(CityPairs(e.orders));
    var eventCount := CountPurchaseEvents(e.orders);
    var eventOrders := GroupToEvents(sorted);
    p := Profile(key, e.channel, e.displayName, e.email, e.phone, e.nickname, e.customerId,
                 eventCount, e.ltv, Ratio(e.ltv, eventCount),
                 if sorted == [] then None else sorted[0].orderDate,
                 if sorted == [] then None else sorted[|sorted| - 1].orderDate,
                 eventOrders, false, eventCount > 1, Top(itemFreq), Top(cityFreq));
  }

  /** A profile counts purchase events, not rows; it is a repeat customer iff it has
      more than one; the average ticket is the lifetime value over the event count; the
      first and last dates are those of its earliest and latest orders. */
  lemma RawProfileSpec(key: string, e: Entry, at: Order -> int)
    requires e.orders != []
    ensures var p := RawProfile(key, e, at);
      && 1 <= p.orderCount <= |e.orders|
      && (p.isRepeat <==> p.orderCount > 1)
      && p.avgTicket == Ratio(p.ltv, p.orderCount)
      && !p.isVip
  {
    EventCountBounds(e.orders);
  }

  /** The dates of a profile are those of its earliest and its latest row. */
  lemma RawProfileDates(key: string, e: Entry, at: Order -> int)
    requires e.orders != []
    ensures var p := RawProfile(key, e, at);
      && (exists o :: o in e.orders && p.firstOrderDate == o.orderDate && forall x :: x in e.orders ==> at(o) <= at(x))
      && (exists o :: o in e.orders && p.lastOrderDate == o.orderDate && forall x :: x in e.orders ==> at(x) <= at(o))
  {
    Sorting.SortedEnds(e.orders, at);
  }

  /** The profile of one key of `orders`. */
  function ProfileOfKey(orders: seq<Order>, k: string, at: Order -> int): Profile {
    RawProfile(k, EntryOf(OrdersOf(orders, k)), at)
  }

  /** The profiles of the keys `ks`, in that order. */
  function Profiles(orders: seq<Order>, ks: seq<string>, at: Order -> int): (r: seq<Profile>)
    ensures |r| == |ks| && forall i :: 0 <= i < |ks| ==> r[i].key == ks[i]
    decreases |ks|
  {
    if ks == [] then [] else Profiles(orders, ks[..|ks| - 1], at) + [ProfileOfKey(orders, ks[|ks| - 1], at)]
  }

  /** `rawProfiles`, in the profile map's insertion order. */
  function RawProfiles(orders: seq<Order>, at: Order -> int): seq<Profile> {
    Profiles(orders, KeyOrder(orders), at)
  }

  // ----- VIP assignment and summary -----

  /** `Math.max(1, Math.ceil(n * 0.2))`. */
  function VipCutoff(n: nat): (c: nat)
    ensures c >= 1 && 5 * c >= n && (n >= 1 ==> 5 * (c - 1) < n)
  {
    if n == 0 then 1 else (n + 4) / 5
  }

  function ByLtv(raw: seq<Profile>): seq<Profile> {
    Sorting.Sort(raw, Sorting.Desc((p: Profile) => p.ltv))
  }

  function VipKeys(raw: seq<Profile>): set<string> {
    var top := Sorting.Take(ByLtv(raw), VipCutoff(|raw|));
    set i | 0 <= i < |top| :: top[i].key
  }

  /** `customers`: the raw profiles with `isVip` set from the top of the LTV ranking. */
  function AssignVip(raw: seq<Profile>): (r: seq<Profile>)
    ensures |r| == |raw|
    ensures forall i :: 0 <= i < |r| ==> r[i] == raw[i].(isVip := raw[i].key in VipKeys(raw))
  {
    var vip := VipKeys(raw);
    seq(|raw|, i requires 0 <= i < |raw| => raw[i].(isVip := raw[i].key in vip))
  }

  ghost predicate DistinctKeys(ps: seq<Profile>) {
    forall i, j :: 0 <= i < j < |ps| ==> ps[i].key != ps[j].key
  }

  lemma RawProfilesDistinct(orders: seq<Order>, at: Order -> int)
    ensures DistinctKeys(RawProfiles(orders, at))
  {
    KeyOrderSpec(orders);
  }

  /** With distinct keys, the element of `raw` with a given key is unique. */
  lemma SameKeySame(raw: seq<Profile>, x: Profile, y: Profile)
    requires DistinctKeys(raw) && x in raw && y in raw && x.key == y.key
    ensures x == y
  {
  }

  /** The first `VipCutoff` places of the ranking hold VIP keys. */
  lemma TopInVip(raw: seq<Profile>, b: nat)
    requires b < |ByLtv(raw)|
    ensures b < VipCutoff(|raw|) ==> ByLtv(raw)[b].key in VipKeys(raw)
  {
    var top := Sorting.Take(ByLtv(raw), VipCutoff(|raw|));
    if b < VipCutoff(|raw|) {
      assert top[b] == ByLtv(raw)[b];
    }
  }

  /** Every VIP has a lifetime value at least that of every customer who is not. */
  lemma VipDominates(raw: seq<Profile>)
    requires DistinctKeys(raw)
    ensures var r := AssignVip(raw);
      forall i, j :: 0 <= i < |r| && 0 <= j < |r| && r[i].isVip && !r[j].isVip ==> r[i].ltv >= r[j].ltv
  {
    var r := AssignVip(raw);
    forall i, j | 0 <= i < |r| && 0 <= j < |r| && r[i].isVip && !r[j].isVip ensures r[i].ltv >= r[j].ltv {
      VipOverNonVip(raw, i, j);
    }
  }

  /** A VIP's lifetime value is at least that of a customer who is not one. */
  lemma VipOverNonVip(raw: seq<Profile>, i: nat, j: nat)
    requires DistinctKeys(raw) && i < |raw| && j < |raw|
    requires raw[i].key in VipKeys(raw) && raw[j].key !in VipKeys(raw)
    ensures raw[i].ltv >= raw[j].ltv
  {
    var key := (p: Profile) => p.ltv;
    var sorted := ByLtv(raw);
    Sorting.SortDescSpec(raw, key);
    var top := Sorting.Take(sorted, VipCutoff(|raw|));
    var a :| 0 <= a < |top| && top[a].key == raw[i].key;
    assert sorted[a] in multiset(raw);
    SameKeySame(raw, sorted[a], raw[i]);
    assert raw[j] in multiset(sorted);
    var b :| 0 <= b < |sorted| && sorted[b] == raw[j];
    TopInVip(raw, b);
    assert key(sorted[a]) >= key(sorted[b]);
  }

  lemma {:induction false} MultiplicityOne(raw: seq<Profile>, x: Profile)
    requires DistinctKeys(raw)
    ensures multiset(raw)[x] <= 1
    decreases |raw|
  {
    if raw != [] {
      var init := raw[..|raw| - 1];
      assert raw == init + [raw[|raw| - 1]];
      MultiplicityOne(init, x);
      if raw[|raw| - 1] == x {
        assert x !in init;
      }
    }
  }

  lemma TwoPositions(s: seq<Profile>, a: nat, b: nat)
    requires a < b < |s| && s[a] == s[b]
    ensures multiset(s)[s[a]] >= 2
  {
    assert s == s[..a] + [s[a]] + s[a + 1..b] + [s[b]] + s[b + 1..];
  }

  /** A permutation of a list with distinct keys has distinct keys. */
  lemma PermDistinct(raw: seq<Profile>, sorted: seq<Profile>)
    requires DistinctKeys(raw) && multiset(sorted) == multiset(raw)
    ensures DistinctKeys(sorted)
  {
    forall a, b | 0 <= a < b < |sorted| ensures sorted[a].key != sorted[b].key {
      assert sorted[a] in multiset(raw) && sorted[b] in multiset(raw);
      var i :| 0 <= i < |raw| && raw[i] == sorted[a];
      var j :| 0 <= j < |raw| && raw[j] == sorted[b];
      MultiplicityOne(raw, sorted[a]);
      if sorted[a].key == sorted[b].key {
        TwoPositions(sorted, a, b);
      }
    }
  }

  /** A place of the ranking at or after the cutoff holds a key that is not VIP. */
  lemma AfterTopNotVip(raw: seq<Profile>, b: nat)
    requires DistinctKeys(ByLtv(raw)) && VipCutoff(|raw|) <= b < |ByLtv(raw)|
    ensures ByLtv(raw)[b].key !in VipKeys(raw)
  {
    var sorted := ByLtv(raw);
    var top := Sorting.Take(sorted, VipCutoff(|raw|));
    forall a | 0 <= a < |top| ensures top[a].key != sorted[b].key {
      assert top[a] == sorted[a];
    }
  }

  function InVip(raw: seq<Profile>): Profile -> bool {
    (p: Profile) => p.key in VipKeys(raw)
  }

  /** Every place before the cutoff holds a VIP key. */
  lemma TopVipCount(raw: seq<Profile>)
    requires DistinctKeys(ByLtv(raw))
    ensures var top := Sorting.Take(ByLtv(raw), VipCutoff(|raw|));
      Sorting.CountWhere(top, InVip(raw)) == |top|
  {
    var top := Sorting.Take(ByLtv(raw), VipCutoff(|raw|));
    forall a | 0 <= a < |top| ensures InVip(raw)(top[a]) {
      TopInVip(raw, a);
    }
    Sorting.CountWhereAll(top, InVip(raw));
  }

  /** No place after the cutoff holds a VIP key. */
  lemma RestVipCount(raw: seq<Profile>)
    requires DistinctKeys(ByLtv(raw))
    ensures var top := Sorting.Take(ByLtv(raw), VipCutoff(|raw|));
      Sorting.CountWhere(ByLtv(raw)[|top|..], InVip(raw)) == 0
  {
    var sorted := ByLtv(raw);
    var top := Sorting.Take(sorted, VipCutoff(|raw|));
    var rest := sorted[|top|..];
    forall j | 0 <= j < |rest| ensures !InVip(raw)(rest[j]) {
      AfterTopNotVip(raw, |top| + j);
    }
    Sorting.CountWhereNone(rest, InVip(raw));
  }

  /** In the ranking, exactly the places before the cutoff hold VIP keys. */
  lemma RankedVipCount(raw: seq<Profile>)
    requires DistinctKeys(ByLtv(raw))
    ensures Sorting.CountWhere(ByLtv(raw), InVip(raw)) == |Sorting.Take(ByLtv(raw), VipCutoff(|raw|))|
  {
    var sorted := ByLtv(raw);
    var top := Sorting.Take(sorted, VipCutoff(|raw|));
    var rest := sorted[|top|..];
    Sorting.TakeSplit(sorted, VipCutoff(|raw|));
    Sorting.CountWhereAppend(top, rest, InVip(raw));
    TopVipCount(raw);
    RestVipCount(raw);
  }

  /** Exactly `min(n, max(1, ceil(n/5)))` customers are VIP. */
  lemma VipCount(raw: seq<Profile>)
    requires DistinctKeys(raw)
    ensures var n := |raw|;
      Sorting.CountWhere(AssignVip(raw), (p: Profile) => p.isVip) == if n <= VipCutoff(n) then n else VipCutoff(n)
  {
    var sorted := ByLtv(raw);
    Sorting.SortDescSpec(raw, (p: Profile) => p.ltv);
    assert |sorted| == |multiset(sorted)| == |raw|;
    Sorting.CountWhereMap(raw, AssignVip(raw), (p: Profile) => p.isVip, InVip(raw));
    Sorting.CountWherePerm(raw, sorted, InVip(raw));
    PermDistinct(raw, sorted);
    RankedVipCount(raw);
  }

  datatype Summary = Summary(
    totalCustomers: nat,
    repeatCustomers: nat,
    retentionRate: Ratio,
    vipCount: nat,
    avgLtv: Ratio)

  function SumLtv(ps: seq<Profile>): int
    decreases |ps|
  {
    if ps == [] then 0 else SumLtv(ps[..|ps| - 1]) + ps[|ps| - 1].ltv
  }

  /** The summary figures: the retention rate is the percentage of repeat customers
      and the average LTV the mean, both 0 when there are no customers. */
  function SummaryOf(customers: seq<Profile>): (s: Summary)
    ensures s.totalCustomers == |customers|
    ensures s.repeatCustomers <= s.totalCustomers && s.vipCount <= s.totalCustomers
    ensures customers == [] ==> s.retentionRate == Ratio(0, 1) && s.avgLtv == Ratio(0, 1)
    ensures customers != [] ==>
      s.retentionRate == Ratio(100 * s.repeatCustomers, s.totalCustomers)
      && s.avgLtv == Ratio(SumLtv(customers), s.totalCustomers)
  {
    var total := |customers|;
    var repeats := Sorting.CountWhere(customers, (p: Profile) => p.isRepeat);
    var vips := Sorting.CountWhere(customers, (p: Profile) => p.isVip);
    Summary(total, repeats,
            if total > 0 then Ratio(100 * repeats, total) else Ratio(0, 1),
            vips,
            if total > 0 then Ratio(SumLtv(customers), total) else Ratio(0, 1))
  }

  /** `Array.from(profileMap.values()).map(...)`: one profile per key, in insertion order. */
  method BuildProfiles(orders: seq<Order>, keys: seq<string>, profileMap: map<string, Entry>, at: Order -> int)
    returns (raw: seq<Profile>)
    requires forall k :: k in keys ==> k in profileMap && profileMap[k] == EntryOf(OrdersOf(orders, k))
    ensures raw == Profiles(orders, keys, at)
  {
    raw := [];
    var j := 0;
    while j < |keys|
      invariant j <= |keys|
      invariant raw == Profiles(orders, keys[..j], at)
    {
      raw := ProfileTurn(orders, keys, profileMap, at, raw, j);
      j := j + 1;
    }
    assert keys[..j] == keys;
  }

  /** One pass of the `rawProfiles` map: the profile of key `j` is appended. */
  method ProfileTurn(orders: seq<Order>, keys: seq<string>, profileMap: map<string, Entry>, at: Order -> int,
                     raw: seq<Profile>, j: nat) returns (rawAfter: seq<Profile>)
    requires j < |keys| && keys[j] in profileMap && profileMap[keys[j]] == EntryOf(OrdersOf(orders, keys[j]))
    requires raw == Profiles(orders, keys[..j], at)
    ensures rawAfter == Profiles(orders, keys[..j + 1], at)
  {
    var p := BuildProfile(keys[j], profileMap[keys[j]], at);
    ProfilesNext(orders, keys, j, at);
    rawAfter := raw + [p];
  }

  lemma ProfilesNext(orders: seq<Order>, keys: seq<string>, j: nat, at: Order -> int)
    requires j < |keys|
    ensures Profiles(orders, keys[..j + 1], at) == Profiles(orders, keys[..j], at) + [ProfileOfKey(orders, keys[j], at)]
  {
    assert keys[..j + 1][..j] == keys[..j];
  }

  /** One customer per key; the VIP flag marks `min(n, max(1, ceil(n/5)))` of them and
      no customer outside it has a larger lifetime value than one inside. */
  lemma CustomersSpec(orders: seq<Order>, at: Order -> int)
    ensures var cs := AssignVip(RawProfiles(orders, at));
      var n := |cs|;
      && n == |KeyOrder(orders)|
      && SummaryOf(cs).vipCount == (if n <= VipCutoff(n) then n else VipCutoff(n))
      && forall i, j :: 0 <= i < n && 0 <= j < n && cs[i].isVip && !cs[j].isVip ==> cs[i].ltv >= cs[j].ltv
  {
    RawProfilesDistinct(orders, at);
    VipCount(RawProfiles(orders, at));
    VipDominates(RawProfiles(orders, at));
  }

  /** `useCustomers(orders)`; `at` is the date parser. */
  method UseCustomers(orders: seq<Order>, at: Order -> int) returns (customers: seq<Profile>, summary: Summary)
    ensures customers == AssignVip(RawProfiles(orders, at))
    ensures summary == SummaryOf(customers)
  {
    var keys, profileMap := CollectProfiles(orders);
    var raw := BuildProfiles(orders, keys, profileMap, at);
    customers := AssignVip(raw);
    summary := SummaryOf(customers);
  }
}
