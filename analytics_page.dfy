// src/pages/Analytics.tsx: the range picker and the tables the analytics page builds
// itself from the orders in range (repeat customers, the Mercado Libre city map,
// logistics, and the per-store tables).
module AnalyticsPage {
  import opened Wrappers
  import opened Text
  import opened OrderModel
  import opened OrderedMap
  import Analytics
  import AnalyticsSummary
  import PurchaseEvents
  import Customers
  import Sorting

  type Ratio = Customers.Ratio

  // ----- getDateRange -----

  datatype RangeKey = Last7 | Last30 | Last90 | AllTime

  function DaysOf(key: RangeKey): nat {
    match key
    case Last7 => 7
    case Last30 => 30
    case Last90 => 90
    case AllTime => 0
  }

  /** `getDateRange(key)` at the instant `now` (milliseconds). */
  function DateRange(key: RangeKey, now: int): Option<Analytics.Range> {
    if key == AllTime then None
    else Some(Analytics.Range(now - DaysOf(key) * AnalyticsSummary.DayMs, now))
  }

  /** 'Todo' has no range; the others end now and span exactly their days, so the
      period insight is worded "estos N días". */
  lemma DateRangeSpec(key: RangeKey, now: int)
    ensures DateRange(key, now).None? <==> key == AllTime
    ensures DateRange(key, now).Some? ==>
      var r := DateRange(key, now).value;
      && r.to == now && r.from <= now
      && AnalyticsSummary.DiffDays(r) == DaysOf(key)
      && AnalyticsSummary.PeriodWords(AnalyticsSummary.DiffDays(r))
         == "estos " + NatToString(DaysOf(key)) + " d\U{ED}as"
  {
    if key != AllTime {
      var r := DateRange(key, now).value;
      var n := DaysOf(key);
      assert r.to - r.from == n * AnalyticsSummary.DayMs;
      assert AnalyticsSummary.RoundDiv(n * AnalyticsSummary.DayMs, AnalyticsSummary.DayMs) == n by {
        assert 2 * (n * 86400000) + 86400000 == (2 * 86400000) * n + 86400000;
      }
    }
  }

  // ----- repeatCustomersList -----

  function RepeatOnly(ps: seq<Customers.Profile>): (r: seq<Customers.Profile>)
    ensures forall p :: p in r <==> p in ps && p.isRepeat
    ensures multiset(r) <= multiset(ps)
    decreases |ps|
  {
    if ps == [] then []
    else
      var rest := RepeatOnly(ps[..|ps| - 1]);
      assert ps == ps[..|ps| - 1] + [ps[|ps| - 1]];
      if ps[|ps| - 1].isRepeat then rest + [ps[|ps| - 1]] else rest
  }

  function Ltv(p: Customers.Profile): int { p.ltv }

  /** `customers.filter(c => c.isRepeat).sort((a, b) => b.ltv - a.ltv)`. */
  function RepeatCustomers(ps: seq<Customers.Profile>): seq<Customers.Profile> {
    Sorting.Sort(RepeatOnly(ps), Sorting.Desc(Ltv))
  }

  /** The list holds exactly the repeat customers, each as often as in the input, by
      descending lifetime value. */
  lemma RepeatCustomersSpec(ps: seq<Customers.Profile>)
    ensures var r := RepeatCustomers(ps);
      && multiset(r) == multiset(RepeatOnly(ps)) && multiset(r) <= multiset(ps)
      && (forall p :: p in r <==> p in ps && p.isRepeat)
      && (forall i, j :: 0 <= i < j < |r| ==> r[i].ltv >= r[j].ltv)
  {
    Sorting.SortDescSpec(RepeatOnly(ps), Ltv);
    var r := RepeatCustomers(ps);
    forall p ensures p in r <==> p in RepeatOnly(ps) {
      assert p in r <==> p in multiset(r);
    }
  }

  // ----- Rows a loop keeps, and the purchase events among them -----

  /** The rows satisfying `P`, in order (`filter`, or a loop's guarded `continue`). */
  function Select(rows: seq<Order>, P: Order -> bool): (r: seq<Order>)
    ensures forall o :: o in r ==> o in rows && P(o)
    decreases |rows|
  {
    if rows == [] then []
    else if P(rows[|rows| - 1]) then Select(rows[..|rows| - 1], P) + [rows[|rows| - 1]]
    else Select(rows[..|rows| - 1], P)
  }

  lemma SelectSnoc(rows: seq<Order>, o: Order, P: Order -> bool)
    ensures Select(rows + [o], P) == if P(o) then Select(rows, P) + [o] else Select(rows, P)
  {
    assert (rows + [o])[..|rows|] == rows;
  }

  /** The page's event key: `pack:<pack_id>` for any row with a pack, whatever its
      channel, else `order:<id>`. */
  function PageEventKey(o: Order): string {
    if Truthy(o.packId) then "pack:" + o.packId.value else "order:" + Render(o.id)
  }

  /** On Mercado Libre rows the page keys events as the summary does. */
  lemma PageEventKeyOnMl(o: Order)
    requires o.channel == MercadoLibre
    ensures PageEventKey(o) == Analytics.EventKey(o)
  {
  }

  function PageEvents(rows: seq<Order>): set<string> {
    set o | o in rows :: PageEventKey(o)
  }

  predicate PageOpens(before: seq<Order>, o: Order) {
    PageEventKey(o) !in PageEvents(before)
  }

  lemma PageEventsStep(rows: seq<Order>)
    requires rows != []
    ensures PageEvents(rows) == PageEvents(Analytics.Init(rows)) + {PageEventKey(Analytics.Last(rows))}
    ensures |PageEvents(rows)| == |PageEvents(Analytics.Init(rows))| + (if PageOpens(Analytics.Init(rows), Analytics.Last(rows)) then 1 else 0)
  {
    var s, o := Analytics.Init(rows), Analytics.Last(rows);
    assert rows == s + [o];
    var before := PageEvents(s);
    assert PageEvents(rows) == before + {PageEventKey(o)};
    if PageEventKey(o) in before {
      assert before + {PageEventKey(o)} == before;
    }
  }

  // ----- logisticsData and storeData -----

  /** An entry of the logistics or store map: events, revenue, and events per status. */
  datatype EventTally = EventTally(orderCount: int, revenue: int, statuses: seq<(string, int)>)

  /** One row's turn on the entry `k`. */
  function TallyStep(m: seq<(string, EventTally)>, k: string, o: Order, isFirst: bool): seq<(string, EventTally)> {
    Put(m, k, Tallied(GetOr(m, k, EventTally(0, 0, [])), o, isFirst))
  }

  function LogisticKey(o: Order): string { OrEmpty(o.logisticType) }
  function StoreKey(o: Order): string { OrEmpty(o.storeName) }

  /** The map after the (already selected) rows, entry chosen by `keyOf`. */
  function TalliesOf(rows: seq<Order>, keyOf: Order -> string): seq<(string, EventTally)>
    decreases |rows|
  {
    if rows == [] then []
    else
      var s, o := Analytics.Init(rows), Analytics.Last(rows);
      TallyStep(TalliesOf(s, keyOf), keyOf(o), o, PageOpens(s, o))
  }

  predicate MlWithLogistics(o: Order) { o.channel == MercadoLibre && Truthy(o.logisticType) }
  predicate HasStore(o: Order) { Truthy(o.storeName) }

  function TallyCount(e: EventTally): int { e.orderCount }
  function TallyRevenue(e: EventTally): int { e.revenue }

  /** An entry's status counts add up to its event count, and none is negative. */
  ghost predicate StatusesAddUp(e: EventTally) {
    SumOf(e.statuses, Analytics.Value) == e.orderCount && forall s :: s in e.statuses ==> s.1 >= 0
  }

  lemma CountStepPositive(m: seq<(string, int)>, k: string)
    requires forall s :: s in m ==> s.1 >= 0
    ensures forall s :: s in Analytics.CountStep(m, k) ==> s.1 >= 0
  {
    PutEntries(m, k, GetOr(m, k, 0) + 1);
    if IndexOf(m, k).Some? {
      assert m[IndexOf(m, k).value] in m;
    }
  }

  /** The entry a row leaves behind. */
  function Tallied(e: EventTally, o: Order, isFirst: bool): EventTally {
    EventTally(e.orderCount + (if isFirst then 1 else 0), e.revenue + Analytics.Amount(o),
               if isFirst then Analytics.CountStep(e.statuses, StatusName(o.status)) else e.statuses)
  }

  lemma TalliedAddsUp(e: EventTally, o: Order, isFirst: bool)
    requires StatusesAddUp(e)
    ensures StatusesAddUp(Tallied(e, o, isFirst))
  {
    if isFirst {
      Analytics.CountStepSum(e.statuses, StatusName(o.status));
      CountStepPositive(e.statuses, StatusName(o.status));
    }
  }

  lemma GetOrIn<V>(m: seq<(string, V)>, k: string, d: V)
    ensures GetOr(m, k, d) == d || (k, GetOr(m, k, d)) in m
  {
    if IndexOf(m, k).Some? {
      assert m[IndexOf(m, k).value] in m;
    }
  }

  lemma TallyStepSpec(m: seq<(string, EventTally)>, k: string, o: Order, isFirst: bool)
    requires forall e :: e in m ==> StatusesAddUp(e.1)
    ensures var r := TallyStep(m, k, o, isFirst);
      && (forall e :: e in r ==> StatusesAddUp(e.1))
      && SumOf(r, TallyCount) == SumOf(m, TallyCount) + (if isFirst then 1 else 0)
      && SumOf(r, TallyRevenue) == SumOf(m, TallyRevenue) + Analytics.Amount(o)
  {
    var d := EventTally(0, 0, []);
    var e := GetOr(m, k, d);
    GetOrIn(m, k, d);
    assert StatusesAddUp(e);
    TalliedAddsUp(e, o, isFirst);
    var v := Tallied(e, o, isFirst);
    assert TallyStep(m, k, o, isFirst) == Put(m, k, v);
    PutEntries(m, k, v);
    SumOfPut(m, k, v, d, TallyCount);
    SumOfPut(m, k, v, d, TallyRevenue);
  }

  /** Each event is counted once, in the entry of its first row; revenue sums every row;
      and in every entry the status counts add up to the entry's events. */
  lemma {:induction false} TalliesSpec(rows: seq<Order>, keyOf: Order -> string)
    ensures forall e :: e in TalliesOf(rows, keyOf) ==> StatusesAddUp(e.1)
    ensures SumOf(TalliesOf(rows, keyOf), TallyCount) == |PageEvents(rows)|
    ensures SumOf(TalliesOf(rows, keyOf), TallyRevenue) == PurchaseEvents.SumAmounts(rows)
    decreases |rows|
  {
    if rows != [] {
      var s, o := Analytics.Init(rows), Analytics.Last(rows);
      TalliesSpec(s, keyOf);
      PageEventsStep(rows);
      TallyStepSpec(TalliesOf(s, keyOf), keyOf(o), o, PageOpens(s, o));
    }
  }

  /** The body of the logistics and store loops, once a row is kept. */
  method TallyRow(m: seq<(string, EventTally)>, k: string, order: Order, isFirst: bool)
    returns (r: seq<(string, EventTally)>)
    ensures r == TallyStep(m, k, order, isFirst)
  {
    var e := GetOr(m, k, EventTally(0, 0, []));
    if isFirst {
      e := e.(orderCount := e.orderCount + 1,
               statuses := Put(e.statuses, StatusName(order.status), GetOr(e.statuses, StatusName(order.status), 0) + 1));
    }
    e := e.(revenue := e.revenue + Analytics.Amount(order));
    r := Put(m, k, e);
  }

  /** The loops of `logisticsData` (`keep` is a Mercado Libre row with a logistic type,
      keyed by it) and of `storeData` (`keep` is a row with a store, keyed by it). */
  method TallyLoop(orders: seq<Order>, keep: Order -> bool, keyOf: Order -> string)
    returns (m: seq<(string, EventTally)>)
    ensures m == TalliesOf(Select(orders, keep), keyOf)
  {
    m := [];
    var seenEvents: set<string> := {};
    var i := 0;
    while i < |orders|
      invariant i <= |orders|
      invariant seenEvents == PageEvents(Select(orders[..i], keep))
      invariant m == TalliesOf(Select(orders[..i], keep), keyOf)
    {
      seenEvents, m := TallyTurn(orders, i, keep, keyOf, seenEvents, m);
      i := i + 1;
    }
    assert orders[..i] == orders;
  }

  /** One pass of the loop: a kept row is tallied, its event counted if it is new. */
  method TallyTurn(orders: seq<Order>, i: nat, keep: Order -> bool, keyOf: Order -> string,
                   seenEvents: set<string>, m: seq<(string, EventTally)>)
    returns (seenAfter: set<string>, mAfter: seq<(string, EventTally)>)
    requires i < |orders|
    requires seenEvents == PageEvents(Select(orders[..i], keep))
    requires m == TalliesOf(Select(orders[..i], keep), keyOf)
    ensures seenAfter == PageEvents(Select(orders[..i + 1], keep))
    ensures mAfter == TalliesOf(Select(orders[..i + 1], keep), keyOf)
  {
    var order := orders[i];
    PrefixNext(orders, i);
    SelectSnoc(orders[..i], order, keep);
    seenAfter, mAfter := seenEvents, m;
    if keep(order) {
      var sel := Select(orders[..i], keep);
      Analytics.InitLast(sel, order);
      var eventKey := PageEventKey(order);
      var isFirst := eventKey !in seenEvents;
      seenAfter := seenEvents + {eventKey};
      mAfter := TallyRow(m, keyOf(order), order, isFirst);
      PageEventsStep(sel + [order]);
    }
  }

  datatype LogisticsStats = LogisticsStats(
    key: string, name: string, orderCount: int, revenue: int, avgTicket: Ratio, statuses: seq<(string, int)>)

  const LogisticLabels: map<string, string> := map["fulfillment" := "FULL", "cross_docking" := "Colecta", "self_service" := "Flex"]

  function LogisticsEntries(m: seq<(string, EventTally)>): seq<LogisticsStats>
    decreases |m|
  {
    if m == [] then []
    else
      var lt, d := m[|m| - 1].0, m[|m| - 1].1;
      LogisticsEntries(m[..|m| - 1])
        + [LogisticsStats(lt, if lt in LogisticLabels then LogisticLabels[lt] else lt, d.orderCount, d.revenue,
                          AnalyticsSummary.Per(d.revenue, d.orderCount), d.statuses)]
  }

  function LogisticsCount(s: LogisticsStats): int { s.orderCount }

  /** `logisticsData`. */
  function LogisticsData(orders: seq<Order>): seq<LogisticsStats> {
    Sorting.Sort(LogisticsEntries(TalliesOf(Select(orders, MlWithLogistics), LogisticKey)), Sorting.Desc(LogisticsCount))
  }

  lemma {:induction false} LogisticsEntriesSum(m: seq<(string, EventTally)>)
    ensures Sorting.SumBy(LogisticsEntries(m), LogisticsCount) == SumOf(m, TallyCount)
    decreases |m|
  {
    if m != [] {
      LogisticsEntriesSum(m[..|m| - 1]);
    }
  }

  /** `logisticsData` covers the Mercado Libre rows with a logistic type, by descending
      event count, counting each of their events once. */
  lemma LogisticsDataSpec(orders: seq<Order>)
    ensures var r := LogisticsData(orders);
      && (forall i, j :: 0 <= i < j < |r| ==> r[i].orderCount >= r[j].orderCount)
      && Sorting.SumBy(r, LogisticsCount) == |PageEvents(Select(orders, MlWithLogistics))|
  {
    var m := TalliesOf(Select(orders, MlWithLogistics), LogisticKey);
    Sorting.SortDescSpec(LogisticsEntries(m), LogisticsCount);
    Sorting.SumByPerm(LogisticsData(orders), LogisticsEntries(m), LogisticsCount);
    LogisticsEntriesSum(m);
    TalliesSpec(Select(orders, MlWithLogistics), LogisticKey);
  }

  datatype StoreStats = StoreStats(
    name: string, orderCount: int, revenue: int, avgTicket: Ratio, entregados: int, entregadoPct: int)

  function StoreStatsOf(name: string, d: EventTally): StoreStats {
    var e := GetOr(d.statuses, "entregado", 0);
    StoreStats(name, d.orderCount, d.revenue, AnalyticsSummary.Per(d.revenue, d.orderCount), e,
               if d.orderCount > 0 then AnalyticsSummary.RoundDiv(100 * e, d.orderCount) else 0)
  }

  function StoreEntries(m: seq<(string, EventTally)>): (r: seq<StoreStats>)
    ensures |r| == |m|
    ensures forall i :: 0 <= i < |m| ==> r[i] == StoreStatsOf(m[i].0, m[i].1)
    decreases |m|
  {
    if m == [] then [] else StoreEntries(m[..|m| - 1]) + [StoreStatsOf(m[|m| - 1].0, m[|m| - 1].1)]
  }

  function StoreCount(s: StoreStats): int { s.orderCount }

  /** `storeData`. */
  function StoreData(orders: seq<Order>): seq<StoreStats> {
    Sorting.Sort(StoreEntries(TalliesOf(Select(orders, HasStore), StoreKey)), Sorting.Desc(StoreCount))
  }

  /** A store's delivered events are among its events, so the share is a whole
      percentage from 0 to 100. */
  lemma StoreStatsBounds(name: string, d: EventTally)
    requires StatusesAddUp(d)
    ensures var s := StoreStatsOf(name, d);
      0 <= s.entregados <= s.orderCount && 0 <= s.entregadoPct <= 100
  {
    GetOrAtMostSum(d.statuses, "entregado", 0, Analytics.Value);
    var e := GetOr(d.statuses, "entregado", 0);
    if IndexOf(d.statuses, "entregado").Some? {
      assert d.statuses[IndexOf(d.statuses, "entregado").value] in d.statuses;
    }
    if d.orderCount > 0 {
      var pct := AnalyticsSummary.RoundDiv(100 * e, d.orderCount);
      AnalyticsSummary.RoundDivSpec(100 * e, d.orderCount);
      AnalyticsSummary.PositiveFactor(d.orderCount, 2 * pct + 1);
      AnalyticsSummary.PositiveFactor(d.orderCount, 2 * pct - 201);
      assert d.orderCount * (2 * pct - 201) == d.orderCount * (2 * pct - 1) - 200 * d.orderCount;
    }
  }

  lemma {:induction false} StoreEntriesSum(m: seq<(string, EventTally)>)
    ensures Sorting.SumBy(StoreEntries(m), StoreCount) == SumOf(m, TallyCount)
    decreases |m|
  {
    if m != [] {
      StoreEntriesSum(m[..|m| - 1]);
    }
  }

  lemma StoreEntriesBounds(m: seq<(string, EventTally)>)
    requires forall e :: e in m ==> StatusesAddUp(e.1)
    ensures forall s :: s in StoreEntries(m) ==> 0 <= s.entregados <= s.orderCount && 0 <= s.entregadoPct <= 100
  {
    var entries := StoreEntries(m);
    forall s | s in entries ensures 0 <= s.entregados <= s.orderCount && 0 <= s.entregadoPct <= 100 {
      var i :| 0 <= i < |entries| && entries[i] == s;
      assert m[i] in m;
      StoreStatsBounds(m[i].0, m[i].1);
    }
  }

  /** `storeData` is by descending event count, counts each event of a row with a store
      once, and every store has its delivered events between 0 and its events. */
  lemma StoreDataSpec(orders: seq<Order>)
    ensures var r := StoreData(orders);
      && (forall i, j :: 0 <= i < j < |r| ==> r[i].orderCount >= r[j].orderCount)
      && Sorting.SumBy(r, StoreCount) == |PageEvents(Select(orders, HasStore))|
      && (forall s :: s in r ==> 0 <= s.entregados <= s.orderCount && 0 <= s.entregadoPct <= 100)
  {
    var m := TalliesOf(Select(orders, HasStore), StoreKey);
    var entries := StoreEntries(m);
    var r := StoreData(orders);
    Sorting.SortDescSpec(entries, StoreCount);
    Sorting.SumByPerm(r, entries, StoreCount);
    StoreEntriesSum(m);
    TalliesSpec(Select(orders, HasStore), StoreKey);
    StoreEntriesBounds(m);
    forall s | s in r ensures s in entries {
      assert s in multiset(entries);
    }
  }
  // ----- storeLogisticsData -----

  const PhysicalStores: seq<string> := ["MEDELL\U{CD}N", "AVENIDA 19", "CEDI", "BULEVAR"]

  /** A row the loop keeps: a physical store, shipped by Flex or Colecta. */
  predicate FlexOrColecta(o: Order) {
    Truthy(o.storeName) && o.storeName.value in PhysicalStores
    && (o.logisticType == Some("self_service") || o.logisticType == Some("cross_docking"))
  }

  datatype FlexColecta = FlexColecta(flex: int, colecta: int)

  /** One kept row's turn on its store's entry; a row of an event already seen adds
      nothing. */
  function FlexStep(m: seq<(string, FlexColecta)>, o: Order, isFirst: bool): seq<(string, FlexColecta)> {
    if isFirst then Put(m, StoreKey(o), Flexed(GetOr(m, StoreKey(o), FlexColecta(0, 0)), o)) else m
  }

  function Flexed(e: FlexColecta, o: Order): FlexColecta {
    if o.logisticType == Some("self_service") then e.(flex := e.flex + 1) else e.(colecta := e.colecta + 1)
  }

  /** The map after the kept rows. */
  function FlexColectaOf(rows: seq<Order>): seq<(string, FlexColecta)>
    decreases |rows|
  {
    if rows == [] then []
    else
      var s, o := Analytics.Init(rows), Analytics.Last(rows);
      FlexStep(FlexColectaOf(s), o, PageOpens(s, o))
  }

  /** The body of the loop, once a row is kept. */
  method FlexRow(m: seq<(string, FlexColecta)>, order: Order, isFirst: bool) returns (r: seq<(string, FlexColecta)>)
    ensures r == FlexStep(m, order, isFirst)
  {
    r := m;
    if isFirst {
      var e := GetOr(m, StoreKey(order), FlexColecta(0, 0));
      if order.logisticType == Some("self_service") {
        e := e.(flex := e.flex + 1);
      } else {
        e := e.(colecta := e.colecta + 1);
      }
      r := Put(m, StoreKey(order), e);
    }
  }

  method FlexColectaLoop(orders: seq<Order>) returns (m: seq<(string, FlexColecta)>)
    ensures m == FlexColectaOf(Select(orders, FlexOrColecta))
  {
    m := [];
    var seenEvents: set<string> := {};
    var i := 0;
    while i < |orders|
      invariant i <= |orders|
      invariant seenEvents == PageEvents(Select(orders[..i], FlexOrColecta))
      invariant m == FlexColectaOf(Select(orders[..i], FlexOrColecta))
    {
      seenEvents, m := FlexTurn(orders, i, seenEvents, m);
      i := i + 1;
    }
    assert orders[..i] == orders;
  }

  /** One pass of the loop: a Flex or Colecta row counts once per new event. */
  method FlexTurn(orders: seq<Order>, i: nat, seenEvents: set<string>, m: seq<(string, FlexColecta)>)
    returns (seenAfter: set<string>, mAfter: seq<(string, FlexColecta)>)
    requires i < |orders|
    requires seenEvents == PageEvents(Select(orders[..i], FlexOrColecta))
    requires m == FlexColectaOf(Select(orders[..i], FlexOrColecta))
    ensures seenAfter == PageEvents(Select(orders[..i + 1], FlexOrColecta))
    ensures mAfter == FlexColectaOf(Select(orders[..i + 1], FlexOrColecta))
  {
    var order := orders[i];
    PrefixNext(orders, i);
    SelectSnoc(orders[..i], order, FlexOrColecta);
    seenAfter, mAfter := seenEvents, m;
    if FlexOrColecta(order) {
      var sel := Select(orders[..i], FlexOrColecta);
      Analytics.InitLast(sel, order);
      var eventKey := PageEventKey(order);
      var isFirst := eventKey !in seenEvents;
      seenAfter := seenEvents + {eventKey};
      mAfter := FlexRow(m, order, isFirst);
      PageEventsStep(sel + [order]);
    }
  }

  function FlexTotal(e: FlexColecta): int { e.flex + e.colecta }

  ghost predicate FlexEntry(e: (string, FlexColecta)) {
    e.0 in PhysicalStores && e.1.flex >= 0 && e.1.colecta >= 0 && FlexTotal(e.1) > 0
  }

  lemma FlexStepSpec(m: seq<(string, FlexColecta)>, o: Order, isFirst: bool)
    requires FlexOrColecta(o)
    requires forall e :: e in m ==> FlexEntry(e)
    ensures forall e :: e in FlexStep(m, o, isFirst) ==> FlexEntry(e)
    ensures SumOf(FlexStep(m, o, isFirst), FlexTotal) == SumOf(m, FlexTotal) + (if isFirst then 1 else 0)
  {
    if isFirst {
      var d := FlexColecta(0, 0);
      var e := GetOr(m, StoreKey(o), d);
      GetOrIn(m, StoreKey(o), d);
      var v := Flexed(e, o);
      PutEntries(m, StoreKey(o), v);
      SumOfPut(m, StoreKey(o), v, d, FlexTotal);
    }
  }

  /** Every kept event is counted once under its store, every entry has at least one
      event, and only physical stores get entries. */
  lemma {:induction false} FlexColectaSpec(rows: seq<Order>)
    requires forall o :: o in rows ==> FlexOrColecta(o)
    ensures SumOf(FlexColectaOf(rows), FlexTotal) == |PageEvents(rows)|
    ensures forall e :: e in FlexColectaOf(rows) ==> FlexEntry(e)
    decreases |rows|
  {
    if rows != [] {
      var s, o := Analytics.Init(rows), Analytics.Last(rows);
      assert rows == s + [o];
      FlexColectaSpec(s);
      PageEventsStep(rows);
      FlexStepSpec(FlexColectaOf(s), o, PageOpens(s, o));
    }
  }

  datatype StoreLogistics = StoreLogistics(store: string, flex: int, colecta: int)

  /** `stores.filter(s => map.has(s)).map(...)`. */
  function InStoreOrder(stores: seq<string>, m: seq<(string, FlexColecta)>): seq<StoreLogistics>
    decreases |stores|
  {
    if stores == [] then []
    else
      var e := GetOr(m, stores[0], FlexColecta(0, 0));
      (if stores[0] in Keys(m) then [StoreLogistics(stores[0], e.flex, e.colecta)] else []) + InStoreOrder(stores[1..], m)
  }

  /** The place of a store in `stores`. */
  function Rank(stores: seq<string>, s: string): nat
    decreases |stores|
  {
    if stores == [] || stores[0] == s then 0 else 1 + Rank(stores[1..], s)
  }

  /** Each listed store has an entry, and the entry's numbers. */
  lemma {:induction false} InStoreOrderEntries(stores: seq<string>, m: seq<(string, FlexColecta)>)
    ensures forall x :: x in InStoreOrder(stores, m) ==>
      x.store in stores && x.store in Keys(m) && x.flex == GetOr(m, x.store, FlexColecta(0, 0)).flex
      && x.colecta == GetOr(m, x.store, FlexColecta(0, 0)).colecta
    decreases |stores|
  {
    if stores != [] {
      InStoreOrderEntries(stores[1..], m);
    }
  }

  /** Each store with an entry is listed. */
  lemma {:induction false} InStoreOrderComplete(stores: seq<string>, m: seq<(string, FlexColecta)>)
    ensures forall s :: s in stores && s in Keys(m) ==> exists x :: x in InStoreOrder(stores, m) && x.store == s
    decreases |stores|
  {
    if stores != [] {
      var rest := InStoreOrder(stores[1..], m);
      InStoreOrderComplete(stores[1..], m);
      var r := InStoreOrder(stores, m);
      forall s | s in stores && s in Keys(m) ensures exists x :: x in r && x.store == s {
        if s != stores[0] {
          assert s in stores[1..];
          var x :| x in rest && x.store == s;
          assert x in r;
        } else {
          assert r[0].store == s;
        }
      }
    }
  }

  /** The entries of `r` come in the order of `stores`. */
  ghost predicate RanksIncrease(stores: seq<string>, r: seq<StoreLogistics>) {
    forall i, j :: 0 <= i < j < |r| ==> Rank(stores, r[i].store) < Rank(stores, r[j].store)
  }

  /** The listed stores keep the order of `stores`. */
  lemma {:induction false} InStoreOrderRanks(stores: seq<string>, m: seq<(string, FlexColecta)>)
    requires forall i, j :: 0 <= i < j < |stores| ==> stores[i] != stores[j]
    ensures RanksIncrease(stores, InStoreOrder(stores, m))
    decreases |stores|
  {
    if stores != [] {
      var tail := stores[1..];
      var rest := InStoreOrder(tail, m);
      InStoreOrderRanks(tail, m);
      InStoreOrderEntries(tail, m);
      var r := InStoreOrder(stores, m);
      var k := if stores[0] in Keys(m) then 1 else 0;
      assert |r| == |rest| + k;
      assert forall a :: k <= a < |r| ==> r[a] == rest[a - k];
      forall a | 0 <= a < |rest| ensures Rank(stores, rest[a].store) == 1 + Rank(tail, rest[a].store) {
        assert rest[a] in rest;
        assert rest[a].store != stores[0];
      }
      forall i, j | 0 <= i < j < |r| ensures Rank(stores, r[i].store) < Rank(stores, r[j].store) {
        if i < k {
          assert r[i].store == stores[0];
        } else {
          assert Rank(tail, rest[i - k].store) < Rank(tail, rest[j - k].store);
        }
      }
    }
  }

  /** `storeLogisticsData`. */
  function StoreLogisticsData(orders: seq<Order>): seq<StoreLogistics> {
    InStoreOrder(PhysicalStores, FlexColectaOf(Select(orders, FlexOrColecta)))
  }

  /** The generic form of the listing: entries only for `stores`, none of them empty. */
  lemma ListedStores(stores: seq<string>, m: seq<(string, FlexColecta)>)
    requires forall i, j :: 0 <= i < j < |stores| ==> stores[i] != stores[j]
    requires forall e :: e in m ==> e.0 in stores && FlexTotal(e.1) > 0
    ensures var r := InStoreOrder(stores, m);
      && (forall x :: x in r ==> x.store in stores && x.flex + x.colecta > 0)
      && (forall s :: s in Keys(m) ==> s in stores && exists x :: x in r && x.store == s)
      && RanksIncrease(stores, r)
  {
    InStoreOrderEntries(stores, m);
    InStoreOrderComplete(stores, m);
    InStoreOrderRanks(stores, m);
    var r := InStoreOrder(stores, m);
    forall x | x in r ensures x.flex + x.colecta > 0 {
      var e := GetOr(m, x.store, FlexColecta(0, 0));
      assert x.store in Keys(m);
      GetOrIn(m, x.store, FlexColecta(0, 0));
      assert (x.store, e) in m;
    }
    forall s | s in Keys(m) ensures s in stores {
      var i :| 0 <= i < |m| && m[i].0 == s;
      assert m[i] in m;
    }
  }

  /** The physical stores in their fixed order, only those with a Flex or Colecta
      event, each with at least one; the map they come from counts every such event
      once. */
  lemma StoreLogisticsDataSpec(orders: seq<Order>)
    ensures var m := FlexColectaOf(Select(orders, FlexOrColecta));
      var r := StoreLogisticsData(orders);
      && SumOf(m, FlexTotal) == |PageEvents(Select(orders, FlexOrColecta))|
      && (forall x :: x in r ==> x.store in PhysicalStores && x.flex + x.colecta > 0)
      && (forall s :: s in Keys(m) ==> s in PhysicalStores && exists x :: x in r && x.store == s)
      && RanksIncrease(PhysicalStores, r)
  {
    var rows := Select(orders, FlexOrColecta);
    var m := FlexColectaOf(rows);
    FlexColectaSpec(rows);
    FlexEntries(m);
    PhysicalStoresDistinct();
    ListedStores(PhysicalStores, m);
  }

  lemma PhysicalStoresDistinct()
    ensures forall i, j :: 0 <= i < j < |PhysicalStores| ==> PhysicalStores[i] != PhysicalStores[j]
  {
    var s := PhysicalStores;
    assert s[0][0] == 'M' && s[1][0] == 'A' && s[2][0] == 'C' && s[3][0] == 'B';
  }

  lemma FlexEntries(m: seq<(string, FlexColecta)>)
    requires forall e :: e in m ==> FlexEntry(e)
    ensures forall e :: e in m ==> e.0 in PhysicalStores && FlexTotal(e.1) > 0
  {
  }
  // ----- mlGeoData -----

  predicate IsMl(o: Order) { o.channel == MercadoLibre }

  /** A `cityMap` entry. */
  datatype CityAcc = CityAcc(
    city: string, state: string, latSum: int, lngSum: int, coordCount: int,
    orderCount: int, revenue: int, products: seq<(string, int)>)

  /** Units per title over `items` (`g.products.set(title, (get ?? 0) + quantity)`). */
  function AddTitles(p: seq<(string, int)>, items: seq<Item>): seq<(string, int)>
    decreases |items|
  {
    if items == [] then p
    else
      var q, it := AddTitles(p, items[..|items| - 1]), items[|items| - 1];
      Put(q, it.title, GetOr(q, it.title, 0) + it.quantity)
  }

  predicate HasCoords(o: Order) {
    o.shippingAddress.Some? && o.shippingAddress.value.latitude.Some? && o.shippingAddress.value.longitude.Some?
  }

  /** One row's turn on its city's entry. */
  function CityStepped(g: CityAcc, o: Order, isFirst: bool): CityAcc
    requires o.shippingAddress.Some?
  {
    var a := o.shippingAddress.value;
    var c := if HasCoords(o) then 1 else 0;
    g.(latSum := g.latSum + (if HasCoords(o) then a.latitude.value else 0),
       lngSum := g.lngSum + (if HasCoords(o) then a.longitude.value else 0),
       coordCount := g.coordCount + c,
       orderCount := g.orderCount + (if isFirst then 1 else 0),
       revenue := g.revenue + Analytics.Amount(o),
       products := AddTitles(g.products, o.items))
  }

  function NewCity(a: Address): CityAcc { CityAcc(a.city, a.state, 0, 0, 0, 0, 0, []) }

  function CityStep(m: seq<(string, CityAcc)>, o: Order, isFirst: bool): seq<(string, CityAcc)>
    requires o.shippingAddress.Some?
  {
    var a := o.shippingAddress.value;
    Put(m, Analytics.GeoKey(a), CityStepped(GetOr(m, Analytics.GeoKey(a), NewCity(a)), o, isFirst))
  }

  /** `cityMap` after the Mercado Libre rows: a row opens its event whether or not it
      names a city, and only rows with a city reach the map. */
  function CitiesOf(rows: seq<Order>): seq<(string, CityAcc)>
    decreases |rows|
  {
    if rows == [] then []
    else
      var s, o := Analytics.Init(rows), Analytics.Last(rows);
      if Analytics.HasCity(o) then CityStep(CitiesOf(s), o, PageOpens(s, o)) else CitiesOf(s)
  }

  /** The inner loop over a row's items. */
  method AddTitlesLoop(p: seq<(string, int)>, items: seq<Item>) returns (r: seq<(string, int)>)
    ensures r == AddTitles(p, items)
  {
    r := p;
    var i := 0;
    while i < |items|
      invariant i <= |items|
      invariant r == AddTitles(p, items[..i])
    {
      var item := items[i];
      assert items[..i + 1][..i] == items[..i];
      r := Put(r, item.title, GetOr(r, item.title, 0) + item.quantity);
      i := i + 1;
    }
    assert items[..i] == items;
  }

  /** The body of the city loop, once the row has a city. */
  method CityRow(m: seq<(string, CityAcc)>, order: Order, isFirst: bool) returns (r: seq<(string, CityAcc)>)
    requires Analytics.HasCity(order)
    ensures r == CityStep(m, order, isFirst)
  {
    var a := order.shippingAddress.value;
    var key := a.city + "::" + a.state;
    var g := GetOr(m, key, CityAcc(a.city, a.state, 0, 0, 0, 0, 0, []));
    if isFirst {
      g := g.(orderCount := g.orderCount + 1);
    }
    g := g.(revenue := g.revenue + Analytics.Amount(order));
    if a.latitude.Some? && a.longitude.Some? {
      g := g.(latSum := g.latSum + a.latitude.value, lngSum := g.lngSum + a.longitude.value,
              coordCount := g.coordCount + 1);
    }
    var products := AddTitlesLoop(g.products, order.items);
    g := g.(products := products);
    r := Put(m, key, g);
  }

  method CityLoop(orders: seq<Order>) returns (m: seq<(string, CityAcc)>)
    ensures m == CitiesOf(Select(orders, IsMl))
  {
    m := [];
    var seenEvents: set<string> := {};
    var i := 0;
    while i < |orders|
      invariant i <= |orders|
      invariant seenEvents == PageEvents(Select(orders[..i], IsMl))
      invariant m == CitiesOf(Select(orders[..i], IsMl))
    {
      seenEvents, m := CityTurn(orders, i, seenEvents, m);
      i := i + 1;
    }
    assert orders[..i] == orders;
  }

  /** One pass of the loop: a Mercado Libre row with a city adds to that city. */
  method CityTurn(orders: seq<Order>, i: nat, seenEvents: set<string>, m: seq<(string, CityAcc)>)
    returns (seenAfter: set<string>, mAfter: seq<(string, CityAcc)>)
    requires i < |orders|
    requires seenEvents == PageEvents(Select(orders[..i], IsMl))
    requires m == CitiesOf(Select(orders[..i], IsMl))
    ensures seenAfter == PageEvents(Select(orders[..i + 1], IsMl))
    ensures mAfter == CitiesOf(Select(orders[..i + 1], IsMl))
  {
    var order := orders[i];
    PrefixNext(orders, i);
    SelectSnoc(orders[..i], order, IsMl);
    seenAfter, mAfter := seenEvents, m;
    if IsMl(order) {
      var sel := Select(orders[..i], IsMl);
      Analytics.InitLast(sel, order);
      var eventKey := PageEventKey(order);
      var isFirst := eventKey !in seenEvents;
      seenAfter := seenEvents + {eventKey};
      PageEventsStep(sel + [order]);
      if Analytics.HasCity(order) {
        mAfter := CityRow(m, order, isFirst);
      }
    }
  }

  datatype MLCityData = MLCityData(
    city: string, state: string, lat: Ratio, lng: Ratio, orderCount: int, revenue: int,
    avgTicket: Ratio, topProducts: seq<(string, int)>)

  function Qty(e: (string, int)): int { e.1 }

  /** The three titles with the most units. */
  function TopTitles(p: seq<(string, int)>): seq<(string, int)> {
    Sorting.Take(Sorting.Sort(p, Sorting.Desc(Qty)), 3)
  }

  /** A city with coordinates, as the map shows it: mean position, average ticket. */
  function CityDataOf(g: CityAcc): MLCityData
    requires g.coordCount > 0
  {
    MLCityData(g.city, g.state, Customers.Ratio(g.latSum, g.coordCount), Customers.Ratio(g.lngSum, g.coordCount),
               g.orderCount, g.revenue, AnalyticsSummary.Per(g.revenue, g.orderCount), TopTitles(g.products))
  }

  /** `.filter(g => g.coordCount > 0).map(...)`. */
  function Located(m: seq<(string, CityAcc)>): seq<MLCityData>
    decreases |m|
  {
    if m == [] then []
    else
      var g := m[|m| - 1].1;
      Located(m[..|m| - 1]) + (if g.coordCount > 0 then [CityDataOf(g)] else [])
  }

  function CityRevenue(c: MLCityData): int { c.revenue }

  /** `mlGeoData`. */
  function MlGeoData(orders: seq<Order>): seq<MLCityData> {
    Sorting.Sort(Located(CitiesOf(Select(orders, IsMl))), Sorting.Desc(CityRevenue))
  }

  /** The map shows exactly the cities with at least one coordinate. */
  lemma {:induction false} LocatedSpec(m: seq<(string, CityAcc)>)
    ensures forall e :: e in m && e.1.coordCount > 0 ==> CityDataOf(e.1) in Located(m)
    ensures forall c :: c in Located(m) ==> exists e :: e in m && e.1.coordCount > 0 && c == CityDataOf(e.1)
    decreases |m|
  {
    if m != [] {
      var init := m[..|m| - 1];
      LocatedSpec(init);
      assert m == init + [m[|m| - 1]];
      forall c | c in Located(m) ensures exists e :: e in m && e.1.coordCount > 0 && c == CityDataOf(e.1) {
        if c in Located(init) {
          var e :| e in init && e.1.coordCount > 0 && c == CityDataOf(e.1);
          assert e in m;
        } else {
          assert m[|m| - 1] in m;
        }
      }
    }
  }

  /** At most three titles, by units descending, none below a title left out. */
  lemma TopTitlesSpec(p: seq<(string, int)>)
    ensures var r := TopTitles(p);
      && |r| <= 3 && multiset(r) <= multiset(p)
      && (forall i, j :: 0 <= i < j < |r| ==> Qty(r[i]) >= Qty(r[j]))
      && (forall x, y :: x in r && y in multiset(p) - multiset(r) ==> Qty(x) >= Qty(y))
  {
    Sorting.TakeDescSpec(p, Qty, 3);
  }

  /** The map: sorted by revenue descending, one point per city with coordinates and
      none other, each at the mean of its coordinates with its top three titles. */
  lemma MlGeoDataSpec(orders: seq<Order>)
    ensures var m := CitiesOf(Select(orders, IsMl));
      var r := MlGeoData(orders);
      && multiset(r) == multiset(Located(m))
      && (forall i, j :: 0 <= i < j < |r| ==> r[i].revenue >= r[j].revenue)
      && (forall e :: e in m && e.1.coordCount > 0 ==> CityDataOf(e.1) in r)
      && (forall c :: c in r ==> exists e :: e in m && e.1.coordCount > 0 && c == CityDataOf(e.1))
  {
    var m := CitiesOf(Select(orders, IsMl));
    var r := MlGeoData(orders);
    Sorting.SortDescSpec(Located(m), CityRevenue);
    assert forall i, j :: 0 <= i < j < |r| ==> CityRevenue(r[i]) >= CityRevenue(r[j]);
    LocatedSpec(m);
    forall c ensures c in r <==> c in Located(m) {
      assert c in r <==> c in multiset(r);
    }
  }
  /** Units of title `t` among `items`. */
  function TitleUnits(items: seq<Item>, t: string): int
    decreases |items|
  {
    if items == [] then 0
    else TitleUnits(items[..|items| - 1], t) + (if items[|items| - 1].title == t then items[|items| - 1].quantity else 0)
  }

  lemma {:induction false} AddTitlesDistinct(p: seq<(string, int)>, items: seq<Item>)
    requires Distinct(p)
    ensures Distinct(AddTitles(p, items))
    decreases |items|
  {
    if items != [] {
      var init, it := items[..|items| - 1], items[|items| - 1];
      var q := AddTitles(p, init);
      AddTitlesDistinct(p, init);
      PutSpec(q, it.title, GetOr(q, it.title, 0) + it.quantity);
    }
  }

  /** Each title's units grow by that title's units among the items. */
  lemma {:induction false} AddTitlesSpec(p: seq<(string, int)>, items: seq<Item>, t: string)
    requires Distinct(p)
    ensures GetOr(AddTitles(p, items), t, 0) == GetOr(p, t, 0) + TitleUnits(items, t)
    decreases |items|
  {
    if items != [] {
      var init, it := items[..|items| - 1], items[|items| - 1];
      var q := AddTitles(p, init);
      var v := GetOr(q, it.title, 0) + it.quantity;
      assert AddTitles(p, items) == Put(q, it.title, v);
      assert TitleUnits(items, t) == TitleUnits(init, t) + (if it.title == t then it.quantity else 0);
      AddTitlesSpec(p, init, t);
      AddTitlesDistinct(p, init);
      GetOrPut(q, it.title, v, t, 0);
    }
  }

  /** On Mercado Libre rows the page's events are the summary's. */
  lemma PageEventsOnMl(rows: seq<Order>)
    requires forall o :: o in rows ==> IsMl(o)
    ensures PageEvents(rows) == Analytics.Events(rows)
  {
    forall o | o in rows ensures PageEventKey(o) == Analytics.EventKey(o) {
      PageEventKeyOnMl(o);
    }
  }

  function CityOrders(g: CityAcc): int { g.orderCount }
  function CityCoords(g: CityAcc): int { g.coordCount }

  predicate CityWithCoords(o: Order) { Analytics.HasCity(o) && HasCoords(o) }

  lemma CityStepSums(m: seq<(string, CityAcc)>, o: Order, isFirst: bool)
    requires o.shippingAddress.Some?
    ensures SumOf(CityStep(m, o, isFirst), CityOrders) == SumOf(m, CityOrders) + (if isFirst then 1 else 0)
    ensures SumOf(CityStep(m, o, isFirst), CityCoords) == SumOf(m, CityCoords) + (if HasCoords(o) then 1 else 0)
  {
    var a := o.shippingAddress.value;
    var v := CityStepped(GetOr(m, Analytics.GeoKey(a), NewCity(a)), o, isFirst);
    SumOfPut(m, Analytics.GeoKey(a), v, NewCity(a), CityOrders);
    SumOfPut(m, Analytics.GeoKey(a), v, NewCity(a), CityCoords);
  }

  /** On Mercado Libre rows a row opens the page's event exactly when it opens the
      summary's. */
  lemma PageOpensOnMl(s: seq<Order>, o: Order)
    requires forall x :: x in s ==> IsMl(x)
    requires IsMl(o)
    ensures PageOpens(s, o) == Analytics.Opens(s, o)
  {
    PageEventsOnMl(s);
    PageEventKeyOnMl(o);
  }

  /** Over Mercado Libre rows, the cities' order counts add up to the events whose first
      row names a city. */
  lemma {:induction false} CityOrderTotal(rows: seq<Order>)
    requires forall o :: o in rows ==> IsMl(o)
    ensures SumOf(CitiesOf(rows), CityOrders) == Analytics.Count(Analytics.Openers(rows), Analytics.HasCity)
    decreases |rows|
  {
    if rows != [] {
      var s, o := Analytics.Init(rows), Analytics.Last(rows);
      assert rows == s + [o];
      CityOrderTotal(s);
      Analytics.OpensStep(rows, Analytics.HasCity);
      PageOpensOnMl(s, o);
      if Analytics.HasCity(o) {
        CityStepSums(CitiesOf(s), o, PageOpens(s, o));
      }
    }
  }

  /** The cities' coordinate counts add up to the rows with a city and both
      coordinates. */
  lemma {:induction false} CityCoordTotal(rows: seq<Order>)
    ensures SumOf(CitiesOf(rows), CityCoords) == Analytics.Count(rows, CityWithCoords)
    decreases |rows|
  {
    if rows != [] {
      var s, o := Analytics.Init(rows), Analytics.Last(rows);
      CityCoordTotal(s);
      if Analytics.HasCity(o) {
        CityStepSums(CitiesOf(s), o, PageOpens(s, o));
      }
    }
  }
}
