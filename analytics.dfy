// src/hooks/useAnalytics.ts: the analytics summary. One pass over the rows in range
// fills the aggregation maps; a second pass over all rows compares the range with
// the period before it.
module Analytics {
  import opened Wrappers
  import opened Text
  import opened OrderModel
  import opened OrderedMap
  import PurchaseEvents
  import Customers
  import Sorting

  type Weekday = d: int | 0 <= d < 7

  /** What `new Date(order.order_date)` yields for a row: its time in milliseconds, its
      local weekday (0 = Sunday) and the ISO date of the Monday of its week. */
  datatype Clock = Clock(time: Order -> int, weekday: Order -> Weekday, weekStart: Order -> string)

  /** A `dateRange`, as milliseconds. */
  datatype Range = Range(from: int, to: int)

  function Amount(o: Order): int { PurchaseEvents.Amount(o) }

  /** The rows the `dateRange` filter keeps (all rows when there is no range). */
  function InRange(orders: seq<Order>, range: Option<Range>, clock: Clock): (r: seq<Order>)
    ensures range.None? ==> r == orders
    ensures forall o :: o in r <==> o in orders && (range.Some? ==> range.value.from <= clock.time(o) <= range.value.to)
    decreases |orders|
  {
    if range.None? || orders == [] then orders
    else
      var rest := InRange(orders[1..], range, clock);
      assert orders == [orders[0]] + orders[1..];
      if range.value.from <= clock.time(orders[0]) <= range.value.to then [orders[0]] + rest else rest
  }

  // ----- Purchase events -----

  /** The key of the event a row belongs to: `pack:<pack_id>` for a Mercado Libre pack
      row, `order:<id>` for any other row. */
  function EventKey(o: Order): string {
    if PurchaseEvents.IsPackRow(o) then "pack:" + o.packId.value else "order:" + Render(o.id)
  }

  function Events(rows: seq<Order>): set<string> {
    set o | o in rows :: EventKey(o)
  }

  lemma EventsSnoc(rows: seq<Order>, o: Order)
    ensures Events(rows + [o]) == Events(rows) + {EventKey(o)}
  {
  }

  lemma EventsInit(rows: seq<Order>)
    requires rows != []
    ensures Events(rows) == Events(Init(rows)) + {EventKey(Last(rows))}
  {
    assert rows == Init(rows) + [Last(rows)];
    EventsSnoc(Init(rows), Last(rows));
  }

  /** `isFirstInEvent`: `o`, following `before`, opens a new event. */
  predicate Opens(before: seq<Order>, o: Order) {
    EventKey(o) !in Events(before)
  }

  function Last(rows: seq<Order>): Order
    requires rows != []
  {
    rows[|rows| - 1]
  }

  function Init(rows: seq<Order>): seq<Order>
    requires rows != []
  {
    rows[..|rows| - 1]
  }

  lemma InitLast(s: seq<Order>, o: Order)
    ensures Init(s + [o]) == s && Last(s + [o]) == o
  {
  }

  /** The rows that open an event, in order. */
  function Openers(rows: seq<Order>): seq<Order>
    decreases |rows|
  {
    if rows == [] then []
    else if Opens(Init(rows), Last(rows)) then Openers(Init(rows)) + [Last(rows)]
    else Openers(Init(rows))
  }

  /** There is one opening row per event. */
  lemma OpenersSpec(rows: seq<Order>)
    ensures |Openers(rows)| == |Events(rows)|
    ensures Events(Openers(rows)) == Events(rows)
    ensures forall o :: o in Openers(rows) ==> o in rows
  {
    OpenersCount(rows);
    OpenersEvents(rows);
    OpenersMembers(rows);
  }

  lemma {:induction false} OpenersEvents(rows: seq<Order>)
    ensures Events(Openers(rows)) == Events(rows)
    decreases |rows|
  {
    if rows != [] {
      var s, o := Init(rows), Last(rows);
      OpenersEvents(s);
      EventsInit(rows);
      if Opens(s, o) {
        EventsSnoc(Openers(s), o);
      }
    }
  }

  lemma {:induction false} OpenersCount(rows: seq<Order>)
    ensures |Openers(rows)| == |Events(rows)|
    decreases |rows|
  {
    if rows != [] {
      var s, o := Init(rows), Last(rows);
      OpenersCount(s);
      EventsInit(rows);
      var k := EventKey(o);
      if Opens(s, o) {
        assert Openers(rows) == Openers(s) + [o];
        assert |Events(s) + {k}| == |Events(s)| + 1;
      } else {
        assert Openers(rows) == Openers(s);
        assert Events(s) + {k} == Events(s);
      }
    }
  }

  lemma {:induction false} OpenersMembers(rows: seq<Order>)
    ensures forall o :: o in Openers(rows) ==> o in rows
    decreases |rows|
  {
    if rows != [] {
      var s, o := Init(rows), Last(rows);
      OpenersMembers(s);
      assert rows == s + [o];
    }
  }

  /** The rows that satisfy `P`. */
  function Count(rows: seq<Order>, P: Order -> bool): nat
    decreases |rows|
  {
    if rows == [] then 0 else Count(Init(rows), P) + (if P(Last(rows)) then 1 else 0)
  }

  lemma CountSnoc(xs: seq<Order>, o: Order, P: Order -> bool)
    ensures Count(xs + [o], P) == Count(xs, P) + (if P(o) then 1 else 0)
  {
    InitLast(xs, o);
  }

  /** The last row opens an event exactly when the event count grows, and then it
      joins the opening rows. */
  lemma OpensStep(rows: seq<Order>, P: Order -> bool)
    requires rows != []
    ensures |Events(rows)| == |Events(Init(rows))| + (if Opens(Init(rows), Last(rows)) then 1 else 0)
    ensures Count(Openers(rows), P) == Count(Openers(Init(rows)), P) + (if Opens(Init(rows), Last(rows)) && P(Last(rows)) then 1 else 0)
  {
    var s, o := Init(rows), Last(rows);
    EventsInit(rows);
    if Opens(s, o) {
      CountSnoc(Openers(s), o, P);
    }
  }

  // ----- The aggregation maps -----

  /** `{ orderCount, totalRevenue }` / `{ orderCount, revenue }` / `{ count, revenue }`. */
  datatype Tally = Tally(count: int, revenue: int)

  function Bump(t: Tally, opens: bool, amount: int): Tally {
    Tally(t.count + (if opens then 1 else 0), t.revenue + amount)
  }

  /** One row's turn on `channelMap`. */
  function ChannelStep(m: seq<(string, Tally)>, o: Order, opens: bool): seq<(string, Tally)> {
    var k := ChannelName(o.channel);
    Put(m, k, Bump(GetOr(m, k, Tally(0, 0)), opens, Amount(o)))
  }

  /** `channelMap`. */
  function ChannelsOf(rows: seq<Order>): seq<(string, Tally)>
    decreases |rows|
  {
    if rows == [] then [] else ChannelStep(ChannelsOf(Init(rows)), Last(rows), Opens(Init(rows), Last(rows)))
  }

  /** One event's turn on a count table such as `statusMap`. */
  function CountStep(m: seq<(string, int)>, k: string): seq<(string, int)> {
    Put(m, k, GetOr(m, k, 0) + 1)
  }

  /** `statusMap`. */
  function StatusesOf(rows: seq<Order>): seq<(string, int)>
    decreases |rows|
  {
    if rows == [] then []
    else if Opens(Init(rows), Last(rows)) then CountStep(StatusesOf(Init(rows)), StatusName(Last(rows).status))
    else StatusesOf(Init(rows))
  }

  /** `cutoffDay` / `cutoffWeek`: the range's start, or the epoch. */
  function Cutoff(range: Option<Range>): int {
    if range.Some? then range.value.from else 0
  }

  /** `s.substring(0, n)`. */
  function Prefix(s: string, n: nat): string {
    if |s| <= n then s else s[..n]
  }

  /** `s.split('T')[0]`. */
  function BeforeT(s: string): string {
    if s == [] then [] else if s[0] == 'T' then [] else [s[0]] + BeforeT(s[1..])
  }

  /** The `recentDays` bucket: the month without a range, the day with one. */
  function DayKey(o: Order, range: Option<Range>): string {
    if range.None? then Prefix(OrEmpty(o.orderDate), 7) else BeforeT(OrEmpty(o.orderDate))
  }

  /** The `recentWeeks` bucket: the month without a range, the week's Monday with one. */
  function WeekKey(o: Order, range: Option<Range>, clock: Clock): string {
    if range.None? then Prefix(OrEmpty(o.orderDate), 7) else clock.weekStart(o)
  }

  function BucketKey(o: Order, range: Option<Range>, clock: Clock, weekly: bool): string {
    if weekly then WeekKey(o, range, clock) else DayKey(o, range)
  }

  /** The rows the day and week buckets take: those dated from the cutoff on. */
  function DatedIn(range: Option<Range>, clock: Clock): Order -> bool {
    o => clock.time(o) >= Cutoff(range)
  }

  /** One row's turn on `dayMap` or `weekMap`, under bucket `k`. */
  function BucketStep(m: seq<(string, Tally)>, k: string, o: Order, opens: bool): seq<(string, Tally)> {
    Put(m, k, Bump(GetOr(m, k, Tally(0, 0)), opens, Amount(o)))
  }

  /** `dayMap` (`weekly` false) or `weekMap` (`weekly` true). */
  function BucketsOf(rows: seq<Order>, range: Option<Range>, clock: Clock, weekly: bool): seq<(string, Tally)>
    decreases |rows|
  {
    if rows == [] then []
    else if DatedIn(range, clock)(Last(rows)) then
      BucketStep(BucketsOf(Init(rows), range, clock, weekly), BucketKey(Last(rows), range, clock, weekly), Last(rows), Opens(Init(rows), Last(rows)))
    else BucketsOf(Init(rows), range, clock, weekly)
  }

  /** A `productMap` entry. */
  datatype Product = Product(
    sku: string, title: string, totalQuantity: int, totalRevenue: int,
    imageUrl: Option<string>, orderIds: set<string>)

  /** The SKU when it is neither blank nor `-`, the title otherwise. */
  function ProductKey(it: Item): string {
    if Truthy(it.sku) && Trim(it.sku.value) != "" && it.sku.value != "-" then it.sku.value else it.title
  }

  /** `item.fullPrice * item.quantity`. */
  function ItemRevenue(it: Item): int {
    AmountOrZero(it.fullPrice) * it.quantity
  }

  /** One turn of the inner `for (const item of order.items)` loop. */
  function AddItem(m: seq<(string, Product)>, it: Item, eventKey: string): seq<(string, Product)> {
    var k := ProductKey(it);
    var p := Get(m, k);
    if p.Some? then
      Put(m, k, p.value.(totalQuantity := p.value.totalQuantity + it.quantity,
                         totalRevenue := p.value.totalRevenue + ItemRevenue(it),
                         orderIds := p.value.orderIds + {eventKey}))
    else Put(m, k, Product(OrEmpty(it.sku), it.title, it.quantity, ItemRevenue(it), it.imageUrl, {eventKey}))
  }

  function AddItems(m: seq<(string, Product)>, items: seq<Item>, eventKey: string): seq<(string, Product)>
    decreases |items|
  {
    if items == [] then m else AddItem(AddItems(m, items[..|items| - 1], eventKey), items[|items| - 1], eventKey)
  }

  /** `productMap`. */
  function ProductsOf(rows: seq<Order>): seq<(string, Product)>
    decreases |rows|
  {
    if rows == [] then [] else AddItems(ProductsOf(Init(rows)), Last(rows).items, EventKey(Last(rows)))
  }

  /** A `geoMap` entry. */
  datatype Geo = Geo(city: string, state: string, orderCount: int, revenue: int)

  predicate HasCity(o: Order) {
    o.shippingAddress.Some? && o.shippingAddress.value.city != ""
  }

  function GeoKey(a: Address): string {
    a.city + "::" + a.state
  }

  /** One row's turn on `geoMap`, keyed by `city::state`. */
  function GeoStep(m: seq<(string, Geo)>, o: Order, opens: bool): seq<(string, Geo)>
    requires HasCity(o)
  {
    var a := o.shippingAddress.value;
    var g := GetOr(m, GeoKey(a), Geo(a.city, a.state, 0, 0));
    Put(m, GeoKey(a), Geo(a.city, a.state, g.orderCount + (if opens then 1 else 0), g.revenue + Amount(o)))
  }

  /** `geoMap`, over rows whose shipping address names a city. */
  function GeosOf(rows: seq<Order>): seq<(string, Geo)>
    decreases |rows|
  {
    if rows == [] then []
    else if HasCity(Last(rows)) then GeoStep(GeosOf(Init(rows)), Last(rows), Opens(Init(rows), Last(rows)))
    else GeosOf(Init(rows))
  }

  /** One event's turn on `dowMap`, kept as one count per weekday. */
  function WeekdayStep(d: seq<int>, w: Weekday): seq<int>
    requires |d| == 7
  {
    d[w := d[w] + 1]
  }

  /** `dowMap`. */
  function WeekdaysOf(rows: seq<Order>, clock: Clock): (r: seq<int>)
    ensures |r| == 7
    decreases |rows|
  {
    if rows == [] then [0, 0, 0, 0, 0, 0, 0]
    else if Opens(Init(rows), Last(rows)) then WeekdayStep(WeekdaysOf(Init(rows), clock), clock.weekday(Last(rows)))
    else WeekdaysOf(Init(rows), clock)
  }

  /** `payment_info?.method?.toLowerCase()`, when non-empty. */
  function PaymentMethod(o: Order): Option<string> {
    if o.paymentInfo.Some? && Truthy(o.paymentInfo.value.paymentMethod) then Some(ToLower(o.paymentInfo.value.paymentMethod.value))
    else None
  }

  predicate HasPaymentMethod(o: Order) { PaymentMethod(o).Some? }

  /** One event's turn on `paymentMap`. */
  function PaymentStep(m: seq<(string, Tally)>, o: Order): seq<(string, Tally)>
    requires HasPaymentMethod(o)
  {
    var k := PaymentMethod(o).value;
    Put(m, k, Bump(GetOr(m, k, Tally(0, 0)), true, Amount(o)))
  }

  /** `paymentMap`. */
  function PaymentsOf(rows: seq<Order>): seq<(string, Tally)>
    decreases |rows|
  {
    if rows == [] then []
    else if Opens(Init(rows), Last(rows)) && HasPaymentMethod(Last(rows)) then PaymentStep(PaymentsOf(Init(rows)), Last(rows))
    else PaymentsOf(Init(rows))
  }

  /** `payment_info?.installments ?? 1`. */
  function InstallmentCount(o: Order): int {
    if o.paymentInfo.Some? && o.paymentInfo.value.installments.Some? then o.paymentInfo.value.installments.value else 1
  }

  predicate Financed(o: Order) { InstallmentCount(o) > 1 }

  /** `installmentsInsight`. */
  datatype Installments = Installments(upfront: int, financed: int, financedRevenue: int)

  /** One event's turn on `installmentsInsight`. */
  function InstallmentStep(a: Installments, o: Order): Installments {
    if Financed(o) then a.(financed := a.financed + 1, financedRevenue := a.financedRevenue + Amount(o))
    else a.(upfront := a.upfront + 1)
  }

  function InstallmentsOf(rows: seq<Order>): Installments
    decreases |rows|
  {
    if rows == [] then Installments(0, 0, 0)
    else if Opens(Init(rows), Last(rows)) then InstallmentStep(InstallmentsOf(Init(rows)), Last(rows))
    else InstallmentsOf(Init(rows))
  }

  /** `customerOrders`: events per customer key. */
  function CustomerEventsOf(rows: seq<Order>): seq<(string, int)>
    decreases |rows|
  {
    if rows == [] then []
    else if Opens(Init(rows), Last(rows)) then CountStep(CustomerEventsOf(Init(rows)), Customers.CustomerKey(Last(rows).customer))
    else CustomerEventsOf(Init(rows))
  }

  // ----- The single pass -----

  /** Everything the single pass leaves behind. */
  datatype Aggregates = Aggregates(
    seen: set<string>,
    totalRevenue: int,
    channels: seq<(string, Tally)>,
    statuses: seq<(string, int)>,
    days: seq<(string, Tally)>,
    weeks: seq<(string, Tally)>,
    products: seq<(string, Product)>,
    geos: seq<(string, Geo)>,
    weekdays: seq<int>,
    payments: seq<(string, Tally)>,
    installments: Installments,
    customerEvents: seq<(string, int)>)

  /** One turn of the `for (const order of filtered)` loop. */
  function AggregateStep(a: Aggregates, o: Order, range: Option<Range>, clock: Clock): Aggregates
    requires |a.weekdays| == 7
  {
    var opens := EventKey(o) !in a.seen;
    var dated := DatedIn(range, clock)(o);
    Aggregates(
      a.seen + {EventKey(o)},
      a.totalRevenue + Amount(o),
      ChannelStep(a.channels, o, opens),
      if opens then CountStep(a.statuses, StatusName(o.status)) else a.statuses,
      if dated then BucketStep(a.days, DayKey(o, range), o, opens) else a.days,
      if dated then BucketStep(a.weeks, WeekKey(o, range, clock), o, opens) else a.weeks,
      AddItems(a.products, o.items, EventKey(o)),
      if HasCity(o) then GeoStep(a.geos, o, opens) else a.geos,
      if opens then WeekdayStep(a.weekdays, clock.weekday(o)) else a.weekdays,
      if opens && HasPaymentMethod(o) then PaymentStep(a.payments, o) else a.payments,
      if opens then InstallmentStep(a.installments, o) else a.installments,
      if opens then CountStep(a.customerEvents, Customers.CustomerKey(o.customer)) else a.customerEvents)
  }

  /** The tables after the rows `rows`. */
  function AggregatesOf(rows: seq<Order>, range: Option<Range>, clock: Clock): (r: Aggregates)
    ensures |r.weekdays| == 7
    decreases |rows|
  {
    if rows == [] then Aggregates({}, 0, [], [], [], [], [], [], [0, 0, 0, 0, 0, 0, 0], [], Installments(0, 0, 0), [])
    else AggregateStep(AggregatesOf(Init(rows), range, clock), Last(rows), range, clock)
  }

  /** The `seen` set holds the purchase events; the revenue sums every row. */
  lemma {:induction false} SeenAgree(rows: seq<Order>, range: Option<Range>, clock: Clock)
    ensures AggregatesOf(rows, range, clock).seen == Events(rows)
    ensures AggregatesOf(rows, range, clock).totalRevenue == PurchaseEvents.SumAmounts(rows)
    decreases |rows|
  {
    if rows != [] {
      var s, o := Init(rows), Last(rows);
      SeenAgree(s, range, clock);
      EventsInit(rows);
    }
  }

  lemma {:induction false} RevenueTablesAgree(rows: seq<Order>, range: Option<Range>, clock: Clock)
    ensures var a := AggregatesOf(rows, range, clock);
      && a.channels == ChannelsOf(rows) && a.days == BucketsOf(rows, range, clock, false)
      && a.weeks == BucketsOf(rows, range, clock, true) && a.products == ProductsOf(rows)
      && a.geos == GeosOf(rows)
    decreases |rows|
  {
    if rows != [] {
      RevenueTablesAgree(Init(rows), range, clock);
      SeenAgree(Init(rows), range, clock);
    }
  }

  lemma {:induction false} EventTablesAgree(rows: seq<Order>, range: Option<Range>, clock: Clock)
    ensures var a := AggregatesOf(rows, range, clock);
      && a.statuses == StatusesOf(rows) && a.weekdays == WeekdaysOf(rows, clock)
      && a.payments == PaymentsOf(rows) && a.installments == InstallmentsOf(rows)
      && a.customerEvents == CustomerEventsOf(rows)
    decreases |rows|
  {
    if rows != [] {
      EventTablesAgree(Init(rows), range, clock);
      SeenAgree(Init(rows), range, clock);
    }
  }

  /** Each table of the single pass is its own fold over the rows. */
  lemma AggregatesAgree(rows: seq<Order>, range: Option<Range>, clock: Clock)
    ensures AggregatesOf(rows, range, clock)
         == Aggregates(Events(rows), PurchaseEvents.SumAmounts(rows), ChannelsOf(rows), StatusesOf(rows),
                       BucketsOf(rows, range, clock, false), BucketsOf(rows, range, clock, true),
                       ProductsOf(rows), GeosOf(rows), WeekdaysOf(rows, clock), PaymentsOf(rows),
                       InstallmentsOf(rows), CustomerEventsOf(rows))
  {
    SeenAgree(rows, range, clock);
    RevenueTablesAgree(rows, range, clock);
    EventTablesAgree(rows, range, clock);
  }

  /** The inner loop over a row's items. */
  method AddOrderItems(products: seq<(string, Product)>, items: seq<Item>, eventKey: string)
    returns (after: seq<(string, Product)>)
    ensures after == AddItems(products, items, eventKey)
  {
    after := products;
    var j := 0;
    while j < |items|
      invariant j <= |items| && after == AddItems(products, items[..j], eventKey)
    {
      assert items[..j + 1][..j] == items[..j];
      after := AddItem(after, items[j], eventKey);
      j := j + 1;
    }
    assert items[..j] == items;
  }

  /** The body of the `for (const order of filtered)` loop. */
  method AggregateRow(a: Aggregates, order: Order, range: Option<Range>, clock: Clock) returns (b: Aggregates)
    requires |a.weekdays| == 7
    ensures b == AggregateStep(a, order, range, clock)
  {
    ghost var step := AggregateStep(a, order, range, clock);
    var totalRevenue := a.totalRevenue + Amount(order);
    var eventKey := EventKey(order);
    var isFirst := eventKey !in a.seen;
    var seen := a.seen + {eventKey};
    var channels := ChannelStep(a.channels, order, isFirst);
    var days, weeks := a.days, a.weeks;
    if clock.time(order) >= Cutoff(range) {
      days := BucketStep(days, DayKey(order, range), order, isFirst);
      weeks := BucketStep(weeks, WeekKey(order, range, clock), order, isFirst);
    }
    assert days == step.days && weeks == step.weeks;
    var products := AddOrderItems(a.products, order.items, eventKey);
    var geos := a.geos;
    if HasCity(order) {
      geos := GeoStep(geos, order, isFirst);
    }
    assert geos == step.geos;
    // The status, weekday, payment, installment and customer tables count events.
    var statuses, weekdays, payments, installments, customerEvents :=
      a.statuses, a.weekdays, a.payments, a.installments, a.customerEvents;
    if isFirst {
      statuses := CountStep(statuses, StatusName(order.status));
      weekdays := WeekdayStep(weekdays, clock.weekday(order));
      if PaymentMethod(order).Some? {
        payments := PaymentStep(payments, order);
      }
      installments := InstallmentStep(installments, order);
      customerEvents := CountStep(customerEvents, Customers.CustomerKey(order.customer));
    }
    assert statuses == step.statuses && weekdays == step.weekdays && payments == step.payments;
    assert installments == step.installments && customerEvents == step.customerEvents;
    b := Aggregates(seen, totalRevenue, channels, statuses, days, weeks, products, geos, weekdays,
                    payments, installments, customerEvents);
  }

  /** The `for (const order of filtered)` loop. */
  method Aggregate(rows: seq<Order>, range: Option<Range>, clock: Clock) returns (agg: Aggregates)
    ensures agg == AggregatesOf(rows, range, clock)
  {
    agg := Aggregates({}, 0, [], [], [], [], [], [], [0, 0, 0, 0, 0, 0, 0], [], Installments(0, 0, 0), []);
    var i := 0;
    while i < |rows|
      invariant i <= |rows| && agg == AggregatesOf(rows[..i], range, clock)
    {
      assert rows[..i + 1][..i] == rows[..i];
      agg := AggregateRow(agg, rows[i], range, clock);
      i := i + 1;
    }
    assert rows[..i] == rows;
  }

  // ----- What the tables add up to -----

  function CountOf(t: Tally): int { t.count }
  function RevenueOf(t: Tally): int { t.revenue }
  function Value(n: int): int { n }
  function GeoCount(g: Geo): int { g.orderCount }

  function SeqSum(d: seq<int>): int
    decreases |d|
  {
    if d == [] then 0 else d[0] + SeqSum(d[1..])
  }

  lemma {:induction false} SeqSumZeros(n: nat)
    ensures SeqSum(seq(n, _ => 0)) == 0
  {
    if n > 0 {
      assert seq(n, _ => 0)[1..] == seq(n - 1, _ => 0);
      SeqSumZeros(n - 1);
    }
  }

  lemma {:induction false} SeqSumBump(d: seq<int>, w: nat)
    requires w < |d|
    ensures SeqSum(d[w := d[w] + 1]) == SeqSum(d) + 1
    decreases |d|
  {
    if w > 0 {
      assert d[w := d[w] + 1][1..] == d[1..][w - 1 := d[1..][w - 1] + 1];
      SeqSumBump(d[1..], w - 1);
    }
  }

  // How one step moves each table's sum.

  lemma ChannelStepSums(m: seq<(string, Tally)>, o: Order, opens: bool)
    ensures SumOf(ChannelStep(m, o, opens), CountOf) == SumOf(m, CountOf) + (if opens then 1 else 0)
    ensures SumOf(ChannelStep(m, o, opens), RevenueOf) == SumOf(m, RevenueOf) + Amount(o)
  {
    var k := ChannelName(o.channel);
    var v := Bump(GetOr(m, k, Tally(0, 0)), opens, Amount(o));
    SumOfPut(m, k, v, Tally(0, 0), CountOf);
    SumOfPut(m, k, v, Tally(0, 0), RevenueOf);
  }

  lemma CountStepSum(m: seq<(string, int)>, k: string)
    ensures SumOf(CountStep(m, k), Value) == SumOf(m, Value) + 1
  {
    SumOfPut(m, k, GetOr(m, k, 0) + 1, 0, Value);
  }

  lemma BucketStepSum(m: seq<(string, Tally)>, k: string, o: Order, opens: bool)
    ensures SumOf(BucketStep(m, k, o, opens), CountOf) == SumOf(m, CountOf) + (if opens then 1 else 0)
  {
    SumOfPut(m, k, Bump(GetOr(m, k, Tally(0, 0)), opens, Amount(o)), Tally(0, 0), CountOf);
  }

  lemma GeoStepSum(m: seq<(string, Geo)>, o: Order, opens: bool)
    requires HasCity(o)
    ensures SumOf(GeoStep(m, o, opens), GeoCount) == SumOf(m, GeoCount) + (if opens then 1 else 0)
  {
    var a := o.shippingAddress.value;
    var g := GetOr(m, GeoKey(a), Geo(a.city, a.state, 0, 0));
    SumOfPut(m, GeoKey(a), Geo(a.city, a.state, g.orderCount + (if opens then 1 else 0), g.revenue + Amount(o)),
             Geo(a.city, a.state, 0, 0), GeoCount);
  }

  lemma PaymentStepSum(m: seq<(string, Tally)>, o: Order)
    requires HasPaymentMethod(o)
    ensures SumOf(PaymentStep(m, o), CountOf) == SumOf(m, CountOf) + 1
  {
    var k := PaymentMethod(o).value;
    SumOfPut(m, k, Bump(GetOr(m, k, Tally(0, 0)), true, Amount(o)), Tally(0, 0), CountOf);
  }

  /** `channelMap`: event counts add up to `totalOrders`, revenues to `totalRevenue`. */
  lemma {:induction false} ChannelTotals(rows: seq<Order>)
    ensures SumOf(ChannelsOf(rows), CountOf) == |Events(rows)|
    ensures SumOf(ChannelsOf(rows), RevenueOf) == PurchaseEvents.SumAmounts(rows)
    decreases |rows|
  {
    if rows != [] {
      var s, o := Init(rows), Last(rows);
      ChannelTotals(s);
      OpensStep(rows, HasCity);
      ChannelStepSums(ChannelsOf(s), o, Opens(s, o));
    }
  }

  /** `statusMap` counts every event once. */
  lemma {:induction false} StatusTotals(rows: seq<Order>)
    ensures SumOf(StatusesOf(rows), Value) == |Events(rows)|
    decreases |rows|
  {
    if rows != [] {
      var s, o := Init(rows), Last(rows);
      StatusTotals(s);
      OpensStep(rows, HasCity);
      CountStepSum(StatusesOf(s), StatusName(o.status));
    }
  }

  /** `customerOrders` counts every event once. */
  lemma {:induction false} CustomerTotals(rows: seq<Order>)
    ensures SumOf(CustomerEventsOf(rows), Value) == |Events(rows)|
    decreases |rows|
  {
    if rows != [] {
      var s, o := Init(rows), Last(rows);
      CustomerTotals(s);
      OpensStep(rows, HasCity);
      CountStepSum(CustomerEventsOf(s), Customers.CustomerKey(o.customer));
    }
  }

  /** `dowMap` counts every event once. */
  lemma {:induction false} WeekdayTotals(rows: seq<Order>, clock: Clock)
    ensures SeqSum(WeekdaysOf(rows, clock)) == |Events(rows)|
    decreases |rows|
  {
    if rows != [] {
      var s, o := Init(rows), Last(rows);
      WeekdayTotals(s, clock);
      OpensStep(rows, HasCity);
      if Opens(s, o) {
        var d := WeekdaysOf(s, clock);
        var w := clock.weekday(o);
        assert WeekdaysOf(rows, clock) == d[w := d[w] + 1];
        SeqSumBump(d, w);
      }
    } else {
      assert WeekdaysOf(rows, clock) == seq(7, _ => 0);
      SeqSumZeros(7);
    }
  }

  /** `installmentsInsight` splits the events: the financed ones are those whose opening
      row has more than one installment, the rest are up-front. */
  lemma {:induction false} InstallmentTotals(rows: seq<Order>)
    ensures InstallmentsOf(rows).financed == Count(Openers(rows), Financed)
    ensures InstallmentsOf(rows).upfront + InstallmentsOf(rows).financed == |Events(rows)|
    decreases |rows|
  {
    if rows != [] {
      InstallmentTotals(Init(rows));
      OpensStep(rows, Financed);
    }
  }

  /** `dayMap` and `weekMap` count the events whose opening row is dated from the
      cutoff on. */
  lemma {:induction false} BucketTotals(rows: seq<Order>, range: Option<Range>, clock: Clock, weekly: bool)
    ensures SumOf(BucketsOf(rows, range, clock, weekly), CountOf) == Count(Openers(rows), DatedIn(range, clock))
    decreases |rows|
  {
    if rows != [] {
      var s, o := Init(rows), Last(rows);
      BucketTotals(s, range, clock, weekly);
      OpensStep(rows, DatedIn(range, clock));
      BucketStepSum(BucketsOf(s, range, clock, weekly), BucketKey(o, range, clock, weekly), o, Opens(s, o));
    }
  }

  /** `geoMap` counts the events whose opening row names a city. */
  lemma {:induction false} GeoTotals(rows: seq<Order>)
    ensures SumOf(GeosOf(rows), GeoCount) == Count(Openers(rows), HasCity)
    decreases |rows|
  {
    if rows != [] {
      var s, o := Init(rows), Last(rows);
      GeoTotals(s);
      OpensStep(rows, HasCity);
      if HasCity(o) {
        GeoStepSum(GeosOf(s), o, Opens(s, o));
      }
    }
  }

  /** `paymentMap` counts the events whose opening row names a payment method. */
  lemma {:induction false} PaymentTotals(rows: seq<Order>)
    ensures SumOf(PaymentsOf(rows), CountOf) == Count(Openers(rows), HasPaymentMethod)
    decreases |rows|
  {
    if rows != [] {
      var s, o := Init(rows), Last(rows);
      PaymentTotals(s);
      OpensStep(rows, HasPaymentMethod);
      if HasPaymentMethod(o) {
        PaymentStepSum(PaymentsOf(s), o);
      }
    }
  }
  // ----- What `productMap` holds -----

  function ItemKeys(items: seq<Item>): set<string> {
    set it | it in items :: ProductKey(it)
  }

  /** The events listed under product `k` (none when `k` has no entry). */
  function OrderIdsOf(m: seq<(string, Product)>, k: string): set<string> {
    var p := Get(m, k);
    if p.Some? then p.value.orderIds else {}
  }

  /** The quantity recorded under product `k` (nothing when `k` has no entry). */
  function QuantityOf(m: seq<(string, Product)>, k: string): int {
    var p := Get(m, k);
    if p.Some? then p.value.totalQuantity else 0
  }

  /** The units of product `k` among `items`. */
  function ItemQuantity(items: seq<Item>, k: string): int
    decreases |items|
  {
    if items == [] then 0
    else ItemQuantity(items[..|items| - 1], k) + (if ProductKey(items[|items| - 1]) == k then items[|items| - 1].quantity else 0)
  }

  /** One item moves only its own product's entry: it creates it if missing, adds the
      event to its list and its units to its quantity. */
  lemma AddItemSpec(m: seq<(string, Product)>, it: Item, ek: string, k: string)
    requires Distinct(m)
    ensures var r := AddItem(m, it, ek);
      && Distinct(r)
      && (Get(r, k).Some? <==> Get(m, k).Some? || ProductKey(it) == k)
      && OrderIdsOf(r, k) == OrderIdsOf(m, k) + (if ProductKey(it) == k then {ek} else {})
      && QuantityOf(r, k) == QuantityOf(m, k) + (if ProductKey(it) == k then it.quantity else 0)
  {
    var key := ProductKey(it);
    var p := Get(m, key);
    if p.Some? {
      PutSpec(m, key, p.value.(totalQuantity := p.value.totalQuantity + it.quantity,
                               totalRevenue := p.value.totalRevenue + ItemRevenue(it),
                               orderIds := p.value.orderIds + {ek}));
    } else {
      PutSpec(m, key, Product(OrEmpty(it.sku), it.title, it.quantity, ItemRevenue(it), it.imageUrl, {ek}));
    }
  }

  lemma {:induction false} AddItemsSpec(m: seq<(string, Product)>, items: seq<Item>, ek: string, k: string)
    requires Distinct(m)
    ensures var r := AddItems(m, items, ek);
      && Distinct(r)
      && (Get(r, k).Some? <==> Get(m, k).Some? || k in ItemKeys(items))
      && OrderIdsOf(r, k) == OrderIdsOf(m, k) + (if k in ItemKeys(items) then {ek} else {})
      && QuantityOf(r, k) == QuantityOf(m, k) + ItemQuantity(items, k)
    decreases |items|
  {
    if items != [] {
      var init, it := items[..|items| - 1], items[|items| - 1];
      assert items == init + [it];
      assert ItemKeys(items) == ItemKeys(init) + {ProductKey(it)};
      AddItemsSpec(m, init, ek, k);
      AddItemSpec(AddItems(m, init, ek), it, ek, k);
    }
  }

  /** The events with at least one row carrying product `k`. */
  function ProductEvents(rows: seq<Order>, k: string): set<string> {
    set o | o in rows && k in ItemKeys(o.items) :: EventKey(o)
  }

  lemma ProductEventsInit(rows: seq<Order>, k: string)
    requires rows != []
    ensures ProductEvents(rows, k)
         == ProductEvents(Init(rows), k) + (if k in ItemKeys(Last(rows).items) then {EventKey(Last(rows))} else {})
  {
    assert rows == Init(rows) + [Last(rows)];
  }

  /** The units of product `k` over all rows. */
  function RowsQuantity(rows: seq<Order>, k: string): int
    decreases |rows|
  {
    if rows == [] then 0 else RowsQuantity(Init(rows), k) + ItemQuantity(Last(rows).items, k)
  }

  /** A product has an entry exactly when some row carries it; its `orderIds` are the
      distinct events carrying it, so `orderCount` counts pack rows once; its quantity
      sums the units over every row. */
  lemma {:induction false} ProductsSpec(rows: seq<Order>, k: string)
    ensures Distinct(ProductsOf(rows))
    ensures Get(ProductsOf(rows), k).Some? <==> ProductEvents(rows, k) != {}
    ensures OrderIdsOf(ProductsOf(rows), k) == ProductEvents(rows, k)
    ensures QuantityOf(ProductsOf(rows), k) == RowsQuantity(rows, k)
    decreases |rows|
  {
    if rows != [] {
      ProductsSpec(Init(rows), k);
      ProductEventsInit(rows, k);
      AddItemsSpec(ProductsOf(Init(rows)), Last(rows).items, EventKey(Last(rows)), k);
    }
  }
}
