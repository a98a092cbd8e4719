// src/hooks/useAnalytics.ts: from the tables of the single pass to the summary the
// analytics page shows (lists, top-N cuts, weekday averages and the key insights).
module AnalyticsSummary {
  import opened Wrappers
  import opened OrderModel
  import opened OrderedMap
  import opened Analytics
  import Text
  import PurchaseEvents
  import Customers
  import Sorting

  type Ratio = Customers.Ratio

  /** `den > 0 ? num / den : 0`, kept as a fraction. */
  function Per(num: int, den: int): (r: Ratio)
    ensures r.den > 0
    ensures den > 0 ==> r.num * den == num * r.den
    ensures den <= 0 ==> r.num == 0
  {
    if den > 0 then Customers.Ratio(num, den) else Customers.Ratio(0, 1)
  }

  /** `Math.round(n / d)`: the nearest integer, halves going up. */
  function RoundDiv(n: int, d: int): int
    requires d > 0
  {
    (2 * n + d) / (2 * d)
  }

  lemma RoundDivSpec(n: int, d: int)
    requires d > 0
    ensures d * (2 * RoundDiv(n, d) - 1) <= 2 * n < d * (2 * RoundDiv(n, d) + 1)
  {
    var q, m := (2 * n + d) / (2 * d), (2 * n + d) % (2 * d);
    assert 2 * n + d == (2 * d) * q + m && 0 <= m < 2 * d;
  }

  // ----- byChannel -----

  datatype ChannelStats = ChannelStats(channel: string, orderCount: int, totalRevenue: int, avgTicket: Ratio, percentOfTotal: Ratio)

  function ChannelStatsOf(e: (string, Tally), totalOrders: int): ChannelStats {
    ChannelStats(e.0, e.1.count, e.1.revenue, Per(e.1.revenue, e.1.count), Per(100 * e.1.count, totalOrders))
  }

  /** `Array.from(channelMap.entries()).map(...)`. */
  function ByChannel(channels: seq<(string, Tally)>, totalOrders: int): seq<ChannelStats>
    decreases |channels|
  {
    if channels == [] then []
    else ByChannel(channels[..|channels| - 1], totalOrders) + [ChannelStatsOf(channels[|channels| - 1], totalOrders)]
  }

  function StatsCount(c: ChannelStats): int { c.orderCount }
  function StatsRevenue(c: ChannelStats): int { c.totalRevenue }
  function PercentNum(c: ChannelStats): int { c.percentOfTotal.num }

  /** One entry per channel; the counts and revenues of the entries are those of the
      table, and every share is over `totalOrders` with numerators summing to 100%. */
  lemma {:induction false} ByChannelSpec(channels: seq<(string, Tally)>, totalOrders: int)
    ensures |ByChannel(channels, totalOrders)| == |channels|
    ensures Sorting.SumBy(ByChannel(channels, totalOrders), StatsCount) == SumOf(channels, CountOf)
    ensures Sorting.SumBy(ByChannel(channels, totalOrders), StatsRevenue) == SumOf(channels, RevenueOf)
    ensures totalOrders > 0 ==> Sorting.SumBy(ByChannel(channels, totalOrders), PercentNum) == 100 * SumOf(channels, CountOf)
    ensures forall c :: c in ByChannel(channels, totalOrders) ==> c.avgTicket.den > 0 && c.percentOfTotal.den > 0
    decreases |channels|
  {
    if channels != [] {
      ByChannelSpec(channels[..|channels| - 1], totalOrders);
    }
  }

  // ----- byStatus -----

  datatype StatusStats = StatusStats(status: string, count: int)

  function StatusEntries(statuses: seq<(string, int)>): seq<StatusStats>
    decreases |statuses|
  {
    if statuses == [] then []
    else StatusEntries(statuses[..|statuses| - 1]) + [StatusStats(statuses[|statuses| - 1].0, statuses[|statuses| - 1].1)]
  }

  function StatusCount(s: StatusStats): int { s.count }

  lemma {:induction false} StatusEntriesSum(statuses: seq<(string, int)>)
    ensures Sorting.SumBy(StatusEntries(statuses), StatusCount) == SumOf(statuses, Value)
    decreases |statuses|
  {
    if statuses != [] {
      StatusEntriesSum(statuses[..|statuses| - 1]);
    }
  }

  /** `byStatus`: the entries by descending count. */
  function ByStatus(statuses: seq<(string, int)>): seq<StatusStats> {
    Sorting.Sort(StatusEntries(statuses), Sorting.Desc(StatusCount))
  }

  /** `byStatus` is in descending count order, holds the status table's entries, and its
      counts add up to the table's total. */
  lemma ByStatusSpec(statuses: seq<(string, int)>)
    ensures var r := ByStatus(statuses);
      && (forall i, j :: 0 <= i < j < |r| ==> r[i].count >= r[j].count)
      && multiset(r) == multiset(StatusEntries(statuses))
      && Sorting.SumBy(r, StatusCount) == SumOf(statuses, Value)
  {
    var e := StatusEntries(statuses);
    Sorting.SortDescSpec(e, StatusCount);
    Sorting.SumByPerm(ByStatus(statuses), e, StatusCount);
    StatusEntriesSum(statuses);
  }

  // ----- recentDays / recentWeeks -----

  datatype DailyStats = DailyStats(date: string, orderCount: int, revenue: int)

  function DailyEntries(m: seq<(string, Tally)>): seq<DailyStats>
    decreases |m|
  {
    if m == [] then [] else DailyEntries(m[..|m| - 1]) + [DailyStats(m[|m| - 1].0, m[|m| - 1].1.count, m[|m| - 1].1.revenue)]
  }

  function DailyCount(d: DailyStats): int { d.orderCount }

  lemma {:induction false} DailyEntriesSum(m: seq<(string, Tally)>)
    ensures Sorting.SumBy(DailyEntries(m), DailyCount) == SumOf(m, CountOf)
    decreases |m|
  {
    if m != [] {
      DailyEntriesSum(m[..|m| - 1]);
    }
  }

  /** `(a, b) => a.date.localeCompare(b.date)`, as code-point order. */
  function DateLe(): (DailyStats, DailyStats) -> bool {
    (a: DailyStats, b: DailyStats) => Text.StrLe(a.date, b.date)
  }

  function ByDate(m: seq<(string, Tally)>): seq<DailyStats> {
    Sorting.Sort(DailyEntries(m), DateLe())
  }

  /** `recentDays` and `recentWeeks` are the bucket entries in date order. */
  lemma ByDateSpec(m: seq<(string, Tally)>)
    ensures var r := ByDate(m);
      && (forall i, j :: 0 <= i < j < |r| ==> Text.StrLe(r[i].date, r[j].date))
      && multiset(r) == multiset(DailyEntries(m))
      && Sorting.SumBy(r, DailyCount) == SumOf(m, CountOf)
  {
    var le := DateLe();
    forall a, b ensures le(a, b) || le(b, a) {
      Text.StrLeTotal(a.date, b.date);
    }
    forall a, b, c | le(a, b) && le(b, c) ensures le(a, c) {
      Text.StrLeTransitive(a.date, b.date, c.date);
    }
    assert Sorting.Total(le) && Sorting.Transitive(le);
    Sorting.SortSpec(DailyEntries(m), le);
    var r := ByDate(m);
    forall i, j | 0 <= i < j < |r| ensures Text.StrLe(r[i].date, r[j].date) {
      assert le(r[i], r[j]);
    }
    Sorting.SumByPerm(r, DailyEntries(m), DailyCount);
    DailyEntriesSum(m);
  }

  // ----- topProducts -----

  datatype TopProduct = TopProduct(
    sku: string, title: string, totalQuantity: int, totalRevenue: int,
    imageUrl: Option<string>, orderCount: int)

  function TopProductOf(p: Product): TopProduct {
    TopProduct(p.sku, p.title, p.totalQuantity, p.totalRevenue, p.imageUrl, |p.orderIds|)
  }

  function ProductEntries(m: seq<(string, Product)>): (r: seq<TopProduct>)
    ensures |r| == |m|
    decreases |m|
  {
    if m == [] then [] else ProductEntries(m[..|m| - 1]) + [TopProductOf(m[|m| - 1].1)]
  }

  function TopQuantity(p: TopProduct): int { p.totalQuantity }

  /** `topProducts`: the ten products with the most units. */
  function TopProducts(m: seq<(string, Product)>): seq<TopProduct> {
    Sorting.Take(Sorting.Sort(ProductEntries(m), Sorting.Desc(TopQuantity)), 10)
  }

  /** An entry's `orderCount` is the number of distinct events carrying it. */
  lemma {:induction false} ProductEntriesCount(rows: seq<Order>, i: nat)
    requires i < |ProductsOf(rows)|
    ensures ProductEntries(ProductsOf(rows))[i].orderCount == |ProductEvents(rows, ProductsOf(rows)[i].0)|
  {
    var m := ProductsOf(rows);
    var k := m[i].0;
    ProductsSpec(rows, k);
    IndexOfDistinct(m, i);
    ProductEntriesAt(m, i);
  }

  lemma {:induction false} ProductEntriesAt(m: seq<(string, Product)>, i: nat)
    requires i < |m|
    ensures ProductEntries(m)[i] == TopProductOf(m[i].1)
    decreases |m|
  {
    if i < |m| - 1 {
      ProductEntriesAt(m[..|m| - 1], i);
    }
  }

  /** At most ten products, by descending quantity, each drawn from the product table,
      and none with fewer units than a product left out. */
  lemma TopProductsSpec(m: seq<(string, Product)>)
    ensures var r := TopProducts(m);
      && |r| <= 10
      && multiset(r) <= multiset(ProductEntries(m))
      && (forall i, j :: 0 <= i < j < |r| ==> TopQuantity(r[i]) >= TopQuantity(r[j]))
      && (forall x, y :: x in r && y in multiset(ProductEntries(m)) - multiset(r) ==> TopQuantity(x) >= TopQuantity(y))
  {
    Sorting.TakeDescSpec(ProductEntries(m), TopQuantity, 10);
  }

  // ----- geoStats -----

  function GeoValues(m: seq<(string, Geo)>): (r: seq<Geo>)
    ensures |r| == |m|
    decreases |m|
  {
    if m == [] then [] else GeoValues(m[..|m| - 1]) + [m[|m| - 1].1]
  }

  /** `geoStats`: the fifteen destinations with the most events. */
  function GeoStats(m: seq<(string, Geo)>): seq<Geo> {
    Sorting.Take(Sorting.Sort(GeoValues(m), Sorting.Desc(GeoCount)), 15)
  }

  lemma GeoStatsSpec(m: seq<(string, Geo)>)
    ensures var r := GeoStats(m);
      && |r| <= 15
      && multiset(r) <= multiset(GeoValues(m))
      && (forall i, j :: 0 <= i < j < |r| ==> GeoCount(r[i]) >= GeoCount(r[j]))
      && (forall x, y :: x in r && y in multiset(GeoValues(m)) - multiset(r) ==> GeoCount(x) >= GeoCount(y))
  {
    Sorting.TakeDescSpec(GeoValues(m), GeoCount, 15);
  }

  // ----- byPaymentMethod -----

  /** `PAYMENT_LABELS[method] ?? method`. */
  function PaymentLabel(pm: string): (r: string)
    ensures r != pm ==> pm in PaymentLabels
  {
    if pm in PaymentLabels then PaymentLabels[pm] else pm
  }

  const PaymentLabels: map<string, string> := map[
    "visa" := "Visa", "master" := "Mastercard", "debmaster" := "D\U{E9}bito Mastercard",
    "pse" := "PSE", "efecty" := "Efecty", "amex" := "Amex", "diners" := "Diners",
    "naranja" := "Naranja", "cabal" := "Cabal"]

  datatype PaymentMethodStats = PaymentMethodStats(paymentMethod: string, caption: string, orderCount: int, revenue: int)

  function PaymentEntries(m: seq<(string, Tally)>): seq<PaymentMethodStats>
    decreases |m|
  {
    if m == [] then []
    else PaymentEntries(m[..|m| - 1]) + [PaymentMethodStats(m[|m| - 1].0, PaymentLabel(m[|m| - 1].0), m[|m| - 1].1.count, m[|m| - 1].1.revenue)]
  }

  function PaymentCount(p: PaymentMethodStats): int { p.orderCount }

  lemma {:induction false} PaymentEntriesSum(m: seq<(string, Tally)>)
    ensures Sorting.SumBy(PaymentEntries(m), PaymentCount) == SumOf(m, CountOf)
    decreases |m|
  {
    if m != [] {
      PaymentEntriesSum(m[..|m| - 1]);
    }
  }

  function ByPaymentMethod(m: seq<(string, Tally)>): seq<PaymentMethodStats> {
    Sorting.Sort(PaymentEntries(m), Sorting.Desc(PaymentCount))
  }

  /** `byPaymentMethod` is in descending count order and counts every event that names
      a payment method once. */
  lemma ByPaymentMethodSpec(rows: seq<Order>)
    ensures var r := ByPaymentMethod(PaymentsOf(rows));
      && (forall i, j :: 0 <= i < j < |r| ==> r[i].orderCount >= r[j].orderCount)
      && multiset(r) == multiset(PaymentEntries(PaymentsOf(rows)))
      && Sorting.SumBy(r, PaymentCount) == Count(Openers(rows), HasPaymentMethod)
  {
    var e := PaymentEntries(PaymentsOf(rows));
    Sorting.SortDescSpec(e, PaymentCount);
    Sorting.SumByPerm(ByPaymentMethod(PaymentsOf(rows)), e, PaymentCount);
    PaymentEntriesSum(PaymentsOf(rows));
    PaymentTotals(rows);
  }

  // ----- byDayOfWeek -----

  const DayNames: seq<string> := ["Dom", "Lun", "Mar", "Mi\U{E9}", "Jue", "Vie", "S\U{E1}b"]

  /** Monday first, Sunday last. */
  const DisplayOrder: seq<Weekday> := [1, 2, 3, 4, 5, 6, 0]

  datatype DayOfWeekStats = DayOfWeekStats(day: string, avgOrders: Ratio, totalOrders: int)

  /** `Math.round(count / weeks * 10) / 10`. */
  function AvgOrders(count: int, weeks: int): Ratio
    requires weeks > 0
  {
    Customers.Ratio(RoundDiv(10 * count, weeks), 10)
  }

  function DayStats(d: seq<int>, weeks: int, w: Weekday): DayOfWeekStats
    requires |d| == 7 && weeks > 0
  {
    DayOfWeekStats(DayNames[w], AvgOrders(d[w], weeks), d[w])
  }

  /** `byDayOfWeek`, over the number of week buckets (at least one). */
  function ByDayOfWeek(d: seq<int>, weekBuckets: nat): (r: seq<DayOfWeekStats>)
    requires |d| == 7
    ensures |r| == 7
  {
    var weeks := if weekBuckets == 0 then 1 else weekBuckets;
    seq(7, i requires 0 <= i < 7 => DayStats(d, weeks, DisplayOrder[i]))
  }

  function DayTotal(s: DayOfWeekStats): int { s.totalOrders }

  lemma SeqSumSeven(d: seq<int>)
    requires |d| == 7
    ensures SeqSum(d) == d[0] + d[1] + d[2] + d[3] + d[4] + d[5] + d[6]
  {
    assert d[6..][1..] == [];
    assert SeqSum(d[6..]) == d[6];
    assert d[5..][1..] == d[6..];
    assert SeqSum(d[5..]) == d[5] + d[6];
    assert d[4..][1..] == d[5..];
    assert SeqSum(d[4..]) == d[4] + d[5] + d[6];
    assert d[3..][1..] == d[4..];
    assert SeqSum(d[3..]) == d[3] + d[4] + d[5] + d[6];
    assert d[2..][1..] == d[3..];
    assert SeqSum(d[2..]) == d[2] + d[3] + d[4] + d[5] + d[6];
    assert d[1..][1..] == d[2..];
  }

  lemma SumBySeven(r: seq<DayOfWeekStats>)
    requires |r| == 7
    ensures Sorting.SumBy(r, DayTotal) == r[0].totalOrders + r[1].totalOrders + r[2].totalOrders
      + r[3].totalOrders + r[4].totalOrders + r[5].totalOrders + r[6].totalOrders
  {
    var f := DayTotal;
    assert r[..1][..0] == [];
    assert Sorting.SumBy(r[..1], f) == r[0].totalOrders;
    assert r[..2][..1] == r[..1];
    assert Sorting.SumBy(r[..2], f) == r[0].totalOrders + r[1].totalOrders;
    assert r[..3][..2] == r[..2];
    assert Sorting.SumBy(r[..3], f) == r[0].totalOrders + r[1].totalOrders + r[2].totalOrders;
    assert r[..4][..3] == r[..3];
    assert Sorting.SumBy(r[..4], f) == r[0].totalOrders + r[1].totalOrders + r[2].totalOrders + r[3].totalOrders;
    assert r[..5][..4] == r[..4];
    assert Sorting.SumBy(r[..5], f) == r[0].totalOrders + r[1].totalOrders + r[2].totalOrders + r[3].totalOrders
      + r[4].totalOrders;
    assert r[..6][..5] == r[..5];
    assert Sorting.SumBy(r[..6], f) == r[0].totalOrders + r[1].totalOrders + r[2].totalOrders + r[3].totalOrders
      + r[4].totalOrders + r[5].totalOrders;
    assert r[..6] == r[..|r| - 1];
  }

  /** Seven entries, Monday to Sunday, each with its day's name and event count, rounded
      averages to one decimal, and day counts adding up to every event. */
  lemma ByDayOfWeekSpec(rows: seq<Order>, clock: Clock, weekBuckets: nat)
    ensures var r := ByDayOfWeek(WeekdaysOf(rows, clock), weekBuckets);
      && (forall i :: 0 <= i < 7 ==>
            r[i].day == DayNames[DisplayOrder[i]] && r[i].totalOrders == WeekdaysOf(rows, clock)[DisplayOrder[i]] && r[i].avgOrders.den == 10)
      && r[0].day == "Lun" && r[6].day == "Dom"
      && Sorting.SumBy(r, DayTotal) == |Events(rows)|
  {
    var d := WeekdaysOf(rows, clock);
    var r := ByDayOfWeek(d, weekBuckets);
    WeekdayTotals(rows, clock);
    SeqSumSeven(d);
    SumBySeven(r);
  }
  // ----- The period comparison -----

  /** The counters of the second loop, over every order. */
  datatype Period = Period(currentOrders: int, previousOrders: int, currentRevenue: int, previousRevenue: int)

  /** `prevStart`: the window of the same length that ends just before the range. */
  function PrevStart(r: Range): int { r.from - 1 - (r.to - r.from) }

  function Within(lo: int, hi: int, clock: Clock): Order -> bool {
    o => lo <= clock.time(o) <= hi
  }

  function Current(r: Range, clock: Clock): Order -> bool { Within(r.from, r.to, clock) }
  function Previous(r: Range, clock: Clock): Order -> bool { Within(PrevStart(r), r.from - 1, clock) }

  /** One turn of `for (const order of orders)`: the range test comes first. */
  function PeriodStep(p: Period, o: Order, isNew: bool, r: Range, clock: Clock): Period {
    var n := if isNew then 1 else 0;
    if Current(r, clock)(o) then p.(currentOrders := p.currentOrders + n, currentRevenue := p.currentRevenue + Amount(o))
    else if Previous(r, clock)(o) then p.(previousOrders := p.previousOrders + n, previousRevenue := p.previousRevenue + Amount(o))
    else p
  }

  function PeriodOf(orders: seq<Order>, r: Range, clock: Clock): Period
    decreases |orders|
  {
    if orders == [] then Period(0, 0, 0, 0)
    else PeriodStep(PeriodOf(Init(orders), r, clock), Last(orders), Opens(Init(orders), Last(orders)), r, clock)
  }

  /** The revenue of the rows satisfying `P`. */
  function RevenueWhere(rows: seq<Order>, P: Order -> bool): int
    decreases |rows|
  {
    if rows == [] then 0 else RevenueWhere(Init(rows), P) + (if P(Last(rows)) then Amount(Last(rows)) else 0)
  }

  /** The body of the loop comparing the range with the period before it. */
  method CountPeriodRow(p: Period, order: Order, isNewEvent: bool, r: Range, clock: Clock) returns (q: Period)
    ensures q == PeriodStep(p, order, isNewEvent, r, clock)
  {
    q := p;
    var d := clock.time(order);
    var amount := Amount(order);
    if r.from <= d <= r.to {
      if isNewEvent {
        q := q.(currentOrders := q.currentOrders + 1);
      }
      q := q.(currentRevenue := q.currentRevenue + amount);
    } else if PrevStart(r) <= d <= r.from - 1 {
      if isNewEvent {
        q := q.(previousOrders := q.previousOrders + 1);
      }
      q := q.(previousRevenue := q.previousRevenue + amount);
    }
  }

  /** The loop comparing the range with the period before it. */
  method ComparePeriods(orders: seq<Order>, r: Range, clock: Clock) returns (p: Period)
    ensures p == PeriodOf(orders, r, clock)
  {
    p := Period(0, 0, 0, 0);
    var counted: set<string> := {};
    var i := 0;
    while i < |orders|
      invariant i <= |orders| && counted == Events(orders[..i]) && p == PeriodOf(orders[..i], r, clock)
    {
      counted, p := PeriodTurn(orders, i, counted, p, r, clock);
      i := i + 1;
    }
    assert orders[..i] == orders;
  }

  /** One pass of the period loop: the row's event is counted the first time it appears. */
  method PeriodTurn(orders: seq<Order>, i: nat, counted: set<string>, p: Period, r: Range, clock: Clock)
    returns (countedAfter: set<string>, q: Period)
    requires i < |orders| && counted == Events(orders[..i]) && p == PeriodOf(orders[..i], r, clock)
    ensures countedAfter == Events(orders[..i + 1]) && q == PeriodOf(orders[..i + 1], r, clock)
  {
    var order := orders[i];
    var momKey := EventKey(order);
    var isNewEvent := momKey !in counted;
    q := CountPeriodRow(p, order, isNewEvent, r, clock);
    countedAfter := counted;
    if isNewEvent {
      countedAfter := counted + {momKey};
    }
    PrefixNext(orders, i);
    EventsSnoc(orders[..i], order);
    InitLast(orders[..i], order);
  }

  /** The two windows never overlap: the previous one ends before the range starts. */
  lemma WindowsDisjoint(r: Range, clock: Clock, o: Order)
    ensures !(Current(r, clock)(o) && Previous(r, clock)(o))
  {
  }

  /** Each window counts the events whose first row, among all orders, falls in it, and
      sums the revenue of every row in it. */
  lemma {:induction false} PeriodSpec(orders: seq<Order>, r: Range, clock: Clock)
    ensures PeriodOf(orders, r, clock).currentOrders == Count(Openers(orders), Current(r, clock))
    ensures PeriodOf(orders, r, clock).previousOrders == Count(Openers(orders), Previous(r, clock))
    ensures PeriodOf(orders, r, clock).currentRevenue == RevenueWhere(orders, Current(r, clock))
    ensures PeriodOf(orders, r, clock).previousRevenue == RevenueWhere(orders, Previous(r, clock))
    decreases |orders|
  {
    if orders != [] {
      PeriodSpec(Init(orders), r, clock);
      OpensStep(orders, Current(r, clock));
      OpensStep(orders, Previous(r, clock));
      WindowsDisjoint(r, clock, Last(orders));
    }
  }

  // ----- Changes and trends -----

  /** `momOrderChange` / `momRevChange`, in whole percent. */
  function Change(current: int, previous: int): int {
    if previous > 0 then RoundDiv(100 * (current - previous), previous)
    else if current > 0 then 100 else 0
  }

  lemma PositiveFactor(p: int, k: int)
    requires p > 0
    ensures p * k > 0 <==> k > 0
    ensures p * k < 0 <==> k < 0
  {
  }

  /** With nothing before, the change is 100% when there is something now and 0
      otherwise; after a positive amount, the change is the percentage rounded to the
      nearest whole, so it is positive only on growth, negative only on a fall, zero
      when flat, and never below -100% for non-negative amounts. */
  lemma ChangeSpec(current: int, previous: int)
    ensures previous <= 0 ==> Change(current, previous) == (if current > 0 then 100 else 0)
    ensures previous > 0 ==>
      previous * (2 * Change(current, previous) - 1) <= 200 * (current - previous)
        < previous * (2 * Change(current, previous) + 1)
    ensures previous > 0 && Change(current, previous) > 0 ==> current > previous
    ensures previous > 0 && Change(current, previous) < 0 ==> current < previous
    ensures current == previous ==> Change(current, previous) == 0
    ensures previous > 0 && current >= 0 ==> Change(current, previous) >= -100
  {
    if previous > 0 {
      var c := Change(current, previous);
      RoundDivSpec(100 * (current - previous), previous);
      PositiveFactor(previous, 2 * c - 1);
      PositiveFactor(previous, 2 * c + 1);
      PositiveFactor(previous, 2 * c + 201);
      assert previous * (2 * c + 201) == previous * (2 * c + 1) + 200 * previous;
    }
  }

  datatype Trend = Up | Down | Flat

  function TrendOf(change: int): (t: Trend)
    ensures t == Up <==> change > 0
    ensures t == Down <==> change < 0
  {
    if change > 0 then Up else if change < 0 then Down else Flat
  }

  /** `formatLabelDays`. */
  function PeriodWords(days: int): (r: string)
    ensures days == 7 ==> r == "estos 7 d\U{ED}as"
    ensures days != 7 && days != 30 && days != 90 ==> r == "este per\U{ED}odo"
  {
    if days == 7 || days == 30 || days == 90 then "estos " + Text.NatToString(days) + " d\U{ED}as" else "este per\U{ED}odo"
  }

  const DayMs := 86400000

  /** `Math.round(periodMs / (1000 * 60 * 60 * 24))`. */
  function DiffDays(r: Range): int {
    RoundDiv(r.to - r.from, DayMs)
  }
  // ----- Key insights -----

  datatype Insight =
    | PeriodOrders(caption: string, change: int, trend: Trend, current: int, previous: int)
    | PeriodRevenue(caption: string, change: int, trend: Trend, current: int, previous: int)
    | HistoricOrders(total: int)
    | HistoricRevenue(total: int)
    | BestChannel(name: string, avgTicket: Ratio)
    | BestDay(day: string, totalOrders: int)
    | Retention(pct: int, trend: Trend, repeatCustomers: int, totalCustomers: int)
    | TopCity(city: string, orderCount: int)

  /** The two period insights, or the two historic ones without a range. */
  function TrendInsights(range: Option<Range>, p: Period, totalOrders: int, totalRevenue: int): seq<Insight> {
    if range.Some? then
      var words := PeriodWords(DiffDays(range.value));
      var oc := Change(p.currentOrders, p.previousOrders);
      var rc := Change(p.currentRevenue, p.previousRevenue);
      [PeriodOrders("Pedidos " + words + " vs anteriores", oc, TrendOf(oc), p.currentOrders, p.previousOrders),
       PeriodRevenue("Ingresos " + words + " vs anteriores", rc, TrendOf(rc), p.currentRevenue, p.previousRevenue)]
    else [HistoricOrders(totalOrders), HistoricRevenue(totalRevenue)]
  }

  /** A channel's average ticket as a number. */
  function Ticket(c: ChannelStats): real {
    if c.avgTicket.den > 0 then c.avgTicket.num as real / c.avgTicket.den as real else 0.0
  }

  /** The head of `[...byChannel].sort((a, b) => b.avgTicket - a.avgTicket)`: the sort
      is stable, so it is the first channel with the highest ticket. */
  function BestIndex(s: seq<ChannelStats>): (i: nat)
    requires s != []
    ensures i < |s|
    ensures forall j :: 0 <= j < |s| ==> Ticket(s[j]) <= Ticket(s[i])
    ensures forall j :: 0 <= j < i ==> Ticket(s[j]) < Ticket(s[i])
    decreases |s|
  {
    if |s| == 1 then 0
    else
      var b := BestIndex(s[..|s| - 1]);
      if Ticket(s[|s| - 1]) > Ticket(s[b]) then |s| - 1 else b
  }

  /** The display name of the best channel as the source writes it. */
  function BestChannelNameAsWritten(channel: string): string {
    if channel == "mercadolibre" then "Mercado Libre" else "Wix"
  }

  /** A Falabella best channel is announced as Wix. */
  lemma FalabellaShownAsWix()
    ensures BestChannelNameAsWritten(ChannelName(Falabella)) == "Wix"
    ensures BestChannelNameAsWritten(ChannelName(Falabella)) == BestChannelNameAsWritten(ChannelName(Wix))
  {
  }

  /** The display name of each channel. */
  function ChannelLabel(channel: string): string {
    if channel == "mercadolibre" then "Mercado Libre"
    else if channel == "wix" then "Wix"
    else if channel == "falabella" then "Falabella"
    else channel
  }

  /** Different channels get different names, and Mercado Libre and Wix keep theirs. */
  lemma ChannelLabelSpec(a: Channel, b: Channel)
    ensures ChannelLabel(ChannelName(a)) == ChannelLabel(ChannelName(b)) ==> a == b
    ensures a != Falabella ==> ChannelLabel(ChannelName(a)) == BestChannelNameAsWritten(ChannelName(a))
  {
  }

  /** How the best-channel insight names its channel: `WixForOthers` as the hook writes
      it, `OwnLabel` by each channel's own label. */
  datatype NameRule = WixForOthers | OwnLabel

  function BestChannelName(rule: NameRule, channel: string): string {
    match rule
    case WixForOthers => BestChannelNameAsWritten(channel)
    case OwnLabel => ChannelLabel(channel)
  }

  function ChannelInsight(rule: NameRule, byChannel: seq<ChannelStats>): seq<Insight> {
    if |byChannel| >= 2 then
      var b := byChannel[BestIndex(byChannel)];
      [BestChannel(BestChannelName(rule, b.channel), b.avgTicket)]
    else []
  }

  /** The two namings agree on Mercado Libre and Wix and differ on Falabella. */
  lemma BestChannelNameRules(channel: string)
    ensures channel == ChannelName(MercadoLibre) || channel == ChannelName(Wix) ==>
      BestChannelName(WixForOthers, channel) == BestChannelName(OwnLabel, channel)
    ensures channel == ChannelName(Falabella) ==>
      BestChannelName(WixForOthers, channel) != BestChannelName(OwnLabel, channel)
  {
    if channel == ChannelName(Falabella) {
      assert ChannelLabel(channel)[0] == 'F';
      assert BestChannelNameAsWritten(channel)[0] == 'W';
    }
  }

  /** The two namings give the same insight for a Mercado Libre or Wix best channel and
      different ones for a Falabella one. */
  lemma ChannelInsightRules(byChannel: seq<ChannelStats>)
    ensures |byChannel| < 2 || byChannel[BestIndex(byChannel)].channel == ChannelName(MercadoLibre)
            || byChannel[BestIndex(byChannel)].channel == ChannelName(Wix)
            ==> ChannelInsight(WixForOthers, byChannel) == ChannelInsight(OwnLabel, byChannel)
    ensures |byChannel| >= 2 && byChannel[BestIndex(byChannel)].channel == ChannelName(Falabella)
            ==> ChannelInsight(WixForOthers, byChannel) != ChannelInsight(OwnLabel, byChannel)
  {
    if |byChannel| >= 2 {
      BestChannelNameRules(byChannel[BestIndex(byChannel)].channel);
    }
  }

  /** `bestDow`, when it has any order. */
  function BestDayOf(days: seq<DayOfWeekStats>): Option<DayOfWeekStats> {
    var sorted := Sorting.Sort(days, Sorting.Desc(DayTotal));
    if sorted != [] && sorted[0].totalOrders > 0 then Some(sorted[0]) else None
  }

  /** The best day is a day with the most orders; there is one exactly when some day
      has an order. */
  lemma BestDaySpec(days: seq<DayOfWeekStats>)
    ensures var b := BestDayOf(days);
      && (b.Some? ==> b.value in days && forall d :: d in days ==> d.totalOrders <= b.value.totalOrders)
      && (b.None? <==> forall d :: d in days ==> d.totalOrders <= 0)
  {
    var sorted := Sorting.Sort(days, Sorting.Desc(DayTotal));
    Sorting.SortDescSpec(days, DayTotal);
    forall d | d in days ensures sorted != [] && d.totalOrders <= sorted[0].totalOrders {
      assert d in multiset(sorted);
      var j :| 0 <= j < |sorted| && sorted[j] == d;
      assert j == 0 || DayTotal(sorted[0]) >= DayTotal(sorted[j]);
    }
    if sorted != [] {
      assert sorted[0] in multiset(days);
    }
  }

  function DayInsight(days: seq<DayOfWeekStats>): seq<Insight> {
    var b := BestDayOf(days);
    if b.Some? then [BestDay(b.value.day, b.value.totalOrders)] else []
  }

  /** Customers with more than one event. */
  function RepeatCount(m: seq<(string, int)>): (n: nat)
    ensures n <= |m|
    decreases |m|
  {
    if m == [] then 0 else RepeatCount(m[..|m| - 1]) + (if m[|m| - 1].1 > 1 then 1 else 0)
  }

  function RetentionInsight(customerEvents: seq<(string, int)>): seq<Insight> {
    if |customerEvents| > 0 then
      var repeat := RepeatCount(customerEvents);
      var pct := RoundDiv(100 * repeat, |customerEvents|);
      [Retention(pct, if pct >= 20 then Up else Flat, repeat, |customerEvents|)]
    else []
  }

  /** The retention rate is a whole percentage between 0 and 100, rising exactly from
      20% on. */
  lemma RetentionSpec(customerEvents: seq<(string, int)>)
    requires |customerEvents| > 0
    ensures var r := RetentionInsight(customerEvents)[0];
      && 0 <= r.pct <= 100
      && r.repeatCustomers <= r.totalCustomers == |customerEvents|
      && (r.trend == Up <==> r.pct >= 20)
  {
    var n := |customerEvents|;
    var repeat := RepeatCount(customerEvents);
    RoundDivSpec(100 * repeat, n);
    var pct := RoundDiv(100 * repeat, n);
    PositiveFactor(n, 2 * pct + 1);
    PositiveFactor(n, 2 * pct - 201);
    assert n * (2 * pct - 201) == n * (2 * pct - 1) - 200 * n;
  }

  function CityInsight(geoStats: seq<Geo>): seq<Insight> {
    if geoStats != [] then [TopCity(geoStats[0].city, geoStats[0].orderCount)] else []
  }

  /** The top city has at least as many events as every destination. */
  lemma TopCitySpec(m: seq<(string, Geo)>)
    requires m != []
    ensures GeoStats(m) != []
    ensures forall g :: g in GeoValues(m) ==> g.orderCount <= GeoStats(m)[0].orderCount
  {
    var r := GeoStats(m);
    GeoStatsSpec(m);
    assert |r| > 0;
    forall g | g in GeoValues(m) ensures g.orderCount <= r[0].orderCount {
      if g in multiset(GeoValues(m)) - multiset(r) {
        assert GeoCount(r[0]) >= GeoCount(g);
      } else {
        assert g in r;
        var j :| 0 <= j < |r| && r[j] == g;
        assert j == 0 || GeoCount(r[0]) >= GeoCount(r[j]);
      }
    }
  }

  // ----- The summary -----

  datatype Summary = Summary(
    totalOrders: int,
    totalRevenue: int,
    avgOrderValue: Ratio,
    byChannel: seq<ChannelStats>,
    byStatus: seq<StatusStats>,
    recentDays: seq<DailyStats>,
    recentWeeks: seq<DailyStats>,
    topProducts: seq<TopProduct>,
    geoStats: seq<Geo>,
    keyInsights: seq<Insight>,
    byDayOfWeek: seq<DayOfWeekStats>,
    byPaymentMethod: seq<PaymentMethodStats>,
    installments: Installments)

  /** `EMPTY`. */
  const Empty := Summary(0, 0, Customers.Ratio(0, 1), [], [], [], [], [], [], [], [], [], Installments(0, 0, 0))

  /** What the tables of the single pass and the period counters become. */
  function Summarize(rule: NameRule, a: Aggregates, p: Period, range: Option<Range>): Summary
    requires |a.weekdays| == 7
  {
    var totalOrders := |a.seen|;
    var byChannel := ByChannel(a.channels, totalOrders);
    var byDay := ByDayOfWeek(a.weekdays, |a.weeks|);
    var geo := GeoStats(a.geos);
    Summary(totalOrders, a.totalRevenue, Per(a.totalRevenue, totalOrders), byChannel, ByStatus(a.statuses),
            ByDate(a.days), ByDate(a.weeks), TopProducts(a.products), geo,
            TrendInsights(range, p, totalOrders, a.totalRevenue) + ChannelInsight(rule, byChannel) + DayInsight(byDay)
              + RetentionInsight(a.customerEvents) + CityInsight(geo),
            byDay, ByPaymentMethod(a.payments), a.installments)
  }

  /** `useAnalytics(orders, dateRange)`; `rule` names the best channel, `WixForOthers` as
      written. */
  function SummaryOf(rule: NameRule, orders: seq<Order>, range: Option<Range>, clock: Clock): Summary {
    if orders == [] then Empty
    else
      var rows := InRange(orders, range, clock);
      if rows == [] then Empty
      else Summarize(rule, AggregatesOf(rows, range, clock), if range.Some? then PeriodOf(orders, range.value, clock) else Period(0, 0, 0, 0), range)
  }

  method UseAnalytics(rule: NameRule, orders: seq<Order>, range: Option<Range>, clock: Clock) returns (s: Summary)
    ensures s == SummaryOf(rule, orders, range, clock)
  {
    if orders == [] {
      return Empty;
    }
    var rows := InRange(orders, range, clock);
    if rows == [] {
      return Empty;
    }
    var agg := Aggregate(rows, range, clock);
    var period := Period(0, 0, 0, 0);
    if range.Some? {
      period := ComparePeriods(orders, range.value, clock);
    }
    s := Summarize(rule, agg, period, range);
  }

  /** The summary is `EMPTY` exactly when no order falls in the range; otherwise it
      counts each purchase event once and sums the revenue of every row in range. */
  lemma SummaryTotals(rule: NameRule, orders: seq<Order>, range: Option<Range>, clock: Clock)
    ensures var rows := InRange(orders, range, clock);
      && (SummaryOf(rule, orders, range, clock) == Empty <==> rows == [])
      && SummaryOf(rule, orders, range, clock).totalOrders == |Events(rows)|
      && SummaryOf(rule, orders, range, clock).totalRevenue == PurchaseEvents.SumAmounts(rows)
  {
    var rows := InRange(orders, range, clock);
    if rows != [] {
      SeenAgree(rows, range, clock);
      assert EventKey(rows[0]) in Events(rows);
    }
  }
  /** Every breakdown of a non-empty summary accounts for each event once. */
  lemma SummaryBreakdown(rule: NameRule, orders: seq<Order>, range: Option<Range>, clock: Clock)
    requires InRange(orders, range, clock) != []
    ensures var s := SummaryOf(rule, orders, range, clock);
      && Sorting.SumBy(s.byChannel, StatsCount) == s.totalOrders
      && Sorting.SumBy(s.byStatus, StatusCount) == s.totalOrders
      && Sorting.SumBy(s.byDayOfWeek, DayTotal) == s.totalOrders
      && s.installments.upfront + s.installments.financed == s.totalOrders
  {
    var rows := InRange(orders, range, clock);
    var a := AggregatesOf(rows, range, clock);
    AggregatesAgree(rows, range, clock);
    ChannelTotals(rows);
    ByChannelSpec(a.channels, |a.seen|);
    StatusTotals(rows);
    ByStatusSpec(a.statuses);
    ByDayOfWeekSpec(rows, clock, |a.weeks|);
    InstallmentTotals(rows);
  }

  /** The cut lists keep their bounds: ten products, fifteen destinations, seven days and
      six insights. */
  lemma SummaryBounds(rule: NameRule, orders: seq<Order>, range: Option<Range>, clock: Clock)
    ensures var s := SummaryOf(rule, orders, range, clock);
      && |s.topProducts| <= 10 && |s.geoStats| <= 15
      && (|s.byDayOfWeek| == 7 || s == Empty)
      && |s.keyInsights| <= 6
  {
    var rows := InRange(orders, range, clock);
    if orders != [] && rows != [] {
      var a := AggregatesOf(rows, range, clock);
      TopProductsSpec(a.products);
      GeoStatsSpec(a.geos);
    }
  }
}
