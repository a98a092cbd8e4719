// The Falabella sync endpoint (api/sync-falabella.js): GetOrders paging, the
// item join in batches of 20, and per-order normalisation.
module FalabellaSync {
  import opened Wrappers
  import opened Text
  import opened OrderModel
  import opened Raw
  import opened Normalizer

  const PageLimit: nat := 100
  const MaxOrders: nat := 1000
  const BatchSize: nat := 20

  // ------------------------------------------------------------------
  // Reading the response containers
  // ------------------------------------------------------------------

  /** `.map(w => w.Order).filter(Boolean)`: the wrappers that carry an order. */
  function Somes<T>(entries: seq<Option<T>>): (r: seq<T>)
    ensures |r| <= |entries|
    ensures forall i :: 0 <= i < |entries| && entries[i].Some? ==> entries[i].value in r
    ensures forall j :: 0 <= j < |r| ==> Some(r[j]) in entries
  {
    if entries == [] then []
    else (if entries[0].Some? then [entries[0].value] else []) + Somes(entries[1..])
  }

  /** The orders of one GetOrders page; None is the `null` that ends the paging. */
  function PageOrders<T>(c: FbOrders<T>): Option<seq<T>> {
    match c
    case NoOrders => None
    case WrapperList(entries) => Some(Somes(entries))
    case OrderField(order) => if order.Some? then Some(Spread(order.value)) else None
  }

  /** `[].concat(x?.Order || [])` and the wrapper form, as the item join reads them. */
  function ItemEntries<T>(c: FbOrders<T>): seq<T> {
    match c
    case NoOrders => []
    case WrapperList(entries) => Somes(entries)
    case OrderField(order) => if order.Some? then Spread(order.value) else []
  }

  /** `parseInt(Head.TotalCount || '0', 10)`; None is NaN. */
  function TotalCount(p: FbOrdersPage): Option<int> {
    ParseFloat(Or(p.totalCount, "0"))
  }

  /** What the paging loop reads from one response: its orders and its total count. */
  datatype PageView = PageView(orders: Option<seq<FbOrder>>, total: Option<int>)

  function View(p: FbOrdersPage): PageView {
    PageView(PageOrders(p.orders), TotalCount(p))
  }

  /** The responses as the loop reads them; None is a request that throws. */
  function Views(pages: seq<Option<FbOrdersPage>>): (r: seq<Option<PageView>>)
    ensures |r| == |pages|
    ensures forall k :: 0 <= k < |pages| ==> r[k] == if pages[k].Some? then Some(View(pages[k].value)) else None
  {
    Map(pages, (p: Option<FbOrdersPage>) => if p.Some? then Some(View(p.value)) else None)
  }

  /** `allOrders.length >= Math.min(totalCount, 1000)`; every comparison with NaN is false. */
  predicate Reached(count: nat, total: Option<int>) {
    total.Some? && count >= (if total.value < MaxOrders then total.value else MaxOrders)
  }

  // ------------------------------------------------------------------
  // The GetOrders paging loop
  // ------------------------------------------------------------------

  /** The orders collected (None when a request throws) and the number of requests made. */
  datatype Fetch = Fetch(orders: Option<seq<FbOrder>>, requests: nat)

  /** The paging loop as a function of the responses: `pages[k]` answers the request at
      offset 100k, None is a request that throws, and a request past the end of the
      script throws as well. */
  function Collect(pages: seq<Option<PageView>>, k: nat, acc: seq<FbOrder>): (r: Fetch)
    ensures r.requests > k
    decreases |pages| - k
  {
    if k >= |pages| || pages[k].None? then Fetch(None, k + 1)
    else
      var page := pages[k].value.orders;
      if page.None? || page.value == [] then Fetch(Some(acc), k + 1)
      else
        var all := acc + page.value;
        if |page.value| < PageLimit || Reached(|all|, pages[k].value.total) then Fetch(Some(all), k + 1)
        else Collect(pages, k + 1, all)
  }

  /** One pass of the loop: the request at page `k` throws (`failed`), or its orders are
      appended and the stop rules decide whether the loop ends (`done`). */
  method FetchTurn(pages: seq<Option<FbOrdersPage>>, ghost views: seq<Option<PageView>>, k: nat, all: seq<FbOrder>)
    returns (failed: bool, done: bool, after: seq<FbOrder>)
    requires views == Views(pages)
    ensures !failed ==> k < |pages|
    ensures failed ==> Collect(views, k, all) == Fetch(None, k + 1)
    ensures !failed && done ==> Collect(views, k, all) == Fetch(Some(after), k + 1)
    ensures !failed && !done ==> Collect(views, k + 1, after) == Collect(views, k, all)
  {
    if k >= |pages| || pages[k].None? {
      return true, true, all;
    }
    assert views[k] == Some(View(pages[k].value));
    var data := pages[k].value;
    var ordersRaw := PageOrders(data.orders);
    if ordersRaw.None? || |ordersRaw.value| == 0 {
      return false, true, all;
    }
    var page := ordersRaw.value;
    after := all + page;
    failed := false;
    done := |page| < PageLimit || Reached(|after|, TotalCount(data));
  }

  /** The `j`-th request asks for offset 100j. */
  predicate Spaced(offsets: seq<nat>) {
    forall j :: 0 <= j < |offsets| ==> offsets[j] == 100 * j
  }

  lemma SpacedNext(offsets: seq<nat>, offset: nat)
    requires Spaced(offsets) && offset == 100 * |offsets|
    ensures Spaced(offsets + [offset])
  {
  }

  /** The loop of `handler`: request the page at `offset`, append it, and advance the
      offset by exactly one page until a stop rule fires. */
  method FetchAllOrders(pages: seq<Option<FbOrdersPage>>) returns (orders: Option<seq<FbOrder>>, offsets: seq<nat>)
    ensures Fetch(orders, |offsets|) == Collect(Views(pages), 0, [])
    ensures Spaced(offsets)
  {
    var offset: nat := 0;
    var all: seq<FbOrder> := [];
    var keepGoing := true;
    offsets := [];
    ghost var views := Views(pages);
    ghost var whole := Collect(views, 0, []);
    while keepGoing
      invariant keepGoing ==> offset == 100 * |offsets|
      invariant |offsets| <= |pages|
      invariant Spaced(offsets)
      invariant whole == if keepGoing then Collect(views, |offsets|, all) else Fetch(Some(all), |offsets|)
      decreases |pages| - |offsets|
    {
      var failed, done, after := FetchTurn(pages, views, |offsets|, all);
      SpacedNext(offsets, offset);
      offsets := offsets + [offset];
      if failed {
        orders := None;
        return;
      }
      all := after;
      if done {
        keepGoing := false;
      } else {
        offset := offset + PageLimit;
      }
    }
    orders := Some(all);
  }

  /** The orders of a page, empty for a page that ends the paging without orders. */
  function PageItems(p: Option<PageView>): seq<FbOrder> {
    if p.Some? && p.value.orders.Some? then p.value.orders.value else []
  }

  function FlattenPages(pages: seq<Option<PageView>>): seq<FbOrder> {
    if pages == [] then [] else FlattenPages(pages[..|pages| - 1]) + PageItems(pages[|pages| - 1])
  }

  /** A page after which the loop goes on: at least 100 orders and the total not yet reached. */
  predicate Continues(p: Option<PageView>, countAfter: nat) {
    p.Some? && |PageItems(p)| >= PageLimit && !Reached(countAfter, p.value.total)
  }

  /** What the loop returns: the pages it requested, concatenated in order; every page
      before the last one was full and did not reach the total; a failure is a request
      past the script or one that threw. */
  lemma CollectSpec(pages: seq<Option<PageView>>)
    ensures var r := Collect(pages, 0, []);
      && (r.orders.Some? ==> r.requests <= |pages| && r.orders.value == FlattenPages(pages[..r.requests]))
      && (r.orders.Some? ==>
            forall j :: 0 <= j < r.requests - 1 && j < |pages| ==> Continues(pages[j], |FlattenPages(pages[..j + 1])|))
      && (r.orders.None? ==> r.requests - 1 >= |pages| || pages[r.requests - 1].None?)
  {
    assert pages[..0] == [];
    CollectOrders(pages, 0, []);
    CollectContinues(pages, 0, []);
    CollectFails(pages, 0, []);
  }

  lemma {:induction false} CollectOrders(pages: seq<Option<PageView>>, k: nat, acc: seq<FbOrder>)
    requires k <= |pages| && acc == FlattenPages(pages[..k])
    ensures var r := Collect(pages, k, acc);
      r.orders.Some? ==> r.requests <= |pages| && r.orders.value == FlattenPages(pages[..r.requests])
    decreases |pages| - k
  {
    if k < |pages| && pages[k].Some? {
      assert pages[..k + 1][..k] == pages[..k];
      var page := pages[k].value.orders;
      if page.Some? && page.value != [] {
        var all := acc + page.value;
        if !(|page.value| < PageLimit || Reached(|all|, pages[k].value.total)) {
          CollectOrders(pages, k + 1, all);
        }
      }
    }
  }

  lemma FlattenNext(pages: seq<Option<PageView>>, k: nat)
    requires k < |pages|
    ensures FlattenPages(pages[..k + 1]) == FlattenPages(pages[..k]) + PageItems(pages[k])
  {
    assert pages[..k + 1][..k] == pages[..k];
  }

  /** Every page before request `n` let the loop go on. */
  predicate ContinuedTo(pages: seq<Option<PageView>>, n: int) {
    forall j :: 0 <= j < n && j < |pages| ==> Continues(pages[j], |FlattenPages(pages[..j + 1])|)
  }

  lemma {:induction false} CollectContinues(pages: seq<Option<PageView>>, k: nat, acc: seq<FbOrder>)
    requires k <= |pages| && acc == FlattenPages(pages[..k])
    requires ContinuedTo(pages, k)
    ensures var r := Collect(pages, k, acc);
      r.orders.Some? ==> ContinuedTo(pages, r.requests - 1)
    decreases |pages| - k
  {
    var r := Collect(pages, k, acc);
    if k < |pages| && pages[k].Some? {
      var page := pages[k].value.orders;
      if page.Some? && page.value != [] {
        var all := acc + page.value;
        if !(|page.value| < PageLimit || Reached(|all|, pages[k].value.total)) {
          FlattenNext(pages, k);
          ContinuedNext(pages, k);
          assert r == Collect(pages, k + 1, all);
          CollectContinues(pages, k + 1, all);
        } else {
          assert r.requests == k + 1;
        }
      } else {
        assert r.requests == k + 1;
      }
    } else {
      assert r.requests == k + 1;
    }
  }

  lemma ContinuedNext(pages: seq<Option<PageView>>, k: nat)
    requires k < |pages| && ContinuedTo(pages, k)
    requires Continues(pages[k], |FlattenPages(pages[..k + 1])|)
    ensures ContinuedTo(pages, k + 1)
  {
  }

  lemma {:induction false} CollectFails(pages: seq<Option<PageView>>, k: nat, acc: seq<FbOrder>)
    ensures var r := Collect(pages, k, acc);
      r.orders.None? ==> r.requests - 1 >= |pages| || pages[r.requests - 1].None?
    decreases |pages| - k
  {
    if k < |pages| && pages[k].Some? {
      var page := pages[k].value.orders;
      if page.Some? && page.value != [] {
        var all := acc + page.value;
        if !(|page.value| < PageLimit || Reached(|all|, pages[k].value.total)) {
          CollectFails(pages, k + 1, all);
        }
      }
    }
  }

  /** A response with no Head.TotalCount counts as a total of 0, so the loop stops after
      the first page that has orders. */
  lemma MissingTotalCountStops(p: FbOrdersPage)
    requires p.totalCount.None?
    ensures TotalCount(p) == Some(0)
    ensures forall count: nat :: Reached(count, TotalCount(p))
  {
    var zero := "0";
    assert Or(p.totalCount, zero) == zero;
    assert DigitsValue(zero) == 0;
    ParseFloatOfDigitsThen(zero, "");
    assert zero + "" == zero;
  }

  /** With full pages of exactly 100 orders and a numeric total `t`, the loop makes
      max(1, ceil(min(t, 1000) / 100)) requests and returns those pages' orders. */
  lemma FullPagesStopAtCap(pages: seq<Option<PageView>>, t: int)
    requires |pages| >= MaxOrders / PageLimit
    requires forall j :: 0 <= j < |pages| ==> pages[j].Some? && |PageItems(pages[j])| == PageLimit
    requires forall j :: 0 <= j < |pages| ==> pages[j].value.total == Some(t)
    ensures var n := Requests(t);
      Collect(pages, 0, []) == Fetch(Some(FlattenPages(pages[..n])), n)
  {
    assert pages[..0] == [];
    FullPagesFrom(pages, t, 0, []);
  }

  function Requests(t: int): (n: nat)
    ensures 1 <= n <= MaxOrders / PageLimit
  {
    var cap := if t < MaxOrders then t else MaxOrders;
    if cap <= PageLimit then 1 else (cap + 99) / 100
  }

  lemma {:induction false} FullPagesFrom(pages: seq<Option<PageView>>, t: int, k: nat, acc: seq<FbOrder>)
    requires |pages| >= MaxOrders / PageLimit
    requires forall j :: 0 <= j < |pages| ==> pages[j].Some? && |PageItems(pages[j])| == PageLimit
    requires forall j :: 0 <= j < |pages| ==> pages[j].value.total == Some(t)
    requires k < Requests(t) && acc == FlattenPages(pages[..k]) && |acc| == 100 * k
    ensures Collect(pages, k, acc) == Fetch(Some(FlattenPages(pages[..Requests(t)])), Requests(t))
    decreases |pages| - k
  {
    var all := acc + PageItems(pages[k]);
    assert pages[..k + 1][..k] == pages[..k];
    assert all == FlattenPages(pages[..k + 1]);
    if k + 1 < Requests(t) {
      assert !Reached(|all|, pages[k].value.total);
      FullPagesFrom(pages, t, k + 1, all);
    } else {
      assert Reached(|all|, pages[k].value.total);
    }
  }

  // ------------------------------------------------------------------
  // The item join, in batches of 20
  // ------------------------------------------------------------------

  type ItemsApi = seq<string> -> Option<FbOrders<FbOrderItems>>

  function Ids(batch: seq<FbOrder>): (r: seq<string>)
    ensures |r| == |batch|
    ensures forall i :: 0 <= i < |batch| ==> r[i] == batch[i].orderId
  {
    if batch == [] then [] else [batch[0].orderId] + Ids(batch[1..])
  }

  /** `allOrders.slice(i, i + 20)` for i = 0, 20, 40, …: consecutive batches of 20. */
  function Batches(orders: seq<FbOrder>): seq<seq<FbOrder>>
    decreases |orders|
  {
    if |orders| <= BatchSize then (if orders == [] then [] else [orders])
    else [orders[..BatchSize]] + Batches(orders[BatchSize..])
  }

  function Flatten<T>(parts: seq<seq<T>>): seq<T> {
    if parts == [] then [] else parts[0] + Flatten(parts[1..])
  }

  /** `rawItems ? [].concat(rawItems) : []`. */
  function ItemsOf(e: FbOrderItems): seq<FbItem> {
    if e.orderItems.Some? then Spread(e.orderItems.value) else []
  }

  /** The inner `for` of a successful batch: one assignment per listed entry, in order. */
  function Record(m: map<string, seq<FbItem>>, entries: seq<FbOrderItems>): (r: map<string, seq<FbItem>>)
    ensures m.Keys <= r.Keys
  {
    if entries == [] then m
    else
      var last := entries[|entries| - 1];
      Record(m, entries[..|entries| - 1])[last.orderId := ItemsOf(last)]
  }

  /** `batch.forEach(o => { allItemsByOrderId[String(o.OrderId)] = []; })`. */
  function Clear(m: map<string, seq<FbItem>>, ids: seq<string>): (r: map<string, seq<FbItem>>)
    ensures m.Keys <= r.Keys
  {
    if ids == [] then m else Clear(m, ids[..|ids| - 1])[ids[|ids| - 1] := []]
  }

  function ApplyBatch(m: map<string, seq<FbItem>>, ids: seq<string>,
                      response: Option<FbOrders<FbOrderItems>>): map<string, seq<FbItem>> {
    if response.None? then Clear(m, ids) else Record(m, ItemEntries(response.value))
  }

  /** The dictionary after the given batches, in order. */
  function JoinBatches(batches: seq<seq<FbOrder>>, api: ItemsApi): map<string, seq<FbItem>> {
    if batches == [] then map[]
    else
      var ids := Ids(batches[|batches| - 1]);
      ApplyBatch(JoinBatches(batches[..|batches| - 1], api), ids, api(ids))
  }

  /** The inner `for (const orderWithItems of ordersWithItems)`. */
  method RecordEntries(m: map<string, seq<FbItem>>, entries: seq<FbOrderItems>) returns (byId: map<string, seq<FbItem>>)
    ensures byId == Record(m, entries)
  {
    byId := m;
    var j := 0;
    while j < |entries|
      invariant j <= |entries|
      invariant byId == Record(m, entries[..j])
    {
      var e := entries[j];
      assert entries[..j + 1][..j] == entries[..j];
      byId := byId[e.orderId := ItemsOf(e)];
      j := j + 1;
    }
    assert entries[..j] == entries;
  }

  /** The `batch.forEach` of a failed batch. */
  method ClearBatch(m: map<string, seq<FbItem>>, batch: seq<FbOrder>) returns (byId: map<string, seq<FbItem>>)
    ensures byId == Clear(m, Ids(batch))
  {
    byId := m;
    var j := 0;
    ghost var ids := Ids(batch);
    while j < |batch|
      invariant j <= |batch|
      invariant byId == Clear(m, ids[..j])
    {
      assert ids[..j + 1][..j] == ids[..j];
      byId := byId[batch[j].orderId := []];
      j := j + 1;
    }
    assert ids[..j] == ids;
  }

  /** The `for (let i = 0; i < allOrders.length; i += 20)` loop. */
  method JoinItems(orders: seq<FbOrder>, api: ItemsApi) returns (byId: map<string, seq<FbItem>>)
    ensures byId == JoinBatches(Batches(orders), api)
  {
    byId := map[];
    var i := 0;
    ghost var b := 0;
    ghost var batches := Batches(orders);
    BatchCount(orders);
    while i < |orders|
      invariant i == 20 * b && b <= |batches|
      invariant b > 0 ==> 20 * (b - 1) < |orders|
      invariant byId == JoinBatches(batches[..b], api)
    {
      byId := JoinTurn(orders, api, byId, i, b);
      i := i + BatchSize;
      b := b + 1;
    }
    assert batches[..b] == batches;
  }

  /** One pass of the loop: the ids of `allOrders.slice(i, i + 20)` are requested in one
      call and its answer is applied to the join. */
  method JoinTurn(orders: seq<FbOrder>, api: ItemsApi, byId: map<string, seq<FbItem>>, i: nat, ghost b: nat)
    returns (after: map<string, seq<FbItem>>)
    requires i == 20 * b && i < |orders| && b <= |Batches(orders)|
    requires byId == JoinBatches(Batches(orders)[..b], api)
    ensures b < |Batches(orders)|
    ensures after == JoinBatches(Batches(orders)[..b + 1], api)
  {
    var hi := if i + BatchSize < |orders| then i + BatchSize else |orders|;
    var batch := orders[i..hi];
    JoinStep(orders, api, b, batch);
    var orderIds := Ids(batch);
    var itemsData := api(orderIds);
    if itemsData.Some? {
      after := RecordEntries(byId, ItemEntries(itemsData.value));
    } else {
      after := ClearBatch(byId, batch);
    }
    assert after == ApplyBatch(byId, orderIds, itemsData);
  }

  /** One more batch: the join applies the response to the ids of `orders.slice(20b, 20b + 20)`. */
  lemma JoinStep(orders: seq<FbOrder>, api: ItemsApi, b: nat, batch: seq<FbOrder>)
    requires 20 * b < |orders|
    requires batch == orders[20 * b..if 20 * b + 20 < |orders| then 20 * b + 20 else |orders|]
    ensures b < |Batches(orders)|
    ensures JoinBatches(Batches(orders)[..b + 1], api)
         == ApplyBatch(JoinBatches(Batches(orders)[..b], api), Ids(batch), api(Ids(batch)))
  {
    BatchAt(orders, b);
    JoinSnoc(Batches(orders), b, api);
  }

  lemma JoinSnoc(batches: seq<seq<FbOrder>>, b: nat, api: ItemsApi)
    requires b < |batches|
    ensures JoinBatches(batches[..b + 1], api)
         == ApplyBatch(JoinBatches(batches[..b], api), Ids(batches[b]), api(Ids(batches[b])))
  {
    var pre := batches[..b + 1];
    assert pre[|pre| - 1] == batches[b];
    assert pre[..|pre| - 1] == batches[..b];
  }

  /** Batch b is `orders.slice(20b, 20b + 20)`. */
  lemma {:induction false} BatchAt(orders: seq<FbOrder>, b: nat)
    requires 20 * b < |orders|
    ensures b < |Batches(orders)|
    ensures var hi := if 20 * b + 20 < |orders| then 20 * b + 20 else |orders|;
      Batches(orders)[b] == orders[20 * b..hi]
    decreases b
  {
    if b > 0 {
      var rest := orders[BatchSize..];
      BatchAt(rest, b - 1);
      assert rest[20 * (b - 1)..] == orders[20 * b..];
    }
  }

  /** There are ceil(n / 20) batches. */
  lemma {:induction false} BatchCount(orders: seq<FbOrder>)
    ensures 20 * |Batches(orders)| >= |orders|
    ensures |Batches(orders)| > 0 ==> 20 * (|Batches(orders)| - 1) < |orders|
    decreases |orders|
  {
    if |orders| > BatchSize {
      BatchCount(orders[BatchSize..]);
    }
  }

  /** The batches partition the orders, in order: they concatenate back to the orders,
      each holds 1 to 20 orders, and every batch but the last holds exactly 20. */
  lemma {:induction false} BatchPartition(orders: seq<FbOrder>)
    ensures Flatten(Batches(orders)) == orders
    ensures forall b :: 0 <= b < |Batches(orders)| ==> 1 <= |Batches(orders)[b]| <= BatchSize
    ensures forall b :: 0 <= b < |Batches(orders)| - 1 ==> |Batches(orders)[b]| == BatchSize
    decreases |orders|
  {
    if |orders| > BatchSize {
      var rest := orders[BatchSize..];
      BatchPartition(rest);
      var bs := Batches(orders);
      assert bs[1..] == Batches(rest);
      assert orders[..BatchSize] + rest == orders;
      forall b | 0 <= b < |bs|
        ensures 1 <= |bs[b]| <= BatchSize
        ensures b < |bs| - 1 ==> |bs[b]| == BatchSize
      {
        if b > 0 {
          assert bs[b] == Batches(rest)[b - 1];
        }
      }
    }
  }

  lemma {:induction false} ClearSets(m: map<string, seq<FbItem>>, ids: seq<string>, key: string)
    ensures key in ids ==> key in Clear(m, ids) && Clear(m, ids)[key] == []
    ensures key !in ids && key in m ==> key in Clear(m, ids) && Clear(m, ids)[key] == m[key]
    ensures key !in ids && key !in m ==> key !in Clear(m, ids)
  {
    if ids != [] {
      var init := ids[..|ids| - 1];
      assert ids == init + [ids[|ids| - 1]];
      ClearSets(m, init, key);
    }
  }

  lemma {:induction false} RecordKeeps(m: map<string, seq<FbItem>>, entries: seq<FbOrderItems>, key: string)
    requires forall e :: e in entries ==> e.orderId != key
    ensures key in Record(m, entries) <==> key in m
    ensures key in m ==> Record(m, entries)[key] == m[key]
  {
    if entries != [] {
      var init := entries[..|entries| - 1];
      assert forall e :: e in init ==> e in entries;
      assert entries[|entries| - 1] in entries;
      RecordKeeps(m, init, key);
    }
  }

  /** A batch whose request throws leaves every order of that batch with no items. */
  lemma FailedBatchEmpties(batches: seq<seq<FbOrder>>, api: ItemsApi, b: nat, o: FbOrder)
    requires b < |batches|
    requires api(Ids(batches[b])).None?
    requires o in batches[b]
    ensures var m := JoinBatches(batches[..b + 1], api);
      o.orderId in m && m[o.orderId] == []
  {
    var batch := batches[b];
    var k :| 0 <= k < |batch| && batch[k] == o;
    assert Ids(batch)[k] == o.orderId;
    JoinSnoc(batches, b, api);
    ClearSets(JoinBatches(batches[..b], api), Ids(batch), o.orderId);
  }

  /** An API that only lists orders it was asked for. */
  ghost predicate Honest(api: ItemsApi) {
    forall ids, e :: api(ids).Some? && e in ItemEntries(api(ids).value) ==> e.orderId in ids
  }

  ghost predicate DistinctIds(orders: seq<FbOrder>) {
    forall i, j :: 0 <= i < j < |orders| ==> orders[i].orderId != orders[j].orderId
  }

  /** Orders of different batches have different ids when all ids are distinct. */
  lemma SeparateBatches(orders: seq<FbOrder>, b: nat, c: nat, o: FbOrder)
    requires DistinctIds(orders)
    requires b < |Batches(orders)| && c < |Batches(orders)| && b != c
    requires o in Batches(orders)[b]
    ensures o.orderId !in Ids(Batches(orders)[c])
  {
    var bs := Batches(orders);
    BatchCount(orders);
    BatchAt(orders, b);
    BatchAt(orders, c);
    var k :| 0 <= k < |bs[b]| && bs[b][k] == o;
    assert o == orders[20 * b + k];
    forall q | 0 <= q < |bs[c]|
      ensures Ids(bs[c])[q] != o.orderId
    {
      assert bs[c][q] == orders[20 * c + q];
    }
  }

  /** With distinct ids and an API that answers only what it was asked, an order of a
      failed batch still has no items when the join ends. */
  lemma FailedBatchStaysEmpty(orders: seq<FbOrder>, api: ItemsApi, b: nat, o: FbOrder)
    requires DistinctIds(orders) && Honest(api)
    requires b < |Batches(orders)|
    requires api(Ids(Batches(orders)[b])).None?
    requires o in Batches(orders)[b]
    ensures var m := JoinBatches(Batches(orders), api);
      o.orderId in m && m[o.orderId] == []
  {
    var bs := Batches(orders);
    StaysEmptyUpTo(orders, api, b, o, |bs|);
    assert bs[..|bs|] == bs;
  }

  lemma {:induction false} StaysEmptyUpTo(orders: seq<FbOrder>, api: ItemsApi, b: nat, o: FbOrder, c: nat)
    requires DistinctIds(orders) && Honest(api)
    requires b < c <= |Batches(orders)|
    requires api(Ids(Batches(orders)[b])).None?
    requires o in Batches(orders)[b]
    ensures var m := JoinBatches(Batches(orders)[..c], api);
      o.orderId in m && m[o.orderId] == []
    decreases c
  {
    var bs := Batches(orders);
    if c == b + 1 {
      FailedBatchEmpties(bs, api, b, o);
    } else {
      StaysEmptyUpTo(orders, api, b, o, c - 1);
      JoinSnoc(bs, c - 1, api);
      SeparateBatches(orders, b, c - 1, o);
      BatchKeeps(JoinBatches(bs[..c - 1], api), Ids(bs[c - 1]), api, o.orderId);
    }
  }

  /** A batch that does not contain `key` leaves its entry alone, with an honest API. */
  lemma BatchKeeps(m: map<string, seq<FbItem>>, ids: seq<string>, api: ItemsApi, key: string)
    requires Honest(api) && key !in ids && key in m
    ensures var r := ApplyBatch(m, ids, api(ids));
      key in r && r[key] == m[key]
  {
    var response := api(ids);
    if response.None? {
      ClearSets(m, ids, key);
    } else {
      var entries := ItemEntries(response.value);
      forall e | e in entries
        ensures e.orderId != key
      {
        assert e.orderId in ids;
      }
      RecordKeeps(m, entries, key);
    }
  }

  // ------------------------------------------------------------------
  // Normalisation and the handler
  // ------------------------------------------------------------------

  /** `allItemsByOrderId[orderId] || []`. */
  function ItemsFor(byId: map<string, seq<FbItem>>, id: string): seq<FbItem> {
    if id in byId then byId[id] else []
  }

  /** `allOrders.map(…)`: each fetched order normalised once, in fetch order. This copy
      leaves the date null when CreatedAt is missing, so it has no use for a clock. */
  function NormalizeAll(orders: seq<FbOrder>, byId: map<string, seq<FbItem>>): seq<Order> {
    seq(|orders|, i requires 0 <= i < |orders| =>
      NormalizeFalabellaAs(SyncEndpoint, orders[i], ItemsFor(byId, orders[i].orderId), ""))
  }

  /** One output per fetched order, at the same position and with the same id; an
      order absent from the item dictionary gets no items. */
  lemma NormalizeAllKeepsOrder(orders: seq<FbOrder>, byId: map<string, seq<FbItem>>)
    ensures var r := NormalizeAll(orders, byId);
      && |r| == |orders|
      && (forall i :: 0 <= i < |orders| ==>
            && r[i].orderId == orders[i].orderId && r[i].channel == Falabella
            && |r[i].items| == |ItemsFor(byId, orders[i].orderId)|
            && (orders[i].orderId !in byId ==> r[i].items == []))
  {
    var r := NormalizeAll(orders, byId);
    forall i | 0 <= i < |orders|
      ensures r[i].orderId == orders[i].orderId && r[i].channel == Falabella
      ensures |r[i].items| == |ItemsFor(byId, orders[i].orderId)|
    {
      NormalizeFalabellaStatusAndItems(SyncEndpoint, orders[i], ItemsFor(byId, orders[i].orderId), "");
    }
  }


  datatype SyncRequest = SyncRequest(
    httpMethod: string,
    configUserId: Option<string>,
    configApiKey: Option<string>,
    dateFrom: Option<string>)

  datatype SyncResponse =
    | Preflight                                   // 200, CORS headers only
    | MethodNotAllowed                            // 405
    | MissingCredentials                          // 400
    | SyncFailed                                  // 500
    | Synced(orders: seq<Order>, total: nat)      // 200

  /** `handler`. `envUserId`/`envApiKey` are the environment fallbacks, `sixMonthsAgo`
      the ISO fallback date, `pages` the GetOrders responses and `api` the
      GetMultipleOrderItems endpoint; `updatedAfter` is the UpdatedAfter parameter sent. */
  method Handler(req: SyncRequest, envUserId: Option<string>, envApiKey: Option<string>, sixMonthsAgo: string,
                 pages: seq<Option<FbOrdersPage>>, api: ItemsApi)
    returns (res: SyncResponse, updatedAfter: Option<string>)
    ensures req.httpMethod == "OPTIONS" <==> res == Preflight
    ensures req.httpMethod != "OPTIONS" && req.httpMethod != "POST" <==> res == MethodNotAllowed
    ensures res == MissingCredentials <==>
      req.httpMethod == "POST" && !(Truthy(OrOpt(req.configUserId, envUserId)) && Truthy(OrOpt(req.configApiKey, envApiKey)))
    ensures res.Synced? || res == SyncFailed ==> updatedAfter == Some(Or(req.dateFrom, sixMonthsAgo))
    ensures res == SyncFailed ==> Collect(Views(pages), 0, []).orders.None?
    ensures res.Synced? ==>
      var all := Collect(Views(pages), 0, []).orders;
      && all.Some?
      && res.orders == NormalizeAll(all.value, JoinBatches(Batches(all.value), api))
      && res.total == |all.value| == |res.orders|
  {
    updatedAfter := None;
    if req.httpMethod == "OPTIONS" {
      return Preflight, updatedAfter;
    }
    if req.httpMethod != "POST" {
      return MethodNotAllowed, updatedAfter;
    }
    var userId := OrOpt(req.configUserId, envUserId);
    var apiKey := OrOpt(req.configApiKey, envApiKey);
    if !Truthy(userId) || !Truthy(apiKey) {
      return MissingCredentials, updatedAfter;
    }
    updatedAfter := Some(Or(req.dateFrom, sixMonthsAgo));
    var allOrders, _ := FetchAllOrders(pages);
    if allOrders.None? {
      return SyncFailed, updatedAfter;
    }
    if |allOrders.value| == 0 {
      return Synced([], 0), updatedAfter;
    }
    var byId := JoinItems(allOrders.value, api);
    var normalized := NormalizeAll(allOrders.value, byId);
    res := Synced(normalized, |normalized|);
  }
}
