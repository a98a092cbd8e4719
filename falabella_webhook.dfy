// The Falabella webhook (api/falabella-webhook.js): acknowledge first, then fetch,
// match items and normalise each notified order on its own.
module FalabellaWebhook {
  import opened Wrappers
  import opened Text
  import opened OrderModel
  import opened Raw
  import opened Normalizer
  import FalabellaSync

  /** `payload.OrderId`: one id or an array of ids, each as `String` renders it. */
  datatype IdField = IdScalar(text: string) | IdArray(items: seq<string>)

  datatype Payload = Payload(orderId: Option<IdField>, orderIdSnake: Option<string>)

  /** JavaScript truthiness of `payload.OrderId`: an array is always truthy. */
  predicate IdTruthy(f: Option<IdField>) {
    f.Some? && (f.value.IdArray? || f.value.text != "")
  }

  /** The ids to process: `payload.OrderId` (scalar or array) in preference to
      `payload.order_id`; nothing when neither is present. */
  function OrderIds(p: Payload): (r: seq<string>)
    ensures IdTruthy(p.orderId) && p.orderId.value.IdScalar? ==> r == [p.orderId.value.text]
    ensures IdTruthy(p.orderId) && p.orderId.value.IdArray? ==> r == p.orderId.value.items
    ensures !IdTruthy(p.orderId) && Truthy(p.orderIdSnake) ==> r == [p.orderIdSnake.value]
    ensures !IdTruthy(p.orderId) && !Truthy(p.orderIdSnake) ==> r == []
  {
    if IdTruthy(p.orderId) then
      match p.orderId.value
      case IdScalar(t) => [t]
      case IdArray(ts) => ts
    else if Truthy(p.orderIdSnake) then [p.orderIdSnake.value]
    else []
  }

  /** `[].concat(x?.Body?.Orders?.Order || [])`: only the object form is read; an array of
      wrappers has no `Order` field, so it yields nothing. */
  function OrderField<T>(c: FbOrders<T>): (r: seq<T>)
    ensures c.WrapperList? || c.NoOrders? ==> r == []
    ensures c.OrderField? && c.order.Some? ==> r == Spread(c.order.value)
  {
    if c.OrderField? && c.order.Some? then Spread(c.order.value) else []
  }

  /** `ordersWithItems.find(o => String(o.OrderId) === orderId)`. */
  function FindEntry(entries: seq<FbOrderItems>, id: string): (r: Option<FbOrderItems>)
    ensures r.None? <==> forall k :: 0 <= k < |entries| ==> entries[k].orderId != id
    ensures r.Some? ==> exists k :: 0 <= k < |entries| && entries[k] == r.value && r.value.orderId == id
                                     && forall j :: 0 <= j < k ==> entries[j].orderId != id
  {
    if entries == [] then None
    else if entries[0].orderId == id then Some(entries[0])
    else
      var r := FindEntry(entries[1..], id);
      if r.Some? then
        ghost var k :| 0 <= k < |entries[1..]| && entries[1..][k] == r.value && r.value.orderId == id
                       && forall j :: 0 <= j < k ==> entries[1..][j].orderId != id;
        assert entries[k + 1] == r.value;
        r
      else r
  }

  /** The items of the requested order, defaulting to []. */
  function ItemsForId(entries: seq<FbOrderItems>, id: string): seq<FbItem> {
    var e := FindEntry(entries, id);
    if e.Some? then FalabellaSync.ItemsOf(e.value) else []
  }

  /** The three calls made for one order; None is a call that throws. `upsert` is
      whether the Supabase response was OK. */
  datatype OrderCalls = OrderCalls(
    orderResponse: Option<FbOrders<FbOrder>>,
    itemsResponse: Option<FbOrders<FbOrderItems>>,
    upsert: Option<bool>)

  datatype Outcome =
    | NotFound                   // `continue`, no items request
    | Failed                     // a call threw; logged and skipped
    | Rejected(order: Order)     // upsert answered not OK
    | Upserted(order: Order)

  /** The body of the per-order `try`. */
  function ProcessOne(id: string, calls: OrderCalls): (r: Outcome)
    ensures calls.orderResponse.None? ==> r == Failed
    ensures calls.orderResponse.Some? && OrderField(calls.orderResponse.value) == [] ==> r == NotFound
    ensures r.Rejected? || r.Upserted? ==>
      && calls.orderResponse.Some? && calls.itemsResponse.Some? && calls.upsert.Some?
      && var raw := OrderField(calls.orderResponse.value);
         var entries := OrderField(calls.itemsResponse.value);
         && raw != []
         && r.order == NormalizeFalabellaAs(WebhookEndpoint, raw[0], ItemsForId(entries, id), "")
         && (r.Upserted? <==> calls.upsert.value)
  {
    if calls.orderResponse.None? then Failed
    else
      var raw := OrderField(calls.orderResponse.value);
      if raw == [] then NotFound
      else if calls.itemsResponse.None? then Failed
      else
        var items := ItemsForId(OrderField(calls.itemsResponse.value), id);
        var normalized := NormalizeFalabellaAs(WebhookEndpoint, raw[0], items, "");
        if calls.upsert.None? then Failed
        else if calls.upsert.value then Upserted(normalized)
        else Rejected(normalized)
  }

  datatype WebhookEnv = WebhookEnv(
    userId: Option<string>,
    apiKey: Option<string>,
    supabaseUrl: Option<string>,
    supabaseKey: Option<string>)

  predicate Configured(env: WebhookEnv) {
    Truthy(env.userId) && Truthy(env.apiKey) && Truthy(env.supabaseUrl) && Truthy(env.supabaseKey)
  }

  /** `handler`: the 200 acknowledgement is sent before anything else, whatever happens
      next; then every id is processed on its own, in order. `calls` gives the
      responses the three requests receive for an id. */
  method Handler(payload: Payload, env: WebhookEnv, calls: string -> OrderCalls)
    returns (ack: int, outcomes: seq<Outcome>)
    ensures ack == 200
    ensures !Configured(env) ==> outcomes == []
    ensures Configured(env) ==>
      var ids := OrderIds(payload);
      |outcomes| == |ids| && forall i :: 0 <= i < |ids| ==> outcomes[i] == ProcessOne(ids[i], calls(ids[i]))
  {
    ack := 200;
    outcomes := [];
    if !Configured(env) {
      return;
    }
    var orderIds := OrderIds(payload);
    if |orderIds| == 0 {
      return;
    }
    var i := 0;
    while i < |orderIds|
      invariant i <= |orderIds| && |outcomes| == i
      invariant forall k :: 0 <= k < i ==> outcomes[k] == ProcessOne(orderIds[k], calls(orderIds[k]))
    {
      var orderId := orderIds[i];
      outcomes := outcomes + [ProcessOne(orderId, calls(orderId))];
      i := i + 1;
    }
  }

  /** The webhook maps statuses exactly as the sync endpoint does, with the same
      ['pending'] default. */
  lemma SameStatusAsSync(o: FbOrder, items: seq<FbItem>, other: seq<FbItem>)
    ensures NormalizeFalabellaAs(WebhookEndpoint, o, items, "").status
         == NormalizeFalabellaAs(SyncEndpoint, o, other, "").status
    ensures o.statuses.None? ==> NormalizeFalabellaAs(WebhookEndpoint, o, items, "").status == Nuevo
  {
    NormalizeFalabellaStatusAndItems(WebhookEndpoint, o, items, "");
    NormalizeFalabellaStatusAndItems(SyncEndpoint, o, other, "");
  }

  /** The wrapper-array form that the sync endpoint accepts is not read here: such a
      response is treated as a missing order. */
  lemma WrapperArrayNotFound(id: string, wrappers: seq<Option<FbOrder>>, items: Option<FbOrders<FbOrderItems>>, upsert: Option<bool>)
    ensures ProcessOne(id, OrderCalls(Some(WrapperList(wrappers)), items, upsert)) == NotFound
  {
  }
}
