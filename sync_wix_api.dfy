// api/sync-wix.js: the serverless endpoint that reads one page of Wix orders and returns
// them normalised. Its `normalizeWixOrder` is an older copy of the normaliser, with its
// own fallbacks; the Wix search call is I/O and its answer comes in as a parameter.
module SyncWixApi {
  import opened Wrappers
  import opened Text
  import opened OrderModel
  import opened Raw
  import Normalizer

  /** `parseFloat(m?.amount || m || 0)`. */
  function Amount(m: Option<Money>): Option<int> {
    ParseFloat(MoneyText(m, "0"))
  }

  /** A missing price counts as 0, not as a missing number. */
  lemma AmountMissing()
    ensures Amount(None) == Some(0)
  {
    ParseFloatOfNatToString(0);
  }

  /** The address from `shippingInfo.shipmentDetails.address`, each part `|| ''`. */
  function ShipmentAddress(o: WixOrder): (r: Option<Address>)
    ensures r.None? <==> o.shipmentDetailsAddress.None?
    ensures r.Some? ==> var a := o.shipmentDetailsAddress.value;
      && r.value.street == Or(a.addressLine1, "") && r.value.city == Or(a.city, "")
      && r.value.state == Or(a.subdivision, "") && r.value.country == Or(a.country, "")
      && r.value.zipCode == Or(a.postalCode, "")
      && r.value.receiverName.None? && r.value.comment.None?
  {
    if o.shipmentDetailsAddress.None? then None
    else
      var a := o.shipmentDetailsAddress.value;
      Some(Address(Or(a.addressLine1, ""), None, None, Or(a.city, ""), Or(a.subdivision, ""),
                   Or(a.country, ""), Or(a.postalCode, ""), None, None, None, None))
  }

  /** One line item: `sku || id`, `translated || original || 'Sin nombre'`. */
  function ItemOf(item: WixLineItem, currency: string): (r: Item)
    ensures r.sku == Some(Or(item.sku, item.id))
    ensures r.title == Normalizer.WixItemTitle(item)
    ensures r.quantity == item.quantity && r.currency == currency && r.imageUrl == item.imageUrl
    ensures r.unitPrice == Amount(item.price) && r.fullPrice == Amount(item.totalPrice)
  {
    Item(Some(Or(item.sku, item.id)), Normalizer.WixItemTitle(item), item.quantity,
         Amount(item.price), Amount(item.totalPrice), currency, item.imageUrl, [], None, None, None)
  }

  function ItemsOf(items: seq<WixLineItem>, currency: string): (r: seq<Item>)
    ensures |r| == |items|
    ensures forall i :: 0 <= i < |items| ==> r[i] == ItemOf(items[i], currency)
  {
    Map(items, (i: WixLineItem) => ItemOf(i, currency))
  }

  /** The order `normalizeWixOrder` builds once its line items can be mapped. */
  function WixOrderOf(o: WixOrder, now: string): Order {
    var total := Amount(o.total);
    Order(
      None, o.number, Wix, None, None, Nuevo,
      Some(Or(o.underscoreCreatedDate, Or(o.dateCreated, now))),
      OrOpt(o.underscoreUpdatedDate, OrOpt(o.dateUpdated, OrOpt(o.underscoreCreatedDate, None))),
      total, total, o.currency,
      Normalizer.WixCustomer(o, o.buyerId, None),
      ShipmentAddress(o),
      ItemsOf(if o.lineItems.Some? then o.lineItems.value else [], o.currency),
      Some(Normalizer.EmptyPayment().(status := o.paymentStatus)),
      [], None, None, None, None)
  }

  /** `normalizeWixOrder`; `now` is `new Date().toISOString()`. A missing `lineItems`
      makes `.map` throw, shown as `None`. */
  function NormalizeWixOrder(o: WixOrder, now: string): (r: Option<Order>)
    ensures r.None? <==> o.lineItems.None?
  {
    if o.lineItems.None? then None else Some(WixOrderOf(o, now))
  }

  /** Every order comes in as a new Wix order dated by the first truthy of its creation
      dates (else now), closed at the first truthy of its update dates (else its
      creation date, else null), with the same amount as total and paid, and one item
      per line item in order. */
  lemma NormalizeWixOrderSpec(o: WixOrder, now: string)
    requires o.lineItems.Some?
    ensures var r := NormalizeWixOrder(o, now).value;
      && r.channel == Wix && r.status == Nuevo && r.orderId == o.number
      && r.packId.None? && r.shippingId.None? && r.tags == [] && r.notes.None?
      && (Truthy(o.underscoreCreatedDate) ==> r.orderDate == o.underscoreCreatedDate)
      && (!Truthy(o.underscoreCreatedDate) && Truthy(o.dateCreated) ==> r.orderDate == o.dateCreated)
      && (!Truthy(o.underscoreCreatedDate) && !Truthy(o.dateCreated) ==> r.orderDate == Some(now))
      && (Truthy(o.underscoreUpdatedDate) ==> r.closedDate == o.underscoreUpdatedDate)
      && (!Truthy(o.underscoreUpdatedDate) && Truthy(o.dateUpdated) ==> r.closedDate == o.dateUpdated)
      && (!Truthy(o.underscoreUpdatedDate) && !Truthy(o.dateUpdated) ==>
            r.closedDate == (if Truthy(o.underscoreCreatedDate) then o.underscoreCreatedDate else None))
      && r.totalAmount == r.paidAmount && r.totalAmount == Amount(o.total)
      && (o.total.None? ==> r.totalAmount == Some(0))
      && |r.items| == |o.lineItems.value|
      && r.customer.source == Wix && r.customer.id == o.buyerId && r.customer.email == o.buyerEmail
      && r.paymentInfo == Some(Normalizer.EmptyPayment().(status := o.paymentStatus))
  {
    AmountMissing();
  }

  /** What the request's body holds. */
  datatype Body = Body(apiKey: Option<string>, siteId: Option<string>, limit: Option<int>, cursor: Option<string>)

  /** The Wix search: a thrown error, or the page's orders and next cursor. */
  datatype SearchReply = SearchFailed(message: string) | Page(orders: Option<seq<WixOrder>>, nextCursor: Option<string>)

  /** The cursor paging asked of Wix. */
  datatype Paging = Paging(limit: int, cursor: Option<string>)

  datatype Response =
    | Refused(status: int, error: string)
    | Synced(asked: Paging, orders: seq<Order>, total: nat, nextCursor: Option<string>, hasMore: bool)

  /** Every order normalised, or `None` when one of them throws. */
  function NormalizeAll(orders: seq<WixOrder>, now: string): (r: Option<seq<Order>>)
    ensures r.Some? <==> forall i :: 0 <= i < |orders| ==> orders[i].lineItems.Some?
    ensures r.Some? ==> |r.value| == |orders|
    ensures r.Some? ==> forall i :: 0 <= i < |orders| ==> Some(r.value[i]) == NormalizeWixOrder(orders[i], now)
  {
    if exists i :: 0 <= i < |orders| && orders[i].lineItems.None? then None
    else Some(Map(orders, (o: WixOrder) => WixOrderOf(o, now)))
  }

  /** `handler`. */
  function Handle(verb: string, body: Body, reply: SearchReply, now: string): (r: Response)
    ensures verb != "POST" ==> r == Refused(405, "Method not allowed")
    ensures verb == "POST" && (!Truthy(body.apiKey) || !Truthy(body.siteId)) ==>
      r == Refused(400, "Faltan credenciales de Wix")
    ensures r.Synced? ==> r.hasMore == Truthy(r.nextCursor) && r.total == |r.orders|
    ensures r.Synced? ==> r.asked.limit == (if body.limit.Some? then body.limit.value else 50)
    ensures r.Synced? ==> r.asked.cursor == (if Truthy(body.cursor) then body.cursor else None)
  {
    if verb != "POST" then Refused(405, "Method not allowed")
    else if verb == "OPTIONS" then Refused(200, "")
    else if !Truthy(body.apiKey) || !Truthy(body.siteId) then Refused(400, "Faltan credenciales de Wix")
    else
      var asked := Paging(if body.limit.Some? then body.limit.value else 50,
                          if Truthy(body.cursor) then body.cursor else None);
      match reply
      case SearchFailed(_) => Refused(500, "Error al sincronizar Wix")
      case Page(orders, nextCursor) =>
        var normalized := NormalizeAll(if orders.Some? then orders.value else [], now);
        if normalized.None? then Refused(500, "Error al sincronizar Wix")
        else Synced(asked, normalized.value, |normalized.value|, nextCursor, Truthy(nextCursor))
  }

  /** The CORS preflight branch comes after the POST check, so an OPTIONS request is
      answered 405 and never 200. */
  lemma OptionsUnreachable(body: Body, reply: SearchReply, now: string)
    ensures Handle("OPTIONS", body, reply, now).Refused?
    ensures Handle("OPTIONS", body, reply, now).status == 405
  {
  }

  /** A page whose orders all have line items comes back whole and in order, with
      `hasMore` set exactly when Wix gave a next cursor. */
  lemma HandlePageSpec(body: Body, orders: seq<WixOrder>, nextCursor: Option<string>, now: string)
    requires Truthy(body.apiKey) && Truthy(body.siteId)
    requires forall i :: 0 <= i < |orders| ==> orders[i].lineItems.Some?
    ensures var r := Handle("POST", body, Page(Some(orders), nextCursor), now);
      && r.Synced? && |r.orders| == |orders| && r.nextCursor == nextCursor
      && (r.hasMore <==> Truthy(nextCursor))
      && forall i :: 0 <= i < |orders| ==> Some(r.orders[i]) == NormalizeWixOrder(orders[i], now)
  {
  }
}
