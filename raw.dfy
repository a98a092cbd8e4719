// The raw records the three channel APIs deliver, restricted to the fields the
// normalisers read. Absent JSON fields are None; numbers the APIs send as text
// (Wix and Falabella amounts) are strings handed to `parseFloat`.
module Raw {
  import opened Wrappers
  import opened Text

  // ---------------- Mercado Libre ----------------

  datatype MLAttribute = MLAttribute(name: string, valueName: Option<string>)

  datatype MLItem = MLItem(
    sellerSku: Option<string>,
    title: string,
    quantity: int,
    unitPrice: Option<int>,
    fullUnitPrice: Option<int>,
    currencyId: string,
    variationAttributes: Option<seq<MLAttribute>>)

  datatype MLPayment = MLPayment(
    paymentMethodId: Option<string>,
    status: Option<string>,
    installments: Option<int>,
    totalPaidAmount: Option<int>,
    dateApproved: Option<string>)

  datatype MLOrder = MLOrder(
    id: nat,
    packId: Option<nat>,
    shippingId: Option<nat>,
    dateCreated: string,
    dateClosed: Option<string>,
    totalAmount: Option<int>,
    paidAmount: Option<int>,
    currencyId: string,
    buyerId: nat,
    buyerNickname: Option<string>,
    orderItems: seq<MLItem>,
    payments: Option<seq<MLPayment>>,
    tags: Option<seq<string>>)

  /** `receiver_address` of a Mercado Libre shipment. */
  datatype MLReceiverAddress = MLReceiverAddress(
    streetName: Option<string>,
    streetNumber: Option<string>,
    comment: Option<string>,
    neighborhoodName: Option<string>,
    cityName: Option<string>,
    stateName: Option<string>,
    countryName: Option<string>,
    countryId: Option<string>,
    zipCode: Option<string>,
    receiverName: Option<string>,
    receiverPhone: Option<string>,
    latitude: Option<int>,
    longitude: Option<int>)

  // ---------------- Wix ----------------

  /** A Wix price: normally `{ amount: "12000.00" }`, sometimes a bare value. */
  datatype Money = MoneyObject(amount: Option<string>) | MoneyScalar(text: string)

  /** `m?.amount`. */
  function AmountOf(m: Option<Money>): Option<string> {
    if m.Some? && m.value.MoneyObject? then m.value.amount else None
  }

  /** The text `parseFloat` receives from `m?.amount || m || fallback`: an object without
      a usable amount is itself truthy and renders as "[object Object]". */
  function MoneyText(m: Option<Money>, fallback: string): (r: string)
    ensures Truthy(AmountOf(m)) ==> r == AmountOf(m).value
    ensures m.None? ==> r == fallback
  {
    var a := AmountOf(m);
    if a.Some? && a.value != "" then a.value
    else if m.None? then fallback
    else match m.value
      case MoneyObject(_) => "[object Object]"
      case MoneyScalar(t) => if t != "" then t else fallback
  }

  datatype WixAddress = WixAddress(
    addressLine: Option<string>,
    addressLine1: Option<string>,
    addressLine2: Option<string>,
    city: Option<string>,
    subdivision: Option<string>,
    subdivisionFullname: Option<string>,
    country: Option<string>,
    countryFullname: Option<string>,
    postalCode: Option<string>)

  datatype WixContact = WixContact(firstName: Option<string>, lastName: Option<string>, phone: Option<string>)

  datatype WixCustomField = WixCustomField(title: Option<string>, value: Option<string>)

  datatype WixLineItem = WixLineItem(
    id: string,
    sku: Option<string>,
    physicalSku: Option<string>,
    translatedName: Option<string>,
    originalName: Option<string>,
    quantity: int,
    price: Option<Money>,
    totalPrice: Option<Money>,
    totalPriceAfterTax: Option<Money>,
    imageUrl: Option<string>)

  datatype WixOrder = WixOrder(
    number: string,
    createdDate: Option<string>,
    underscoreCreatedDate: Option<string>,
    dateCreated: Option<string>,
    updatedDate: Option<string>,
    underscoreUpdatedDate: Option<string>,
    dateUpdated: Option<string>,
    status: Option<string>,
    fulfillmentStatus: Option<string>,
    total: Option<Money>,
    shipping: Option<Money>,
    currency: string,
    buyerId: string,
    buyerContactId: Option<string>,
    buyerEmail: Option<string>,
    billingContact: Option<WixContact>,
    destinationAddress: Option<WixAddress>,
    destinationContact: Option<WixContact>,
    recipientAddress: Option<WixAddress>,
    recipientContact: Option<WixContact>,
    shipmentDetailsAddress: Option<WixAddress>,
    shippingTitle: Option<string>,
    lineItems: Option<seq<WixLineItem>>,
    paymentStatus: Option<string>,
    customFields: Option<seq<WixCustomField>>,
    buyerNote: Option<string>)

  // ---------------- Falabella ----------------

  /** A JSON value, as `JSON.parse` delivers it. Object entries are listed in
      JavaScript property order with distinct keys. */
  datatype JsonValue =
    | JNull
    | JBool(b: bool)
    | JNumber(text: string)
    | JString(s: string)
    | JArray(elems: seq<JsonValue>)
    | JObject(fields: seq<(string, JsonValue)>)

  /** The outcome of `JSON.parse`: a value, or a SyntaxError. */
  datatype JsonDoc = Invalid | Parsed(value: JsonValue)

  datatype FbAddress = FbAddress(
    firstName: Option<string>,
    lastName: Option<string>,
    phone: Option<string>,
    address1: Option<string>,
    address2: Option<string>,
    address3: Option<string>,
    city: Option<string>,
    region: Option<string>,
    ward: Option<string>,
    country: Option<string>,
    postCode: Option<string>,
    customerEmail: Option<string>)

  /** The `Statuses.Status` field: one string or a list of them. */
  datatype StatusValue = OneStatus(s: string) | StatusList(items: seq<string>)

  datatype FbOrder = FbOrder(
    orderId: string,
    statuses: Option<StatusValue>,
    createdAt: Option<string>,
    grandTotal: Option<string>,
    price: Option<string>,
    nationalRegistrationNumber: Option<string>,
    customerFirstName: Option<string>,
    customerLastName: Option<string>,
    addressBilling: Option<FbAddress>,
    addressShipping: Option<FbAddress>,
    paymentMethod: Option<string>,
    shippingFeeTotal: Option<string>,
    shippingType: Option<string>,
    sellerWarehouseId: Option<string>,
    facilityId: Option<string>)

  datatype FbItem = FbItem(
    sku: Option<string>,
    shopSku: Option<string>,
    name: Option<string>,
    paidPrice: Option<string>,
    itemPrice: Option<string>,
    currency: Option<string>,
    orderItemId: Option<string>,
    packageId: Option<string>,
    trackingCode: Option<string>,
    trackingCodePre: Option<string>,
    variation: Option<string>,
    variationJson: JsonDoc,
    promisedShippingTime: Option<string>)

  /** A field that holds one value or an array of them, read with `[].concat(x)`. */
  datatype OneOrMany<T> = One(item: T) | Many(items: seq<T>)

  function Spread<T>(v: OneOrMany<T>): seq<T> {
    match v
    case One(x) => [x]
    case Many(xs) => xs
  }

  /** `Body.Orders` of a Falabella response: absent, an array of `{Order}` wrappers
      (a wrapper may lack its Order), or an object whose `Order` is one value or an array. */
  datatype FbOrders<T> =
    | NoOrders
    | WrapperList(entries: seq<Option<T>>)
    | OrderField(order: Option<OneOrMany<T>>)

  /** One entry of a GetMultipleOrderItems response. */
  datatype FbOrderItems = FbOrderItems(orderId: string, orderItems: Option<OneOrMany<FbItem>>)

  /** One GetOrders response: the orders container and `Head.TotalCount`. */
  datatype FbOrdersPage = FbOrdersPage(orders: FbOrders<FbOrder>, totalCount: Option<string>)
}
