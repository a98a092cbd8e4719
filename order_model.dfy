// The unified order record every channel is normalised into, and the rows the
// dashboard, analytics and CRM views read back (src/lib/types.ts). The normalisers
// also emit the channel 'falabella', which the declared channel type does not list.
module OrderModel {
  import opened Wrappers

  datatype OrderStatus = Nuevo | Preparando | Enviado | Entregado | Cancelado

  datatype Channel = MercadoLibre | Wix | Falabella

  function StatusName(s: OrderStatus): string {
    match s
    case Nuevo => "nuevo"
    case Preparando => "preparando"
    case Enviado => "enviado"
    case Entregado => "entregado"
    case Cancelado => "cancelado"
  }

  function ChannelName(c: Channel): string {
    match c
    case MercadoLibre => "mercadolibre"
    case Wix => "wix"
    case Falabella => "falabella"
  }

  lemma StatusNameInjective(a: OrderStatus, b: OrderStatus)
    ensures StatusName(a) == StatusName(b) ==> a == b
  {
  }

  datatype Customer = Customer(
    source: Channel,
    id: string,
    nickname: Option<string>,
    email: Option<string>,
    firstName: Option<string>,
    lastName: Option<string>,
    phone: Option<string>,
    cedula: Option<string>)

  datatype Address = Address(
    street: string,
    comment: Option<string>,
    neighborhood: Option<string>,
    city: string,
    state: string,
    country: string,
    zipCode: string,
    receiverName: Option<string>,
    receiverPhone: Option<string>,
    latitude: Option<int>,
    longitude: Option<int>)

  datatype VariationAttr = VariationAttr(name: string, value: Option<string>)

  datatype Item = Item(
    sku: Option<string>,
    title: string,
    quantity: int,
    unitPrice: Option<int>,
    fullPrice: Option<int>,
    currency: string,
    imageUrl: Option<string>,
    variationAttributes: seq<VariationAttr>,
    orderItemId: Option<string>,
    packageId: Option<string>,
    trackingCode: Option<string>)

  datatype Payment = Payment(
    paymentMethod: Option<string>,
    status: Option<string>,
    installments: Option<int>,
    paidAmount: Option<int>,
    paymentDate: Option<string>,
    shippingCost: Option<int>,
    shippingMethod: Option<string>,
    promisedShippingTime: Option<string>)

  /** An order. `id` is the database key (absent until stored); `orderId` is the
      channel's own number. Amounts are whole pesos; None is null or NaN.
      `orderDate` is an ISO date; it is null only where a normaliser leaves it so. */
  datatype Order = Order(
    id: Option<string>,
    orderId: string,
    channel: Channel,
    packId: Option<string>,
    shippingId: Option<string>,
    status: OrderStatus,
    orderDate: Option<string>,
    closedDate: Option<string>,
    totalAmount: Option<int>,
    paidAmount: Option<int>,
    currency: string,
    customer: Customer,
    shippingAddress: Option<Address>,
    items: seq<Item>,
    paymentInfo: Option<Payment>,
    tags: seq<string>,
    notes: Option<string>,
    logisticType: Option<string>,
    storeId: Option<string>,
    storeName: Option<string>)

  /** `x || 0` on an amount: null, NaN and 0 all give 0. */
  function AmountOrZero(a: Option<int>): int {
    if a.Some? then a.value else 0
  }

  /** How a JavaScript template literal renders an optional string. */
  function Render(a: Option<string>): string {
    if a.Some? then a.value else "undefined"
  }

  /** `x || ''`. */
  function OrEmpty(a: Option<string>): string {
    if a.Some? then a.value else ""
  }
}
