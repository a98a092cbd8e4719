// api/push-to-halcon.js: the checks a hand-off request goes through, the eligibility
// rule, the mapping of an order onto Halcón's `pedido` and how Halcón's answer is
// passed back. The HTTP call itself is I/O; its outcome comes in as a parameter.
module PushToHalcon {
  import opened Wrappers
  import opened Text
  import opened OrderModel

  /** The `order` of the request body, as far as the handler reads it. The channel is
      the raw string the client sent; customer and address may be missing. */
  datatype BodyOrder = BodyOrder(
    channel: string,
    logisticType: Option<string>,
    orderId: string,
    shipping: Option<Address>,
    customer: Option<Customer>)

  /** Halcón's `pedido`. */
  datatype Pedido = Pedido(
    origen: string,
    numeroEnvio: string,
    numeroPedidoWix: string,
    destinatario: string,
    celular: string,
    direccion: string,
    ciudad: string)

  /** What the fetch to Halcón gave: a thrown error, or a status with the answer's
      `error` field. */
  datatype HalconReply = Unreachable(message: string) | Replied(status: int, error: Option<string>)

  datatype Response = Response(status: int, error: Option<string>, sent: Option<Pedido>)

  /** `isWix || isMLSelfService`. */
  predicate Eligible(o: BodyOrder) {
    o.channel == "wix" || (o.channel == "mercadolibre" && o.logisticType == Some("self_service"))
  }

  function Field(a: Option<Address>, f: Address -> Option<string>): Option<string> {
    if a.Some? then f(a.value) else None
  }

  /** `destinatario`. */
  function Destinatario(o: BodyOrder): (r: string)
    ensures o.shipping.Some? && Truthy(o.shipping.value.receiverName) ==> r == o.shipping.value.receiverName.value
  {
    var receiver := Field(o.shipping, (a: Address) => a.receiverName);
    if Truthy(receiver) then receiver.value
    else if o.customer.Some? && Truthy(o.customer.value.firstName) && Truthy(o.customer.value.lastName) then
      o.customer.value.firstName.value + " " + o.customer.value.lastName.value
    else
      var c := if o.customer.Some? then o.customer.value else Customer(Wix, "", None, None, None, None, None, None);
      Or(c.nickname, Or(c.email, "Sin nombre"))
  }

  /** The fallback chain receiver name, then "first last" when both are there, then
      nickname, then email, then "Sin nombre", each step taken only when every
      earlier one is missing or empty. */
  lemma DestinatarioSpec(o: BodyOrder)
    ensures var receiver := Field(o.shipping, (a: Address) => a.receiverName);
      var c := o.customer;
      var both := c.Some? && Truthy(c.value.firstName) && Truthy(c.value.lastName);
      var nick := if c.Some? then c.value.nickname else None;
      var email := if c.Some? then c.value.email else None;
      && (Truthy(receiver) ==> Destinatario(o) == receiver.value)
      && (!Truthy(receiver) && both ==> Destinatario(o) == c.value.firstName.value + " " + c.value.lastName.value)
      && (!Truthy(receiver) && !both && Truthy(nick) ==> Destinatario(o) == nick.value)
      && (!Truthy(receiver) && !both && !Truthy(nick) && Truthy(email) ==> Destinatario(o) == email.value)
      && (!Truthy(receiver) && !both && !Truthy(nick) && !Truthy(email) ==> Destinatario(o) == "Sin nombre")
      && Destinatario(o) != ""
  {
  }

  /** `direccion`: "street, comment" with a comment, else the street. */
  function Direccion(a: Option<Address>): (r: string)
    ensures a.Some? && Truthy(a.value.comment) ==> r == a.value.street + ", " + a.value.comment.value
    ensures !(a.Some? && Truthy(a.value.comment)) ==> r == (if a.Some? then a.value.street else "")
  {
    if a.Some? && Truthy(a.value.comment) then a.value.street + ", " + a.value.comment.value
    else if a.Some? then a.value.street else ""
  }

  /** `pedido`, for an eligible order. */
  function ToPedido(o: BodyOrder): Pedido
    requires Eligible(o)
  {
    var isWix := o.channel == "wix";
    Pedido(
      if isWix then "wix" else "mercadolibre",
      (if isWix then "WIX-" else "ML-") + o.orderId,
      o.orderId,
      Destinatario(o),
      OrEmpty(Field(o.shipping, (a: Address) => a.receiverPhone)),
      Direccion(o.shipping),
      if o.shipping.Some? then o.shipping.value.city else "")
  }

  /** `origen` names the channel, the shipment number is the channel's prefix followed
      by the order id, which can be read back from it, and `numero_pedido_wix` is the
      order id for both channels. */
  lemma ToPedidoSpec(o: BodyOrder)
    requires Eligible(o)
    ensures var p := ToPedido(o);
      && p.origen == o.channel
      && (o.channel == "wix" ==> p.numeroEnvio == "WIX-" + o.orderId && p.numeroEnvio[4..] == o.orderId)
      && (o.channel != "wix" ==> p.numeroEnvio == "ML-" + o.orderId && p.numeroEnvio[3..] == o.orderId)
      && p.numeroPedidoWix == o.orderId
  {
    var p := ToPedido(o);
    if o.channel == "wix" {
      assert p.numeroEnvio == "WIX-" + o.orderId;
    } else {
      assert p.numeroEnvio == "ML-" + o.orderId;
    }
  }

  /** `handler`: 405, 400, 500, 500 and 400 in that order, then Halcón's answer. */
  function Handle(verb: string, order: Option<BodyOrder>, halconUrl: Option<string>,
                  secret: Option<string>, reply: HalconReply): (r: Response)
    ensures verb != "POST" ==> r.status == 405 && r.sent.None?
    ensures verb == "POST" && order.None? ==> r.status == 400 && r.sent.None?
    ensures verb == "POST" && order.Some? && !Truthy(halconUrl) ==> r.status == 500 && r.sent.None?
    ensures verb == "POST" && order.Some? && Truthy(halconUrl) && !Truthy(secret) ==> r.status == 500 && r.sent.None?
    ensures verb == "POST" && order.Some? && Truthy(halconUrl) && Truthy(secret) && !Eligible(order.value) ==>
      r.status == 400 && r.sent.None?
    ensures r.sent.Some? <==>
      verb == "POST" && order.Some? && Truthy(halconUrl) && Truthy(secret) && Eligible(order.value)
    ensures r.sent.Some? ==> r.sent.value == ToPedido(order.value)
  {
    if verb != "POST" then Response(405, Some("Method not allowed"), None)
    else if order.None? then Response(400, Some("Falta el objeto order en el body"), None)
    else if !Truthy(halconUrl) then Response(500, Some("Variable HALCON_API_URL no configurada en Vercel"), None)
    else if !Truthy(secret) then Response(500, Some("Variable HALCON_WEBHOOK_SECRET no configurada en Vercel"), None)
    else if !Eligible(order.value) then Response(400, Some("Pedido no elegible: solo Wix o ML self_service"), None)
    else
      var p := ToPedido(order.value);
      match reply
      case Unreachable(m) => Response(500, Some("No se pudo conectar con Halcon: " + m), Some(p))
      case Replied(s, e) =>
        if 200 <= s < 300 then Response(200, None, Some(p))
        else Response(s, Some(Or(e, "Halcon respondi\U{F3} con status " + IntToString(s))), Some(p))
  }

  /** Whatever Halcón answers, a sent order comes back 200 only when Halcón itself
      answered 2xx, and carries Halcón's status when it answered anything else. */
  lemma HandleReplySpec(verb: string, order: Option<BodyOrder>, halconUrl: Option<string>,
                        secret: Option<string>, reply: HalconReply)
    ensures var r := Handle(verb, order, halconUrl, secret, reply);
      r.sent.Some? ==>
        && (r.status == 200 <==> reply.Replied? && 200 <= reply.status < 300)
        && (reply.Replied? && !(200 <= reply.status < 300) ==> r.status == reply.status && r.error.Some?)
        && (reply.Unreachable? ==> r.status == 500)
  {
  }
}
