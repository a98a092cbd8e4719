// Channel normalisers of src/services/normalizer.ts, plus the building blocks the
// other copies of these normalisers share (api/sync-ml.js, api/sync-falabella.js,
// api/falabella-webhook.js and the sync scripts).
module Normalizer {
  import opened Wrappers
  import opened Text
  import opened OrderModel
  import opened Raw
  import FalabellaStatus

  // ------------------------------------------------------------------
  // Shared helpers
  // ------------------------------------------------------------------

  /** `parseFloat(x)` on an optional text: `parseFloat(undefined)` is NaN. */
  function ParseFloatOpt(a: Option<string>): Option<int> {
    if a.Some? then ParseFloat(a.value) else None
  }

  /** `x?.trim()`. */
  function TrimMaybe(a: Option<string>): (r: Option<string>)
    ensures r.Some? <==> a.Some?
    ensures r.Some? ==> r.value == Trim(a.value)
  {
    if a.Some? then Some(Trim(a.value)) else None
  }

  /** `parts.map(s => s.trim())`. */
  function TrimEach(parts: seq<string>): (r: seq<string>)
    ensures |r| == |parts|
    ensures forall i :: 0 <= i < |parts| ==> r[i] == Trim(parts[i])
  {
    Map(parts, Trim)
  }

  /** The present values of a list of optional strings. */
  function Present(parts: seq<Option<string>>): (r: seq<string>)
    ensures |r| <= |parts|
  {
    if parts == [] then []
    else if parts[0].Some? then [parts[0].value] + Present(parts[1..])
    else Present(parts[1..])
  }

  /** `[a, b, ...].filter(Boolean)` on optional strings. */
  function Truthies(parts: seq<Option<string>>): (r: seq<string>)
  {
    NonEmpty(Present(parts))
  }

  // ------------------------------------------------------------------
  // Mercado Libre
  // ------------------------------------------------------------------

  function MLVariation(attrs: Option<seq<MLAttribute>>): (r: seq<VariationAttr>)
    ensures attrs.None? ==> r == []
    ensures attrs.Some? ==> (|r| == |attrs.value|
      && forall i :: 0 <= i < |r| ==> r[i] == VariationAttr(attrs.value[i].name, attrs.value[i].valueName))
    decreases if attrs.Some? then |attrs.value| else 0
  {
    if attrs.None? || attrs.value == [] then []
    else
      var a := attrs.value[0];
      [VariationAttr(a.name, a.valueName)] + MLVariation(Some(attrs.value[1..]))
  }

  function MLItemOf(item: MLItem): Item {
    Item(item.sellerSku, item.title, item.quantity, item.unitPrice, item.fullUnitPrice,
         item.currencyId, None, MLVariation(item.variationAttributes), None, None, None)
  }

  function MLItems(items: seq<MLItem>): (r: seq<Item>)
    ensures |r| == |items|
    ensures forall i :: 0 <= i < |items| ==> r[i] == MLItemOf(items[i])
  {
    if items == [] then [] else [MLItemOf(items[0])] + MLItems(items[1..])
  }

  /** `payments?.[0] ? {...} : null`: only the first payment is used. */
  function MLPaymentInfo(payments: Option<seq<MLPayment>>): Option<Payment> {
    if payments.None? || payments.value == [] then None
    else
      var p := payments.value[0];
      Some(Payment(p.paymentMethodId, p.status, p.installments, p.totalPaidAmount, p.dateApproved,
                   None, None, None))
  }

  /** `x?.toString() || null` on an optional numeric id. */
  function IdString(n: Option<nat>): (r: Option<string>)
    ensures r.Some? <==> n.Some?
    ensures r.Some? ==> r.value == NatToString(n.value) && r.value != ""
  {
    if n.Some? then Some(NatToString(n.value)) else None
  }

  /** The Mercado Libre normaliser with the status the caller imposes: nuevo in
      src/services/normalizer.ts and api/sync-ml.js, enviado in the sync scripts. */
  function NormalizeMLWith(o: MLOrder, status: OrderStatus): Order {
    Order(
      None,
      NatToString(o.id),
      MercadoLibre,
      IdString(o.packId),
      IdString(o.shippingId),
      status,
      Some(o.dateCreated),
      NullIfEmpty(o.dateClosed),
      o.totalAmount,
      o.paidAmount,
      o.currencyId,
      Customer(MercadoLibre, NatToString(o.buyerId), o.buyerNickname, None, None, None, None, None),
      None,
      MLItems(o.orderItems),
      MLPaymentInfo(o.payments),
      if o.tags.Some? then o.tags.value else [],
      None,
      None,
      None,
      None)
  }

  /** normalizeMLOrder (src/services/normalizer.ts). */
  function NormalizeMLOrder(o: MLOrder): Order {
    NormalizeMLWith(o, Nuevo)
  }

  lemma NormalizeMLWithSpec(o: MLOrder, status: OrderStatus)
    ensures var r := NormalizeMLWith(o, status);
      && r.channel == MercadoLibre && r.status == status
      && r.shippingAddress.None? && r.logisticType.None? && r.notes.None?
      && r.orderId == NatToString(o.id) && ParseFloat(r.orderId) == Some(o.id as int)
      && r.customer.source == MercadoLibre && r.customer.id == NatToString(o.buyerId)
      && (r.packId.Some? <==> o.packId.Some?)
      && (o.packId.Some? ==> r.packId == Some(NatToString(o.packId.value)))
      && (r.shippingId.Some? <==> o.shippingId.Some?)
      && |r.items| == |o.orderItems|
      && (forall i :: 0 <= i < |o.orderItems| ==>
            r.items[i].sku == o.orderItems[i].sellerSku && r.items[i].title == o.orderItems[i].title
            && r.items[i].quantity == o.orderItems[i].quantity
            && r.items[i].unitPrice == o.orderItems[i].unitPrice
            && r.items[i].fullPrice == o.orderItems[i].fullUnitPrice
            && (o.orderItems[i].variationAttributes.None? ==> r.items[i].variationAttributes == []))
      && (r.paymentInfo.Some? <==> o.payments.Some? && o.payments.value != [])
      && (r.paymentInfo.Some? ==> (r.paymentInfo.value.installments == o.payments.value[0].installments
            && r.paymentInfo.value.paymentMethod == o.payments.value[0].paymentMethodId))
      && (o.tags.None? ==> r.tags == [])
  {
    ParseFloatOfNatToString(o.id);
  }

  /** Two raw orders with different ids never normalise to the same order_id. */
  lemma NormalizeMLOrderIdInjective(a: MLOrder, b: MLOrder)
    ensures NormalizeMLOrder(a).orderId == NormalizeMLOrder(b).orderId ==> a.id == b.id
  {
    NatToStringInjective(a.id, b.id);
  }

  // ------------------------------------------------------------------
  // Wix
  // ------------------------------------------------------------------

  /** `contact ? `${first ?? ''} ${last ?? ''}`.trim() : undefined`. */
  function WixReceiverName(contact: Option<WixContact>): Option<string> {
    if contact.None? then None
    else Some(Trim(contact.value.firstName.GetOr("") + " " + contact.value.lastName.GetOr("")))
  }

  /** The shipping address built from shippingInfo.logistics.shippingDestination, falling
      back to recipientInfo (src/services/normalizer.ts:97-111; the same block appears in
      scripts/sync-incremental.mjs and scripts/backfill-wix-unpaid.mjs). */
  function WixShippingAddress(o: WixOrder): Option<Address> {
    var addr := OrElse(o.destinationAddress, o.recipientAddress);
    var contact := OrElse(o.destinationContact, o.recipientContact);
    if addr.None? then None
    else
      var a := addr.value;
      Some(Address(
        Join(Truthies([a.addressLine, a.addressLine2]), ", "),
        None,
        None,
        Or(a.city, ""),
        Or(a.subdivisionFullname, Or(a.subdivision, "")),
        Or(a.countryFullname, Or(a.country, "")),
        Or(a.postalCode, ""),
        WixReceiverName(contact),
        if contact.Some? then contact.value.phone else None,
        None,
        None))
  }

  lemma WixShippingAddressSpec(o: WixOrder)
    ensures WixShippingAddress(o).None? <==> o.destinationAddress.None? && o.recipientAddress.None?
    ensures WixShippingAddress(o).Some? ==>
      var a := if o.destinationAddress.Some? then o.destinationAddress.value else o.recipientAddress.value;
      && WixShippingAddress(o).value.street == Join(Truthies([a.addressLine, a.addressLine2]), ", ")
      && (Truthy(a.addressLine) && Truthy(a.addressLine2) ==>
            WixShippingAddress(o).value.street == a.addressLine.value + ", " + a.addressLine2.value)
      && (Truthy(a.addressLine) && !Truthy(a.addressLine2) ==>
            WixShippingAddress(o).value.street == a.addressLine.value)
      && (!Truthy(a.addressLine) && !Truthy(a.addressLine2) ==> WixShippingAddress(o).value.street == "")
      && (Truthy(a.subdivisionFullname) ==> WixShippingAddress(o).value.state == a.subdivisionFullname.value)
      && (o.destinationContact.None? && o.recipientContact.None? ==> WixShippingAddress(o).value.receiverName.None?)
  {
    var addr := OrElse(o.destinationAddress, o.recipientAddress);
    if addr.Some? {
      TruthiesPair(addr.value.addressLine, addr.value.addressLine2);
    }
  }

  /** `[a, b].filter(Boolean)` on two optional strings. */
  lemma TruthiesPair(a: Option<string>, b: Option<string>)
    ensures Truthy(a) && Truthy(b) ==> Truthies([a, b]) == [a.value, b.value]
    ensures Truthy(a) && !Truthy(b) ==> Truthies([a, b]) == [a.value]
    ensures !Truthy(a) && Truthy(b) ==> Truthies([a, b]) == [b.value]
    ensures !Truthy(a) && !Truthy(b) ==> Truthies([a, b]) == []
  {
    assert [a, b][1..] == [b];
    var pb := if b.Some? then [b.value] else [];
    assert Present([b]) == pb by { assert [b][1..] == []; }
    var p := Present([a, b]);
    assert p == (if a.Some? then [a.value] else []) + pb;
    if a.Some? && b.Some? {
      assert p == [a.value, b.value];
      assert p[1..] == [b.value];
      assert NonEmpty([b.value]) == if b.value == "" then [] else [b.value] by { assert [b.value][1..] == []; }
    } else if a.Some? {
      assert p == [a.value];
      assert p[1..] == [];
    } else if b.Some? {
      assert p == [b.value];
      assert p[1..] == [];
    }
  }

  /** `item.physicalProperties?.sku || item.sku || item.id`. */
  function WixItemSku(item: WixLineItem): (r: string)
    ensures Truthy(item.physicalSku) ==> r == item.physicalSku.value
    ensures !Truthy(item.physicalSku) && Truthy(item.sku) ==> r == item.sku.value
    ensures !Truthy(item.physicalSku) && !Truthy(item.sku) ==> r == item.id
  {
    Or(item.physicalSku, Or(item.sku, item.id))
  }

  /** `productName?.translated || productName?.original || 'Sin nombre'`. */
  function WixItemTitle(item: WixLineItem): string {
    Or(item.translatedName, Or(item.originalName, "Sin nombre"))
  }

  /** One line item; its `price` is known to be present. */
  function WixItemOf(item: WixLineItem, currency: string): Item {
    Item(Some(WixItemSku(item)), WixItemTitle(item), item.quantity,
         ParseFloatOpt(AmountOf(item.price)),
         ParseFloatOpt(OrElse(AmountOf(item.totalPriceAfterTax), AmountOf(item.price))),
         currency, item.imageUrl, [], None, None, None)
  }

  /** `lineItems.map(...)`: `item.price.amount` throws on a line item without a price,
      shown as `None`. */
  function WixItems(items: seq<WixLineItem>, currency: string): (r: Option<seq<Item>>)
    ensures r.Some? <==> forall i :: 0 <= i < |items| ==> items[i].price.Some?
    ensures r.Some? ==> |r.value| == |items|
    ensures r.Some? ==> forall i :: 0 <= i < |items| ==> r.value[i] == WixItemOf(items[i], currency)
  {
    if items == [] then Some([])
    else
      var rest := WixItems(items[1..], currency);
      assert forall i :: 1 <= i < |items| ==> items[i] == items[1..][i - 1];
      if items[0].price.None? || rest.None? then None
      else Some([WixItemOf(items[0], currency)] + rest.value)
  }

  function WixCustomer(o: WixOrder, id: string, cedula: Option<string>): Customer {
    var bc := o.billingContact;
    Customer(Wix, id, None, o.buyerEmail,
             if bc.Some? then bc.value.firstName else None,
             if bc.Some? then bc.value.lastName else None,
             if bc.Some? then bc.value.phone else None,
             cedula)
  }

  function EmptyPayment(): Payment {
    Payment(None, None, None, None, None, None, None, None)
  }

  /** The record `normalizeWixOrder` returns once nothing has thrown. */
  function WixOrderOf(o: WixOrder, items: seq<Item>): Order {
    var total := ParseFloatOpt(AmountOf(o.total));
    Order(
      None,
      o.number,
      Wix,
      None,
      None,
      Nuevo,
      o.underscoreCreatedDate,
      NullIfEmpty(o.underscoreUpdatedDate),
      total,
      total,
      o.currency,
      WixCustomer(o, o.buyerId, None),
      WixShippingAddress(o),
      items,
      Some(EmptyPayment().(status := o.paymentStatus)),
      [],
      None,
      None,
      None,
      None)
  }

  /** normalizeWixOrder (src/services/normalizer.ts:73-130). `priceSummary.total.amount`
      throws when the total is absent and `lineItems.map` when the line items are;
      both are shown as `None`, like a line item without a price. */
  function NormalizeWixOrder(o: WixOrder): Option<Order> {
    if o.total.None? || o.lineItems.None? then None
    else
      var items := WixItems(o.lineItems.value, o.currency);
      if items.None? then None else Some(WixOrderOf(o, items.value))
  }

  /** The order is normalised exactly when it has a total and line items that all carry
      a price; then it is a new Wix order with its number as id, total equal to paid,
      an address iff either source has one, and one item per line item in order. */
  lemma NormalizeWixOrderSpec(o: WixOrder)
    ensures var r := NormalizeWixOrder(o);
      r.None? <==> (o.total.None? || o.lineItems.None?
                    || exists i :: 0 <= i < |o.lineItems.value| && o.lineItems.value[i].price.None?)
    ensures var r := NormalizeWixOrder(o);
      r.Some? ==>
      && r.value.channel == Wix && r.value.status == Nuevo && r.value.orderId == o.number
      && r.value.packId.None? && r.value.shippingId.None? && r.value.tags == [] && r.value.notes.None?
      && r.value.totalAmount == r.value.paidAmount && r.value.totalAmount == ParseFloatOpt(AmountOf(o.total))
      && (r.value.shippingAddress.None? <==> o.destinationAddress.None? && o.recipientAddress.None?)
      && |r.value.items| == |o.lineItems.value|
      && (forall i :: 0 <= i < |r.value.items| ==>
            r.value.items[i].sku == Some(WixItemSku(o.lineItems.value[i]))
            && r.value.items[i].currency == o.currency
            && r.value.items[i].unitPrice == ParseFloatOpt(AmountOf(o.lineItems.value[i].price)))
      && r.value.paymentInfo.Some? && r.value.paymentInfo.value.status == o.paymentStatus
  {
    WixShippingAddressSpec(o);
  }

  // ------------------------------------------------------------------
  // Falabella
  // ------------------------------------------------------------------

  /** `s.replace(' ', 'T')`: only the first space is replaced. */
  function ReplaceFirstSpace(s: string): (r: string)
    ensures |r| == |s|
  {
    if s == [] then []
    else if s[0] == ' ' then ['T'] + s[1..]
    else [s[0]] + ReplaceFirstSpace(s[1..])
  }

  lemma {:induction false} ReplaceFirstSpaceSpec(s: string)
    ensures forall i :: 0 <= i < |s| && ' ' !in s[..i] ==>
      ReplaceFirstSpace(s)[i] == if s[i] == ' ' then 'T' else s[i]
    ensures forall i :: 0 <= i < |s| && ' ' in s[..i] ==> ReplaceFirstSpace(s)[i] == s[i]
  {
    if s != [] && s[0] != ' ' {
      ReplaceFirstSpaceSpec(s[1..]);
      forall i | 1 <= i < |s|
        ensures ReplaceFirstSpace(s)[i] == ReplaceFirstSpace(s[1..])[i - 1]
        ensures (' ' in s[..i]) == (' ' in s[1..][..i - 1])
      {
        assert s[..i] == [s[0]] + s[1..][..i - 1];
      }
    }
    if s != [] && s[0] == ' ' {
      forall i | 1 <= i < |s| ensures ' ' in s[..i] {
        assert s[..i][0] == ' ';
      }
    }
  }

  /** parseFalabellaDate: null for a missing or empty string; otherwise the text handed
      to `new Date`, with the first space turned into 'T' and 'Z' appended. The Date
      parse and its re-rendering by `toISOString` are not modelled. */
  function ParseFalabellaDate(s: Option<string>): (r: Option<string>)
    ensures r.None? <==> !Truthy(s)
    ensures r.Some? ==> (r.value == ReplaceFirstSpace(s.value) + "Z" && EndsWith(r.value, "Z")
      && |r.value| == |s.value| + 1)
  {
    if !Truthy(s) then None else Some(ReplaceFirstSpace(s.value) + "Z")
  }

  /** `Object.entries(JSON.parse(...))`: an object lists its properties, an array its
      indices, a string its characters; `null` throws (caught, giving no entries). */
  function TopEntries(v: JsonValue): seq<(string, JsonValue)> {
    match v
    case JObject(fields) => fields
    case JArray(elems) => IndexEntries(elems, 0)
    case JString(s) => CharEntries(s, 0)
    case _ => []
  }

  function IndexEntries(elems: seq<JsonValue>, from: nat): (r: seq<(string, JsonValue)>)
    ensures |r| == |elems|
  {
    if elems == [] then [] else [(NatToString(from), elems[0])] + IndexEntries(elems[1..], from + 1)
  }

  function CharEntries(s: string, from: nat): (r: seq<(string, JsonValue)>)
    ensures |r| == |s|
  {
    if s == [] then [] else [(NatToString(from), JString([s[0]]))] + CharEntries(s[1..], from + 1)
  }

  /** `obj.name` of a JSON object. */
  function NameField(fields: seq<(string, JsonValue)>): Option<JsonValue> {
    if fields == [] then None
    else if fields[0].0 == "name" then Some(fields[0].1)
    else NameField(fields[1..])
  }

  /** `String(val)` for a JSON value that is not an object. */
  function JsonString(v: JsonValue): string {
    match v
    case JNull => "null"
    case JBool(b) => if b then "true" else "false"
    case JNumber(t) => t
    case JString(s) => s
    case JArray(_) => ""
    case JObject(_) => "[object Object]"
  }

  /** `typeof val === 'object' && val !== null ? val.name : String(val)`. Arrays are
      objects without a `name`; a non-string `name` is rendered with String(). */
  function VariationValueTs(v: JsonValue): Option<string> {
    match v
    case JObject(fields) =>
      var n := NameField(fields);
      if n.Some? then Some(JsonString(n.value)) else None
    case JArray(_) => None
    case _ => Some(JsonString(v))
  }

  function VariationAttrsTs(entries: seq<(string, JsonValue)>): (r: seq<VariationAttr>)
    ensures |r| == |entries|
    ensures forall i :: 0 <= i < |entries| ==>
      r[i] == VariationAttr(entries[i].0, VariationValueTs(entries[i].1))
  {
    if entries == [] then []
    else [VariationAttr(entries[0].0, VariationValueTs(entries[0].1))] + VariationAttrsTs(entries[1..])
  }

  /** parseVariationFb (src/services/normalizer.ts:140-149). */
  function ParseVariationFb(variation: Option<string>, json: JsonDoc): (r: seq<VariationAttr>)
    ensures !Truthy(variation) || json.Invalid? ==> r == []
    ensures Truthy(variation) && json.Parsed? ==>
      |r| == |TopEntries(json.value)|
      && forall i :: 0 <= i < |r| ==> (r[i].name == TopEntries(json.value)[i].0
           && r[i].value == VariationValueTs(TopEntries(json.value)[i].1))
  {
    if !Truthy(variation) then []
    else match json
      case Invalid => []
      case Parsed(v) => VariationAttrsTs(TopEntries(v))
  }

  /** On the usual shape, a JSON object of attributes, each attribute becomes one
      {name, value} pair; an object value contributes its `name`, a string itself. */
  lemma ParseVariationFbObject(variation: string, fields: seq<(string, JsonValue)>)
    requires variation != ""
    ensures var r := ParseVariationFb(Some(variation), Parsed(JObject(fields)));
      |r| == |fields|
      && forall i :: 0 <= i < |fields| ==> (r[i].name == fields[i].0
        && (fields[i].1.JString? ==> r[i].value == Some(fields[i].1.s))
        && (fields[i].1.JNull? ==> r[i].value == Some("null"))
        && (fields[i].1.JObject? && NameField(fields[i].1.fields) == Some(JString("x")) ==> r[i].value == Some("x")))
  {
  }

  /** The normaliser copies that exist for Falabella orders. */
  datatype FbVariant =
    | TypeScriptNormalizer   // src/services/normalizer.ts
    | SyncEndpoint           // api/sync-falabella.js
    | WebhookEndpoint        // api/falabella-webhook.js

  /** `s.replace(/,/g, '')`. */
  function RemoveCommas(s: string): (r: string)
    ensures ',' !in r
    ensures |r| <= |s|
    ensures forall c :: c in r ==> c in s
  {
    if s == [] then [] else (if s[0] == ',' then [] else [s[0]]) + RemoveCommas(s[1..])
  }

  /** parseAmount (api/sync-falabella.js:38-40): a missing or empty value is '0' and every
      comma is removed before parsing. */
  function ParseAmount(v: Option<string>): Option<int>
  {
    ParseFloat(RemoveCommas(Or(v, "0")))
  }

  lemma ParseAmountMissing(v: Option<string>)
    requires !Truthy(v)
    ensures ParseAmount(v) == Some(0)
  {
    assert RemoveCommas("0") == "0";
    ParseFloatOfDigitsThen("0", "");
    assert DigitsValue("0") == 0;
  }

  /** How each copy turns an amount field into a number: `parseFloat(v || '0')` in the
      TypeScript normaliser and the webhook, `parseAmount(v)` in the sync endpoint. */
  function FbAmount(variant: FbVariant, v: Option<string>): Option<int> {
    if variant == SyncEndpoint then ParseAmount(v) else ParseFloat(Or(v, "0"))
  }

  /** A thousands separator is dropped by parseAmount but ends the number for parseFloat. */
  lemma RemoveCommasExample()
    ensures RemoveCommas("1,500") == "1500"
  {
    RemoveCommasCons('0', "");
    RemoveCommasCons('0', "0");
    RemoveCommasCons('5', "00");
    RemoveCommasCons(',', "500");
    RemoveCommasCons('1', ",500");
  }

  lemma RemoveCommasCons(c: char, t: string)
    ensures RemoveCommas([c] + t) == (if c == ',' then [] else [c]) + RemoveCommas(t)
  {
    assert ([c] + t)[0] == c && ([c] + t)[1..] == t;
  }

  lemma DigitsValueExample()
    ensures DigitsValue("1500") == 1500 && DigitsValue("1") == 1
  {
    assert "1500"[..3] == "150";
    assert "150"[..2] == "15";
    assert "15"[..1] == "1";
    assert "1"[..0] == "";
  }

  lemma ParseFloatExample()
    ensures ParseFloat("1500") == Some(1500)
  {
    DigitsValueExample();
    ParseFloatOfDigitsThen("1500", "");
    assert "1500" + "" == "1500";
  }

  lemma ParseFloatStopsAtComma()
    ensures ParseFloat("1,500") == Some(1)
  {
    var one, tail := "1", ",500";
    assert one[0] == '1' && |one| == 1;
    assert tail[0] == ',';
    DigitsValueExample();
    ParseFloatOfDigitsThen(one, tail);
    assert one + tail == "1,500";
  }

  lemma ParseAmountCommaExample()
    ensures ParseAmount(Some("1,500")) == Some(1500)
    ensures FbAmount(TypeScriptNormalizer, Some("1,500")) == Some(1)
  {
    RemoveCommasExample();
    ParseFloatExample();
    ParseFloatStopsAtComma();
  }

  /** The JavaScript copies read `val.name` without the null check: a null attribute
      value throws and the whole variation is dropped. */
  function ParseVariationJs(variation: Option<string>, json: JsonDoc): (r: seq<VariationAttr>)
    ensures !Truthy(variation) || json.Invalid? ==> r == []
    ensures Truthy(variation) && json.Parsed? ==>
      r == if exists i :: 0 <= i < |TopEntries(json.value)| && TopEntries(json.value)[i].1 == JNull
           then [] else ParseVariationFb(variation, json)
  {
    if !Truthy(variation) then []
    else match json
      case Invalid => []
      case Parsed(v) =>
        var entries := TopEntries(v);
        if exists i :: 0 <= i < |entries| && entries[i].1 == JNull then []
        else VariationAttrsTs(entries)
  }

  /** Where the two parsers differ: only on a null attribute value. */
  lemma VariationParsersAgree(variation: Option<string>, json: JsonDoc)
    requires json.Parsed? ==> forall e :: e in TopEntries(json.value) ==> e.1 != JNull
    ensures ParseVariationJs(variation, json) == ParseVariationFb(variation, json)
  {
  }

  lemma VariationNullExample()
    ensures ParseVariationFb(Some("{\"Color\":null}"), Parsed(JObject([("Color", JNull)])))
      == [VariationAttr("Color", Some("null"))]
    ensures ParseVariationJs(Some("{\"Color\":null}"), Parsed(JObject([("Color", JNull)]))) == []
  {
    var entries := TopEntries(JObject([("Color", JNull)]));
    assert entries[0].1 == JNull;
  }

  function FbVariation(variant: FbVariant, item: FbItem): seq<VariationAttr> {
    if variant == TypeScriptNormalizer then ParseVariationFb(item.variation, item.variationJson)
    else ParseVariationJs(item.variation, item.variationJson)
  }

  function FbItemOf(variant: FbVariant, item: FbItem): Item {
    var price := FbAmount(variant, OrOpt(item.paidPrice, item.itemPrice));
    var tracking := TrimMaybe(item.trackingCode);
    Item(
      Some(Or(TrimMaybe(item.sku), Or(TrimMaybe(item.shopSku), ""))),
      Or(TrimMaybe(item.name), ""),
      1,
      price,
      price,
      Or(item.currency, "COP"),
      None,
      FbVariation(variant, item),
      TrimMaybe(item.orderItemId),
      TrimMaybe(item.packageId),
      if Truthy(tracking) then tracking else TrimMaybe(item.trackingCodePre))
  }

  function FbItems(variant: FbVariant, items: seq<FbItem>): (r: seq<Item>)
    ensures |r| == |items|
    ensures forall i :: 0 <= i < |items| ==> r[i] == FbItemOf(variant, items[i])
  {
    if items == [] then [] else [FbItemOf(variant, items[0])] + FbItems(variant, items[1..])
  }

  const NoFbAddress := FbAddress(None, None, None, None, None, None, None, None, None, None, None, None)

  /** logistic_type: an exact, untrimmed match of ShippingType. */
  function FbLogisticType(shippingType: Option<string>): (r: Option<string>)
    ensures r == Some("dropshipping") <==> shippingType == Some("Dropshipping")
    ensures r == Some("own_warehouse") <==> shippingType == Some("Own Warehouse")
    ensures r.None? <==> shippingType !in {Some("Dropshipping"), Some("Own Warehouse")}
  {
    if shippingType == Some("Dropshipping") then Some("dropshipping")
    else if shippingType == Some("Own Warehouse") then Some("own_warehouse")
    else None
  }

  /** The Falabella normaliser, as written in each copy. `now` is the current time
      (ISO) that the TypeScript copy falls back to when CreatedAt is missing. */
  function NormalizeFalabellaAs(variant: FbVariant, o: FbOrder, items: seq<FbItem>, now: string): Order {
    var statusArray := FalabellaStatus.StatusArray(o.statuses);
    var sa := o.addressShipping.GetOr(NoFbAddress);
    var ba := o.addressBilling.GetOr(NoFbAddress);
    var amount := FbAmount(variant, OrOpt(o.grandTotal, o.price));
    var date := ParseFalabellaDate(o.createdAt);
    var shipPhone := TrimMaybe(sa.phone);
    var receiver := Join(TrimEach(Truthies([sa.firstName, sa.lastName])), " ");
    var shippingTag := TrimMaybe(o.shippingType);
    Order(
      None,
      o.orderId,
      Falabella,
      None,
      None,
      FalabellaStatus.MapFalabellaStatus(statusArray),
      if variant == TypeScriptNormalizer then Some(date.GetOr(now)) else date,
      None,
      amount,
      amount,
      if items != [] then Or(items[0].currency, "COP") else "COP",
      Customer(
        Falabella,
        Or(o.nationalRegistrationNumber, o.orderId),
        None,
        TrimMaybe(ba.customerEmail),
        TrimMaybe(o.customerFirstName),
        TrimMaybe(o.customerLastName),
        if Truthy(shipPhone) then shipPhone else TrimMaybe(ba.phone),
        None),
      Some(Address(
        Join(TrimEach(Truthies([sa.address1, sa.address2, sa.address3])), ", "),
        None,
        None,
        Or(TrimMaybe(sa.city), ""),
        Or(TrimMaybe(sa.region), Or(TrimMaybe(sa.ward), "")),
        Or(TrimMaybe(sa.country), ""),
        Or(TrimMaybe(sa.postCode), ""),
        if receiver != "" then Some(receiver) else None,
        if Truthy(shipPhone) then shipPhone else None,
        None,
        None)),
      FbItems(variant, items),
      Some(Payment(
        TrimMaybe(o.paymentMethod),
        Some(if |statusArray| > 0 && statusArray[0] != "" then statusArray[0] else "pending"),
        None,
        amount,
        None,
        FbAmount(variant, o.shippingFeeTotal),
        None,
        if items != [] then TrimMaybe(items[0].promisedShippingTime) else None)),
      if Truthy(shippingTag) then [shippingTag.value] else [],
      None,
      FbLogisticType(o.shippingType),
      NullIfEmpty(TrimMaybe(o.sellerWarehouseId)),
      NullIfEmpty(TrimMaybe(o.facilityId)))
  }

  /** normalizeFalabellaOrder (src/services/normalizer.ts:169-232). */
  function NormalizeFalabellaOrder(o: FbOrder, items: seq<FbItem>, now: string): Order {
    NormalizeFalabellaAs(TypeScriptNormalizer, o, items, now)
  }

  lemma NormalizeFalabellaStatusAndItems(variant: FbVariant, o: FbOrder, items: seq<FbItem>, now: string)
    ensures var r := NormalizeFalabellaAs(variant, o, items, now);
      && r.channel == Falabella && r.orderId == o.orderId
      && r.status == FalabellaStatus.MapFalabellaStatus(FalabellaStatus.StatusArray(o.statuses))
      && (o.statuses.None? ==> r.status == Nuevo)
      && |r.items| == |items|
      && (forall i :: 0 <= i < |items| ==> r.items[i].quantity == 1)
  {
    if o.statuses.None? {
      FalabellaStatus.PendingDefault();
    }
  }

  lemma NormalizeFalabellaCurrency(variant: FbVariant, o: FbOrder, items: seq<FbItem>, now: string)
    ensures var r := NormalizeFalabellaAs(variant, o, items, now);
      && (items != [] && Truthy(items[0].currency) ==> r.currency == items[0].currency.value)
      && (items == [] || !Truthy(items[0].currency) ==> r.currency == "COP")
  {
  }

  /** Total and paid are the same parsed amount, and the shipping cost is the parsed
      `ShippingFeeTotal` (0 when it is missing, NaN kept as null when it does not parse). */
  lemma NormalizeFalabellaAmounts(variant: FbVariant, o: FbOrder, items: seq<FbItem>, now: string)
    ensures var r := NormalizeFalabellaAs(variant, o, items, now);
      && r.totalAmount == r.paidAmount && r.totalAmount == FbAmount(variant, OrOpt(o.grandTotal, o.price))
      && r.paymentInfo.Some? && r.paymentInfo.value.paidAmount == r.totalAmount
      && r.paymentInfo.value.shippingCost == FbAmount(variant, o.shippingFeeTotal)
      && (!Truthy(o.shippingFeeTotal) ==> r.paymentInfo.value.shippingCost == Some(0))
  {
    FbAmountMissing(variant, o.shippingFeeTotal);
  }

  /** A missing or empty amount parses as 0. */
  lemma FbAmountMissing(variant: FbVariant, t: Option<string>)
    ensures !Truthy(t) ==> FbAmount(variant, t) == Some(0)
  {
    if !Truthy(t) {
      ParseAmountMissing(t);
      ParseFloatOfDigitsThen("0", "");
      assert DigitsValue("0") == 0;
    }
  }

  /** A text that starts with neither white space, a sign nor a digit is NaN. */
  lemma ParseFloatNoNumber(t: string)
    requires |t| > 0 && !IsSpace(t[0]) && !IsDigit(t[0]) && t[0] != '-' && t[0] != '+'
    ensures ParseFloat(t).None?
  {
    assert TrimStart(t) == t;
  }

  /** A fee that is not a number stays NaN (null) in every copy. */
  lemma FalabellaShippingNaN(variant: FbVariant)
    ensures FbAmount(variant, Some("n/a")).None?
  {
    RemoveCommasCons('a', "");
    RemoveCommasCons('/', "a");
    RemoveCommasCons('n', "/a");
    assert RemoveCommas("n/a") == "n/a";
    ParseFloatNoNumber("n/a");
  }

  lemma NormalizeFalabellaLogistics(variant: FbVariant, o: FbOrder, items: seq<FbItem>, now: string)
    ensures var r := NormalizeFalabellaAs(variant, o, items, now);
      && (o.shippingType == Some("Dropshipping") ==> r.logisticType == Some("dropshipping"))
      && (o.shippingType == Some("Own Warehouse") ==> r.logisticType == Some("own_warehouse"))
      && (o.shippingType !in {Some("Dropshipping"), Some("Own Warehouse")} ==> r.logisticType.None?)
      && r.shippingAddress.Some?
  {
  }

  lemma NormalizeFalabellaCustomerId(variant: FbVariant, o: FbOrder, items: seq<FbItem>, now: string)
    ensures var r := NormalizeFalabellaAs(variant, o, items, now);
      && r.customer.source == Falabella
      && (Truthy(o.nationalRegistrationNumber) ==> r.customer.id == o.nationalRegistrationNumber.value)
      && (!Truthy(o.nationalRegistrationNumber) ==> r.customer.id == o.orderId)
  {
  }

  /** The TypeScript copy always has a date (falling back to `now`); the JavaScript
      copies leave it null when CreatedAt is missing. */
  lemma NormalizeFalabellaDate(variant: FbVariant, o: FbOrder, items: seq<FbItem>, now: string)
    ensures var r := NormalizeFalabellaAs(variant, o, items, now);
      && (variant == TypeScriptNormalizer ==> r.orderDate.Some?)
      && (variant == TypeScriptNormalizer && !Truthy(o.createdAt) ==> r.orderDate == Some(now))
      && (variant != TypeScriptNormalizer ==> r.orderDate == ParseFalabellaDate(o.createdAt))
      && (Truthy(o.createdAt) ==> r.orderDate == ParseFalabellaDate(o.createdAt))
  {
  }
}
