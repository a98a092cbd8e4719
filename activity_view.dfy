// src/components/dashboard/ActivityFeed.tsx: how one feed event is captioned. The icons,
// the CSS classes and the date formatting (`toLocaleTimeString`) are not part of this
// model.
module ActivityView {
  import opened Wrappers
  import opened Text
  import opened ActivityFeed

  /** `EventConfigKey`: the event types plus the two refined status changes. */
  datatype ConfigKey = Created | StatusUpdated | Shipped | Delivered | Remision | Halcon

  /** `getEffectiveConfigKey`. */
  function EffectiveConfigKey(e: OrderEvent): (r: ConfigKey)
    ensures e.eventType == StatusChanged && e.newValue == Some("enviado") <==> r == Shipped
    ensures e.eventType == StatusChanged && e.newValue == Some("entregado") <==> r == Delivered
    ensures r == StatusUpdated <==>
      e.eventType == StatusChanged && e.newValue != Some("enviado") && e.newValue != Some("entregado")
    ensures e.eventType == OrderCreated <==> r == Created
    ensures e.eventType == RemisionAssigned <==> r == Remision
    ensures e.eventType == HalconAssigned <==> r == Halcon
  {
    if e.eventType == StatusChanged && e.newValue == Some("enviado") then Shipped
    else if e.eventType == StatusChanged && e.newValue == Some("entregado") then Delivered
    else
      match e.eventType
      case OrderCreated => Created
      case StatusChanged => StatusUpdated
      case RemisionAssigned => Remision
      case HalconAssigned => Halcon
  }

  /** `EVENT_CONFIG[key].title`. */
  function Title(k: ConfigKey): string {
    match k
    case Created => "Pedido creado"
    case StatusUpdated => "Estado actualizado"
    case Shipped => "El pedido est\U{E1} en camino"
    case Delivered => "El pedido fue entregado"
    case Remision => "Remisi\U{F3}n TBC asignada"
    case Halcon => "Serial Halc\U{F3}n asignado"
  }

  /** Every event the feed keeps has a specific caption: the generic "Estado
      actualizado" row never shows, and the six titles are distinct. */
  lemma FeedNeverShowsGenericStatus(e: OrderEvent)
    requires IsRelevant(e)
    ensures EffectiveConfigKey(e) != StatusUpdated
    ensures forall k1: ConfigKey, k2: ConfigKey :: Title(k1) == Title(k2) ==> k1 == k2
  {
    forall k1: ConfigKey, k2: ConfigKey | Title(k1) == Title(k2) ensures k1 == k2 {
      assert Title(k1)[0] == Title(k2)[0];
      assert |Title(k1)| == |Title(k2)|;
    }
  }

  /** `getDisplayId`. */
  function DisplayId(e: OrderEvent): (r: string)
    ensures e.channel == "mercadolibre" && Truthy(e.packId) ==> r == "Pack " + e.packId.value
    ensures !(e.channel == "mercadolibre" && Truthy(e.packId)) ==> r == "#" + e.orderExternalId
  {
    if e.channel == "mercadolibre" && Truthy(e.packId) then "Pack " + e.packId.value
    else "#" + e.orderExternalId
  }

  /** Two events of the same pack show the same id; outside Mercado Libre the pack is
      ignored; and two ids that both start with '#' name the same external order. */
  lemma DisplayIdSpec(a: OrderEvent, b: OrderEvent)
    ensures a.channel == "mercadolibre" && b.channel == "mercadolibre" && Truthy(a.packId) && a.packId == b.packId
      ==> DisplayId(a) == DisplayId(b)
    ensures a.channel != "mercadolibre" && a.orderExternalId == b.orderExternalId && b.channel != "mercadolibre"
      ==> DisplayId(a) == DisplayId(b)
    ensures DisplayId(a) == DisplayId(b) && DisplayId(a)[0] == '#' ==> a.orderExternalId == b.orderExternalId
  {
    if DisplayId(a) == DisplayId(b) && DisplayId(a)[0] == '#' {
      assert DisplayId(a)[1..] == a.orderExternalId;
      assert DisplayId(b)[1..] == b.orderExternalId;
    }
  }

  /** `getSubInfo`. */
  function SubInfo(e: OrderEvent): (r: Option<string>)
    ensures e.eventType == RemisionAssigned && Truthy(e.newValue) ==> r == Some("Remisi\U{F3}n: " + e.newValue.value)
    ensures e.eventType == HalconAssigned && Truthy(e.newValue) ==> r == Some("Serial: " + e.newValue.value)
    ensures r.Some? <==> (e.eventType == RemisionAssigned || e.eventType == HalconAssigned) && Truthy(e.newValue)
  {
    if e.eventType == RemisionAssigned && Truthy(e.newValue) then Some("Remisi\U{F3}n: " + e.newValue.value)
    else if e.eventType == HalconAssigned && Truthy(e.newValue) then Some("Serial: " + e.newValue.value)
    else None
  }

  /** `CHANNEL_LABELS[channel] ?? channel`. */
  function ChannelLabel(channel: string): (r: string)
    ensures channel == "mercadolibre" ==> r == "ML"
    ensures channel == "wix" ==> r == "Wix"
    ensures channel == "falabella" ==> r == "Fal"
    ensures channel != "mercadolibre" && channel != "wix" && channel != "falabella" ==> r == channel
  {
    if channel == "mercadolibre" then "ML"
    else if channel == "wix" then "Wix"
    else if channel == "falabella" then "Fal"
    else channel
  }

  /** `CHANNEL_COLORS[channel] ?? '#9CA3AF'`. */
  function ChannelColor(channel: string): (r: string)
    ensures channel == "mercadolibre" ==> r == "#FFE600"
    ensures channel == "wix" ==> r == "#a855f7"
    ensures channel == "falabella" ==> r == "#aad63e"
    ensures channel != "mercadolibre" && channel != "wix" && channel != "falabella" ==> r == "#9CA3AF"
  {
    if channel == "mercadolibre" then "#FFE600"
    else if channel == "wix" then "#a855f7"
    else if channel == "falabella" then "#aad63e"
    else "#9CA3AF"
  }
}
