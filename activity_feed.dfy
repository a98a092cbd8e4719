// src/hooks/useActivityFeed.ts: the feed of relevant order events, newest first, never
// longer than MAX_EVENTS. The database query and the realtime subscription are I/O:
// their answers come in as parameters.
module ActivityFeed {
  import opened Wrappers

  /** The four kinds of `order_events` rows. */
  datatype EventType = OrderCreated | StatusChanged | RemisionAssigned | HalconAssigned

  /** An `order_events` row joined with its order's `pack_id`. */
  datatype OrderEvent = OrderEvent(
    id: string,
    eventType: EventType,
    newValue: Option<string>,
    channel: string,
    orderExternalId: string,
    packId: Option<string>,
    createdAt: string)

  const MaxEvents: nat := 50

  /** `isRelevantEvent`. */
  predicate IsRelevant(e: OrderEvent) {
    if e.eventType == OrderCreated then true
    else if e.eventType == RemisionAssigned then true
    else if e.eventType == HalconAssigned then true
    else if e.eventType == StatusChanged && e.newValue == Some("enviado") then true
    else if e.eventType == StatusChanged && e.newValue == Some("entregado") then true
    else false
  }

  /** A status change is shown only when it is a shipment or a delivery; every other
      kind of event is always shown. */
  lemma IsRelevantSpec(e: OrderEvent)
    ensures IsRelevant(e) <==>
      e.eventType != StatusChanged || e.newValue == Some("enviado") || e.newValue == Some("entregado")
  {
  }

  /** The first `n` elements, or all of them when there are fewer (`slice(0, n)`). */
  function Take(s: seq<OrderEvent>, n: nat): (r: seq<OrderEvent>)
    ensures |r| == if |s| < n then |s| else n
    ensures r == s[..|r|]
  {
    if |s| <= n then s else s[..n]
  }

  /** `[data, ...prev].slice(0, MAX_EVENTS)`. */
  function Prepend(e: OrderEvent, prev: seq<OrderEvent>): (r: seq<OrderEvent>)
    ensures |r| <= MaxEvents
    ensures |r| == if |prev| < MaxEvents then |prev| + 1 else MaxEvents
    ensures r[0] == e
    ensures forall i :: 0 < i < |r| ==> r[i] == prev[i - 1]
  {
    Take([e] + prev, MaxEvents)
  }

  /** Cutting before or after a prepend is the same: a bounded buffer keeps exactly
      the newest MAX_EVENTS of everything that was ever prepended. */
  lemma PrependTake(e: OrderEvent, history: seq<OrderEvent>)
    ensures Prepend(e, Take(history, MaxEvents)) == Take([e] + history, MaxEvents)
  {
    var a := Prepend(e, Take(history, MaxEvents));
    var b := Take([e] + history, MaxEvents);
    assert |a| == |b|;
    forall i | 0 <= i < |a| ensures a[i] == b[i] {
      if i > 0 {
        assert a[i] == Take(history, MaxEvents)[i - 1] == history[i - 1];
      }
    }
  }

  /** The hook's state. `history` is every event the feed has taken in, newest first;
      it is not kept by the source and serves only to state what `events` holds. */
  class Feed {
    var events: seq<OrderEvent>
    var isLoading: bool
    ghost var history: seq<OrderEvent>

    ghost predicate Valid()
      reads this
    {
      events == Take(history, MaxEvents)
    }

    constructor()
      ensures Valid()
      ensures events == [] && isLoading && history == []
    {
      events := [];
      isLoading := true;
      history := [];
    }

    /** The initial load: `rows` is the query's answer before its `limit`, newest
        first, or `None` when the query failed. Loading ends either way. */
    method FinishLoad(rows: Option<seq<OrderEvent>>)
      requires Valid()
      modifies this
      ensures Valid()
      ensures !isLoading
      ensures rows.Some? ==> events == Take(rows.value, MaxEvents) && history == rows.value
      ensures rows.None? ==> events == old(events) && history == old(history)
    {
      if rows.Some? {
        events := Take(rows.value, MaxEvents);
        history := rows.value;
      }
      isLoading := false;
    }

    /** A realtime INSERT of `raw`; `fetched` is the re-read row with its join, or
        `None` when it came back empty. */
    method OnInsert(raw: OrderEvent, fetched: Option<OrderEvent>)
      requires Valid()
      modifies this
      ensures Valid()
      ensures isLoading == old(isLoading)
      ensures IsRelevant(raw) && fetched.Some? ==>
        events == Prepend(fetched.value, old(events)) && history == [fetched.value] + old(history)
      ensures !(IsRelevant(raw) && fetched.Some?) ==> events == old(events) && history == old(history)
      ensures |events| <= MaxEvents
    {
      if !IsRelevant(raw) {
        return;
      }
      if fetched.Some? {
        PrependTake(fetched.value, history);
        events := Prepend(fetched.value, events);
        history := [fetched.value] + history;
      }
    }
  }
}
