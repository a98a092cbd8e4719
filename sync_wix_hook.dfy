// src/hooks/useSyncWix.ts: the manual Wix sync run from the dashboard. The two database
// reads, the call to the sync endpoint and the upsert are I/O: their answers come in as
// parameters. Dates are milliseconds since the epoch; reading and writing ISO text is
// given by the caller (`toMs` is `None` for text `new Date` cannot read).
module SyncWixHook {
  import opened Wrappers
  import opened Text

  const DayMs: int := 24 * 60 * 60 * 1000

  /** The incremental window sent to the endpoint: both ends, or neither. */
  datatype Window = NoWindow | Window(from: int, to: int)

  /** `dateFrom`/`dateTo`: two days before the newest stored Wix order up to now;
      `None` when that date cannot be read (`toISOString` throws on an invalid date). */
  function IncrementalWindow(lastOrderDate: Option<string>, toMs: string -> Option<int>, now: int): (r: Option<Window>)
    ensures !Truthy(lastOrderDate) ==> r == Some(NoWindow)
    ensures Truthy(lastOrderDate) && toMs(lastOrderDate.value).None? ==> r.None?
    ensures Truthy(lastOrderDate) && toMs(lastOrderDate.value).Some? ==>
      r.Some? && r.value.Window? && r.value.to == now
      && r.value.from == toMs(lastOrderDate.value).value - 2 * DayMs
  {
    if !Truthy(lastOrderDate) then Some(NoWindow)
    else
      var last := toMs(lastOrderDate.value);
      if last.None? then None else Some(Window(last.value - 2 * DayMs, now))
  }

  /** The window reaches two days back: every order dated within the two days before
      the newest stored one, up to now, falls inside it again. */
  lemma WindowOverlap(lastOrderDate: Option<string>, toMs: string -> Option<int>, now: int, t: int)
    requires Truthy(lastOrderDate) && toMs(lastOrderDate.value).Some?
    requires toMs(lastOrderDate.value).value - 2 * DayMs <= t <= now
    ensures var w := IncrementalWindow(lastOrderDate, toMs, now);
      w.Some? && w.value.Window? && w.value.from <= t <= w.value.to
  {
  }

  /** One normalised Wix order: its id, its status and the other columns unchanged. */
  datatype WixRow = WixRow(orderId: string, status: string, rest: seq<(string, string)>)

  /** `existingStatusMap.get(id)`: a `Map` built from the rows read back, where a later
      row for the same id replaces an earlier one. */
  function CurrentStatus(existing: seq<(string, Option<string>)>, id: string): (r: Option<string>)
    ensures (forall i :: 0 <= i < |existing| ==> existing[i].0 != id) ==> r.None?
    ensures r.Some? ==> exists i :: 0 <= i < |existing| && existing[i] == (id, r)
    decreases |existing|
  {
    if existing == [] then None
    else
      var last := existing[|existing| - 1];
      if last.0 == id then last.1
      else
        var init := existing[..|existing| - 1];
        assert forall i :: 0 <= i < |init| ==> init[i] == existing[i];
        CurrentStatus(init, id)
  }

  predicate Terminal(status: string) { status == "entregado" || status == "cancelado" }

  /** `ordersToUpsert`. */
  function MergeStatuses(rows: seq<WixRow>, existing: seq<(string, Option<string>)>): (r: seq<WixRow>)
    ensures |r| == |rows|
    ensures forall i :: 0 <= i < |rows| ==> r[i].orderId == rows[i].orderId && r[i].rest == rows[i].rest
    decreases |rows|
  {
    if rows == [] then []
    else
      var o := rows[0];
      var current := CurrentStatus(existing, o.orderId);
      var head := if Truthy(current) && !Terminal(o.status) then o.(status := current.value) else o;
      [head] + MergeStatuses(rows[1..], existing)
  }

  /** The merge keeps the rows and their order and changes only statuses: a terminal
      status from Wix always wins, a new order keeps Wix's status, and an order already
      stored with a status keeps that status otherwise. */
  lemma {:induction false} MergeStatusesSpec(rows: seq<WixRow>, existing: seq<(string, Option<string>)>)
    ensures var r := MergeStatuses(rows, existing);
      forall i :: 0 <= i < |rows| ==>
        var current := CurrentStatus(existing, rows[i].orderId);
        && (Terminal(rows[i].status) ==> r[i].status == rows[i].status)
        && (!Truthy(current) ==> r[i].status == rows[i].status)
        && (Truthy(current) && !Terminal(rows[i].status) ==> r[i].status == current.value)
    decreases |rows|
  {
    if rows != [] {
      MergeStatusesSpec(rows[1..], existing);
      var r := MergeStatuses(rows, existing);
      assert r[1..] == MergeStatuses(rows[1..], existing);
      forall i | 1 <= i < |rows| ensures r[i] == MergeStatuses(rows[1..], existing)[i - 1] && rows[i] == rows[1..][i - 1] {
      }
    }
  }

  /** An order unknown to the database is never given another status. */
  lemma NewOrdersKeepStatus(rows: seq<WixRow>, existing: seq<(string, Option<string>)>, i: int)
    requires 0 <= i < |rows|
    requires forall j :: 0 <= j < |existing| ==> existing[j].0 != rows[i].orderId
    ensures MergeStatuses(rows, existing)[i] == rows[i]
  {
    MergeStatusesSpec(rows, existing);
  }

  /** What the endpoint answered. */
  datatype SyncReply =
    | HttpError(status: int, error: Option<string>)
    | Answered(success: bool, orders: seq<WixRow>, nextCursor: Option<string>, hasMore: bool)

  datatype Summary = Summary(inserted: int, updated: int, total: int, hasMore: bool, nextCursor: Option<string>)

  /** The upsert's answer: an error message, or the count, which may be `null`. */
  datatype UpsertReply = UpsertError(message: string) | Upserted(count: Option<nat>)

  /** What the sync sends to the database: nothing before the endpoint has answered
      with orders, else the merged rows. */
  datatype Outcome = Failed(message: string) | Done(summary: Summary, upserted: seq<WixRow>)

  /** The mutation. `lastOrderDate` is the newest stored Wix order's date; `reply`,
      `existing` and `upsert` are the answers of the endpoint, of the status read-back
      and of the upsert. */
  function SyncWix(apiKey: Option<string>, siteId: Option<string>,
                   lastOrderDate: Option<string>, toMs: string -> Option<int>, now: int,
                   reply: SyncReply, existing: seq<(string, Option<string>)>, upsert: UpsertReply): (r: Outcome)
    ensures !Truthy(apiKey) || !Truthy(siteId) ==>
      r == Failed("Faltan variables de entorno de Wix. Verifica tu archivo .env.local")
    ensures r.Done? ==> IncrementalWindow(lastOrderDate, toMs, now).Some?
    ensures r.Done? ==> reply.Answered? && reply.success && r.summary.total == |reply.orders|
    ensures r.Done? && reply.orders == [] ==> r.summary == Summary(0, 0, 0, false, None) && r.upserted == []
    ensures r.Done? && reply.orders != [] ==> r.upserted == MergeStatuses(reply.orders, existing)
    ensures r.Done? ==> r.summary.updated == 0 && r.summary.inserted >= 0
    ensures Truthy(apiKey) && Truthy(siteId) && IncrementalWindow(lastOrderDate, toMs, now).None? ==>
      r == Failed("Invalid time value")
    ensures Truthy(apiKey) && Truthy(siteId) && IncrementalWindow(lastOrderDate, toMs, now).Some? && reply.HttpError? ==>
      r == Failed(Or(reply.error, "Error HTTP " + IntToString(reply.status) + " al sincronizar con Wix"))
    ensures Truthy(apiKey) && Truthy(siteId) && IncrementalWindow(lastOrderDate, toMs, now).Some? && reply.Answered? ==>
      && (!reply.success ==> r == Failed("Error al sincronizar con Wix"))
      && (reply.success && reply.orders == [] ==> r == Done(Summary(0, 0, 0, false, None), []))
      && (reply.success && reply.orders != [] && upsert.UpsertError? ==>
            r == Failed("Error al guardar \U{F3}rdenes: " + upsert.message))
      && (reply.success && reply.orders != [] && upsert.Upserted? ==>
            r == Done(Summary(if upsert.count.Some? then upsert.count.value else 0, 0, |reply.orders|,
                              reply.hasMore, reply.nextCursor),
                      MergeStatuses(reply.orders, existing)))
  {
    if !Truthy(apiKey) || !Truthy(siteId) then
      Failed("Faltan variables de entorno de Wix. Verifica tu archivo .env.local")
    else if IncrementalWindow(lastOrderDate, toMs, now).None? then Failed("Invalid time value")
    else
      match reply
      case HttpError(status, error) =>
        Failed(Or(error, "Error HTTP " + IntToString(status) + " al sincronizar con Wix"))
      case Answered(success, orders, nextCursor, hasMore) =>
        if !success then Failed("Error al sincronizar con Wix")
        else if orders == [] then Done(Summary(0, 0, 0, false, None), [])
        else
          match upsert
          case UpsertError(m) => Failed("Error al guardar \U{F3}rdenes: " + m)
          case Upserted(count) =>
            Done(Summary(if count.Some? then count.value else 0, 0, |orders|, hasMore, nextCursor),
                 MergeStatuses(orders, existing))
  }
}
