// scripts/sync-incremental.mjs: the command-line sync that reads the date of the newest
// stored order, goes back two days, downloads the Mercado Libre and Wix orders created
// since then and upserts them in batches of 50, counting how many were new. The file
// read, the HTTP calls, the clock and the console are I/O: their answers come in as
// parameters. The database is the list of (channel, order_id) keys it holds.
module SyncIncremental {
  import opened Wrappers
  import opened Text
  import opened OrderModel
  import DotEnv
  import opened ScriptSync

  const SafetyMarginDays: int := 2
  const DayMs: int := 24 * 60 * 60 * 1000
  /** The start date used when the table is empty. */
  const DefaultFromDate: string := "2024-01-01T00:00:00.000Z"

  /** The variables the script refuses to start without. */
  const Required: seq<string> := [
    "VITE_SUPABASE_URL", "VITE_SUPABASE_ANON_KEY",
    "VITE_ML_ACCESS_TOKEN", "VITE_ML_REFRESH_TOKEN",
    "VITE_ML_SELLER_ID", "VITE_ML_CLIENT_ID", "VITE_ML_CLIENT_SECRET",
    "VITE_WIX_API_KEY", "VITE_WIX_SITE_ID"]

  // ------------------------------------------------------------------
  // The start of the window
  // ------------------------------------------------------------------

  /** The answer to `orders?select=order_date&order=order_date.desc&limit=1`: a
      failure with the error body's message and the status text, or the rows' dates. */
  datatype LastDateReply = QueryFailed(message: Option<string>, statusText: string) | Rows(orderDates: Option<seq<Option<string>>>)

  /** `getLastOrderDate`: the newest stored order's date (which may be null), or the
      default date when the table is empty. */
  function LastOrderDate(reply: LastDateReply): (r: Paged<Option<string>, nat>)
    ensures reply.QueryFailed? ==> r == Threw("Error al consultar Supabase: " + Or(reply.message, reply.statusText))
    ensures reply.Rows? ==> r.Fetched? && |r.items| == 1 && r.requests == []
    ensures reply.Rows? && reply.orderDates.Some? && reply.orderDates.value != [] ==> r.items[0] == reply.orderDates.value[0]
    ensures reply.Rows? && (reply.orderDates.None? || reply.orderDates.value == []) ==> r.items[0] == Some(DefaultFromDate)
  {
    match reply
    case QueryFailed(message, statusText) => Threw("Error al consultar Supabase: " + Or(message, statusText))
    case Rows(dates) =>
      if dates.None? || dates.value == [] then Fetched([Some(DefaultFromDate)], [])
      else Fetched([dates.value[0]], [])
  }

  /** `new Date(lastOrderDate).getTime()`: a null date is the epoch; `toMs` reads an
      ISO text and is `None` for text JavaScript cannot read. */
  function LastMs(last: Option<string>, toMs: string -> Option<int>): Option<int> {
    if last.None? then Some(0) else toMs(last.value)
  }

  /** `dateFrom`: two days before the newest stored order, in ISO text; `None` when
      `toISOString` throws on an invalid date. */
  function DateFrom(last: Option<string>, toMs: string -> Option<int>, toIso: int -> string): (r: Option<string>)
    ensures r.Some? <==> LastMs(last, toMs).Some?
    ensures r.Some? ==> r.value == toIso(LastMs(last, toMs).value - SafetyMarginDays * DayMs)
  {
    var ms := LastMs(last, toMs);
    if ms.None? then None else Some(toIso(ms.value - 2 * DayMs))
  }

  // ------------------------------------------------------------------
  // The upsert and its counts
  // ------------------------------------------------------------------

  /** A stored row's key: its `channel` column and its `order_id`. */
  type Key = (string, string)

  function KeyOf(o: Order): Key {
    (ChannelName(o.channel), o.orderId)
  }

  /** The orders of a batch whose id the existence query did not return: the query returns
      the ids stored under the channel filter, and nothing when it fails. */
  function CountNew(batch: seq<Order>, existing: seq<Key>, filter: string): (r: nat)
    ensures r <= |batch|
  {
    if batch == [] then 0
    else (if (filter, batch[0].orderId) in existing then 0 else 1) + CountNew(batch[1..], existing, filter)
  }

  /** No order is new exactly when the query found every id, and every order is new
      exactly when it found none. */
  lemma {:induction false} CountNewSpec(batch: seq<Order>, existing: seq<Key>, filter: string)
    ensures CountNew(batch, existing, filter) == 0 <==>
      forall j :: 0 <= j < |batch| ==> (filter, batch[j].orderId) in existing
    ensures CountNew(batch, existing, filter) == |batch| <==>
      forall j :: 0 <= j < |batch| ==> (filter, batch[j].orderId) !in existing
  {
    if batch != [] {
      CountNewSpec(batch[1..], existing, filter);
      assert forall j :: 1 <= j < |batch| ==> batch[j] == batch[1..][j - 1];
    }
  }

  /** How an upsert ends: with an error or with its counts, and the database after it. */
  datatype Upserting = UpsertThrew(message: string, db: seq<Key>) | Counted(added: nat, updated: nat, db: seq<Key>)

  /** Adds the counts of the batches before to what the rest of the run gives. */
  function Combine(added: nat, updated: nat, rest: Upserting): Upserting {
    if rest.UpsertThrew? then rest else Counted(added + rest.added, updated + rest.updated, rest.db)
  }

  /** The `for` loop of `upsertToSupabase` from offset `i`; `checkOk(i)` says whether
      the existence query at offset `i` succeeded and `write(i)` is the error the upsert
      at offset `i` gave, if any. A successful upsert stores every key of the batch. */
  function UpsertFrom(orders: seq<Order>, i: nat, filter: string, db: seq<Key>,
                      checkOk: nat -> bool, write: nat -> Option<string>): Upserting
    decreases |orders| - i
  {
    if i >= |orders| then Counted(0, 0, db)
    else
      var batch := orders[i..BatchEnd(orders, i)];
      var added := CountNew(batch, if checkOk(i) then db else [], filter);
      if write(i).Some? then UpsertThrew(SupabaseError(write(i).value), db)
      else Combine(added, |batch| - added, UpsertFrom(orders, i + BatchSize, filter, db + Map(batch, KeyOf), checkOk, write))
  }

  /** What `upsertToSupabase` returns: `{ new, updated, total }`. */
  datatype Stats = Stats(added: nat, updated: nat, total: nat)

  datatype Upserted = Failed(message: string, db: seq<Key>) | Upserted(stats: Stats, db: seq<Key>)

  function UpsertSpec(orders: seq<Order>, filter: string, db: seq<Key>,
                      checkOk: nat -> bool, write: nat -> Option<string>): Upserted
  {
    if orders == [] then Upserted(Stats(0, 0, 0), db)
    else
      var u := UpsertFrom(orders, 0, filter, db, checkOk, write);
      if u.UpsertThrew? then Failed(u.message, u.db) else Upserted(Stats(u.added, u.updated, |orders|), u.db)
  }

  lemma CombineCombine(a: nat, b: nat, c: nat, d: nat, rest: Upserting)
    ensures Combine(a, b, Combine(c, d, rest)) == Combine(a + c, b + d, rest)
  {
  }

  /** One batch of the loop: a failed upsert ends the run where it is, otherwise the
      batch's counts are added to the rest's. */
  lemma UpsertFromStep(orders: seq<Order>, i: nat, filter: string, db: seq<Key>,
                       checkOk: nat -> bool, write: nat -> Option<string>, batch: seq<Order>, added: nat)
    requires i < |orders| && batch == orders[i..BatchEnd(orders, i)]
    requires added == CountNew(batch, if checkOk(i) then db else [], filter)
    ensures write(i).Some? ==> UpsertFrom(orders, i, filter, db, checkOk, write) == UpsertThrew(SupabaseError(write(i).value), db)
    ensures write(i).None? ==>
      UpsertFrom(orders, i, filter, db, checkOk, write)
        == Combine(added, |batch| - added, UpsertFrom(orders, i + BatchSize, filter, db + Map(batch, KeyOf), checkOk, write))
  {
  }

  /** One turn of the `for` loop at offset `i`: the existence query, the counts and the
      upsert of one batch. `newCount` and `updatedCount` are the counts before it; the
      result is the counts after it, the upsert's error if it failed, and the stored
      keys after it. */
  method UpsertTurn(orders: seq<Order>, i: nat, filter: string, db: seq<Key>, checkOk: nat -> bool,
                    write: nat -> Option<string>, newCount: nat, updatedCount: nat)
    returns (newAfter: nat, updatedAfter: nat, failure: Option<string>, dbAfter: seq<Key>)
    requires i < |orders|
    ensures failure.Some? ==> dbAfter == db
    ensures failure.Some? ==>
      Combine(newCount, updatedCount, UpsertFrom(orders, i, filter, db, checkOk, write)) == UpsertThrew(failure.value, db)
    ensures failure.None? ==>
      Combine(newAfter, updatedAfter, UpsertFrom(orders, i + BatchSize, filter, dbAfter, checkOk, write))
        == Combine(newCount, updatedCount, UpsertFrom(orders, i, filter, db, checkOk, write))
  {
    var end := BatchEnd(orders, i);
    var batch := orders[i..end];
    var existing := if checkOk(i) then db else [];
    var batchNew := CountNew(batch, existing, filter);
    var batchUpdated := |batch| - batchNew;
    newAfter := newCount + batchNew;
    updatedAfter := updatedCount + batchUpdated;
    UpsertFromStep(orders, i, filter, db, checkOk, write, batch, batchNew);
    if write(i).Some? {
      return newAfter, updatedAfter, Some(SupabaseError(write(i).value)), db;
    }
    dbAfter := db + Map(batch, KeyOf);
    failure := None;
    CombineCombine(newCount, updatedCount, batchNew, batchUpdated,
                   UpsertFrom(orders, i + BatchSize, filter, dbAfter, checkOk, write));
  }

  /** `upsertToSupabase(orders, channel)`, with the channel filter of its existence query. */
  method Upsert(orders: seq<Order>, filter: string, db0: seq<Key>, checkOk: nat -> bool, write: nat -> Option<string>)
    returns (r: Upserted)
    ensures r == UpsertSpec(orders, filter, db0, checkOk, write)
  {
    if orders == [] {
      return Upserted(Stats(0, 0, 0), db0);
    }
    var newCount: nat := 0;
    var updatedCount: nat := 0;
    var db := db0;
    var i: nat := 0;
    while i < |orders|
      invariant Combine(newCount, updatedCount, UpsertFrom(orders, i, filter, db, checkOk, write))
             == UpsertFrom(orders, 0, filter, db0, checkOk, write)
      decreases |orders| - i
    {
      var failure;
      newCount, updatedCount, failure, db := UpsertTurn(orders, i, filter, db, checkOk, write, newCount, updatedCount);
      if failure.Some? {
        return Failed(failure.value, db);
      }
      i := i + BatchSize;
    }
    return Upserted(Stats(newCount, updatedCount, |orders|), db);
  }

  /** Every order is counted once, as new or as updated. */
  lemma {:induction false} UpsertFromCounts(orders: seq<Order>, i: nat, filter: string, db: seq<Key>,
                                            checkOk: nat -> bool, write: nat -> Option<string>)
    ensures var u := UpsertFrom(orders, i, filter, db, checkOk, write);
      u.Counted? ==> u.added + u.updated == if i < |orders| then |orders| - i else 0
    decreases |orders| - i
  {
    if i < |orders| && write(i).None? {
      var batch := orders[i..BatchEnd(orders, i)];
      UpsertFromCounts(orders, i + BatchSize, filter, db + Map(batch, KeyOf), checkOk, write);
    }
  }

  lemma UpsertCounts(orders: seq<Order>, filter: string, db: seq<Key>, checkOk: nat -> bool, write: nat -> Option<string>)
    ensures var u := UpsertSpec(orders, filter, db, checkOk, write);
      u.Upserted? ==> u.stats.added + u.stats.updated == u.stats.total == |orders|
  {
    UpsertFromCounts(orders, 0, filter, db, checkOk, write);
  }

  /** An upsert never loses a row, and a successful one adds the key of every order. */
  lemma {:induction false} UpsertFromStores(orders: seq<Order>, i: nat, filter: string, db: seq<Key>,
                                            checkOk: nat -> bool, write: nat -> Option<string>)
    ensures var u := UpsertFrom(orders, i, filter, db, checkOk, write);
      && (forall k :: k in db ==> k in u.db)
      && (u.Counted? ==> forall j :: i <= j < |orders| ==> KeyOf(orders[j]) in u.db)
    decreases |orders| - i
  {
    if i < |orders| && write(i).None? {
      var end := BatchEnd(orders, i);
      var batch := orders[i..end];
      var db' := db + Map(batch, KeyOf);
      UpsertFromStores(orders, i + BatchSize, filter, db', checkOk, write);
      forall j | i <= j < end ensures KeyOf(orders[j]) in db' {
        assert Map(batch, KeyOf)[j - i] == KeyOf(orders[j]);
      }
    }
  }

  /** The label `main` passes to `upsertToSupabase` for each channel. */
  function UpsertLabel(c: Channel): string {
    match c
    case MercadoLibre => "Mercado Libre"
    case Wix => "Wix"
    case Falabella => "Falabella"
  }

  /** Which channel filter the existence query uses: the label, as `main` passes it, or
      the stored code. */
  datatype FilterRule = LabelFilter | CodeFilter

  function Filter(rule: FilterRule, c: Channel): string {
    match rule
    case LabelFilter => UpsertLabel(c)
    case CodeFilter => ChannelName(c)
  }

  /** A label is never a stored channel code. */
  lemma LabelIsNoCode(c: Channel, d: Channel)
    ensures UpsertLabel(c) != ChannelName(d)
  {
    match c
    case MercadoLibre =>
      assert UpsertLabel(c)[0] == 'M';
    case Wix =>
      assert UpsertLabel(c)[0] == 'W';
    case Falabella =>
      assert UpsertLabel(c)[0] == 'F';
  }

  /** As written the existence query filters on the label, while every stored row carries
      the channel's code: the query never finds a row, and every order is counted new
      even when the upsert only updates it. */
  lemma {:induction false} LabelFilterCountsNothingUpdated(orders: seq<Order>, i: nat, c: Channel, db: seq<Key>,
                                                           checkOk: nat -> bool, write: nat -> Option<string>)
    requires CodesOnly(db)
    ensures var u := UpsertFrom(orders, i, UpsertLabel(c), db, checkOk, write);
      u.Counted? ==> u.updated == 0
    decreases |orders| - i
  {
    if i < |orders| && write(i).None? {
      var batch := orders[i..BatchEnd(orders, i)];
      var existing := if checkOk(i) then db else [];
      LabelFindsNothing(c, batch, existing);
      UpsertFromStep(orders, i, UpsertLabel(c), db, checkOk, write, batch, |batch|);
      CodesOnlyAfter(db, batch);
      LabelFilterCountsNothingUpdated(orders, i + BatchSize, c, db + Map(batch, KeyOf), checkOk, write);
    }
  }

  /** Every stored row carries a channel code. */
  ghost predicate CodesOnly(db: seq<Key>) {
    forall k :: k in db ==> exists d: Channel :: k.0 == ChannelName(d)
  }

  /** An existence query on the label finds none of the batch among rows that carry codes. */
  lemma LabelFindsNothing(c: Channel, batch: seq<Order>, existing: seq<Key>)
    requires CodesOnly(existing)
    ensures CountNew(batch, existing, UpsertLabel(c)) == |batch|
  {
    forall j | 0 <= j < |batch| ensures (UpsertLabel(c), batch[j].orderId) !in existing {
      if (UpsertLabel(c), batch[j].orderId) in existing {
        var d: Channel :| UpsertLabel(c) == ChannelName(d);
        LabelIsNoCode(c, d);
      }
    }
    CountNewSpec(batch, existing, UpsertLabel(c));
  }

  /** The upsert stores the keys of the batch, which carry codes. */
  lemma CodesOnlyAfter(db: seq<Key>, batch: seq<Order>)
    requires CodesOnly(db)
    ensures CodesOnly(db + Map(batch, KeyOf))
  {
    var keys := Map(batch, KeyOf);
    forall k | k in db + keys ensures exists d: Channel :: k.0 == ChannelName(d) {
      if k !in db {
        var j :| 0 <= j < |keys| && keys[j] == k;
        assert k.0 == ChannelName(batch[j].channel);
      }
    }
  }

  /** The upsert keeps every stored row carrying a channel code. */
  lemma {:induction false} UpsertFromCodes(orders: seq<Order>, i: nat, filter: string, db: seq<Key>,
                                           checkOk: nat -> bool, write: nat -> Option<string>)
    requires CodesOnly(db)
    ensures CodesOnly(UpsertFrom(orders, i, filter, db, checkOk, write).db)
    decreases |orders| - i
  {
    if i < |orders| && write(i).None? {
      var batch := orders[i..BatchEnd(orders, i)];
      CodesOnlyAfter(db, batch);
      UpsertFromCodes(orders, i + BatchSize, filter, db + Map(batch, KeyOf), checkOk, write);
    }
  }

  lemma UpsertStoresCodes(orders: seq<Order>, filter: string, db: seq<Key>, checkOk: nat -> bool, write: nat -> Option<string>)
    requires CodesOnly(db)
    ensures CodesOnly(UpsertSpec(orders, filter, db, checkOk, write).db)
  {
    UpsertFromCodes(orders, 0, filter, db, checkOk, write);
  }

  /** With the code as filter, orders already stored are counted as updated: running
      the sync again over stored orders counts every one of them updated, none new. */
  lemma {:induction false} CodeFilterCountsStoredUpdated(orders: seq<Order>, i: nat, c: Channel, db: seq<Key>,
                                                         checkOk: nat -> bool, write: nat -> Option<string>)
    requires forall k :: checkOk(k)
    requires forall j :: i <= j < |orders| ==> orders[j].channel == c && KeyOf(orders[j]) in db
    ensures var u := UpsertFrom(orders, i, ChannelName(c), db, checkOk, write);
      u.Counted? ==> u.added == 0 && u.updated == if i < |orders| then |orders| - i else 0
    decreases |orders| - i
  {
    if i < |orders| && write(i).None? {
      var end := BatchEnd(orders, i);
      var batch := orders[i..end];
      assert checkOk(i);
      forall j | 0 <= j < |batch| ensures (ChannelName(c), batch[j].orderId) in db {
        assert batch[j] == orders[i + j];
      }
      CountNewSpec(batch, db, ChannelName(c));
      var db' := db + Map(batch, KeyOf);
      CodeFilterCountsStoredUpdated(orders, i + BatchSize, c, db', checkOk, write);
    }
  }

  // ------------------------------------------------------------------
  // The script
  // ------------------------------------------------------------------

  /** How the run ends: exit 1 on missing variables, a fatal error with the database as
      it was left, or both channels' counts. */
  datatype Run =
    | Exited(missing: seq<string>)
    | Fatal(message: string, db: seq<Key>)
    | Finished(ml: Stats, wix: Stats, db: seq<Key>)

  /** A successful upsert, as `upsertToSupabase` reports it. */
  lemma UpsertStores(orders: seq<Order>, filter: string, db: seq<Key>, checkOk: nat -> bool, write: nat -> Option<string>)
    ensures var u := UpsertSpec(orders, filter, db, checkOk, write);
      && (forall k :: k in db ==> k in u.db)
      && (u.Upserted? ==> forall j :: 0 <= j < |orders| ==> KeyOf(orders[j]) in u.db)
  {
    UpsertFromStores(orders, 0, filter, db, checkOk, write);
  }

  /** The two upserts, Mercado Libre first. */
  function UpsertBoth(rule: FilterRule, mlOrders: seq<Order>, wixOrders: seq<Order>, db: seq<Key>,
                      mlCheck: nat -> bool, mlWrite: nat -> Option<string>,
                      wixCheck: nat -> bool, wixWrite: nat -> Option<string>): Run
  {
    var mlStats := UpsertSpec(mlOrders, Filter(rule, MercadoLibre), db, mlCheck, mlWrite);
    if mlStats.Failed? then Fatal(mlStats.message, mlStats.db)
    else
      var wixStats := UpsertSpec(wixOrders, Filter(rule, Wix), mlStats.db, wixCheck, wixWrite);
      if wixStats.Failed? then Fatal(wixStats.message, wixStats.db)
      else Finished(mlStats.stats, wixStats.stats, wixStats.db)
  }

  /** The upserts lose no row; when both succeed, every order of both channels is
      stored and counted once. */
  lemma UpsertBothSpec(rule: FilterRule, mlOrders: seq<Order>, wixOrders: seq<Order>, db: seq<Key>,
                       mlCheck: nat -> bool, mlWrite: nat -> Option<string>,
                       wixCheck: nat -> bool, wixWrite: nat -> Option<string>)
    ensures var r := UpsertBoth(rule, mlOrders, wixOrders, db, mlCheck, mlWrite, wixCheck, wixWrite);
      && !r.Exited?
      && (forall k :: k in db ==> k in r.db)
      && (r.Finished? ==> r.ml.total == |mlOrders| && r.wix.total == |wixOrders|)
      && (r.Finished? ==> r.ml.added + r.ml.updated == r.ml.total && r.wix.added + r.wix.updated == r.wix.total)
      && (r.Finished? ==> forall j :: 0 <= j < |mlOrders| ==> KeyOf(mlOrders[j]) in r.db)
      && (r.Finished? ==> forall j :: 0 <= j < |wixOrders| ==> KeyOf(wixOrders[j]) in r.db)
  {
    UpsertCounts(mlOrders, Filter(rule, MercadoLibre), db, mlCheck, mlWrite);
    UpsertStores(mlOrders, Filter(rule, MercadoLibre), db, mlCheck, mlWrite);
    var mlStats := UpsertSpec(mlOrders, Filter(rule, MercadoLibre), db, mlCheck, mlWrite);
    UpsertCounts(wixOrders, Filter(rule, Wix), mlStats.db, wixCheck, wixWrite);
    UpsertStores(wixOrders, Filter(rule, Wix), mlStats.db, wixCheck, wixWrite);
  }

  /** The variables of `.env.local` that are missing or empty. */
  function MissingVars(envText: string): seq<string> {
    DotEnv.Missing(DotEnv.Parse(envText), Required)
  }

  /** What the run does once the variables are there. `nowIso` is
      `new Date().toISOString()`; the replies of each remote call are the other
      parameters. */
  function AfterEnv(rule: FilterRule, lastReply: LastDateReply, toMs: string -> Option<int>, toIso: int -> string,
                    nowIso: string, mlReplies: seq<MLSearch>, refresh: nat -> Option<string>,
                    shipment: string -> ShipmentReply, wixPages: seq<WixSearch>, db: seq<Key>,
                    mlCheck: nat -> bool, mlWrite: nat -> Option<string>,
                    wixCheck: nat -> bool, wixWrite: nat -> Option<string>): Run
  {
    var last := LastOrderDate(lastReply);
    if last.Threw? then Fatal(last.message, db)
    else
      var from := DateFrom(last.items[0], toMs, toIso);
      if from.None? then Fatal("Invalid time value", db)
      else
        var ml := CollectMLSpec(mlReplies, refresh);
        if ml.Threw? then Fatal(ml.message, db)
        else
          var wix := WixFrom(wixPages, None, from.value, nowIso);
          if wix.Threw? then Fatal(wix.message, db)
          else UpsertBoth(rule, EnrichML(ml.items, shipment), Map(wix.items, NormalizeWixOrder), db, mlCheck, mlWrite, wixCheck, wixWrite)
  }

  /** `main`; `rule` picks the existence query's channel filter, `LabelFilter` as
      written. */
  method RunIncremental(rule: FilterRule, envText: string, lastReply: LastDateReply, toMs: string -> Option<int>, toIso: int -> string,
                        nowIso: string, mlReplies: seq<MLSearch>, refresh: nat -> Option<string>,
                        shipment: string -> ShipmentReply, wixPages: seq<WixSearch>, db: seq<Key>,
                        mlCheck: nat -> bool, mlWrite: nat -> Option<string>,
                        wixCheck: nat -> bool, wixWrite: nat -> Option<string>)
    returns (r: Run)
    ensures MissingVars(envText) != [] ==> r == Exited(MissingVars(envText))
    ensures MissingVars(envText) == [] ==>
      r == AfterEnv(rule, lastReply, toMs, toIso, nowIso, mlReplies, refresh, shipment, wixPages, db,
                    mlCheck, mlWrite, wixCheck, wixWrite)
  {
    var missing := MissingVars(envText);
    if missing != [] {
      return Exited(missing);
    }
    var last := LastOrderDate(lastReply);
    if last.Threw? {
      return Fatal(last.message, db);
    }
    var from := DateFrom(last.items[0], toMs, toIso);
    if from.None? {
      return Fatal("Invalid time value", db);
    }
    var ml := SyncML(mlReplies, refresh, shipment);
    if ml.Threw? {
      return Fatal(ml.message, db);
    }
    var wix := SyncWix(wixPages, from.value, nowIso);
    if wix.Threw? {
      return Fatal(wix.message, db);
    }
    var mlStats := Upsert(ml.items, Filter(rule, MercadoLibre), db, mlCheck, mlWrite);
    if mlStats.Failed? {
      return Fatal(mlStats.message, mlStats.db);
    }
    var wixStats := Upsert(wix.items, Filter(rule, Wix), mlStats.db, wixCheck, wixWrite);
    if wixStats.Failed? {
      return Fatal(wixStats.message, wixStats.db);
    }
    return Finished(mlStats.stats, wixStats.stats, wixStats.db);
  }

  /** Nothing is written before both channels have been downloaded, a run never loses
      a stored row, and a finished run counts each downloaded order once. */
  lemma RunSpec(rule: FilterRule, lastReply: LastDateReply, toMs: string -> Option<int>, toIso: int -> string,
                nowIso: string, mlReplies: seq<MLSearch>, refresh: nat -> Option<string>,
                shipment: string -> ShipmentReply, wixPages: seq<WixSearch>, db: seq<Key>,
                mlCheck: nat -> bool, mlWrite: nat -> Option<string>,
                wixCheck: nat -> bool, wixWrite: nat -> Option<string>)
    ensures var r := AfterEnv(rule, lastReply, toMs, toIso, nowIso, mlReplies, refresh, shipment, wixPages, db,
                              mlCheck, mlWrite, wixCheck, wixWrite);
      && !r.Exited?
      && (forall k :: k in db ==> k in r.db)
      && (CollectMLSpec(mlReplies, refresh).Threw? || lastReply.QueryFailed? ==> r.Fatal? && r.db == db)
      && (r.Finished? ==> r.ml.total == |CollectMLSpec(mlReplies, refresh).items|)
      && (r.Finished? ==> r.ml.added + r.ml.updated == r.ml.total && r.wix.added + r.wix.updated == r.wix.total)
  {
    if lastReply.Rows? {
      var last := LastOrderDate(lastReply);
      var from := DateFrom(last.items[0], toMs, toIso);
      var ml := CollectMLSpec(mlReplies, refresh);
      if from.Some? && ml.Fetched? {
        var wix := WixFrom(wixPages, None, from.value, nowIso);
        if wix.Fetched? {
          UpsertBothSpec(rule, EnrichML(ml.items, shipment), Map(wix.items, NormalizeWixOrder), db, mlCheck, mlWrite, wixCheck, wixWrite);
        }
      }
    }
  }

  /** The whole run as written, over a table whose rows carry channel codes: a finished
      run reports no Mercado Libre or Wix order as updated, however many were stored. */
  lemma RunAsWrittenCountsNothingUpdated(lastReply: LastDateReply, toMs: string -> Option<int>, toIso: int -> string,
                                         nowIso: string, mlReplies: seq<MLSearch>, refresh: nat -> Option<string>,
                                         shipment: string -> ShipmentReply, wixPages: seq<WixSearch>, db: seq<Key>,
                                         mlCheck: nat -> bool, mlWrite: nat -> Option<string>,
                                         wixCheck: nat -> bool, wixWrite: nat -> Option<string>)
    requires CodesOnly(db)
    ensures var r := AfterEnv(LabelFilter, lastReply, toMs, toIso, nowIso, mlReplies, refresh, shipment, wixPages, db,
                              mlCheck, mlWrite, wixCheck, wixWrite);
      r.Finished? ==> r.ml.updated == 0 && r.wix.updated == 0
  {
    var last := LastOrderDate(lastReply);
    if !last.Threw? {
      var from := DateFrom(last.items[0], toMs, toIso);
      var ml := CollectMLSpec(mlReplies, refresh);
      if from.Some? && ml.Fetched? {
        var wix := WixFrom(wixPages, None, from.value, nowIso);
        if wix.Fetched? {
          var mlOrders := EnrichML(ml.items, shipment);
          LabelFilterCountsNothingUpdated(mlOrders, 0, MercadoLibre, db, mlCheck, mlWrite);
          var mlStats := UpsertSpec(mlOrders, UpsertLabel(MercadoLibre), db, mlCheck, mlWrite);
          if mlStats.Upserted? {
            UpsertStoresCodes(mlOrders, UpsertLabel(MercadoLibre), db, mlCheck, mlWrite);
            LabelFilterCountsNothingUpdated(Map(wix.items, NormalizeWixOrder), 0, Wix, mlStats.db, wixCheck, wixWrite);
          }
        }
      }
    }
  }
}
