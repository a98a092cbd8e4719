// scripts/sync-historico.mjs: the command-line resync of a fixed period. It asks which
// channels to resync, deletes the stored orders of those channels dated in the period,
// downloads the period again from Mercado Libre and Wix and writes it back in batches
// of 50. The console question, the HTTP calls and the file read are I/O: their answers
// come in as parameters. The database is the list of rows it holds, each with its
// channel code, order id and order date.
module SyncHistorico {
  import opened Wrappers
  import opened Text
  import opened OrderModel
  import DotEnv
  import opened ScriptSync

  const DateFrom: string := "2025-12-01T00:00:00.000Z"
  const DateTo: string := "2026-02-18T23:59:59.000Z"

  const Required: seq<string> := [
    "VITE_SUPABASE_URL", "VITE_SUPABASE_ANON_KEY",
    "VITE_ML_ACCESS_TOKEN", "VITE_ML_REFRESH_TOKEN",
    "VITE_ML_SELLER_ID", "VITE_ML_CLIENT_ID", "VITE_ML_CLIENT_SECRET",
    "VITE_WIX_API_KEY", "VITE_WIX_SITE_ID"]

  // ------------------------------------------------------------------
  // The question
  // ------------------------------------------------------------------

  datatype Mode = Todo | MLOnly | WixOnly

  /** The answer the script accepts for each mode. */
  function ModeName(m: Mode): string {
    match m
    case Todo => "todo"
    case MLOnly => "ml"
    case WixOnly => "wix"
  }

  /** `confirm`: the answer trimmed and lower-cased, which must be one of the three
      mode names. */
  function ParseMode(answer: string): (r: Option<Mode>)
  {
    var a := ToLower(Trim(answer));
    if a == "todo" then Some(Todo)
    else if a == "ml" then Some(MLOnly)
    else if a == "wix" then Some(WixOnly)
    else None
  }

  lemma ModeNameInjective(m: Mode, n: Mode)
    ensures ModeName(m) == ModeName(n) ==> m == n
  {
    if m != n {
      assert |ModeName(m)| != |ModeName(n)|;
    }
  }

  /** An answer picks a mode exactly when, trimmed and lower-cased, it is that mode's
      name; so each name, in any case and with any surrounding white space, is
      accepted, and every other answer stops the script. */
  lemma ParseModeSpec(answer: string, m: Mode)
    ensures ParseMode(answer) == Some(m) <==> ToLower(Trim(answer)) == ModeName(m)
  {
    var a := ToLower(Trim(answer));
    if ParseMode(answer).Some? {
      ModeNameInjective(ParseMode(answer).value, m);
    }
  }

  lemma TrimPlain(s: string)
    requires s != [] && !IsSpace(s[0]) && !IsSpace(s[|s| - 1])
    ensures Trim(s) == s
  {
  }

  lemma ToLowerPlain(s: string)
    requires forall i :: 0 <= i < |s| ==> 'a' <= s[i] <= 'z'
    ensures ToLower(s) == s
  {
  }

  /** Each mode's own name is accepted as that mode. */
  lemma ParseModeName(m: Mode)
    ensures ParseMode(ModeName(m)) == Some(m)
  {
    var s := ModeName(m);
    TrimPlain(s);
    ToLowerPlain(s);
  }

  /** Which channels a mode downloads. */
  predicate SyncsML(m: Mode) { m == Todo || m == MLOnly }
  predicate SyncsWix(m: Mode) { m == Todo || m == WixOnly }

  /** The channel codes whose stored orders a mode deletes: the filter is
      `in.(mercadolibre,wix)` for all, `eq.<code>` for one. */
  function DeletedChannels(m: Mode): (r: seq<string>)
    ensures ChannelName(MercadoLibre) in r <==> SyncsML(m)
    ensures ChannelName(Wix) in r <==> SyncsWix(m)
    ensures ChannelName(Falabella) !in r
  {
    match m
    case Todo => ["mercadolibre", "wix"]
    case MLOnly => ["mercadolibre"]
    case WixOnly => ["wix"]
  }

  // ------------------------------------------------------------------
  // The database
  // ------------------------------------------------------------------

  /** A stored row: its `channel` code, its `order_id` and its `order_date`. */
  type Row = (string, string, Option<string>)

  function RowOf(o: Order): Row {
    (ChannelName(o.channel), o.orderId, o.orderDate)
  }

  /** The rows `deleteExistingOrders` removes: those of the chosen channels dated on or
      after the start of the period (a null date never compares). */
  predicate Deleted(row: Row, channels: seq<string>) {
    row.0 in channels && row.2.Some? && StrLe(DateFrom, row.2.value)
  }

  function DeleteRows(db: seq<Row>, channels: seq<string>): (r: seq<Row>)
    ensures forall row :: row in r <==> row in db && !Deleted(row, channels)
  {
    if db == [] then []
    else
      var rest := DeleteRows(db[1..], channels);
      if Deleted(db[0], channels) then rest else [db[0]] + rest
  }

  /** The batch writes of `upsertToSupabase` from offset `i`; `write(i)` is the error
      message of the request at offset `i`, if it failed. */
  datatype Written = WriteFailed(message: string, db: seq<Row>) | Written(total: nat, db: seq<Row>)

  function WriteFrom(orders: seq<Order>, i: nat, db: seq<Row>, write: nat -> Option<string>): Written
    decreases |orders| - i
  {
    if i >= |orders| then Written(0, db)
    else
      var batch := orders[i..BatchEnd(orders, i)];
      if write(i).Some? then WriteFailed(SupabaseError(write(i).value), db)
      else AddTotal(|batch|, WriteFrom(orders, i + BatchSize, db + Map(batch, RowOf), write))
  }

  /** The orders written before, added to what the rest of the writes report. */
  function AddTotal(total: nat, rest: Written): Written {
    if rest.WriteFailed? then rest else Written(total + rest.total, rest.db)
  }

  lemma AddTotalTwice(a: nat, b: nat, rest: Written)
    ensures AddTotal(a, AddTotal(b, rest)) == AddTotal(a + b, rest)
  {
  }

  lemma WriteFromStep(orders: seq<Order>, i: nat, db: seq<Row>, write: nat -> Option<string>)
    requires i < |orders|
    ensures write(i).Some? ==> WriteFrom(orders, i, db, write) == WriteFailed(SupabaseError(write(i).value), db)
    ensures write(i).None? ==>
      var batch := orders[i..BatchEnd(orders, i)];
      WriteFrom(orders, i, db, write) == AddTotal(|batch|, WriteFrom(orders, i + BatchSize, db + Map(batch, RowOf), write))
  {
  }

  /** One turn of the `for` loop at offset `i`: the upsert of one batch, its error if it
      failed, and the total and the stored rows after it. */
  method WriteTurn(orders: seq<Order>, i: nat, db: seq<Row>, write: nat -> Option<string>, total: nat)
    returns (totalAfter: nat, failure: Option<string>, dbAfter: seq<Row>)
    requires i < |orders|
    ensures failure.Some? ==> dbAfter == db && WriteFrom(orders, i, db, write) == WriteFailed(failure.value, db)
    ensures failure.None? ==>
      AddTotal(totalAfter, WriteFrom(orders, i + BatchSize, dbAfter, write)) == AddTotal(total, WriteFrom(orders, i, db, write))
  {
    var batch := orders[i..BatchEnd(orders, i)];
    WriteFromStep(orders, i, db, write);
    if write(i).Some? {
      return total, Some(SupabaseError(write(i).value)), db;
    }
    totalAfter := total + |batch|;
    dbAfter := db + Map(batch, RowOf);
    failure := None;
    AddTotalTwice(total, |batch|, WriteFrom(orders, i + BatchSize, dbAfter, write));
  }

  /** `upsertToSupabase(orders, channel)`: the number of orders written. */
  method Upsert(orders: seq<Order>, db0: seq<Row>, write: nat -> Option<string>) returns (r: Written)
    ensures r == WriteFrom(orders, 0, db0, write)
  {
    if orders == [] {
      return Written(0, db0);
    }
    var total: nat := 0;
    var db := db0;
    var i: nat := 0;
    while i < |orders|
      invariant AddTotal(total, WriteFrom(orders, i, db, write)) == WriteFrom(orders, 0, db0, write)
      decreases |orders| - i
    {
      var failure;
      total, failure, db := WriteTurn(orders, i, db, write, total);
      if failure.Some? {
        return WriteFailed(failure.value, db);
      }
      i := i + BatchSize;
    }
    return Written(total, db);
  }

  /** A write never loses a row; when it succeeds it reports every order written and
      holds each one's row. */
  lemma {:induction false} WriteFromSpec(orders: seq<Order>, i: nat, db: seq<Row>, write: nat -> Option<string>)
    ensures var w := WriteFrom(orders, i, db, write);
      && (forall row :: row in db ==> row in w.db)
      && (w.Written? ==> w.total == if i < |orders| then |orders| - i else 0)
      && (w.Written? ==> forall j :: i <= j < |orders| ==> RowOf(orders[j]) in w.db)
    decreases |orders| - i
  {
    if i < |orders| && write(i).None? {
      var end := BatchEnd(orders, i);
      var batch := orders[i..end];
      var db' := db + Map(batch, RowOf);
      WriteFromSpec(orders, i + BatchSize, db', write);
      forall j | i <= j < end ensures RowOf(orders[j]) in db' {
        assert Map(batch, RowOf)[j - i] == RowOf(orders[j]);
      }
    }
  }

  // ------------------------------------------------------------------
  // The script
  // ------------------------------------------------------------------

  datatype Run =
    | Exited(missing: seq<string>)
    | Declined
    | Fatal(message: string, db: seq<Row>)
    | Finished(mlCount: nat, wixCount: nat, db: seq<Row>)

  function MissingVars(envText: string): seq<string> {
    DotEnv.Missing(DotEnv.Parse(envText), Required)
  }

  /** The two writes, each only when there is something to write. */
  function WriteBoth(mlOrders: seq<Order>, wixOrders: seq<Order>, db: seq<Row>,
                     mlWrite: nat -> Option<string>, wixWrite: nat -> Option<string>): Run
  {
    var ml := if mlOrders != [] then WriteFrom(mlOrders, 0, db, mlWrite) else Written(0, db);
    if ml.WriteFailed? then Fatal(ml.message, ml.db)
    else
      var wix := if wixOrders != [] then WriteFrom(wixOrders, 0, ml.db, wixWrite) else Written(0, ml.db);
      if wix.WriteFailed? then Fatal(wix.message, wix.db)
      else Finished(ml.total, wix.total, wix.db)
  }

  /** What the run does after the question. `deleteError` is the error message the
      delete request fails with, if it fails (`err.message`, possibly missing). */
  function AfterQuestion(mode: Mode, db: seq<Row>, deleteError: Option<Option<string>>,
                         mlReplies: seq<MLSearch>, refresh: nat -> Option<string>,
                         shipment: string -> ShipmentReply, wixPages: seq<WixSearch>,
                         mlWrite: nat -> Option<string>, wixWrite: nat -> Option<string>): Run
  {
    if deleteError.Some? then Fatal("Error al borrar: " + Render(deleteError.value), db)
    else
      var kept := DeleteRows(db, DeletedChannels(mode));
      var ml := if SyncsML(mode) then CollectMLSpec(mlReplies, refresh) else Fetched([], []);
      if ml.Threw? then Fatal(ml.message, kept)
      else
        var wix := if SyncsWix(mode) then WixFrom(wixPages, None, DateFrom, DateTo) else Fetched([], []);
        if wix.Threw? then Fatal(wix.message, kept)
        else WriteBoth(EnrichML(ml.items, shipment), Map(wix.items, NormalizeWixOrder), kept, mlWrite, wixWrite)
  }

  /** The two writes of `main`. */
  method WriteBothRun(mlOrders: seq<Order>, wixOrders: seq<Order>, db: seq<Row>,
                      mlWrite: nat -> Option<string>, wixWrite: nat -> Option<string>) returns (r: Run)
    ensures r == WriteBoth(mlOrders, wixOrders, db, mlWrite, wixWrite)
  {
    var mlCount: nat := 0;
    var db1 := db;
    if mlOrders != [] {
      var w := Upsert(mlOrders, db, mlWrite);
      if w.WriteFailed? {
        return Fatal(w.message, w.db);
      }
      mlCount, db1 := w.total, w.db;
    }
    var wixCount: nat := 0;
    var db2 := db1;
    if wixOrders != [] {
      var w := Upsert(wixOrders, db1, wixWrite);
      if w.WriteFailed? {
        return Fatal(w.message, w.db);
      }
      wixCount, db2 := w.total, w.db;
    }
    return Finished(mlCount, wixCount, db2);
  }

  /** `main` after the question: the delete, the downloads and the writes. */
  method Resync(mode: Mode, db: seq<Row>, deleteError: Option<Option<string>>,
                mlReplies: seq<MLSearch>, refresh: nat -> Option<string>,
                shipment: string -> ShipmentReply, wixPages: seq<WixSearch>,
                mlWrite: nat -> Option<string>, wixWrite: nat -> Option<string>)
    returns (r: Run)
    ensures r == AfterQuestion(mode, db, deleteError, mlReplies, refresh, shipment, wixPages, mlWrite, wixWrite)
  {
    if deleteError.Some? {
      return Fatal("Error al borrar: " + Render(deleteError.value), db);
    }
    var kept := DeleteRows(db, DeletedChannels(mode));
    var mlOrders: seq<Order> := [];
    if SyncsML(mode) {
      var ml := SyncML(mlReplies, refresh, shipment);
      if ml.Threw? {
        return Fatal(ml.message, kept);
      }
      mlOrders := ml.items;
    }
    var wixOrders: seq<Order> := [];
    if SyncsWix(mode) {
      var wix := SyncWix(wixPages, DateFrom, DateTo);
      if wix.Threw? {
        return Fatal(wix.message, kept);
      }
      wixOrders := wix.items;
    }
    r := WriteBothRun(mlOrders, wixOrders, kept, mlWrite, wixWrite);
  }

  /** `main`. */
  method RunHistorico(envText: string, answer: string, db: seq<Row>, deleteError: Option<Option<string>>,
                      mlReplies: seq<MLSearch>, refresh: nat -> Option<string>,
                      shipment: string -> ShipmentReply, wixPages: seq<WixSearch>,
                      mlWrite: nat -> Option<string>, wixWrite: nat -> Option<string>)
    returns (r: Run)
    ensures MissingVars(envText) != [] ==> r == Exited(MissingVars(envText))
    ensures MissingVars(envText) == [] && ParseMode(answer).None? ==> r == Declined
    ensures MissingVars(envText) == [] && ParseMode(answer).Some? ==>
      r == AfterQuestion(ParseMode(answer).value, db, deleteError, mlReplies, refresh, shipment, wixPages, mlWrite, wixWrite)
  {
    var missing := MissingVars(envText);
    if missing != [] {
      return Exited(missing);
    }
    var parsed := ParseMode(answer);
    if parsed.None? {
      return Declined;
    }
    r := Resync(parsed.value, db, deleteError, mlReplies, refresh, shipment, wixPages, mlWrite, wixWrite);
  }

  /** The writes keep every row they were given; when both succeed every order is
      written and counted. */
  lemma WriteBothSpec(mlOrders: seq<Order>, wixOrders: seq<Order>, db: seq<Row>,
                      mlWrite: nat -> Option<string>, wixWrite: nat -> Option<string>)
    ensures var r := WriteBoth(mlOrders, wixOrders, db, mlWrite, wixWrite);
      && (r.Fatal? || r.Finished?)
      && (forall row :: row in db ==> row in r.db)
      && (r.Finished? ==> r.mlCount == |mlOrders| && r.wixCount == |wixOrders|)
      && (r.Finished? ==> forall j :: 0 <= j < |mlOrders| ==> RowOf(mlOrders[j]) in r.db)
      && (r.Finished? ==> forall j :: 0 <= j < |wixOrders| ==> RowOf(wixOrders[j]) in r.db)
  {
    WriteFromSpec(mlOrders, 0, db, mlWrite);
    var ml := if mlOrders != [] then WriteFrom(mlOrders, 0, db, mlWrite) else Written(0, db);
    WriteFromSpec(wixOrders, 0, ml.db, wixWrite);
  }

  /** The delete comes first: once it has run, a failed download leaves the chosen
      channels' orders of the period deleted and nothing written back. Rows of other
      channels, and rows dated before the period, survive every run. */
  lemma DeleteFirst(mode: Mode, db: seq<Row>, deleteError: Option<Option<string>>,
                    mlReplies: seq<MLSearch>, refresh: nat -> Option<string>,
                    shipment: string -> ShipmentReply, wixPages: seq<WixSearch>,
                    mlWrite: nat -> Option<string>, wixWrite: nat -> Option<string>)
    ensures var r := AfterQuestion(mode, db, deleteError, mlReplies, refresh, shipment, wixPages, mlWrite, wixWrite);
      && (r.Fatal? || r.Finished?)
      && (deleteError.Some? ==> r.db == db)
      && (deleteError.None? && SyncsML(mode) && CollectMLSpec(mlReplies, refresh).Threw? ==>
            r.db == DeleteRows(db, DeletedChannels(mode)))
      && (forall row :: row in db && !Deleted(row, DeletedChannels(mode)) ==> row in r.db)
  {
    if deleteError.None? {
      var kept := DeleteRows(db, DeletedChannels(mode));
      var ml := if SyncsML(mode) then CollectMLSpec(mlReplies, refresh) else Fetched([], []);
      var wix := if SyncsWix(mode) then WixFrom(wixPages, None, DateFrom, DateTo) else Fetched([], []);
      if ml.Fetched? && wix.Fetched? {
        WriteBothSpec(EnrichML(ml.items, shipment), Map(wix.items, NormalizeWixOrder), kept, mlWrite, wixWrite);
      }
    }
  }

  /** A finished run writes back exactly what it downloaded: the Mercado Libre orders
      when the mode includes that channel, and the Wix orders of the period, every one
      created between the two dates. */
  lemma FinishedSpec(mode: Mode, db: seq<Row>, deleteError: Option<Option<string>>,
                     mlReplies: seq<MLSearch>, refresh: nat -> Option<string>,
                     shipment: string -> ShipmentReply, wixPages: seq<WixSearch>,
                     mlWrite: nat -> Option<string>, wixWrite: nat -> Option<string>)
    ensures var r := AfterQuestion(mode, db, deleteError, mlReplies, refresh, shipment, wixPages, mlWrite, wixWrite);
      var wix := WixFrom(wixPages, None, DateFrom, DateTo);
      && (r.Finished? ==> r.mlCount == if SyncsML(mode) then |CollectMLSpec(mlReplies, refresh).items| else 0)
      && (r.Finished? ==> r.wixCount == if SyncsWix(mode) then |wix.items| else 0)
      && (r.Finished? && SyncsWix(mode) ==> forall i :: 0 <= i < |wix.items| ==> InWindow(wix.items[i], DateFrom, DateTo))
  {
    if deleteError.None? {
      var kept := DeleteRows(db, DeletedChannels(mode));
      var ml := if SyncsML(mode) then CollectMLSpec(mlReplies, refresh) else Fetched([], []);
      var wix := if SyncsWix(mode) then WixFrom(wixPages, None, DateFrom, DateTo) else Fetched([], []);
      WixFromInWindow(wixPages, None, DateFrom, DateTo);
      if ml.Fetched? && wix.Fetched? {
        WriteBothSpec(EnrichML(ml.items, shipment), Map(wix.items, NormalizeWixOrder), kept, mlWrite, wixWrite);
      }
    }
  }
}
