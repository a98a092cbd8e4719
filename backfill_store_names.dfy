// scripts/backfill-store-names.mjs: fill `store_id` and `store_name` of the stored
// Mercado Libre orders that have none, from the store of their first order item.
module BackfillStoreNames {
  import opened Wrappers
  import opened Text
  import opened MLApi
  import Paging
  import Batches

  /** `ML_STORE_MAP`: the four known stores. */
  function StoreName(storeId: string): (r: Option<string>)
    ensures r.Some? <==> storeId in {"76644462", "71348293", "71843625", "71348291"}
  {
    if storeId == "76644462" then Some("MEDELLÍN")
    else if storeId == "71348293" then Some("AVENIDA 19")
    else if storeId == "71843625" then Some("CEDI")
    else if storeId == "71348291" then Some("BULEVAR")
    else None
  }

  lemma StoreMapTable()
    ensures StoreName("76644462") == Some("MEDELLÍN")
    ensures StoreName("71348293") == Some("AVENIDA 19")
    ensures StoreName("71843625") == Some("CEDI")
    ensures StoreName("71348291") == Some("BULEVAR")
  {
  }

  const PageSize: nat := 1000
  const Batch: nat := 5

  /** A stored order, with the columns the script reads and writes. */
  datatype StoredOrder = StoredOrder(
    id: string, orderId: string, channel: string,
    storeId: Option<string>, storeName: Option<string>)

  /** The filter of `fetchPageWithoutStore`: Mercado Libre orders with no store id. */
  predicate IsPending(row: StoredOrder) {
    row.channel == "mercadolibre" && row.storeId.None?
  }

  function Pending(table: seq<StoredOrder>): (r: seq<StoredOrder>)
    ensures |r| <= |table|
    ensures forall x :: x in r <==> x in table && IsPending(x)
  {
    if table == [] then []
    else
      var rest := Pending(table[1..]);
      assert table == [table[0]] + table[1..];
      if IsPending(table[0]) then [table[0]] + rest else rest
  }

  /** Phase 1: the pending rows, paged by 1000 until an empty or short page. */
  function Collected(table: seq<StoredOrder>): seq<StoredOrder> {
    Paging.CollectFrom(Paging.Chunks(Pending(table), 1000), 1000, 0)
  }

  lemma CollectedIsPending(table: seq<StoredOrder>)
    ensures Collected(table) == Pending(table)
  {
    Paging.CollectChunks(Pending(table), 1000);
  }

  /** `order(orderId)`: the answer for a token, whose body is
      `order_items[0].stock.store_id` as a string (None when absent); `refresh` the
      refreshed token (None when the refresh fails); `patchOk(id)` whether the
      PATCH succeeds. */
  datatype Apis = Apis(
    order: string -> string -> Reply<Option<string>>,
    refresh: Option<string>,
    patchOk: string -> bool)

  datatype Kind = Updated | Skipped | Errored

  /** The counter an order bumps and the PATCH it sends, as (row id, store_id, store_name). */
  datatype Outcome = Outcome(kind: Kind, write: Option<(string, string, Option<string>)>)

  /** The body of the per-order callback of phase 2. */
  function Step(row: StoredOrder, token: string, apis: Apis): (r: (Outcome, string))
  {
    var c := Fetch(apis.order(row.orderId), token, apis.refresh, true, true);
    if c.result.Threw? then (Outcome(Errored, None), c.token)
    else
      var rawStoreId := c.result.value;
      if !Truthy(rawStoreId) then (Outcome(Skipped, None), c.token)
      else
        var write := (row.id, rawStoreId.value, StoreName(rawStoreId.value));
        (Outcome(if apis.patchOk(row.id) then Updated else Errored, Some(write)), c.token)
  }

  /** No store id means no write; a write carries the raw id and its mapped name (null
      for an unknown store), and succeeds exactly for the updated orders. */
  lemma StepSpec(row: StoredOrder, token: string, apis: Apis)
    ensures var c := Fetch(apis.order(row.orderId), token, apis.refresh, true, true);
      var o := Step(row, token, apis).0;
      && (o.kind == Skipped <==> c.result.Got? && !Truthy(c.result.value))
      && (o.write.Some? <==> c.result.Got? && Truthy(c.result.value))
      && (o.write.Some? ==> o.write.value == (row.id, c.result.value.value, StoreName(c.result.value.value)))
      && (o.kind == Updated <==> o.write.Some? && apis.patchOk(row.id))
  {
  }

  function StepFn(apis: Apis): (StoredOrder, string) -> (Outcome, string) {
    (row, token) => Step(row, token, apis)
  }

  datatype Counters = Counters(updated: nat, skipped: nat, errors: nat)

  function Bump(c: Counters, k: Kind): Counters {
    match k
    case Updated => c.(updated := c.updated + 1)
    case Skipped => c.(skipped := c.skipped + 1)
    case Errored => c.(errors := c.errors + 1)
  }

  /** The counters after the outcomes, in order. */
  function Tally(outs: seq<Outcome>): (r: Counters)
    ensures r.updated + r.skipped + r.errors == |outs|
  {
    if outs == [] then Counters(0, 0, 0) else Bump(Tally(outs[..|outs| - 1]), outs[|outs| - 1].kind)
  }

  lemma TallySnoc(outs: seq<Outcome>, o: Outcome)
    ensures Tally(outs + [o]) == Bump(Tally(outs), o.kind)
  {
    assert (outs + [o])[..|outs|] == outs;
  }

  datatype ScriptEnv = ScriptEnv(
    supabaseUrl: Option<string>,
    supabaseKey: Option<string>,
    accessToken: Option<string>,
    refreshToken: Option<string>)

  datatype RunResult =
    | MissingConfig                      // `process.exit(1)`
    | ReadFailed                         // a page read answered neither OK nor 416: exit 1
    | NothingPending                     // no pending rows
    | Done(counters: Counters, outcomes: seq<Outcome>)

  /** `main`; `fails(k)` says that the k-th page read of the pending rows throws. */
  method Run(env: ScriptEnv, table: seq<StoredOrder>, fails: nat -> bool, apis: Apis) returns (r: RunResult)
    ensures r == MissingConfig <==>
      !(Truthy(env.supabaseUrl) && Truthy(env.supabaseKey) && Truthy(env.accessToken) && Truthy(env.refreshToken))
    ensures r == ReadFailed <==>
      r != MissingConfig && exists j :: 0 <= j < Paging.Requests(Paging.Chunks(Pending(table), 1000), 1000, 0) && fails(j)
    ensures r == NothingPending <==> r != MissingConfig && r != ReadFailed && Pending(table) == []
    ensures r.Done? ==>
      && r.outcomes == Batches.RunAll(Pending(table), env.accessToken.value, StepFn(apis)).0
      && r.counters == Tally(r.outcomes)
      && r.counters.updated + r.counters.skipped + r.counters.errors == |Pending(table)|
  {
    if !Truthy(env.supabaseUrl) || !Truthy(env.supabaseKey) {
      return MissingConfig;
    }
    if !Truthy(env.accessToken) || !Truthy(env.refreshToken) {
      return MissingConfig;
    }
    var read, _ := Paging.CollectAll(Paging.Chunks(Pending(table), PageSize), PageSize, fails);
    Paging.CollectOrFailSpec(Paging.Chunks(Pending(table), PageSize), PageSize, fails, 0);
    CollectedIsPending(table);
    if read.None? {
      return ReadFailed;
    }
    var allPending := read.value;
    if |allPending| == 0 {
      return NothingPending;
    }
    var outcomes, _ := Batches.RunBatches(allPending, Batch, env.accessToken.value, StepFn(apis));
    var counters := Count(outcomes);
    r := Done(counters, outcomes);
  }

  /** The counters `main` keeps while the results come in. */
  method Count(outcomes: seq<Outcome>) returns (counters: Counters)
    ensures counters == Tally(outcomes)
  {
    counters := Counters(0, 0, 0);
    var i := 0;
    while i < |outcomes|
      invariant i <= |outcomes| && counters == Tally(outcomes[..i])
    {
      TallySnoc(outcomes[..i], outcomes[i]);
      PrefixNext(outcomes, i);
      counters := Bump(counters, outcomes[i].kind);
      i := i + 1;
    }
    assert outcomes[..i] == outcomes;
  }

  /** The PATCHes that succeeded. */
  function Writes(outs: seq<Outcome>): (w: seq<(string, string, Option<string>)>)
    ensures forall x :: x in w <==> exists k :: 0 <= k < |outs| && outs[k].kind == Updated && outs[k].write == Some(x)
  {
    if outs == [] then []
    else
      var rest := Writes(outs[1..]);
      assert forall k :: 1 <= k < |outs| ==> outs[k] == outs[1..][k - 1];
      assert forall k :: 0 <= k < |outs| - 1 ==> outs[1..][k] == outs[k + 1];
      if outs[0].kind == Updated && outs[0].write.Some? then [outs[0].write.value] + rest else rest
  }

  /** `updateOrderStore(id, storeId, storeName)` on the table. */
  function Patch(table: seq<StoredOrder>, w: (string, string, Option<string>)): (t: seq<StoredOrder>)
    ensures |t| == |table|
    ensures forall i :: 0 <= i < |t| ==>
      t[i] == if table[i].id == w.0 then table[i].(storeId := Some(w.1), storeName := w.2) else table[i]
  {
    seq(|table|, i requires 0 <= i < |table| =>
      if table[i].id == w.0 then table[i].(storeId := Some(w.1), storeName := w.2) else table[i])
  }

  function ApplyAll(table: seq<StoredOrder>, writes: seq<(string, string, Option<string>)>): (t: seq<StoredOrder>)
    ensures |t| == |table|
    decreases |writes|
  {
    if writes == [] then table else ApplyAll(Patch(table, writes[0]), writes[1..])
  }

  ghost predicate ValidWrite(w: (string, string, Option<string>)) { w.1 != "" }

  /** After the writes, a row is pending exactly when it was pending and no write
      addressed it: a written store id is never empty, so the row leaves the set. */
  lemma {:induction false} PendingAfterWrites(table: seq<StoredOrder>, writes: seq<(string, string, Option<string>)>)
    requires forall w :: w in writes ==> ValidWrite(w)
    ensures forall i :: 0 <= i < |table| ==>
      (IsPending(ApplyAll(table, writes)[i]) <==> IsPending(table[i]) && forall w :: w in writes ==> w.0 != table[i].id)
    ensures forall i :: 0 <= i < |table| ==> ApplyAll(table, writes)[i].id == table[i].id
    decreases |writes|
  {
    if writes != [] {
      var p := Patch(table, writes[0]);
      assert forall w :: w in writes[1..] ==> w in writes;
      PendingAfterWrites(p, writes[1..]);
      forall i | 0 <= i < |table|
        ensures (forall w :: w in writes ==> w.0 != table[i].id)
                <==> writes[0].0 != table[i].id && forall w :: w in writes[1..] ==> w.0 != table[i].id
      {
        assert writes == [writes[0]] + writes[1..];
      }
    }
  }

  /** The writes of a run: each addresses a pending row and carries a non-empty store id. */
  lemma RunWritesPending(table: seq<StoredOrder>, token: string, apis: Apis)
    ensures var outs := Batches.RunAll(Pending(table), token, StepFn(apis)).0;
      forall w :: w in Writes(outs) ==> ValidWrite(w) && exists x :: x in Pending(table) && x.id == w.0
  {
    var rows := Pending(table);
    var outs := Batches.RunAll(rows, token, StepFn(apis)).0;
    forall w | w in Writes(outs) ensures ValidWrite(w) && exists x :: x in rows && x.id == w.0 {
      var k :| 0 <= k < |outs| && outs[k].kind == Updated && outs[k].write == Some(w);
      Batches.RunAllEach(rows, token, StepFn(apis), k);
      StepSpec(rows[k], Batches.RunAll(rows[..k], token, StepFn(apis)).1, apis);
      assert rows[k] in rows;
    }
  }

  ghost predicate DistinctIds(table: seq<StoredOrder>) {
    forall i, j :: 0 <= i < j < |table| ==> table[i].id != table[j].id
  }

  /** Rerunning is safe: with ids unique, a row that already had a store (or is not a
      Mercado Libre order) is left exactly as it was, and every row updated by the run
      is no longer pending. */
  lemma Idempotent(table: seq<StoredOrder>, token: string, apis: Apis)
    requires DistinctIds(table)
    ensures var after := ApplyAll(table, Writes(Batches.RunAll(Pending(table), token, StepFn(apis)).0));
      forall i :: 0 <= i < |table| ==>
        && (!IsPending(table[i]) ==> after[i] == table[i])
        && (IsPending(after[i]) ==> IsPending(table[i]))
  {
    var writes := Writes(Batches.RunAll(Pending(table), token, StepFn(apis)).0);
    RunWritesPending(table, token, apis);
    PendingAfterWrites(table, writes);
    forall i | 0 <= i < |table| && !IsPending(table[i])
      ensures forall w :: w in writes ==> w.0 != table[i].id
    {
      forall w | w in writes ensures w.0 != table[i].id {
        var x :| x in Pending(table) && x.id == w.0;
        var j :| 0 <= j < |table| && table[j] == x;
        assert j != i;
      }
    }
    UntouchedRows(table, writes);
  }

  /** A write addresses rows by id only. */
  lemma {:induction false} UntouchedRows(table: seq<StoredOrder>, writes: seq<(string, string, Option<string>)>)
    ensures forall i :: 0 <= i < |table| && (forall w :: w in writes ==> w.0 != table[i].id) ==>
      ApplyAll(table, writes)[i] == table[i]
    decreases |writes|
  {
    if writes != [] {
      var p := Patch(table, writes[0]);
      assert forall w :: w in writes[1..] ==> w in writes;
      UntouchedRows(p, writes[1..]);
    }
  }
}
