// scripts/sync-ml-all-statuses.mjs: recompute the status of every stored Mercado
// Libre order from the order and shipment state, and write only the changed ones.
module SyncMLAllStatuses {
  import opened Wrappers
  import opened Text
  import opened OrderModel
  import opened MLApi
  import Paging
  import Batches

  /** `mapMLStatus(orderStatus, shipmentStatus, shipmentSubstatus)`. */
  function MapMLStatus(orderStatus: Option<string>, shipStatus: Option<string>, substatus: Option<string>): (r: OrderStatus)
    ensures orderStatus == Some("cancelled") ==> r == Cancelado
  {
    if orderStatus == Some("cancelled") then Cancelado
    else if shipStatus == Some("delivered") then Entregado
    else if shipStatus == Some("shipped") then Enviado
    else if shipStatus == Some("cancelled") || shipStatus == Some("returned") then Cancelado
    else if shipStatus == Some("handling") then Preparando
    else if shipStatus == Some("ready_to_ship") then
      if substatus == Some("ready_to_print") then Nuevo else Preparando
    else Nuevo
  }

  /** The shipment table for an order that is not cancelled. */
  lemma MapMLStatusTable(o: Option<string>, s: Option<string>, sub: Option<string>)
    requires o != Some("cancelled")
    ensures s == Some("delivered") ==> MapMLStatus(o, s, sub) == Entregado
    ensures s == Some("shipped") ==> MapMLStatus(o, s, sub) == Enviado
    ensures s == Some("cancelled") || s == Some("returned") ==> MapMLStatus(o, s, sub) == Cancelado
    ensures s == Some("handling") ==> MapMLStatus(o, s, sub) == Preparando
    ensures s == Some("ready_to_ship") ==>
      MapMLStatus(o, s, sub) == (if sub == Some("ready_to_print") then Nuevo else Preparando)
    ensures s.None? ==> MapMLStatus(o, s, sub) == Nuevo
  {
  }

  /** Entregado and Enviado come only from the shipment; Cancelado comes from the order
      or from a cancelled or returned shipment. */
  lemma MapMLStatusSources(o: Option<string>, s: Option<string>, sub: Option<string>)
    ensures MapMLStatus(o, s, sub) == Entregado <==> o != Some("cancelled") && s == Some("delivered")
    ensures MapMLStatus(o, s, sub) == Enviado <==> o != Some("cancelled") && s == Some("shipped")
    ensures MapMLStatus(o, s, sub) == Cancelado <==>
      o == Some("cancelled") || s == Some("cancelled") || s == Some("returned")
  {
  }

  const PageSize: nat := 1000
  const Batch: nat := 5

  /** The columns `fetchPage` selects. */
  datatype StoredRow = StoredRow(id: string, orderId: string, shippingId: Option<string>, status: string)

  datatype Shipment = Shipment(status: Option<string>, substatus: Option<string>)

  /** The remote answers: `order(orderId)` and `shipment(shippingId)` give the answer
      for a token, `refresh` the token the OAuth endpoint hands out (None when it
      fails), `patchOk(id)` whether the Supabase PATCH succeeds. */
  datatype Apis = Apis(
    order: string -> string -> Reply<Option<string>>,
    shipment: string -> string -> Reply<Shipment>,
    refresh: Option<string>,
    patchOk: string -> bool)

  datatype Kind = Updated | Unchanged | Errored

  /** What happened to one order: the counter it bumps, the status PATCHed (if any)
      and whether the shipment was asked for. */
  datatype Outcome = Outcome(kind: Kind, patch: Option<OrderStatus>, askedShipment: bool)

  /** Step 4: compare, write unless dry run, and count. */
  function Decide(row: StoredRow, newStatus: OrderStatus, dryRun: bool, patchOk: bool, asked: bool): (o: Outcome)
    ensures o.askedShipment == asked
    ensures o.kind == Unchanged <==> StatusName(newStatus) == row.status
    ensures o.patch.Some? <==> StatusName(newStatus) != row.status && !dryRun
    ensures o.patch.Some? ==> o.patch.value == newStatus
    ensures o.kind == Errored <==> o.patch.Some? && !patchOk
  {
    if StatusName(newStatus) != row.status then
      if dryRun then Outcome(Updated, None, asked)
      else if patchOk then Outcome(Updated, Some(newStatus), asked)
      else Outcome(Errored, Some(newStatus), asked)
    else Outcome(Unchanged, None, asked)
  }

  /** The body of the per-order `try`, with the access token before and after. */
  function Step(row: StoredRow, token: string, apis: Apis, dryRun: bool): (r: (Outcome, string))
  {
    var oc := Fetch(apis.order(row.orderId), token, apis.refresh, true, true);
    if oc.result.Threw? then (Outcome(Errored, None, false), oc.token)
    else
      var st := oc.result.value;
      if st != Some("cancelled") && Truthy(row.shippingId) then
        var sc := Fetch(apis.shipment(row.shippingId.value), oc.token, apis.refresh, true, true);
        if sc.result.Threw? then (Outcome(Errored, None, true), sc.token)
        else
          var ship := sc.result.value;
          (Decide(row, MapMLStatus(st, ship.status, ship.substatus), dryRun, apis.patchOk(row.id), true), sc.token)
      else (Decide(row, MapMLStatus(st, None, None), dryRun, apis.patchOk(row.id), false), oc.token)
  }

  /** The shipment is asked for only when the order answered, is not cancelled and has a
      shipping id; a PATCH carries the recomputed status, only when it differs from the
      stored one and never in a dry run. */
  lemma StepSpec(row: StoredRow, token: string, apis: Apis, dryRun: bool)
    ensures var oc := Fetch(apis.order(row.orderId), token, apis.refresh, true, true);
      var o := Step(row, token, apis, dryRun).0;
      && (o.askedShipment <==> oc.result.Got? && oc.result.value != Some("cancelled") && Truthy(row.shippingId))
      && (o.patch.Some? ==> !dryRun && StatusName(o.patch.value) != row.status)
      && (o.patch.Some? && !o.askedShipment ==> o.patch.value == MapMLStatus(oc.result.value, None, None))
      && (dryRun ==> o.patch.None?)
      && (o.kind == Unchanged ==> o.patch.None?)
  {
  }

  /** `Step` as the per-order function of the batched loop. */
  function StepFn(apis: Apis, dryRun: bool): (StoredRow, string) -> (Outcome, string) {
    (row, token) => Step(row, token, apis, dryRun)
  }

  datatype Counters = Counters(updated: nat, untouched: nat, errors: nat)

  function Bump(c: Counters, k: Kind): Counters {
    match k
    case Updated => c.(updated := c.updated + 1)
    case Unchanged => c.(untouched := c.untouched + 1)
    case Errored => c.(errors := c.errors + 1)
  }

  /** The counters after recording `outs` in order. */
  function Tally(c: Counters, outs: seq<Outcome>): (r: Counters)
    ensures r.updated + r.untouched + r.errors == c.updated + c.untouched + c.errors + |outs|
  {
    if outs == [] then c else Bump(Tally(c, outs[..|outs| - 1]), outs[|outs| - 1].kind)
  }

  /** The counters partition the processed orders, one bump per order. */
  lemma {:induction false} TallyPartition(outs: seq<Outcome>)
    ensures var t := Tally(Counters(0, 0, 0), outs);
      && t.updated == |set i | 0 <= i < |outs| && outs[i].kind == Updated|
      && t.updated + t.untouched + t.errors == |outs|
  {
    if outs != [] {
      var init := outs[..|outs| - 1];
      TallyPartition(init);
      var s := set i | 0 <= i < |init| && init[i].kind == Updated;
      var s' := set i | 0 <= i < |outs| && outs[i].kind == Updated;
      if outs[|outs| - 1].kind == Updated {
        assert s' == s + {|outs| - 1};
      } else {
        assert s' == s;
      }
    }
  }

  lemma TallySnoc(c: Counters, outs: seq<Outcome>, o: Outcome)
    ensures Tally(c, outs + [o]) == Bump(Tally(c, outs), o.kind)
  {
    assert (outs + [o])[..|outs|] == outs;
  }

  /** `processOrders(orders, counters)`: batches of five, each order on its own; every
      outcome bumps one counter of the object passed in. */
  method ProcessOrders(orders: seq<StoredRow>, counters: Counters, token: string, apis: Apis, dryRun: bool)
    returns (after: Counters, outcomes: seq<Outcome>, tokenAfter: string)
    ensures (outcomes, tokenAfter) == Batches.RunAll(orders, token, StepFn(apis, dryRun))
    ensures after == Tally(counters, outcomes)
  {
    outcomes, tokenAfter := Batches.RunBatches(orders, Batch, token, StepFn(apis, dryRun));
    after := counters;
    var i := 0;
    while i < |outcomes|
      invariant i <= |outcomes| && after == Tally(counters, outcomes[..i])
    {
      TallySnoc(counters, outcomes[..i], outcomes[i]);
      PrefixNext(outcomes, i);
      after := Bump(after, outcomes[i].kind);
      i := i + 1;
    }
    assert outcomes[..i] == outcomes;
  }

  datatype ScriptEnv = ScriptEnv(
    supabaseUrl: Option<string>,
    supabaseKey: Option<string>,
    accessToken: Option<string>,
    refreshToken: Option<string>)

  datatype RunResult =
    | MissingConfig              // `process.exit(1)` before any request
    | ReadFailed                 // a page read answered neither OK nor 416: `main().catch` exits 1
    | NothingToDo                // no stored Mercado Libre orders
    | Finished(counters: Counters, outcomes: seq<Outcome>)

  /** `main`: configuration check, collection, processing; `fails(k)` says that the k-th
      page read throws. */
  method Run(env: ScriptEnv, pages: seq<seq<StoredRow>>, fails: nat -> bool, apis: Apis, dryRun: bool) returns (r: RunResult)
    ensures !(Truthy(env.supabaseUrl) && Truthy(env.supabaseKey) && Truthy(env.accessToken) && Truthy(env.refreshToken))
            <==> r == MissingConfig
    ensures r == ReadFailed <==>
      r != MissingConfig && exists j :: 0 <= j < Paging.Requests(pages, 1000, 0) && fails(j)
    ensures r == NothingToDo <==>
      r != MissingConfig && r != ReadFailed && Paging.CollectFrom(pages, 1000, 0) == []
    ensures r.Finished? ==>
      var orders := Paging.CollectFrom(pages, 1000, 0);
      && r.outcomes == Batches.RunAll(orders, env.accessToken.value, StepFn(apis, dryRun)).0
      && r.counters == Tally(Counters(0, 0, 0), r.outcomes)
      && r.counters.updated + r.counters.untouched + r.counters.errors == |orders|
  {
    if !Truthy(env.supabaseUrl) || !Truthy(env.supabaseKey) {
      return MissingConfig;
    }
    if !Truthy(env.accessToken) || !Truthy(env.refreshToken) {
      return MissingConfig;
    }
    var read, _ := Paging.CollectAll(pages, PageSize, fails);
    Paging.CollectOrFailSpec(pages, PageSize, fails, 0);
    if read.None? {
      return ReadFailed;
    }
    var orders := read.value;
    if |orders| == 0 {
      return NothingToDo;
    }
    var counters, outcomes, _ := ProcessOrders(orders, Counters(0, 0, 0), env.accessToken.value, apis, dryRun);
    r := Finished(counters, outcomes);
  }
}
