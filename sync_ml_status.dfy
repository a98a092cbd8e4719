// api/sync-ml-status.js: the endpoint that marks as entregado the pending Mercado
// Libre orders whose shipment reports `delivered`, behind an optional cron secret.
module SyncMLStatus {
  import opened Wrappers
  import opened Text
  import opened MLApi
  import Batches

  /** The request: its Authorization header and the two optional body fields. */
  datatype Request = Request(authorization: Option<string>, daysBack: Option<int>, dryRun: Option<bool>)

  datatype Env = Env(
    cronSecret: Option<string>,
    supabaseUrl: Option<string>,
    supabaseKey: Option<string>,
    accessToken: Option<string>,
    refreshToken: Option<string>)

  /** The auth gate: with a cron secret configured, the header (or "" when absent)
      must be exactly `Bearer <secret>`. */
  predicate Authorized(cronSecret: Option<string>, authorization: Option<string>) {
    !Truthy(cronSecret) || Or(authorization, "") == "Bearer " + cronSecret.value
  }

  /** Only the exact header passes: a missing header never does. */
  lemma AuthorizedExactly(cronSecret: Option<string>, authorization: Option<string>)
    ensures Authorized(cronSecret, authorization) <==>
      cronSecret.None? || cronSecret == Some("") || authorization == Some("Bearer " + cronSecret.value)
  {
    if Truthy(cronSecret) && authorization.None? {
      assert |"Bearer " + cronSecret.value| > 0;
    }
  }

  /** `days_back = 60` and `dry_run = false` apply when the field is absent. */
  function DaysBack(req: Request): (d: int)
    ensures req.daysBack.None? ==> d == 60
    ensures req.daysBack.Some? ==> d == req.daysBack.value
  {
    req.daysBack.GetOr(60)
  }

  function DryRun(req: Request): (b: bool)
    ensures b <==> req.dryRun == Some(true)
  {
    req.dryRun.GetOr(false)
  }

  /** The lower bound of the query, in milliseconds: `now − days_back` days. */
  function DateFrom(now: int, daysBack: int): (t: int)
    ensures daysBack >= 0 ==> t <= now
    ensures t + daysBack * 86400000 == now
  {
    now - daysBack * 86400000
  }

  lemma DefaultWindow(now: int, req: Request)
    requires req.daysBack.None?
    ensures DateFrom(now, DaysBack(req)) == now - 5184000000
  {
  }

  /** A stored order with the columns `fetchPendingOrders` filters on. */
  datatype Row = Row(id: string, orderId: string, shippingId: Option<string>,
                     channel: string, status: string, orderDate: int)

  /** The query: Mercado Libre, not entregado, not cancelado, dated from `dateFrom` on. */
  predicate Matches(row: Row, dateFrom: int) {
    row.channel == "mercadolibre" && row.status != "entregado" && row.status != "cancelado"
    && row.orderDate >= dateFrom
  }

  function Filter(rows: seq<Row>, dateFrom: int): (r: seq<Row>)
    ensures |r| <= |rows|
    ensures forall x :: x in r <==> x in rows && Matches(x, dateFrom)
  {
    if rows == [] then []
    else
      var rest := Filter(rows[1..], dateFrom);
      assert rows == [rows[0]] + rows[1..];
      if Matches(rows[0], dateFrom) then [rows[0]] + rest else rest
  }

  /** The `Range: 0-4999` header: at most the first 5000 matching rows. */
  const RangeSize: nat := 5000

  function Pending(rows: seq<Row>, dateFrom: int): (r: seq<Row>)
    ensures |r| <= 5000
    ensures forall x :: x in r ==> x in rows && Matches(x, dateFrom)
    ensures |Filter(rows, dateFrom)| <= 5000 ==> r == Filter(rows, dateFrom)
  {
    var all := Filter(rows, dateFrom);
    if |all| <= RangeSize then all else all[..RangeSize]
  }

  /** The storage answers: the listing (None is a non-OK answer with its status and
      text) and whether the PATCH of a row succeeds. */
  datatype Db = Db(table: seq<Row>, listFailure: Option<(nat, string)>, patchOk: string -> bool)

  /** `shipment(shippingId)` is the answer for a token, `refresh` the token the OAuth
      endpoint returns (None when it fails). */
  datatype Apis = Apis(shipment: string -> string -> Reply<Option<string>>, refresh: Option<string>)

  /** What `fetchShipmentStatus` hands back as `newToken`: as written, always null;
      propagated, the refreshed token after a successful retry. */
  datatype TokenRule = AsWritten | Propagated

  /** Why an order's `try` failed: the shipment request refused, the token refresh
      failed, or the PATCH failed. */
  datatype Cause = ShipmentRefused(status: nat) | RefreshFailed | UpdateFailed

  datatype Kind = Updated | Skipped | Failed(orderId: string, cause: Cause)

  /** The effect of one iteration: the counter it bumps (or the error it records),
      whether the row was written, and how many token refreshes it made. */
  datatype Outcome = Outcome(kind: Kind, written: bool, refreshes: nat)

  /** `newToken` of one `fetchShipmentStatus` call. */
  function NewToken(c: Call<Option<string>>, rule: TokenRule): (t: Option<string>)
    ensures rule == AsWritten ==> t.None?
    ensures t.Some? ==> t.value == c.token && c.refreshes == 1
  {
    if rule == Propagated && c.result.Got? && c.refreshes == 1 then Some(c.token) else None
  }

  /** One iteration of the `for (const order of orders)` loop, with the access token
      before and after. `refreshable` is whether VITE_ML_REFRESH_TOKEN is set. */
  function Step(row: Row, token: string, apis: Apis, refreshable: bool, dryRun: bool, patchOk: string -> bool,
                rule: TokenRule): (r: (Outcome, string))
  {
    if !Truthy(row.shippingId) then (Outcome(Skipped, false, 0), token)
    else
      var c := Fetch(apis.shipment(row.shippingId.value), token, apis.refresh, refreshable, true);
      if c.result.Threw? then
        var cause := if c.requests == 1 && c.refreshes == 1 then RefreshFailed
                     else ShipmentRefused(apis.shipment(row.shippingId.value)(c.token).status);
        (Outcome(Failed(row.orderId, cause), false, c.refreshes), token)
      else
        var next := NewToken(c, rule).GetOr(token);
        if c.result.value == Some("delivered") then
          if dryRun then (Outcome(Updated, false, c.refreshes), next)
          else if patchOk(row.id) then (Outcome(Updated, true, c.refreshes), next)
          else (Outcome(Failed(row.orderId, UpdateFailed), true, c.refreshes), next)
        else (Outcome(Skipped, false, c.refreshes), next)
  }

  /** The shipment of a row with a shipping id answered `delivered`. */
  predicate Delivered(row: Row, token: string, apis: Apis, refreshable: bool)
    requires Truthy(row.shippingId)
  {
    Fetch(apis.shipment(row.shippingId.value), token, apis.refresh, refreshable, true).result == Got(Some("delivered"))
  }

  /** The shipment of a row with a shipping id answered at all. */
  predicate Answered(row: Row, token: string, apis: Apis, refreshable: bool)
    requires Truthy(row.shippingId)
  {
    Fetch(apis.shipment(row.shippingId.value), token, apis.refresh, refreshable, true).result.Got?
  }

  /** An order without a shipping id is skipped with no request; `delivered` counts as
      updated, written unless dry run; any other status is skipped; a failure records
      the order and counts in neither `updated` nor `skipped`. */
  lemma StepSpec(row: Row, token: string, apis: Apis, refreshable: bool, dryRun: bool, patchOk: string -> bool,
                 rule: TokenRule)
    ensures var o := Step(row, token, apis, refreshable, dryRun, patchOk, rule).0;
      && (!Truthy(row.shippingId) ==> o == Outcome(Skipped, false, 0))
      && (o.kind == Updated ==>
            Truthy(row.shippingId) && Delivered(row, token, apis, refreshable))
      && (Truthy(row.shippingId) && Delivered(row, token, apis, refreshable) && (dryRun || patchOk(row.id)) ==>
            o.kind == Updated)
      && (Truthy(row.shippingId) && Answered(row, token, apis, refreshable) && !Delivered(row, token, apis, refreshable) ==>
            o.kind == Skipped)
      && (o.written <==>
            o.kind != Skipped && !dryRun && Truthy(row.shippingId) && Delivered(row, token, apis, refreshable))
      && (o.kind == Updated && !dryRun ==> o.written && patchOk(row.id))
      && (dryRun ==> !o.written && o.kind != Failed(row.orderId, UpdateFailed))
      && (o.kind.Failed? ==> o.kind.orderId == row.orderId)
      && o.refreshes <= 1
  {
  }

  /** A token is replaced only under the propagating rule and only by a refresh. */
  lemma StepToken(row: Row, token: string, apis: Apis, refreshable: bool, dryRun: bool, patchOk: string -> bool,
                  rule: TokenRule)
    ensures var r := Step(row, token, apis, refreshable, dryRun, patchOk, rule);
      r.1 != token ==> rule == Propagated && r.0.refreshes == 1 && Some(r.1) == apis.refresh
  {
  }

  function StepFn(apis: Apis, refreshable: bool, dryRun: bool, patchOk: string -> bool, rule: TokenRule)
    : (Row, string) -> (Outcome, string)
  {
    (row, token) => Step(row, token, apis, refreshable, dryRun, patchOk, rule)
  }

  /** `totalUpdated`, `totalSkipped` and `errors`. */
  datatype Counters = Counters(updated: nat, skipped: nat, errors: seq<(string, Cause)>)

  function Bump(c: Counters, k: Kind): Counters {
    match k
    case Updated => c.(updated := c.updated + 1)
    case Skipped => c.(skipped := c.skipped + 1)
    case Failed(id, cause) => c.(errors := c.errors + [(id, cause)])
  }

  /** The counters after the outcomes, in order. */
  function Tally(outs: seq<Outcome>): (r: Counters)
    ensures r.updated + r.skipped + |r.errors| == |outs|
  {
    if outs == [] then Counters(0, 0, []) else Bump(Tally(outs[..|outs| - 1]), outs[|outs| - 1].kind)
  }

  /** The error list holds the failed orders, in loop order. */
  lemma TallyErrors(outs: seq<Outcome>)
    ensures |Tally(outs).errors| == |set i | 0 <= i < |outs| && outs[i].kind.Failed?|
    ensures forall e :: e in Tally(outs).errors ==>
      exists i :: 0 <= i < |outs| && outs[i].kind == Failed(e.0, e.1)
  {
    TallyErrorCount(outs);
    TallyErrorSources(outs);
  }

  lemma {:induction false} TallyErrorCount(outs: seq<Outcome>)
    ensures |Tally(outs).errors| == |set i | 0 <= i < |outs| && outs[i].kind.Failed?|
  {
    if outs != [] {
      var init := outs[..|outs| - 1];
      TallyErrorCount(init);
      var s := set i | 0 <= i < |init| && init[i].kind.Failed?;
      var s' := set i | 0 <= i < |outs| && outs[i].kind.Failed?;
      if outs[|outs| - 1].kind.Failed? {
        assert s' == s + {|outs| - 1};
      } else {
        assert s' == s;
      }
    }
  }

  lemma {:induction false} TallyErrorSources(outs: seq<Outcome>)
    ensures forall e :: e in Tally(outs).errors ==>
      exists i :: 0 <= i < |outs| && outs[i].kind == Failed(e.0, e.1)
  {
    if outs != [] {
      var init := outs[..|outs| - 1];
      TallyErrorSources(init);
      forall e | e in Tally(outs).errors
        ensures exists i :: 0 <= i < |outs| && outs[i].kind == Failed(e.0, e.1)
      {
        if e in Tally(init).errors {
          var i :| 0 <= i < |init| && init[i].kind == Failed(e.0, e.1);
          assert outs[i] == init[i];
        }
      }
    }
  }

  lemma TallySnoc(outs: seq<Outcome>, o: Outcome)
    ensures Tally(outs + [o]) == Bump(Tally(outs), o.kind)
  {
    assert (outs + [o])[..|outs|] == outs;
  }

  datatype Body =
    | ErrorBody(message: string)
    | Summary(dryRun: bool, daysBack: int, updated: nat, skipped: nat, errors: Option<seq<(string, Cause)>>)

  datatype Response = Response(status: nat, body: Body)

  /** The 200 answer for the counters: `errors` only when there are some. */
  function SummaryOf(dryRun: bool, daysBack: int, c: Counters): (r: Response)
    ensures r.status == 200 && r.body.Summary? && r.body.updated == c.updated && r.body.skipped == c.skipped
    ensures r.body.Summary? && (r.body.errors.None? <==> c.errors == [])
    ensures r.body.Summary? && (r.body.errors.Some? ==> r.body.errors.value == c.errors)
  {
    Response(200, Summary(dryRun, daysBack, c.updated, c.skipped, if |c.errors| > 0 then Some(c.errors) else None))
  }

  /** The orders the loop visits for this request. */
  function Orders(req: Request, now: int, db: Db): seq<Row> {
    Pending(db.table, DateFrom(now, DaysBack(req)))
  }

  /** `handler`; `now` is `Date.now()`. */
  method Handler(req: Request, env: Env, now: int, db: Db, apis: Apis, rule: TokenRule) returns (resp: Response)
    ensures !Authorized(env.cronSecret, req.authorization) <==> resp == Response(401, ErrorBody("Unauthorized"))
    ensures Authorized(env.cronSecret, req.authorization) && !(Truthy(env.supabaseUrl) && Truthy(env.supabaseKey))
            ==> resp == Response(500, ErrorBody("Faltan variables de Supabase"))
    ensures Authorized(env.cronSecret, req.authorization) && Truthy(env.supabaseUrl) && Truthy(env.supabaseKey)
            && !Truthy(env.accessToken)
            ==> resp == Response(500, ErrorBody("Falta VITE_ML_ACCESS_TOKEN"))
    ensures Authorized(env.cronSecret, req.authorization) && Truthy(env.supabaseUrl) && Truthy(env.supabaseKey)
            && Truthy(env.accessToken) && db.listFailure.Some?
            ==> resp == Response(500, ErrorBody("Supabase " + NatToString(db.listFailure.value.0) + ": "
                                                + db.listFailure.value.1))
    ensures resp.status == 200 <==>
      Authorized(env.cronSecret, req.authorization) && Truthy(env.supabaseUrl) && Truthy(env.supabaseKey)
      && Truthy(env.accessToken) && db.listFailure.None?
    ensures resp.status == 200 ==>
      var outs := Batches.RunAll(Orders(req, now, db), env.accessToken.value,
                                 StepFn(apis, Truthy(env.refreshToken), DryRun(req), db.patchOk, rule)).0;
      resp == SummaryOf(DryRun(req), DaysBack(req), Tally(outs))
  {
    if Truthy(env.cronSecret) {
      var auth := Or(req.authorization, "");
      if auth != "Bearer " + env.cronSecret.value {
        return Response(401, ErrorBody("Unauthorized"));
      }
    }
    if !Truthy(env.supabaseUrl) || !Truthy(env.supabaseKey) {
      return Response(500, ErrorBody("Faltan variables de Supabase"));
    }
    var daysBack := DaysBack(req);
    var dryRun := DryRun(req);
    if !Truthy(env.accessToken) {
      return Response(500, ErrorBody("Falta VITE_ML_ACCESS_TOKEN"));
    }
    var accessToken := env.accessToken.value;
    var dateFrom := DateFrom(now, daysBack);
    if db.listFailure.Some? {
      return Response(500, ErrorBody("Supabase " + NatToString(db.listFailure.value.0) + ": " + db.listFailure.value.1));
    }
    var orders := Pending(db.table, dateFrom);
    var step := StepFn(apis, Truthy(env.refreshToken), dryRun, db.patchOk, rule);
    ghost var whole := Batches.RunAll(orders, accessToken, step);
    var counters := Counters(0, 0, []);
    ghost var outs: seq<Outcome> := [];
    var j := 0;
    while j < |orders|
      invariant j <= |orders|
      invariant outs + Batches.RunAll(orders[j..], accessToken, step).0 == whole.0
      invariant Batches.RunAll(orders[j..], accessToken, step).1 == whole.1
      invariant counters == Tally(outs)
    {
      var st := Step(orders[j], accessToken, apis, Truthy(env.refreshToken), dryRun, db.patchOk, rule);
      Batches.KeepsRun(orders, j, accessToken, step, whole, outs);
      TallySnoc(outs, st.0);
      counters := Bump(counters, st.0.kind);
      outs := outs + [st.0];
      accessToken := st.1;
      j := j + 1;
    }
    assert orders[|orders|..] == [];
    assert outs == whole.0;
    resp := SummaryOf(dryRun, daysBack, counters);
  }

  /** The shipments refuse `expired` and accept `renewed`, which the refresh returns. */
  ghost predicate Expired(apis: Apis, expired: string, renewed: string) {
    apis.refresh == Some(renewed)
    && (forall s :: apis.shipment(s)(expired).status == 401)
    && (forall s :: Ok(apis.shipment(s)(renewed).status))
  }

  ghost predicate AllShipped(rows: seq<Row>) {
    forall k :: 0 <= k < |rows| ==> Truthy(rows[k].shippingId)
  }

  /** As written: with an expired access token, every order with a shipping id
      refreshes the token again and the loop's token never changes. */
  lemma {:induction false} AsWrittenRefreshesEveryOrder(rows: seq<Row>, expired: string, renewed: string, apis: Apis,
                                                        dryRun: bool, patchOk: string -> bool)
    requires Expired(apis, expired, renewed) && AllShipped(rows)
    ensures var run := Batches.RunAll(rows, expired, StepFn(apis, true, dryRun, patchOk, AsWritten));
      && run.1 == expired
      && forall k :: 0 <= k < |rows| ==> run.0[k].refreshes == 1
  {
    if rows != [] {
      var f := StepFn(apis, true, dryRun, patchOk, AsWritten);
      var api := apis.shipment(rows[0].shippingId.value);
      RefreshedToken(api, expired, renewed);
      assert f(rows[0], expired).1 == expired;
      assert AllShipped(rows[1..]) by {
        forall k | 0 <= k < |rows[1..]| ensures Truthy(rows[1..][k].shippingId) {
          assert rows[1..][k] == rows[k + 1];
        }
      }
      AsWrittenRefreshesEveryOrder(rows[1..], expired, renewed, apis, dryRun, patchOk);
    }
  }

  /** With a token every shipment accepts, no order refreshes and the token stays. */
  lemma {:induction false} AcceptedThroughout(rows: seq<Row>, renewed: string, apis: Apis, dryRun: bool,
                                              patchOk: string -> bool, rule: TokenRule)
    requires forall s :: Ok(apis.shipment(s)(renewed).status)
    ensures var run := Batches.RunAll(rows, renewed, StepFn(apis, true, dryRun, patchOk, rule));
      && run.1 == renewed
      && forall k :: 0 <= k < |rows| ==> run.0[k].refreshes == 0
  {
    if rows != [] {
      if Truthy(rows[0].shippingId) {
        AcceptedToken(apis.shipment(rows[0].shippingId.value), renewed, apis.refresh, true);
      }
      AcceptedThroughout(rows[1..], renewed, apis, dryRun, patchOk, rule);
    }
  }

  /** Propagating the refreshed token: the first order refreshes once, and the
      others reuse the new token without refreshing. */
  lemma PropagatedRefreshesOnce(rows: seq<Row>, expired: string, renewed: string, apis: Apis,
                                dryRun: bool, patchOk: string -> bool)
    requires Expired(apis, expired, renewed) && AllShipped(rows) && rows != []
    ensures var run := Batches.RunAll(rows, expired, StepFn(apis, true, dryRun, patchOk, Propagated));
      && run.1 == renewed
      && run.0[0].refreshes == 1
      && forall k :: 1 <= k < |rows| ==> run.0[k].refreshes == 0
  {
    var f := StepFn(apis, true, dryRun, patchOk, Propagated);
    RefreshedToken(apis.shipment(rows[0].shippingId.value), expired, renewed);
    assert f(rows[0], expired).1 == renewed;
    AcceptedThroughout(rows[1..], renewed, apis, dryRun, patchOk, Propagated);
    var rest := Batches.RunAll(rows[1..], renewed, f);
    forall k | 1 <= k < |rows| ensures Batches.RunAll(rows, expired, f).0[k].refreshes == 0 {
      assert Batches.RunAll(rows, expired, f).0[k] == rest.0[k - 1];
    }
  }
}
