// scripts/backfill-ml-entregados.mjs: for each logistic type, collect the stored
// Mercado Libre orders that are neither delivered nor cancelled and mark as
// entregado those whose shipment reports `delivered`.
module BackfillMLEntregados {
  import opened Wrappers
  import opened Text
  import opened MLApi
  import Paging
  import Batches

  const PageSize: nat := 1000
  const Batch: nat := 5

  /** A stored order, with the columns the query filters on. */
  datatype StoredOrder = StoredOrder(
    id: string, orderId: string, shippingId: Option<string>,
    channel: string, logisticType: Option<string>, status: string)

  /** The filter of `fetchPage(logisticType, …)`: Mercado Libre, this logistic type,
      and a status other than entregado and cancelado. */
  predicate Matches(row: StoredOrder, logisticType: string) {
    row.channel == "mercadolibre" && row.logisticType == Some(logisticType)
    && row.status != "entregado" && row.status != "cancelado"
  }

  /** The rows the query selects, in table order. */
  function Pending(table: seq<StoredOrder>, logisticType: string): (r: seq<StoredOrder>)
    ensures forall x :: x in r <==> x in table && Matches(x, logisticType)
  {
    if table == [] then []
    else
      var rest := Pending(table[1..], logisticType);
      assert table == [table[0]] + table[1..];
      if Matches(table[0], logisticType) then [table[0]] + rest else rest
  }

  /** The logistic types the `for` loop of `main` visits, in order. */
  const LogisticTypes: seq<string> := ["fulfillment", "cross_docking", "self_service"]

  /** The loop covers all three types, self_service included. */
  lemma CoversSelfService()
    ensures |LogisticTypes| == 3 && LogisticTypes[2] == "self_service"
  {
  }

  /** The answers: `shipment(shippingId)` for a token gives the shipment's status,
      `refresh` the token handed out (None when it fails), `patchOk(id)` whether
      the PATCH to entregado succeeds. */
  datatype Apis = Apis(
    shipment: string -> string -> Reply<Option<string>>,
    refresh: Option<string>,
    patchOk: string -> bool)

  datatype Kind = Updated | Skipped | Errored

  /** The counter an order bumps, whether it was marked entregado, and whether the
      shipment was asked for. */
  datatype Outcome = Outcome(kind: Kind, marked: bool, asked: bool)

  /** The body of the per-order callback in `processOrders`. */
  function Step(row: StoredOrder, token: string, apis: Apis): (r: (Outcome, string))
    ensures !Truthy(row.shippingId) ==> r == (Outcome(Skipped, false, false), token)
    ensures r.0.asked <==> Truthy(row.shippingId)
    ensures r.0.marked ==>
      && Truthy(row.shippingId)
      && var c := Fetch(apis.shipment(row.shippingId.value), token, apis.refresh, true, true);
         c.result == Got(Some("delivered"))
    ensures Truthy(row.shippingId) ==>
      var c := Fetch(apis.shipment(row.shippingId.value), token, apis.refresh, true, true);
      && (c.result == Got(Some("delivered")) ==> r.0.marked)
      && (c.result.Got? && c.result.value != Some("delivered") ==> r.0.kind == Skipped)
      && (c.result.Threw? ==> r.0.kind == Errored)
      && r.1 == c.token
    ensures r.0.kind == Updated <==> r.0.marked && apis.patchOk(row.id)
  {
    if !Truthy(row.shippingId) then (Outcome(Skipped, false, false), token)
    else
      var c := Fetch(apis.shipment(row.shippingId.value), token, apis.refresh, true, true);
      if c.result.Threw? then (Outcome(Errored, false, true), c.token)
      else if c.result.value == Some("delivered") then
        if apis.patchOk(row.id) then (Outcome(Updated, true, true), c.token)
        else (Outcome(Errored, true, true), c.token)
      else (Outcome(Skipped, false, true), c.token)
  }

  function StepFn(apis: Apis): (StoredOrder, string) -> (Outcome, string) {
    (row, token) => Step(row, token, apis)
  }

  datatype Counters = Counters(updated: nat, skipped: nat, errors: nat)

  function Bump(c: Counters, k: Kind): Counters {
    match k
    case Updated => c.(updated := c.updated + 1)
    case Skipped => c.(skipped := c.skipped + 1)
    case Errored => c.(errors := c.errors + 1)
  }

  function Tally(c: Counters, outs: seq<Outcome>): (r: Counters)
    ensures r.updated + r.skipped + r.errors == c.updated + c.skipped + c.errors + |outs|
    ensures r.updated >= c.updated
  {
    if outs == [] then c else Bump(Tally(c, outs[..|outs| - 1]), outs[|outs| - 1].kind)
  }

  lemma TallySnoc(c: Counters, outs: seq<Outcome>, o: Outcome)
    ensures Tally(c, outs + [o]) == Bump(Tally(c, outs), o.kind)
  {
    assert (outs + [o])[..|outs|] == outs;
  }

  /** `processOrders(orders, counters)`. */
  method ProcessOrders(orders: seq<StoredOrder>, counters: Counters, token: string, apis: Apis)
    returns (after: Counters, outcomes: seq<Outcome>, tokenAfter: string)
    ensures (outcomes, tokenAfter) == Batches.RunAll(orders, token, StepFn(apis))
    ensures after == Tally(counters, outcomes)
  {
    outcomes, tokenAfter := Batches.RunBatches(orders, Batch, token, StepFn(apis));
    after := counters;
    var i := 0;
    while i < |outcomes|
      invariant i <= |outcomes| && after == Tally(counters, outcomes[..i])
    {
      TallySnoc(counters, outcomes[..i], outcomes[i]);
      PrefixNext(outcomes, i);
      after := Bump(after, outcomes[i].kind);
      i := i + 1;
    }
    assert outcomes[..i] == outcomes;
  }

  /** What `main` processes for each logistic type: the pages of its query over the
      table, collected. */
  function Collected(table: seq<StoredOrder>, logisticType: string): seq<StoredOrder> {
    Paging.CollectFrom(Paging.Chunks(Pending(table, logisticType), 1000), 1000, 0)
  }

  /** Collection returns the query's rows exactly, so already delivered or cancelled
      orders are never candidates. */
  lemma CollectedIsPending(table: seq<StoredOrder>, logisticType: string)
    ensures Collected(table, logisticType) == Pending(table, logisticType)
    ensures forall x :: x in Collected(table, logisticType) ==>
      x.status != "entregado" && x.status != "cancelado" && x.logisticType == Some(logisticType)
  {
    Paging.CollectChunks(Pending(table, logisticType), 1000);
  }

  /** Whether reading the pending orders of `logisticType` throws, `fails(type, k)` saying
      that its k-th page read answers neither OK nor 416. */
  function ReadFails(table: seq<StoredOrder>, logisticType: string, fails: (string, nat) -> bool): bool {
    Paging.CollectOrFail(Paging.Chunks(Pending(table, logisticType), 1000), 1000, TypeFails(fails, logisticType), 0).None?
  }

  function TypeFails(fails: (string, nat) -> bool, logisticType: string): nat -> bool {
    (k: nat) => fails(logisticType, k)
  }

  /** The read fails exactly when one of the page requests it makes throws. */
  lemma ReadFailsSpec(table: seq<StoredOrder>, logisticType: string, fails: (string, nat) -> bool)
    ensures ReadFails(table, logisticType, fails) <==>
      exists j :: 0 <= j < Paging.Requests(Paging.Chunks(Pending(table, logisticType), 1000), 1000, 0)
               && fails(logisticType, j)
  {
    var pages := Paging.Chunks(Pending(table, logisticType), 1000);
    var f := TypeFails(fails, logisticType);
    Paging.CollectOrFailSpec(pages, 1000, f, 0);
    var n := Paging.Requests(pages, 1000, 0);
    assert forall j: nat :: f(j) == fails(logisticType, j);
    assert (exists j :: 0 <= j < n && f(j)) <==> (exists j :: 0 <= j < n && fails(logisticType, j));
  }

  datatype ScriptEnv = ScriptEnv(
    supabaseUrl: Option<string>,
    supabaseKey: Option<string>,
    accessToken: Option<string>,
    refreshToken: Option<string>)

  /** The outcomes of every processed order, type after type, with the token threaded
      from one type to the next; the run stops at the first type whose read throws, and
      the flag says whether one did. */
  function RunTypes(table: seq<StoredOrder>, types: seq<string>, token: string, fails: (string, nat) -> bool, apis: Apis): (seq<Outcome>, string, bool)
  {
    if types == [] then ([], token, false)
    else if ReadFails(table, types[0], fails) then ([], token, true)
    else
      var run := Batches.RunAll(Collected(table, types[0]), token, StepFn(apis));
      var rest := RunTypes(table, types[1..], run.1, fails, apis);
      (run.0 + rest.0, rest.1, rest.2)
  }

  /** The run stops on a failed read exactly when some type's read throws. */
  lemma {:induction false} RunTypesFailed(table: seq<StoredOrder>, types: seq<string>, token: string,
                                          fails: (string, nat) -> bool, apis: Apis)
    ensures RunTypes(table, types, token, fails, apis).2 <==>
      exists t :: 0 <= t < |types| && ReadFails(table, types[t], fails)
    decreases |types|
  {
    if types != [] && !ReadFails(table, types[0], fails) {
      var run := Batches.RunAll(Collected(table, types[0]), token, StepFn(apis));
      RunTypesFailed(table, types[1..], run.1, fails, apis);
      assert forall t :: 1 <= t < |types| ==> types[t] == types[1..][t - 1];
      assert forall t :: 0 <= t < |types| - 1 ==> types[1..][t] == types[t + 1];
    }
  }

  /** One pass of the `for` loop of `main`: collect the type's pending orders and,
      unless the read threw or there are none, process them. */
  method RunType(table: seq<StoredOrder>, logisticType: string, counters: Counters, token: string,
                 fails: (string, nat) -> bool, apis: Apis)
    returns (after: Counters, outs: seq<Outcome>, tokenAfter: string, failed: bool)
    ensures failed == ReadFails(table, logisticType, fails)
    ensures failed ==> outs == [] && after == counters
    ensures !failed ==> (outs, tokenAfter) == Batches.RunAll(Collected(table, logisticType), token, StepFn(apis))
    ensures after == Tally(counters, outs)
  {
    var pages := Paging.Chunks(Pending(table, logisticType), PageSize);
    var read, _ := Paging.CollectAll(pages, PageSize, TypeFails(fails, logisticType));
    Paging.CollectOrFailSpec(pages, PageSize, TypeFails(fails, logisticType), 0);
    if read.None? {
      return counters, [], token, true;
    }
    var orders := read.value;
    failed := false;
    if |orders| == 0 {
      return counters, [], token, false;
    }
    after, outs, tokenAfter := ProcessOrders(orders, counters, token, apis);
  }

  /** The run from type `t` on, unfolded by one type. */
  lemma KeepsTypes(table: seq<StoredOrder>, types: seq<string>, t: nat, token: string, fails: (string, nat) -> bool, apis: Apis)
    requires t < |types|
    ensures var tail := RunTypes(table, types[t..], token, fails, apis);
      if ReadFails(table, types[t], fails) then tail == ([], token, true)
      else
        var run := Batches.RunAll(Collected(table, types[t]), token, StepFn(apis));
        var rest := RunTypes(table, types[t + 1..], run.1, fails, apis);
        tail.0 == run.0 + rest.0 && tail.2 == rest.2
  {
    assert types[t..][0] == types[t];
    assert types[t..][1..] == types[t + 1..];
  }

  /** One turn of the loop over types at `types[t]`: the outcomes so far, extended by
      this type's unless its read threw, against what the run from `t` on gives. */
  method TypeTurn(table: seq<StoredOrder>, types: seq<string>, t: nat, counters: Counters, all: seq<Outcome>,
                  token: string, fails: (string, nat) -> bool, apis: Apis)
    returns (countersAfter: Counters, allAfter: seq<Outcome>, tokenAfter: string, failed: bool)
    requires t < |types|
    requires counters == Tally(Counters(0, 0, 0), all)
    ensures var tail := RunTypes(table, types[t..], token, fails, apis);
      failed ==> allAfter == all && all + tail.0 == all && tail.2
    ensures var tail := RunTypes(table, types[t..], token, fails, apis);
      var rest := RunTypes(table, types[t + 1..], tokenAfter, fails, apis);
      !failed ==> all + tail.0 == allAfter + rest.0 && tail.2 == rest.2
    ensures countersAfter == Tally(Counters(0, 0, 0), allAfter)
  {
    KeepsTypes(table, types, t, token, fails, apis);
    var outs;
    countersAfter, outs, tokenAfter, failed := RunType(table, types[t], counters, token, fails, apis);
    if failed {
      assert all + [] == all;
      return counters, all, tokenAfter, true;
    }
    ghost var rest := RunTypes(table, types[t + 1..], tokenAfter, fails, apis);
    assert (all + outs) + rest.0 == all + (outs + rest.0);
    TallyAppend(Counters(0, 0, 0), all, outs);
    allAfter := all + outs;
  }

  /** The `for (const type of …)` loop of `main`, over any list of types; `failed` when
      a read threw, which ends `main` through its `catch`. */
  method RunEach(table: seq<StoredOrder>, types: seq<string>, token0: string, fails: (string, nat) -> bool, apis: Apis)
    returns (counters: Counters, all: seq<Outcome>, failed: bool)
    ensures all == RunTypes(table, types, token0, fails, apis).0
    ensures failed == RunTypes(table, types, token0, fails, apis).2
    ensures counters == Tally(Counters(0, 0, 0), all)
  {
    counters := Counters(0, 0, 0);
    all := [];
    var token := token0;
    ghost var whole := RunTypes(table, types, token, fails, apis);
    assert types[0..] == types;
    var t := 0;
    while t < |types|
      invariant t <= |types|
      invariant all + RunTypes(table, types[t..], token, fails, apis).0 == whole.0
      invariant RunTypes(table, types[t..], token, fails, apis).2 == whole.2
      invariant counters == Tally(Counters(0, 0, 0), all)
    {
      var f;
      counters, all, token, f := TypeTurn(table, types, t, counters, all, token, fails, apis);
      if f {
        return counters, all, true;
      }
      t := t + 1;
    }
    assert types[|types|..] == [];
    failed := false;
  }

  datatype RunResult =
    | MissingConfig                          // `process.exit(1)` before any request
    | ReadFailed(outcomes: seq<Outcome>)     // a page read threw: `main().catch` exits 1
                                             // after the updates already made
    | Finished(counters: Counters, outcomes: seq<Outcome>)

  /** `main`: the configuration exit, the exit on a failed read, or the final counters
      and the outcome of every processed order; `fails(type, k)` says that the k-th page
      read of that type throws. */
  method Run(env: ScriptEnv, table: seq<StoredOrder>, fails: (string, nat) -> bool, apis: Apis) returns (r: RunResult)
    ensures r == MissingConfig <==>
      !(Truthy(env.supabaseUrl) && Truthy(env.supabaseKey) && Truthy(env.accessToken) && Truthy(env.refreshToken))
    ensures r.ReadFailed? <==>
      r != MissingConfig && exists t :: 0 <= t < |LogisticTypes| && ReadFails(table, LogisticTypes[t], fails)
    ensures r.ReadFailed? || r.Finished? ==>
      r.outcomes == RunTypes(table, LogisticTypes, env.accessToken.value, fails, apis).0
    ensures r.Finished? ==> r.counters == Tally(Counters(0, 0, 0), r.outcomes)
  {
    if !Truthy(env.supabaseUrl) || !Truthy(env.supabaseKey) {
      return MissingConfig;
    }
    if !Truthy(env.accessToken) || !Truthy(env.refreshToken) {
      return MissingConfig;
    }
    var counters, all, failed := RunEach(table, LogisticTypes, env.accessToken.value, fails, apis);
    RunTypesFailed(table, LogisticTypes, env.accessToken.value, fails, apis);
    if failed {
      return ReadFailed(all);
    }
    r := Finished(counters, all);
  }

  lemma {:induction false} TallyAppend(c: Counters, a: seq<Outcome>, b: seq<Outcome>)
    ensures Tally(c, a + b) == Tally(Tally(c, a), b)
    decreases |b|
  {
    if b == [] {
      assert a + b == a;
    } else {
      var b' := b[..|b| - 1];
      TallyAppend(c, a, b');
      assert (a + b)[..|a + b| - 1] == a + b';
    }
  }
}
