// scripts/backfill-wix-unpaid.mjs: imports the Wix orders created since 1 December 2025
// that the paid-only sync skipped. It reads every page of Wix orders, newest first,
// keeps the ones created since that date and upserts each page's share; with
// `--dry-run` it only reports them. The HTTP calls, the file read and the clock are
// I/O: their answers come in as parameters.
module BackfillWixUnpaid {
  import opened Wrappers
  import opened Text
  import opened OrderModel
  import opened Raw
  import Normalizer
  import DotEnv
  import ScriptSync

  const DateFrom: string := "2025-12-01T00:00:00.000Z"
  const Limit: nat := 50

  // ------------------------------------------------------------------
  // The script's own normaliser
  // ------------------------------------------------------------------

  /** A cancelled order is cancelado, a fulfilled one entregado, any other nuevo. */
  function StatusOf(o: WixOrder): (r: OrderStatus)
    ensures r == Cancelado <==> o.status == Some("CANCELED")
    ensures r == Entregado <==> o.status != Some("CANCELED") && o.fulfillmentStatus == Some("FULFILLED")
    ensures r == Nuevo <==> o.status != Some("CANCELED") && o.fulfillmentStatus != Some("FULFILLED")
  {
    if o.status == Some("CANCELED") then Cancelado
    else if o.fulfillmentStatus == Some("FULFILLED") then Entregado
    else Nuevo
  }

  /** `parseFloat(shipping?.amount || shipping || 0) || undefined`: a cost of 0 and an
      unreadable one are both left out. */
  function ShippingCost(o: WixOrder): (r: Option<int>)
    ensures r.Some? <==> ParseFloat(MoneyText(o.shipping, "0")).Some? && ParseFloat(MoneyText(o.shipping, "0")).value != 0
    ensures r.Some? ==> r == ParseFloat(MoneyText(o.shipping, "0"))
  {
    var cost := ParseFloat(MoneyText(o.shipping, "0"));
    if cost.Some? && cost.value != 0 then cost else None
  }

  /** `normalizeWixOrder`; `now` is `new Date().toISOString()`. */
  function Normalize(o: WixOrder, now: string): Order {
    var total := ParseFloat(MoneyText(o.total, "0"));
    Order(
      None,
      o.number,
      Wix,
      None,
      None,
      StatusOf(o),
      Some(Or(o.createdDate, Or(o.underscoreCreatedDate, now))),
      OrOpt(o.updatedDate, NullIfEmpty(o.underscoreUpdatedDate)),
      total,
      total,
      o.currency,
      Normalizer.WixCustomer(o, o.buyerId, None),
      Normalizer.WixShippingAddress(o),
      ScriptSync.ItemsOf(if o.lineItems.Some? then o.lineItems.value else [], o.currency),
      Some(Normalizer.EmptyPayment().(status := o.paymentStatus, shippingCost := ShippingCost(o))),
      [],
      None,
      None,
      None,
      None)
  }

  /** The dates fall back from `createdDate` to `_createdDate` to now, and from
      `updatedDate` to `_updatedDate` to null; both amounts are the total (a missing
      total counts 0); a missing shipping cost is left out; the customer is the buyer;
      one item per line item, none without `lineItems`. */
  lemma NormalizeSpec(o: WixOrder, now: string)
    ensures var r := Normalize(o, now);
      && r.channel == Wix && r.orderId == o.number && r.status == StatusOf(o)
      && r.packId.None? && r.shippingId.None? && r.tags == [] && r.notes.None?
      && (Truthy(o.createdDate) ==> r.orderDate == o.createdDate)
      && (!Truthy(o.createdDate) && Truthy(o.underscoreCreatedDate) ==> r.orderDate == o.underscoreCreatedDate)
      && (!Truthy(o.createdDate) && !Truthy(o.underscoreCreatedDate) ==> r.orderDate == Some(now))
      && (Truthy(o.updatedDate) ==> r.closedDate == o.updatedDate)
      && (!Truthy(o.updatedDate) && !Truthy(o.underscoreUpdatedDate) ==> r.closedDate.None?)
      && r.totalAmount == r.paidAmount
      && (o.total.None? ==> r.totalAmount == Some(0))
      && r.customer.id == o.buyerId && r.customer.cedula.None?
      && (o.shipping.None? ==> r.paymentInfo.value.shippingCost.None?)
      && (o.lineItems.None? ==> r.items == [])
      && (o.lineItems.Some? ==> |r.items| == |o.lineItems.value|)
  {
    ParseFloatOfNatToString(0);
  }

  /** `normalizeWixOrder` with the clock read at `now`. */
  function NormalizeAt(now: string): (f: WixOrder -> Order)
    ensures forall o :: f(o) == Normalize(o, now)
  {
    o => Normalize(o, now)
  }

  /** What the filter promises of an order sent to the database. */
  predicate Dated(o: Order) {
    o.channel == Wix && o.orderDate.Some? && StrLe(DateFrom, o.orderDate.value)
  }

  /** A normaliser that turns every recent order into a Wix order dated on or after the
      start date. */
  ghost predicate KeepsRecent(norm: WixOrder -> Order) {
    forall o :: Recent(o) ==> Dated(norm(o))
  }

  /** The script's normaliser is one. */
  lemma NormalizeKeepsRecent(now: string)
    ensures KeepsRecent(NormalizeAt(now))
  {
    forall o | Recent(o) ensures Dated(NormalizeAt(now)(o)) {
      NormalizeSpec(o, now);
    }
  }

  // ------------------------------------------------------------------
  // The loop
  // ------------------------------------------------------------------

  /** `d && d >= DATE_FROM` with `d = createdDate || _createdDate`. */
  predicate Recent(o: WixOrder) {
    var d := ScriptSync.CreatedDate(o);
    Truthy(d) && StrLe(DateFrom, d.value)
  }

  function RecentOf(orders: seq<WixOrder>): (r: seq<WixOrder>)
    ensures |r| <= |orders|
    ensures forall x :: x in r <==> x in orders && Recent(x)
  {
    if orders == [] then []
    else
      var rest := RecentOf(orders[1..]);
      if Recent(orders[0]) then [orders[0]] + rest else rest
  }

  /** A page is shorter after the filter exactly when one of its orders is not recent. */
  lemma {:induction false} RecentOfAll(orders: seq<WixOrder>)
    ensures |RecentOf(orders)| == |orders| <==> forall i :: 0 <= i < |orders| ==> Recent(orders[i])
  {
    if orders != [] {
      RecentOfAll(orders[1..]);
      if !Recent(orders[0]) {
        assert |RecentOf(orders)| <= |orders[1..]|;
      } else {
        assert forall i :: 1 <= i < |orders| ==> orders[i] == orders[1..][i - 1];
      }
    }
  }

  /** `fetchWixPage`: a status other than 2xx with the response text, or the page's
      orders, its next cursor and its `hasNext` flag. */
  datatype WixPage = PageFailed(status: int, text: string) | PageOk(orders: Option<seq<WixOrder>>, next: Option<string>, hasNext: bool)

  /** What the loop did: the error it stopped with if any, `totalFetched`,
      `totalUpserted`, the orders sent to the database and the cursors requested. */
  datatype Backfilled = Backfilled(error: Option<string>, fetched: nat, upserted: nat, written: seq<Order>, cursors: seq<Option<string>>)

  /** One page's effect followed by the rest's. */
  function Then(a: Backfilled, b: Backfilled): Backfilled {
    Backfilled(b.error, a.fetched + b.fetched, a.upserted + b.upserted, a.written + b.written, a.cursors + b.cursors)
  }

  lemma ThenThen(a: Backfilled, b: Backfilled, c: Backfilled)
    ensures Then(Then(a, b), c) == Then(a, Then(b, c))
  {
    assert (a.written + b.written) + c.written == a.written + (b.written + c.written);
    assert (a.cursors + b.cursors) + c.cursors == a.cursors + (b.cursors + c.cursors);
  }

  const Nothing: Backfilled := Backfilled(None, 0, 0, [], [])

  /** Nothing done, then `b`, is `b`. */
  lemma NothingThen(b: Backfilled)
    ensures Then(Nothing, b) == b
  {
    assert [] + b.written == b.written && [] + b.cursors == b.cursors;
  }

  /** `a` then nothing, when `a` has no error, is `a`. */
  lemma ThenNothing(a: Backfilled)
    requires a.error.None?
    ensures Then(a, Nothing) == a
  {
    assert a.written + [] == a.written && a.cursors + [] == a.cursors;
  }

  /** Every recent order normalised is dated. */
  lemma SentRecent(inRange: seq<WixOrder>, norm: WixOrder -> Order)
    requires KeepsRecent(norm)
    requires forall x :: x in inRange ==> Recent(x)
    ensures forall o :: o in Map(inRange, norm) ==> Dated(o)
  {
    var sent := Map(inRange, norm);
    forall o | o in sent ensures Dated(o) {
      var i :| 0 <= i < |sent| && sent[i] == o;
      assert inRange[i] in inRange;
    }
  }

  /** `Wix API <status>: <text>`. */
  function WixError(status: int, text: string): string {
    "Wix API " + IntToString(status) + ": " + text
  }

  /** `Supabase <status>: <text>`. */
  function SupabaseError(e: (int, string)): string {
    "Supabase " + IntToString(e.0) + ": " + e.1
  }

  /** What one request of the loop adds: `upsertError` is the status and text of the
      page's failed upsert, if it failed. */
  function PageEffect(page: WixPage, cursor: Option<string>, dryRun: bool, norm: WixOrder -> Order,
                      upsertError: Option<(int, string)>): (r: Backfilled)
    ensures r.cursors == [cursor]
    ensures r.upserted == |r.written|
    ensures dryRun ==> r.written == []
    ensures !dryRun && r.error.None? ==> r.upserted == r.fetched
    ensures page.PageFailed? ==> r == Backfilled(Some(WixError(page.status, page.text)), 0, 0, [], [cursor])
  {
    match page
    case PageFailed(status, text) =>
      Backfilled(Some(WixError(status, text)), 0, 0, [], [cursor])
    case PageOk(found, _, _) =>
      var orders := if found.Some? then found.value else [];
      if orders == [] then Backfilled(None, 0, 0, [], [cursor])
      else
        var inRange := RecentOf(orders);
        var writes := inRange != [] && !dryRun;
        if writes && upsertError.Some? then
          Backfilled(Some(SupabaseError(upsertError.value)), |inRange|, 0, [], [cursor])
        else
          var written := if writes then Map(inRange, norm) else [];
          Backfilled(None, |inRange|, |written|, written, [cursor])
  }

  /** The cursor the loop goes on with: there is one only after a successful page of
      recent orders only, with a next cursor and `hasNext`. */
  function NextCursor(page: WixPage, dryRun: bool, upsertError: Option<(int, string)>): (c: Option<string>)
    ensures c.Some? ==> page.PageOk? && page.orders.Some? && page.orders.value != [] && page.hasNext
    ensures c.Some? ==> forall i :: 0 <= i < |page.orders.value| ==> Recent(page.orders.value[i])
    ensures c.Some? ==> c == NullIfEmpty(page.next)
  {
    match page
    case PageFailed(_, _) => None
    case PageOk(found, next, hasNext) =>
      var orders := if found.Some? then found.value else [];
      var inRange := RecentOf(orders);
      RecentOfAll(orders);
      if orders == [] || (inRange != [] && !dryRun && upsertError.Some?) then None
      else
        var nextCursor := NullIfEmpty(next);
        if |inRange| < |orders| || nextCursor.None? || !hasNext then None else nextCursor
  }

  /** The `while (true)` loop of `main` from page `k` on; `upsert(k)` is the error of
      the upsert of page `k`. Running out of pages ends the loop. */
  function BackfillFrom(pages: seq<WixPage>, k: nat, cursor: Option<string>, dryRun: bool, norm: WixOrder -> Order,
                        upsert: nat -> Option<(int, string)>): Backfilled
    decreases |pages| - k
  {
    if k >= |pages| then Nothing
    else
      var here := PageEffect(pages[k], cursor, dryRun, norm, upsert(k));
      var next := NextCursor(pages[k], dryRun, upsert(k));
      if next.None? then here else Then(here, BackfillFrom(pages, k + 1, next, dryRun, norm, upsert))
  }

  /** One turn of the loop: the page's effect, then the rest from the cursor it goes on
      with, if any. */
  lemma BackfillFromStep(pages: seq<WixPage>, k: nat, cursor: Option<string>, dryRun: bool, norm: WixOrder -> Order,
                         upsert: nat -> Option<(int, string)>, here: Backfilled, next: Option<string>)
    requires k < |pages|
    requires here == PageEffect(pages[k], cursor, dryRun, norm, upsert(k))
    requires next == NextCursor(pages[k], dryRun, upsert(k))
    ensures next.None? ==> BackfillFrom(pages, k, cursor, dryRun, norm, upsert) == here
    ensures next.Some? ==>
      BackfillFrom(pages, k, cursor, dryRun, norm, upsert) == Then(here, BackfillFrom(pages, k + 1, next, dryRun, norm, upsert))
  {
  }

  /** The body of the loop for one page: what it adds and the cursor it goes on with,
      if it goes on. */
  method ReadPage(page: WixPage, cursor: Option<string>, dryRun: bool, norm: WixOrder -> Order,
                  upsertError: Option<(int, string)>) returns (here: Backfilled, next: Option<string>)
    ensures here == PageEffect(page, cursor, dryRun, norm, upsertError)
    ensures next == NextCursor(page, dryRun, upsertError)
  {
    if page.PageFailed? {
      return Backfilled(Some(WixError(page.status, page.text)), 0, 0, [], [cursor]), None;
    }
    var orders := if page.orders.Some? then page.orders.value else [];
    if orders == [] {
      return Backfilled(None, 0, 0, [], [cursor]), None;
    }
    var inRange := RecentOf(orders);
    var writes := inRange != [] && !dryRun;
    if writes && upsertError.Some? {
      return Backfilled(Some(SupabaseError(upsertError.value)), |inRange|, 0, [], [cursor]), None;
    }
    var batch := if writes then Map(inRange, norm) else [];
    here := Backfilled(None, |inRange|, |batch|, batch, [cursor]);
    next := NullIfEmpty(page.next);
    if |inRange| < |orders| || !page.hasNext {
      next := None;
    }
  }

  /** One turn of the loop over page `k`: `acc` is what the turns before it did, and the
      result is what they and this one did, and the cursor the loop goes on with. */
  method Turn(pages: seq<WixPage>, k: nat, cursor: Option<string>, dryRun: bool, norm: WixOrder -> Order,
              upsert: nat -> Option<(int, string)>, acc: Backfilled) returns (after: Backfilled, next: Option<string>)
    requires k < |pages| && acc.error.None?
    ensures next.None? ==> after == Then(acc, BackfillFrom(pages, k, cursor, dryRun, norm, upsert))
    ensures next.Some? ==> after.error.None?
    ensures next.Some? ==>
      Then(after, BackfillFrom(pages, k + 1, next, dryRun, norm, upsert)) == Then(acc, BackfillFrom(pages, k, cursor, dryRun, norm, upsert))
  {
    var here;
    here, next := ReadPage(pages[k], cursor, dryRun, norm, upsert(k));
    BackfillFromStep(pages, k, cursor, dryRun, norm, upsert, here, next);
    after := Then(acc, here);
    if next.Some? {
      PageGoesOn(pages[k], cursor, dryRun, norm, upsert(k));
      ThenThen(acc, here, BackfillFrom(pages, k + 1, next, dryRun, norm, upsert));
    }
  }

  /** The loop itself, from no cursor. */
  method Backfill(pages: seq<WixPage>, dryRun: bool, norm: WixOrder -> Order, upsert: nat -> Option<(int, string)>)
    returns (r: Backfilled)
    ensures r == BackfillFrom(pages, 0, None, dryRun, norm, upsert)
  {
    ghost var whole := BackfillFrom(pages, 0, None, dryRun, norm, upsert);
    // `totalFetched`, `totalUpserted`, the orders sent and the cursors requested so far
    var acc := Nothing;
    var cursor: Option<string> := None;
    var k := 0;
    NothingThen(whole);
    while k < |pages|
      invariant k <= |pages| && acc.error.None?
      invariant Then(acc, BackfillFrom(pages, k, cursor, dryRun, norm, upsert)) == whole
      decreases |pages| - k
    {
      var after, next := Turn(pages, k, cursor, dryRun, norm, upsert, acc);
      if next.None? {
        return after;
      }
      acc, cursor, k := after, next, k + 1;
    }
    ThenNothing(acc);
    return acc;
  }

  /** A page the loop goes on from had no error. */
  lemma PageGoesOn(page: WixPage, cursor: Option<string>, dryRun: bool, norm: WixOrder -> Order,
                   upsertError: Option<(int, string)>)
    requires NextCursor(page, dryRun, upsertError).Some?
    ensures PageEffect(page, cursor, dryRun, norm, upsertError).error.None?
  {
  }

  /** The loop counts as upserted exactly the orders it sent, and a dry run sends none. */
  lemma {:induction false} BackfillWritten(pages: seq<WixPage>, k: nat, cursor: Option<string>, dryRun: bool, norm: WixOrder -> Order,
                                           upsert: nat -> Option<(int, string)>)
    ensures var r := BackfillFrom(pages, k, cursor, dryRun, norm, upsert);
      r.upserted == |r.written| && (dryRun ==> r.upserted == 0 && r.written == [])
    decreases |pages| - k
  {
    if k < |pages| {
      var next := NextCursor(pages[k], dryRun, upsert(k));
      if next.Some? {
        BackfillWritten(pages, k + 1, next, dryRun, norm, upsert);
      }
    }
  }

  /** A real run that ends without an error has upserted every recent order it fetched. */
  lemma {:induction false} BackfillComplete(pages: seq<WixPage>, k: nat, cursor: Option<string>, dryRun: bool, norm: WixOrder -> Order,
                                            upsert: nat -> Option<(int, string)>)
    ensures var r := BackfillFrom(pages, k, cursor, dryRun, norm, upsert);
      !dryRun && r.error.None? ==> r.upserted == r.fetched
    decreases |pages| - k
  {
    if k < |pages| {
      var next := NextCursor(pages[k], dryRun, upsert(k));
      if next.Some? {
        PageGoesOn(pages[k], cursor, dryRun, norm, upsert(k));
        BackfillComplete(pages, k + 1, next, dryRun, norm, upsert);
      }
    }
  }

  /** Each request reads one page: the loop never asks for more pages than there are. */
  lemma {:induction false} BackfillRequests(pages: seq<WixPage>, k: nat, cursor: Option<string>, dryRun: bool, norm: WixOrder -> Order,
                                            upsert: nat -> Option<(int, string)>)
    requires k <= |pages|
    ensures |BackfillFrom(pages, k, cursor, dryRun, norm, upsert).cursors| <= |pages| - k
    decreases |pages| - k
  {
    if k < |pages| {
      var next := NextCursor(pages[k], dryRun, upsert(k));
      if next.Some? {
        BackfillRequests(pages, k + 1, next, dryRun, norm, upsert);
      }
    }
  }

  /** A page sends only recent orders. */
  lemma PageWritesRecent(page: WixPage, cursor: Option<string>, dryRun: bool, norm: WixOrder -> Order,
                         upsertError: Option<(int, string)>)
    requires KeepsRecent(norm)
    ensures forall o :: o in PageEffect(page, cursor, dryRun, norm, upsertError).written ==> Dated(o)
  {
    if page.PageOk? {
      var orders := if page.orders.Some? then page.orders.value else [];
      SentRecent(RecentOf(orders), norm);
    }
  }

  /** Every order sent to the database is a Wix order dated on or after the start date. */
  lemma {:induction false} BackfillWritesRecent(pages: seq<WixPage>, k: nat, cursor: Option<string>, dryRun: bool, norm: WixOrder -> Order,
                                                upsert: nat -> Option<(int, string)>)
    requires KeepsRecent(norm)
    ensures forall o :: o in BackfillFrom(pages, k, cursor, dryRun, norm, upsert).written ==> Dated(o)
    decreases |pages| - k
  {
    if k < |pages| {
      PageWritesRecent(pages[k], cursor, dryRun, norm, upsert(k));
      var next := NextCursor(pages[k], dryRun, upsert(k));
      if next.Some? {
        BackfillWritesRecent(pages, k + 1, next, dryRun, norm, upsert);
      }
    }
  }

  /** The first request the loop makes sends the cursor it starts from. */
  lemma BackfillFirst(pages: seq<WixPage>, k: nat, cursor: Option<string>, dryRun: bool, norm: WixOrder -> Order,
                      upsert: nat -> Option<(int, string)>)
    requires k < |pages|
    ensures var r := BackfillFrom(pages, k, cursor, dryRun, norm, upsert);
      r.cursors != [] && r.cursors[0] == cursor
  {
    var here := PageEffect(pages[k], cursor, dryRun, norm, upsert(k));
    var next := NextCursor(pages[k], dryRun, upsert(k));
    BackfillFromStep(pages, k, cursor, dryRun, norm, upsert, here, next);
  }

  /** With the script's normaliser, every order the script sends is a Wix order dated
      on or after the start date. */
  lemma BackfillSendsRecent(pages: seq<WixPage>, dryRun: bool, now: string, upsert: nat -> Option<(int, string)>)
    ensures forall o :: o in BackfillFrom(pages, 0, None, dryRun, NormalizeAt(now), upsert).written ==> Dated(o)
  {
    NormalizeKeepsRecent(now);
    BackfillWritesRecent(pages, 0, None, dryRun, NormalizeAt(now), upsert);
  }

  /** A page the loop goes on from: a successful page of recent orders only, with
      `hasNext`, whose next cursor `c` is not empty. */
  predicate GoesOnFrom(page: WixPage, c: Option<string>) {
    && page.PageOk? && page.orders.Some? && page.hasNext
    && (forall i :: 0 <= i < |page.orders.value| ==> Recent(page.orders.value[i]))
    && c == NullIfEmpty(page.next) && c.Some?
  }

  /** `NextCursor` gives a cursor only for such a page. */
  lemma NextGoesOn(page: WixPage, dryRun: bool, upsertError: Option<(int, string)>)
    requires NextCursor(page, dryRun, upsertError).Some?
    ensures GoesOnFrom(page, NextCursor(page, dryRun, upsertError))
  {
  }

  /** Each cursor after the first in `cs` is the one the page before it, in `ps`, went
      on with. */
  predicate Chained(ps: seq<WixPage>, cs: seq<Option<string>>)
    decreases |cs|
  {
    |cs| <= 1 || (ps != [] && GoesOnFrom(ps[0], cs[1]) && Chained(ps[1..], cs[1..]))
  }

  /** The same, position by position. */
  lemma {:induction false} ChainedAt(ps: seq<WixPage>, cs: seq<Option<string>>)
    requires Chained(ps, cs)
    ensures |cs| <= |ps| + 1
    ensures forall j :: 0 <= j < |cs| - 1 ==> GoesOnFrom(ps[j], cs[j + 1])
    decreases |cs|
  {
    if |cs| > 1 {
      ChainedAt(ps[1..], cs[1..]);
      forall j | 0 <= j < |cs| - 1 ensures GoesOnFrom(ps[j], cs[j + 1]) {
        if j > 0 {
          assert cs[1..][j - 1 + 1] == cs[j + 1];
          assert ps[1..][j - 1] == ps[j];
        }
      }
    }
  }

  /** The loop goes on only from such a page, and the next request sends that page's
      cursor. */
  lemma {:induction false} BackfillStops(pages: seq<WixPage>, k: nat, cursor: Option<string>, dryRun: bool,
                                         norm: WixOrder -> Order, upsert: nat -> Option<(int, string)>)
    requires k <= |pages|
    ensures Chained(pages[k..], BackfillFrom(pages, k, cursor, dryRun, norm, upsert).cursors)
    decreases |pages| - k
  {
    if k < |pages| {
      var here := PageEffect(pages[k], cursor, dryRun, norm, upsert(k));
      var next := NextCursor(pages[k], dryRun, upsert(k));
      BackfillFromStep(pages, k, cursor, dryRun, norm, upsert, here, next);
      if next.Some? {
        var rest := BackfillFrom(pages, k + 1, next, dryRun, norm, upsert).cursors;
        BackfillStops(pages, k + 1, next, dryRun, norm, upsert);
        if k + 1 < |pages| {
          BackfillFirst(pages, k + 1, next, dryRun, norm, upsert);
        } else {
          assert rest == [];
        }
        NextGoesOn(pages[k], dryRun, upsert(k));
        var cs := [cursor] + rest;
        assert cs[1..] == rest;
        assert pages[k..][1..] == pages[k + 1..];
      }
    }
  }

  // ------------------------------------------------------------------
  // The script
  // ------------------------------------------------------------------

  datatype Run = Exited | Ran(dryRun: bool, result: Backfilled)

  /** `main`: `argv` is the command line and `envText` is `.env.local`. Only the Wix
      key and site id are required. */
  method RunBackfill(envText: string, argv: seq<string>, pages: seq<WixPage>, now: string,
                     upsert: nat -> Option<(int, string)>) returns (r: Run)
    ensures var env := DotEnv.Parse(envText);
      r == Exited <==> !Truthy(DotEnv.Lookup(env, "VITE_WIX_API_KEY")) || !Truthy(DotEnv.Lookup(env, "VITE_WIX_SITE_ID"))
    ensures r.Ran? ==> r.dryRun == ("--dry-run" in argv)
    ensures r.Ran? ==> r.result == BackfillFrom(pages, 0, None, "--dry-run" in argv, NormalizeAt(now), upsert)
  {
    var dryRun := "--dry-run" in argv;
    var env := DotEnv.Parse(envText);
    if !Truthy(DotEnv.Lookup(env, "VITE_WIX_API_KEY")) || !Truthy(DotEnv.Lookup(env, "VITE_WIX_SITE_ID")) {
      return Exited;
    }
    var result := Backfill(pages, dryRun, NormalizeAt(now), upsert);
    return Ran(dryRun, result);
  }
}
