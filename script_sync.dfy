// What scripts/sync-incremental.mjs and scripts/sync-historico.mjs share, written twice
// there with the same text: the Wix normaliser, the Mercado Libre shipment address, the
// `pLimit` slicing and the two paging loops. The HTTP answers are parameters: a finite
// script of replies, one per request, where running out of replies ends a loop like a
// last page does.
module ScriptSync {
  import opened Wrappers
  import opened Text
  import opened OrderModel
  import opened Raw
  import Normalizer
  import Paging

  const PageSize: nat := 50
  const ShipmentConcurrency: nat := 5

  // ------------------------------------------------------------------
  // Wix normaliser (sync-incremental.mjs:256-312, sync-historico.mjs:250-306)
  // ------------------------------------------------------------------

  /** `parseFloat(item.price?.amount || item.price || 0)` and
      `parseFloat(totalPriceAfterTax?.amount || totalPrice?.amount || price?.amount || 0)`. */
  function ItemOf(item: WixLineItem, currency: string): (r: Item)
    ensures r.sku == Some(Normalizer.WixItemSku(item)) && r.title == Normalizer.WixItemTitle(item)
    ensures r.quantity == item.quantity && r.currency == currency && r.imageUrl == item.imageUrl
    ensures r.unitPrice == ParseFloat(MoneyText(item.price, "0"))
    ensures Truthy(AmountOf(item.totalPriceAfterTax)) ==> r.fullPrice == ParseFloat(AmountOf(item.totalPriceAfterTax).value)
    ensures (!Truthy(AmountOf(item.totalPriceAfterTax)) && !Truthy(AmountOf(item.totalPrice))
             && !Truthy(AmountOf(item.price))) ==> r.fullPrice == Some(0)
  {
    ParseFloatOfNatToString(0);
    Item(Some(Normalizer.WixItemSku(item)), Normalizer.WixItemTitle(item), item.quantity,
         ParseFloat(MoneyText(item.price, "0")),
         ParseFloat(Or(AmountOf(item.totalPriceAfterTax), Or(AmountOf(item.totalPrice), Or(AmountOf(item.price), "0")))),
         currency, item.imageUrl, [], None, None, None)
  }

  function ItemsOf(items: seq<WixLineItem>, currency: string): (r: seq<Item>)
    ensures |r| == |items|
    ensures forall i :: 0 <= i < |items| ==> r[i] == ItemOf(items[i], currency)
  {
    Map(items, (i: WixLineItem) => ItemOf(i, currency))
  }

  /** The test inside `customFields.find(...)`: the lower-cased title mentions the word,
      with or without its accent. */
  predicate IsCedulaField(f: WixCustomField) {
    f.title.Some? && (Contains(ToLower(f.title.value), "c\U{E9}dula") || Contains(ToLower(f.title.value), "cedula"))
  }

  /** `customFields?.find(...)`: the first field that passes the test. */
  function FirstCedulaField(fields: seq<WixCustomField>): (r: Option<nat>)
    ensures r.None? <==> forall i :: 0 <= i < |fields| ==> !IsCedulaField(fields[i])
    ensures r.Some? ==> r.value < |fields| && IsCedulaField(fields[r.value])
    ensures r.Some? ==> forall j :: 0 <= j < r.value ==> !IsCedulaField(fields[j])
  {
    if fields == [] then None
    else if IsCedulaField(fields[0]) then Some(0)
    else
      var rest := FirstCedulaField(fields[1..]);
      assert forall i :: 1 <= i < |fields| ==> fields[i] == fields[1..][i - 1];
      if rest.None? then None else Some(rest.value + 1)
  }

  /** `cedula || undefined` for `find(...)?.value`. */
  function Cedula(fields: Option<seq<WixCustomField>>): (r: Option<string>)
    ensures r.Some? <==>
      (fields.Some? && FirstCedulaField(fields.value).Some?
       && Truthy(fields.value[FirstCedulaField(fields.value).value].value))
    ensures r.Some? ==> r == fields.value[FirstCedulaField(fields.value).value].value
  {
    if fields.None? then None
    else
      var i := FirstCedulaField(fields.value);
      if i.None? then None else NullIfEmpty(fields.value[i.value].value)
  }

  /** The scripts' `normalizeWixOrder`: every order is stored as shipped. */
  function NormalizeWixOrder(o: WixOrder): Order {
    Order(
      None,
      o.number,
      Wix,
      None,
      None,
      Enviado,
      OrOpt(o.createdDate, o.underscoreCreatedDate),
      OrOpt(o.updatedDate, NullIfEmpty(o.underscoreUpdatedDate)),
      ParseFloat(Or(AmountOf(o.total), "0")),
      ParseFloat(Or(AmountOf(o.total), "0")),
      o.currency,
      Normalizer.WixCustomer(o, Or(o.buyerContactId, o.buyerId), Cedula(o.customFields)),
      Normalizer.WixShippingAddress(o),
      ItemsOf(if o.lineItems.Some? then o.lineItems.value else [], o.currency),
      Some(Normalizer.EmptyPayment().(status := o.paymentStatus, shippingMethod := NullIfEmpty(o.shippingTitle))),
      [],
      NullIfEmpty(o.buyerNote),
      None,
      None,
      None)
  }

  /** Status is forced to enviado; the dates fall back from `createdDate` to
      `_createdDate` and from `updatedDate` to `_updatedDate` to null; both amounts are
      the total's amount, 0 without one; the customer id falls back from the contact id
      to the buyer id; one item per line item (none when `lineItems` is absent). */
  lemma NormalizeWixOrderSpec(o: WixOrder)
    ensures var r := NormalizeWixOrder(o);
      && r.channel == Wix && r.status == Enviado && r.orderId == o.number
      && r.packId.None? && r.shippingId.None? && r.tags == []
      && (Truthy(o.createdDate) ==> r.orderDate == o.createdDate)
      && (!Truthy(o.createdDate) ==> r.orderDate == o.underscoreCreatedDate)
      && (Truthy(o.updatedDate) ==> r.closedDate == o.updatedDate)
      && (!Truthy(o.updatedDate) && !Truthy(o.underscoreUpdatedDate) ==> r.closedDate.None?)
      && r.totalAmount == r.paidAmount
      && (!Truthy(AmountOf(o.total)) ==> r.totalAmount == Some(0))
      && (Truthy(o.buyerContactId) ==> r.customer.id == o.buyerContactId.value)
      && (!Truthy(o.buyerContactId) ==> r.customer.id == o.buyerId)
      && r.customer.cedula == Cedula(o.customFields)
      && (o.lineItems.None? ==> r.items == [])
      && (o.lineItems.Some? ==> |r.items| == |o.lineItems.value|)
      && (r.notes.Some? <==> Truthy(o.buyerNote))
      && (r.shippingAddress.None? <==> o.destinationAddress.None? && o.recipientAddress.None?)
  {
    ParseFloatOfNatToString(0);
    Normalizer.WixShippingAddressSpec(o);
  }

  // ------------------------------------------------------------------
  // Mercado Libre shipment address (sync-incremental.mjs:148-174)
  // ------------------------------------------------------------------

  /** What `GET /shipments/<id>` gave: a thrown error, a status other than 2xx, or the
      shipment's `receiver_address`. */
  datatype ShipmentReply = ShipmentThrew | ShipmentNotOk | ShipmentFound(receiverAddress: Option<MLReceiverAddress>)

  /** `n || undefined` on a coordinate: 0 counts as missing. */
  function NonZero(n: Option<int>): (r: Option<int>)
    ensures r.Some? <==> n.Some? && n.value != 0
    ensures r.Some? ==> r == n
  {
    if n.Some? && n.value != 0 then n else None
  }

  function ReceiverAddress(a: MLReceiverAddress): Address {
    Address(
      Join(Normalizer.Truthies([a.streetName, a.streetNumber]), " "),
      NullIfEmpty(a.comment),
      NullIfEmpty(a.neighborhoodName),
      Or(a.cityName, ""),
      Or(a.stateName, ""),
      Or(a.countryName, Or(a.countryId, "")),
      Or(a.zipCode, ""),
      NullIfEmpty(a.receiverName),
      NullIfEmpty(a.receiverPhone),
      NonZero(a.latitude),
      NonZero(a.longitude))
  }

  /** `fetchMLShipmentAddress`: null unless the shipment was read and has an address. */
  function ShipmentAddress(reply: ShipmentReply): (r: Option<Address>)
    ensures r.Some? <==> reply.ShipmentFound? && reply.receiverAddress.Some?
    ensures r.Some? ==> r.value == ReceiverAddress(reply.receiverAddress.value)
  {
    if reply.ShipmentFound? && reply.receiverAddress.Some? then Some(ReceiverAddress(reply.receiverAddress.value))
    else None
  }

  /** The street is the street name and number joined by one space, leaving out an
      empty part; the country falls back to the country id. */
  lemma ReceiverAddressSpec(a: MLReceiverAddress)
    ensures var r := ReceiverAddress(a);
      && (Truthy(a.streetName) && Truthy(a.streetNumber) ==> r.street == a.streetName.value + " " + a.streetNumber.value)
      && (Truthy(a.streetName) && !Truthy(a.streetNumber) ==> r.street == a.streetName.value)
      && (!Truthy(a.streetName) && Truthy(a.streetNumber) ==> r.street == a.streetNumber.value)
      && (!Truthy(a.streetName) && !Truthy(a.streetNumber) ==> r.street == "")
      && (Truthy(a.countryName) ==> r.country == a.countryName.value)
      && (!Truthy(a.countryName) ==> r.country == Or(a.countryId, ""))
  {
    Normalizer.TruthiesPair(a.streetName, a.streetNumber);
    if Truthy(a.streetName) && Truthy(a.streetNumber) {
      assert [a.streetName.value, a.streetNumber.value][1..] == [a.streetNumber.value];
    }
  }

  /** The shipment task: an order with a shipment id gets that shipment's address. */
  function AttachShipment(o: Order, shipment: string -> ShipmentReply): (r: Order)
    ensures Truthy(o.shippingId) ==> r == o.(shippingAddress := ShipmentAddress(shipment(o.shippingId.value)))
    ensures !Truthy(o.shippingId) ==> r == o
  {
    if Truthy(o.shippingId) then o.(shippingAddress := ShipmentAddress(shipment(o.shippingId.value))) else o
  }

  // ------------------------------------------------------------------
  // pLimit (sync-incremental.mjs:72-81)
  // ------------------------------------------------------------------

  /** The slice of `rows` from `i` is its first chunk followed by the chunks after it. */
  lemma ChunksFrom<T>(rows: seq<T>, i: nat, size: nat)
    requires size > 0 && i < |rows|
    ensures var end := if i + size < |rows| then i + size else |rows|;
      Paging.Chunks(rows[i..], size) == [rows[i..end]] + Paging.Chunks(rows[end..], size)
  {
    var end := if i + size < |rows| then i + size else |rows|;
    if |rows[i..]| <= size {
      assert rows[i..] == rows[i..end];
      assert rows[end..] == [];
    } else {
      assert rows[i..][..size] == rows[i..end];
      assert rows[i..][size..] == rows[end..];
    }
  }

  /** The slices taken so far followed by the chunks of the rest are all the chunks. */
  ghost predicate SlicesSoFar<T>(slices: seq<seq<T>>, rows: seq<T>, i: nat, size: nat)
    requires size > 0 && i <= |rows|
  {
    slices + Paging.Chunks(rows[i..], size) == Paging.Chunks(rows, size)
  }

  /** One more slice taken keeps the slices so far a prefix of all the chunks. */
  lemma ChunksStep<T>(rows: seq<T>, i: nat, size: nat, slices: seq<seq<T>>)
    requires size > 0 && i < |rows|
    requires SlicesSoFar(slices, rows, i, size)
    ensures var end := if i + size < |rows| then i + size else |rows|;
      SlicesSoFar(slices + [rows[i..end]], rows, end, size)
  {
    ChunksFrom(rows, i, size);
  }

  lemma SlicesDone<T>(slices: seq<seq<T>>, rows: seq<T>, size: nat)
    requires size > 0
    requires SlicesSoFar(slices, rows, |rows|, size)
    ensures slices == Paging.Chunks(rows, size)
  {
    assert rows[|rows|..] == [];
    assert slices + [] == slices;
  }

  /** `pLimit(tasks, concurrency)`: the tasks run in consecutive slices of `concurrency`,
      and the results come back in task order. The pause between slices and the
      parallelism inside a slice are not modelled. */
  method PLimit<T, R>(tasks: seq<T>, concurrency: nat, run: T -> R) returns (results: seq<R>, slices: seq<seq<T>>)
    requires concurrency > 0
    ensures results == Map(tasks, run)
    ensures slices == Paging.Chunks(tasks, concurrency)
  {
    results, slices := [], [];
    var i := 0;
    assert tasks[0..] == tasks;
    assert SlicesSoFar(slices, tasks, 0, concurrency);
    while i < |tasks|
      invariant i <= |tasks|
      invariant results == Map(tasks[..i], run)
      invariant SlicesSoFar(slices, tasks, i, concurrency)
    {
      results, slices, i := SliceTurn(tasks, concurrency, run, results, slices, i);
    }
    assert tasks[..|tasks|] == tasks;
    SlicesDone(slices, tasks, concurrency);
  }

  /** One slice of `pLimit`: the next `concurrency` tasks run and their results are
      appended. */
  method SliceTurn<T, R>(tasks: seq<T>, concurrency: nat, run: T -> R, results: seq<R>, slices: seq<seq<T>>, i: nat)
    returns (resultsAfter: seq<R>, slicesAfter: seq<seq<T>>, end: nat)
    requires concurrency > 0 && i < |tasks|
    requires results == Map(tasks[..i], run)
    requires SlicesSoFar(slices, tasks, i, concurrency)
    ensures i < end <= |tasks|
    ensures resultsAfter == Map(tasks[..end], run)
    ensures SlicesSoFar(slicesAfter, tasks, end, concurrency)
  {
    end := if i + concurrency < |tasks| then i + concurrency else |tasks|;
    var batch := tasks[i..end];
    var batchResults := RunSlice(batch, run);
    ChunksStep(tasks, i, concurrency, slices);
    assert tasks[..end] == tasks[..i] + batch;
    MapAppend(tasks[..i], batch, run);
    resultsAfter := results + batchResults;
    slicesAfter := slices + [batch];
  }

  /** `Promise.all(batch.map(t => t()))`, in order. */
  method RunSlice<T, R>(batch: seq<T>, run: T -> R) returns (out: seq<R>)
    ensures out == Map(batch, run)
  {
    out := [];
    var j := 0;
    while j < |batch|
      invariant j <= |batch| && out == Map(batch[..j], run)
    {
      PrefixNext(batch, j);
      MapAppend(batch[..j], [batch[j]], run);
      assert Map([batch[j]], run) == [run(batch[j])];
      out := out + [run(batch[j])];
      j := j + 1;
    }
    assert batch[..|batch|] == batch;
  }

  // ------------------------------------------------------------------
  // Paging loops
  // ------------------------------------------------------------------

  /** What a paging loop ends with: the error it threw, or what it collected and what it
      asked for in each request. */
  datatype Paged<T, Q> = Threw(message: string) | Fetched(items: seq<T>, requests: seq<Q>)

  /** What was collected before, followed by what the rest of the loop does. */
  function After<T, Q>(items: seq<T>, requests: seq<Q>, rest: Paged<T, Q>): Paged<T, Q> {
    match rest
    case Threw(m) => Threw(m)
    case Fetched(xs, qs) => Fetched(items + xs, requests + qs)
  }

  lemma AfterAfter<T, Q>(a: seq<T>, p: seq<Q>, b: seq<T>, q: seq<Q>, rest: Paged<T, Q>)
    ensures After(a, p, After(b, q, rest)) == After(a + b, p + q, rest)
  {
    match rest
    case Threw(_) =>
    case Fetched(xs, qs) =>
      assert a + (b + xs) == a + b + xs;
      assert p + (q + qs) == p + q + qs;
  }

  /** An orders search: 401, another failure with the answer's `message`, or the
      answer's `results`. */
  datatype MLSearch = Unauthorized | SearchNotOk(message: Option<string>) | SearchOk(results: Option<seq<MLOrder>>)

  /** `refreshMLToken` throws when the endpoint refuses; `refresh(n)` is the status text
      of the n-th refresh's failure, or None when it succeeds. */
  function RefreshError(text: string): string { "Error refresh token: " + text }

  /** The message a failed Supabase write throws in both sync scripts. */
  function SupabaseError(message: string): string { "Supabase error: " + message }

  /** The `while (keepGoing)` loop of `syncML` from a reply on: the offsets asked for,
      one per request. `n` counts the refreshes made so far. */
  function MLFrom(replies: seq<MLSearch>, offset: nat, n: nat, refresh: nat -> Option<string>): Paged<MLOrder, nat>
    decreases |replies|
  {
    if replies == [] then Fetched([], [])
    else match replies[0]
      case Unauthorized =>
        if refresh(n).Some? then Threw(RefreshError(refresh(n).value))
        else After([], [offset], MLFrom(replies[1..], offset, n + 1, refresh))
      case SearchNotOk(m) => Threw("ML API error: " + Render(m))
      case SearchOk(results) =>
        var orders := if results.Some? then results.value else [];
        if orders == [] then Fetched([], [offset])
        else if |orders| < PageSize then Fetched(orders, [offset])
        else After(orders, [offset], MLFrom(replies[1..], offset + PageSize, n, refresh))
  }

  /** `syncML` up to the normalisation: the refresh before the loop, then the loop. */
  function CollectMLSpec(replies: seq<MLSearch>, refresh: nat -> Option<string>): Paged<MLOrder, nat> {
    if refresh(0).Some? then Threw(RefreshError(refresh(0).value)) else MLFrom(replies, 0, 1, refresh)
  }

  /** One pass of the loop on the reply `reply`, with `rest` the replies after it: a 401
      refreshes the token and repeats the request, a failure throws, and a page of
      results is appended and either ends the loop (`done`) or advances the offset. */
  method MLTurn(reply: MLSearch, ghost rest: seq<MLSearch>, offset: nat, n: nat, refresh: nat -> Option<string>)
    returns (error: Option<string>, done: bool, orders: seq<MLOrder>, nextOffset: nat, nextN: nat)
    ensures error.Some? ==> MLFrom([reply] + rest, offset, n, refresh) == Threw(error.value)
    ensures error.None? && done ==> MLFrom([reply] + rest, offset, n, refresh) == Fetched(orders, [offset])
    ensures error.None? && !done ==>
      MLFrom([reply] + rest, offset, n, refresh) == After(orders, [offset], MLFrom(rest, nextOffset, nextN, refresh))
  {
    assert ([reply] + rest)[0] == reply && ([reply] + rest)[1..] == rest;
    error, done, nextOffset, nextN := None, false, offset, n;
    match reply
    case Unauthorized =>
      if refresh(n).Some? {
        return Some(RefreshError(refresh(n).value)), true, [], offset, n;
      }
      orders := [];
      nextN := n + 1;
    case SearchNotOk(m) =>
      return Some("ML API error: " + Render(m)), true, [], offset, n;
    case SearchOk(results) =>
      orders := if results.Some? then results.value else [];
      if orders == [] || |orders| < PageSize {
        done := true;
      } else {
        nextOffset := offset + PageSize;
      }
  }

  /** The loop itself. */
  method CollectML(replies: seq<MLSearch>, refresh: nat -> Option<string>) returns (r: Paged<MLOrder, nat>)
    ensures r == CollectMLSpec(replies, refresh)
  {
    if refresh(0).Some? {
      return Threw(RefreshError(refresh(0).value));
    }
    ghost var whole := MLFrom(replies, 0, 1, refresh);
    var allOrders: seq<MLOrder> := [];
    var offsets: seq<nat> := [];
    var offset: nat := 0;
    var n: nat := 1;
    var k := 0;
    var keepGoing := true;
    while keepGoing && k < |replies|
      invariant k <= |replies|
      invariant whole == if keepGoing then After(allOrders, offsets, MLFrom(replies[k..], offset, n, refresh))
                          else Fetched(allOrders, offsets)
      decreases |replies| - k
    {
      assert replies[k..] == [replies[k]] + replies[k + 1..];
      var error, done, orders, nextOffset, nextN := MLTurn(replies[k], replies[k + 1..], offset, n, refresh);
      if error.Some? {
        return Threw(error.value);
      }
      if !done {
        AfterAfter(allOrders, offsets, orders, [offset], MLFrom(replies[k + 1..], nextOffset, nextN, refresh));
      }
      allOrders := allOrders + orders;
      offsets := offsets + [offset];
      offset, n := nextOffset, nextN;
      k := k + 1;
      if done {
        keepGoing := false;
      }
    }
    if keepGoing {
      assert replies[k..] == [];
    }
    return Fetched(allOrders, offsets);
  }

  /** The pages of a script in which every search succeeded (`data.results || []`). */
  function PagesOf(replies: seq<MLSearch>): (r: seq<seq<MLOrder>>)
    requires forall j :: 0 <= j < |replies| ==> replies[j].SearchOk?
    ensures |r| == |replies|
    ensures forall j :: 0 <= j < |replies| ==>
      r[j] == (if replies[j].results.Some? then replies[j].results.value else [])
  {
    if replies == [] then []
    else
      var res := replies[0].results;
      [if res.Some? then res.value else []] + PagesOf(replies[1..])
  }

  /** Without 401s and failures the loop collects what the shared offset-paging loop
      collects: every page up to the first empty or short one. */
  lemma {:induction false} MLFromPlain(replies: seq<MLSearch>, k: nat, offset: nat, n: nat, refresh: nat -> Option<string>)
    requires k <= |replies|
    requires forall j :: 0 <= j < |replies| ==> replies[j].SearchOk?
    ensures MLFrom(replies[k..], offset, n, refresh).Fetched?
    ensures MLFrom(replies[k..], offset, n, refresh).items == Paging.CollectFrom(PagesOf(replies), PageSize, k)
    decreases |replies| - k
  {
    if k < |replies| {
      assert replies[k..][1..] == replies[k + 1..];
      var orders := PagesOf(replies)[k];
      if orders != [] && |orders| >= PageSize {
        MLFromPlain(replies, k + 1, offset + PageSize, n, refresh);
      }
    } else {
      assert replies[k..] == [];
    }
  }

  /** So `syncML`, when the refresh and every search succeed, collects exactly the
      shared loop's pages (whose shape Paging.CollectShape states). */
  lemma CollectMLPlain(replies: seq<MLSearch>, refresh: nat -> Option<string>)
    requires refresh(0).None?
    requires forall j :: 0 <= j < |replies| ==> replies[j].SearchOk?
    ensures CollectMLSpec(replies, refresh).Fetched?
    ensures CollectMLSpec(replies, refresh).items == Paging.CollectFrom(PagesOf(replies), PageSize, 0)
  {
    MLFromPlain(replies, 0, 0, 1, refresh);
    assert replies[0..] == replies;
  }

  /** The offsets asked for: the first is the starting offset, and each next request
      asks for the same offset after a 401 and for the next page of 50 otherwise. */
  lemma {:induction false} MLFromOffsets(replies: seq<MLSearch>, offset: nat, n: nat, refresh: nat -> Option<string>)
    ensures var r := MLFrom(replies, offset, n, refresh);
      r.Fetched? ==>
        && |r.requests| <= |replies|
        && (replies != [] ==> r.requests != [] && r.requests[0] == offset)
        && forall j :: 0 <= j < |r.requests| - 1 ==>
             r.requests[j + 1] == (if replies[j].Unauthorized? then r.requests[j] else r.requests[j] + PageSize)
    decreases |replies|
  {
    if replies != [] {
      var r := MLFrom(replies, offset, n, refresh);
      match replies[0]
      case Unauthorized =>
        if refresh(n).None? {
          var rest := MLFrom(replies[1..], offset, n + 1, refresh);
          MLFromOffsets(replies[1..], offset, n + 1, refresh);
          if r.Fetched? {
            assert r.requests == [offset] + rest.requests;
            forall j | 1 <= j < |r.requests| - 1
              ensures r.requests[j + 1] == (if replies[j].Unauthorized? then r.requests[j] else r.requests[j] + PageSize)
            {
              assert replies[j] == replies[1..][j - 1];
            }
          }
        }
      case SearchNotOk(_) =>
      case SearchOk(results) =>
        var orders := if results.Some? then results.value else [];
        if orders != [] && |orders| >= PageSize {
          var rest := MLFrom(replies[1..], offset + PageSize, n, refresh);
          MLFromOffsets(replies[1..], offset + PageSize, n, refresh);
          if r.Fetched? {
            assert r.requests == [offset] + rest.requests;
            forall j | 1 <= j < |r.requests| - 1
              ensures r.requests[j + 1] == (if replies[j].Unauthorized? then r.requests[j] else r.requests[j] + PageSize)
            {
              assert replies[j] == replies[1..][j - 1];
            }
          }
        }
    }
  }

  /** The script without its 401 answers. */
  function WithoutUnauthorized(replies: seq<MLSearch>): (r: seq<MLSearch>)
    ensures |r| <= |replies|
    ensures forall j :: 0 <= j < |r| ==> !r[j].Unauthorized?
  {
    if replies == [] then []
    else if replies[0].Unauthorized? then WithoutUnauthorized(replies[1..])
    else [replies[0]] + WithoutUnauthorized(replies[1..])
  }

  /** While refreshing works, a 401 changes nothing but the number of requests: the
      loop ends the same way and collects the same orders as without it. */
  lemma {:induction false} RetryTransparent(replies: seq<MLSearch>, offset: nat, n: nat, m: nat, refresh: nat -> Option<string>)
    requires forall k :: refresh(k).None?
    ensures var a := MLFrom(replies, offset, n, refresh);
      var b := MLFrom(WithoutUnauthorized(replies), offset, m, refresh);
      && (a.Threw? <==> b.Threw?)
      && (a.Threw? ==> a.message == b.message)
      && (a.Fetched? ==> a.items == b.items)
    decreases |replies|
  {
    if replies != [] {
      var w := WithoutUnauthorized(replies);
      match replies[0]
      case Unauthorized =>
        assert refresh(n).None?;
        RetryTransparent(replies[1..], offset, n + 1, m, refresh);
        var rest := MLFrom(replies[1..], offset, n + 1, refresh);
        if rest.Fetched? {
          assert [] + rest.items == rest.items;
        }
      case SearchNotOk(_) =>
        assert w[0] == replies[0];
      case SearchOk(results) =>
        assert w[0] == replies[0] && w[1..] == WithoutUnauthorized(replies[1..]);
        var orders := if results.Some? then results.value else [];
        if orders != [] && |orders| >= PageSize {
          RetryTransparent(replies[1..], offset + PageSize, n, m, refresh);
        }
    }
  }

  /** A Wix search: a status other than 2xx with the text the error quotes
      (`data.message || JSON.stringify(data)`), or the page's orders and next cursor. */
  datatype WixSearch = WixNotOk(status: int, detail: string) | WixOk(orders: Option<seq<WixOrder>>, next: Option<string>)

  /** `o.createdDate || o._createdDate`. */
  function CreatedDate(o: WixOrder): Option<string> {
    OrOpt(o.createdDate, o.underscoreCreatedDate)
  }

  /** `d >= dateFrom && d <= dateTo` on ISO strings; an order without a date compares
      false both ways. */
  predicate InWindow(o: WixOrder, from: string, to: string) {
    var d := CreatedDate(o);
    d.Some? && StrLe(from, d.value) && StrLe(d.value, to)
  }

  /** `d < dateFrom`. */
  predicate Before(o: WixOrder, from: string) {
    var d := CreatedDate(o);
    d.Some? && !StrLe(from, d.value)
  }

  /** `orders.filter(inRange)`. */
  function InWindowOf(orders: seq<WixOrder>, from: string, to: string): (r: seq<WixOrder>)
    ensures |r| <= |orders|
    ensures forall x :: x in r <==> x in orders && InWindow(x, from, to)
  {
    if orders == [] then []
    else
      var rest := InWindowOf(orders[1..], from, to);
      if InWindow(orders[0], from, to) then [orders[0]] + rest else rest
  }

  predicate AnyBefore(orders: seq<WixOrder>, from: string) {
    exists i :: 0 <= i < |orders| && Before(orders[i], from)
  }

  function OrdersOf(page: WixSearch): seq<WixOrder>
    requires page.WixOk?
  {
    if page.orders.Some? then page.orders.value else []
  }

  /** The `while (keepGoing)` loop of `syncWix` from a page on; the requests are the
      cursors sent. */
  function WixFrom(pages: seq<WixSearch>, cursor: Option<string>, from: string, to: string): Paged<WixOrder, Option<string>>
    decreases |pages|
  {
    if pages == [] then Fetched([], [])
    else match pages[0]
      case WixNotOk(status, detail) => Threw("Wix API error (" + IntToString(status) + "): " + detail)
      case WixOk(_, next) =>
        var orders := OrdersOf(pages[0]);
        var kept := InWindowOf(orders, from, to);
        var nextCursor := NullIfEmpty(next);
        if AnyBefore(orders, from) || |orders| < PageSize || nextCursor.None? then Fetched(kept, [cursor])
        else After(kept, [cursor], WixFrom(pages[1..], nextCursor, from, to))
  }

  /** The loop itself, from no cursor. */
  method CollectWix(pages: seq<WixSearch>, from: string, to: string) returns (r: Paged<WixOrder, Option<string>>)
    ensures r == WixFrom(pages, None, from, to)
  {
    ghost var whole := WixFrom(pages, None, from, to);
    var allOrders: seq<WixOrder> := [];
    var cursors: seq<Option<string>> := [];
    var cursor: Option<string> := None;
    var k := 0;
    var keepGoing := true;
    while keepGoing && k < |pages|
      invariant k <= |pages|
      invariant whole == if keepGoing then After(allOrders, cursors, WixFrom(pages[k..], cursor, from, to))
                          else Fetched(allOrders, cursors)
      decreases |pages| - k
    {
      assert pages[k..][1..] == pages[k + 1..];
      var page := pages[k];
      if page.WixNotOk? {
        return Threw("Wix API error (" + IntToString(page.status) + "): " + page.detail);
      }
      var orders := OrdersOf(page);
      var inRange := InWindowOf(orders, from, to);
      var outOfRange := AnyBefore(orders, from);
      var next := NullIfEmpty(page.next);
      AfterAfter(allOrders, cursors, inRange, [cursor], WixFrom(pages[k + 1..], next, from, to));
      allOrders := allOrders + inRange;
      cursors := cursors + [cursor];
      cursor := next;
      k := k + 1;
      if outOfRange || |orders| < PageSize || cursor.None? {
        keepGoing := false;
      }
    }
    if keepGoing {
      assert pages[k..] == [];
    }
    return Fetched(allOrders, cursors);
  }

  /** Every collected order was created inside the window. */
  lemma {:induction false} WixFromInWindow(pages: seq<WixSearch>, cursor: Option<string>, from: string, to: string)
    ensures var r := WixFrom(pages, cursor, from, to);
      r.Fetched? ==> forall i :: 0 <= i < |r.items| ==> InWindow(r.items[i], from, to)
    decreases |pages|
  {
    if pages != [] && pages[0].WixOk? {
      var orders := OrdersOf(pages[0]);
      var kept := InWindowOf(orders, from, to);
      var next := NullIfEmpty(pages[0].next);
      WixFromInWindow(pages[1..], next, from, to);
      var r := WixFrom(pages, cursor, from, to);
      if r.Fetched? {
        forall i | 0 <= i < |r.items| ensures InWindow(r.items[i], from, to) {
          if i < |kept| {
            assert r.items[i] == kept[i] && kept[i] in kept;
          }
        }
      }
    }
  }

  /** The stop rule: each page that led to another request was full, held no order
      older than the window and gave a next cursor, which the next request sent. */
  lemma {:induction false} WixFromShape(pages: seq<WixSearch>, cursor: Option<string>, from: string, to: string)
    ensures var r := WixFrom(pages, cursor, from, to);
      r.Fetched? ==>
        && |r.requests| <= |pages|
        && (pages != [] ==> r.requests != [] && r.requests[0] == cursor)
        && forall j :: 0 <= j < |r.requests| - 1 ==>
             && pages[j].WixOk? && |OrdersOf(pages[j])| >= PageSize && !AnyBefore(OrdersOf(pages[j]), from)
             && r.requests[j + 1] == NullIfEmpty(pages[j].next) && r.requests[j + 1].Some?
    decreases |pages|
  {
    if pages != [] && pages[0].WixOk? {
      var orders := OrdersOf(pages[0]);
      var next := NullIfEmpty(pages[0].next);
      if !(AnyBefore(orders, from) || |orders| < PageSize || next.None?) {
        var r := WixFrom(pages, cursor, from, to);
        var rest := WixFrom(pages[1..], next, from, to);
        WixFromShape(pages[1..], next, from, to);
        if r.Fetched? {
          assert r.requests == [cursor] + rest.requests;
          forall j | 1 <= j < |r.requests| - 1
            ensures pages[j].WixOk? && |OrdersOf(pages[j])| >= PageSize && !AnyBefore(OrdersOf(pages[j]), from)
              && r.requests[j + 1] == NullIfEmpty(pages[j].next) && r.requests[j + 1].Some?
          {
            assert pages[j] == pages[1..][j - 1];
          }
        }
      }
    }
  }

  // ------------------------------------------------------------------
  // The two channels' sync functions
  // ------------------------------------------------------------------

  function NormalizeMLScript(o: MLOrder): Order {
    Normalizer.NormalizeMLWith(o, Enviado)
  }

  // ------------------------------------------------------------------
  // The upserts' batches
  // ------------------------------------------------------------------

  /** Both scripts write 50 orders per request. */
  const BatchSize: nat := 50

  /** The end of `orders.slice(i, i + batchSize)`. */
  function BatchEnd<T>(rows: seq<T>, i: nat): (e: nat)
    ensures i < |rows| ==> i < e <= |rows| && e - i <= BatchSize
  {
    if i + BatchSize < |rows| then i + BatchSize else |rows|
  }

  /** The collected orders normalised with status enviado, each with the address of
      its shipment. */
  function EnrichML(orders: seq<MLOrder>, shipment: string -> ShipmentReply): (r: seq<Order>)
    ensures |r| == |orders|
    ensures forall i :: 0 <= i < |orders| ==> r[i] == AttachShipment(NormalizeMLScript(orders[i]), shipment)
  {
    Map(Map(orders, NormalizeMLScript), (o: Order) => AttachShipment(o, shipment))
  }

  /** `syncML`: the collected orders, enriched with their shipments read five at a time. */
  method SyncML(replies: seq<MLSearch>, refresh: nat -> Option<string>, shipment: string -> ShipmentReply)
    returns (r: Paged<Order, nat>)
    ensures var c := CollectMLSpec(replies, refresh);
      && (c.Threw? ==> r == Threw(c.message))
      && (c.Fetched? ==> r == Fetched(EnrichML(c.items, shipment), c.requests))
  {
    var fetched := CollectML(replies, refresh);
    if fetched.Threw? {
      return Threw(fetched.message);
    }
    if fetched.items == [] {
      return Fetched([], fetched.requests);
    }
    var normalized := Map(fetched.items, NormalizeMLScript);
    var withAddresses, _ := PLimit(normalized, ShipmentConcurrency, (o: Order) => AttachShipment(o, shipment));
    return Fetched(withAddresses, fetched.requests);
  }

  /** `syncWix`: the collected orders, normalised. */
  method SyncWix(pages: seq<WixSearch>, from: string, to: string) returns (r: Paged<Order, Option<string>>)
    ensures var c := WixFrom(pages, None, from, to);
      && (c.Threw? ==> r == Threw(c.message))
      && (c.Fetched? ==> r == Fetched(Map(c.items, NormalizeWixOrder), c.requests))
  {
    var fetched := CollectWix(pages, from, to);
    if fetched.Threw? {
      return Threw(fetched.message);
    }
    return Fetched(Map(fetched.items, NormalizeWixOrder), fetched.requests);
  }
}
