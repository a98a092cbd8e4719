# Order-management core of a toy retailer, in Dafny

This project models the deterministic rules of an order-management system for a toy
retailer that sells on Mercado Libre, Wix and Falabella. The system pulls each channel's
orders, maps them into one `Order` record, stores them in a Supabase table and builds
dashboard, analytics and CRM views from the stored rows. Network and storage calls are
not modelled. Their answers come in as parameters or as finite scripts of replies, and
the model states what the surrounding logic does with them.

The modules follow the repository's files:

- `OrderModel`, `Raw`: the unified order record with its statuses and channels, and the
  raw records the three channel APIs deliver.
- `Normalizer`, `FalabellaStatus`: the channel normalisers with their `||`/`??` fallback
  chains as `Option` chains. This includes the priority reduction of Falabella item
  statuses to one order status.
- `FalabellaSync`, `FalabellaWebhook`, `FalabellaClient`: the Falabella endpoint's
  GetOrders paging and item join, the webhook's per-order matching, and the request
  builder with its canonical string to sign (sorted, percent-encoded `k=v` pairs joined by `&`).
- `SyncMlApi`, `SyncWixApi`, `MLApi`: the Mercado Libre and Wix endpoints, including
  the refresh-and-retry-once rule after a 401.
- `SyncMLAllStatuses`, `SyncMLStatus`, `BackfillMLEntregados`, `BackfillStoreNames`,
  `BackfillWixUnpaid`, `SyncIncremental`, `SyncHistorico`, `ScriptSync`, `Paging`,
  `Batches`, `DotEnv`: the sync and backfill scripts. This covers:
  - the status mapping;
  - update-only-if-changed;
  - marking delivered only on a `delivered` shipment;
  - outcome counters that partition the processed orders;
  - pagination stop rules;
  - fixed-size batches;
  - the `.env.local` reader.
- `SyncWixHook`: the dashboard's Wix sync. It has the incremental `dateFrom` rule and
  keeps a manual status unless the incoming one is terminal.
- `PurchaseEvents`, `Customers`, `Analytics`, `AnalyticsSummary`, `AnalyticsPage`: the
  purchase-event dedupe (Mercado Libre rows sharing a `pack_id` are one purchase, but
  every row's revenue counts), the customer profiles, the VIP top-20% cut, and the
  single-pass analytics aggregation with its rankings, top-N cuts and Monday-to-Sunday order.
- `CustomerTable`, `OrderFilters`, `ActivityFeed`, `ActivityView`: the sort-header state
  machine, the filter handlers, the bounded newest-first activity buffer and the
  captions of feed events.
- `CrmExport`, `LabelPrinter`, `PushToHalcon`: the CSV export, HTML-escaped shipping
  labels, and the Halcón hand-off, which covers eligibility and field mapping.
- `Text`, `Wrappers`, `Sorting`, `OrderedMap`: the JavaScript built-ins the sources rely on:
  - string `trim`, `toLowerCase`, `join` and `parseFloat`;
  - `null`/`undefined` as `Option`;
  - the stable `Array.prototype.sort` and `slice(0, n)`;
  - `Map` with insertion-ordered iteration.

Money is an integer number of pesos (COP has no decimals). Dates are either ISO strings
compared as text, where the source compares them as text, or integer milliseconds.

One file disagrees with its own header. The header of
scripts/backfill-ml-entregados.mjs:8 says `self_service` orders are excluded, but the
loop at line 173 also runs over `self_service`. The model follows the loop
(`BackfillMLEntregados.CoversSelfService`).

## Model

| member | source | states |
|---|---|---|
| ActivityFeed.IsRelevantSpec | src/hooks/useActivityFeed.ts:12-19 | an event is relevant iff it is not a status change, or it is a status change to enviado or entregado |
| ActivityFeed.Take | src/hooks/useActivityFeed.ts:63 | `slice(0, n)` keeps the first min(n, length) elements, as a prefix |
| ActivityFeed.Prepend | src/hooks/useActivityFeed.ts:63 | the new event comes first, the older ones follow in order, and the list never exceeds 50 (the bound is the constant at line 5) |
| ActivityFeed.PrependTake | src/hooks/useActivityFeed.ts:33-63 | the buffer always holds exactly the newest 50 of all events ever loaded or prepended |
| ActivityFeed.Feed.constructor | src/hooks/useActivityFeed.ts:22-23 | the feed starts empty and loading |
| ActivityFeed.Feed.FinishLoad | src/hooks/useActivityFeed.ts:28-38 | loading ends whether or not the query failed; a successful load keeps at most 50 rows, a failed one changes nothing else |
| ActivityFeed.Feed.OnInsert | src/hooks/useActivityFeed.ts:49-64 | a relevant insert whose re-read returns a row is prepended and the buffer cut to 50; anything else leaves the events unchanged |
| ActivityView.EffectiveConfigKey | src/components/dashboard/ActivityFeed.tsx:75-81 | a status change to enviado shows as shipped and to entregado as delivered; every other event keeps its own type, in both directions |
| ActivityView.FeedNeverShowsGenericStatus | src/components/dashboard/ActivityFeed.tsx:19-81 | an event the feed keeps never shows the generic status caption, and the six captions are pairwise distinct |
| ActivityView.DisplayId | src/components/dashboard/ActivityFeed.tsx:84-90 | "Pack <pack_id>" for a Mercado Libre event with a pack id, else "#<order_external_id>" |
| ActivityView.DisplayIdSpec | src/components/dashboard/ActivityFeed.tsx:84-90 | events of one pack share a display id, the pack is ignored outside Mercado Libre, and two "#" ids name the same external order |
| ActivityView.SubInfo | src/components/dashboard/ActivityFeed.tsx:107-115 | "Remisión: v" or "Serial: v" exactly for remision/halcon events with a non-empty value, else null |
| ActivityView.ChannelLabel | src/components/dashboard/ActivityFeed.tsx:66-70 | the three known channels get their labels; an unknown channel shows its raw name (also line 159) |
| ActivityView.ChannelColor | src/components/dashboard/ActivityFeed.tsx:60-64 | the three known channels get their colours; an unknown channel gets #9CA3AF (also line 157) |
| Raw.MoneyText | api/sync-wix.js:21-49 | the text parsed is the amount when it is truthy, the fallback when the money is absent |
| SyncWixApi.AmountMissing | api/sync-wix.js:21-22 | a missing price total counts as 0, not as NaN |
| SyncWixApi.ShipmentAddress | api/sync-wix.js:32-40 | the address is null exactly when `shipmentDetails.address` is absent, and each part falls back to "" |
| SyncWixApi.ItemOf | api/sync-wix.js:41-52 | sku falls back to the item id, title to translated, original, 'Sin nombre'; prices parse from `amount`, the object or 0 |
| SyncWixApi.ItemsOf | api/sync-wix.js:41 | one output item per line item, in order |
| SyncWixApi.NormalizeWixOrder | api/sync-wix.js:12-59 | the normaliser fails exactly when `lineItems` is missing (`.map` throws) |
| SyncWixApi.NormalizeWixOrderSpec | api/sync-wix.js:12-59 | channel wix, status nuevo, no pack or shipping id; order_date falls back _createdDate, dateCreated, now; closed_date _updatedDate, dateUpdated, _createdDate, null; total and paid come from the same price; one item per line item |
| SyncWixApi.NormalizeAll | api/sync-wix.js:118 | every order is normalised in order, and the map fails exactly when one order has no line items |
| SyncWixApi.Handle | api/sync-wix.js:65-126 | non-POST gives 405; missing apiKey or siteId gives 400; a page answers with `hasMore` iff the next cursor is truthy, and asks with limit 50 and no cursor by default |
| SyncWixApi.OptionsUnreachable | api/sync-wix.js:67-78 | an OPTIONS request is refused with 405, so the 200 preflight branch is never reached |
| SyncWixApi.HandlePageSpec | api/sync-wix.js:113-126 | a page whose orders all have line items comes back whole, in order, with its cursor and `hasMore` iff that cursor is truthy |
| MLApi.Fetch | scripts/sync-ml-all-statuses.mjs:81-92 | at most two requests and one refresh; a refresh happens iff the first answer is 401 and a retry is allowed; a result is only ever the body of an OK answer to the token then in force |
| MLApi.RetryOnce | scripts/backfill-ml-entregados.mjs:63-71 | a second 401 after the refresh throws: two requests and one refresh, never more |
| MLApi.AcceptedToken | scripts/sync-ml-all-statuses.mjs:81-91 | an accepted token gives its body after one request and no refresh |
| MLApi.RefreshedToken | scripts/sync-ml-all-statuses.mjs:85-87 | a refused token that refreshes into an accepted one succeeds on the retry, with the new token |
| SyncMlApi.NormalizeAll | api/sync-ml.js:133-167 | every search result is normalised, in order, with status nuevo |
| SyncMlApi.Handle | api/sync-ml.js:84-189 | non-POST gives 405 (so OPTIONS is never answered 200) and missing accessToken or sellerId 400, both with no call; the first search uses the caller's token; a refresh happens only after a 401 and is the second call; newTokens is non-null exactly on the retry path, whose search uses the refreshed token; at most three calls |
| Normalizer.MLVariation | src/services/normalizer.ts:41-45 | one {name, value_name} pair per variation attribute, in order, and [] when the attributes are absent |
| Normalizer.MLItems | src/services/normalizer.ts:34-46 | one output item per `order_items` entry, in order |
| Normalizer.IdString | src/services/normalizer.ts:20-21 | an optional numeric id becomes its non-empty decimal text, or null when absent |
| Normalizer.NormalizeMLWithSpec | src/services/normalizer.ts:14-59 | channel mercadolibre, the given status (nuevo here), no shipping address, logistic type or notes; order_id = String(id), which parses back to the id; pack and shipping ids present iff given; one item per order item with its fields; payment info iff a first payment exists; tags default to [] |
| Normalizer.NormalizeMLOrderIdInjective | src/services/normalizer.ts:18 | different raw ids never give the same order_id |
| Normalizer.WixShippingAddressSpec | src/services/normalizer.ts:97-111 | the address is null iff both shippingDestination and recipientInfo addresses are absent; street is the truthy address lines joined by ", "; state prefers the full subdivision name |
| Normalizer.WixItemSku | src/services/normalizer.ts:113 | sku falls back physicalProperties.sku, then sku, then id |
| Normalizer.WixItems | src/services/normalizer.ts:112-123 | a line item without a price throws (`None`), iff; otherwise one output item per line item, in order, each the mapping of its line item |
| Normalizer.NormalizeWixOrderSpec | src/services/normalizer.ts:73-130 | the normaliser throws (`None`) iff `priceSummary.total` or `lineItems` is missing or a line item has no price; otherwise channel wix, status nuevo, order_id = number, no pack or shipping id, total equals paid, address null iff both sources are absent, one item per line item carrying the order currency, payment status carried over |
| Normalizer.ReplaceFirstSpaceSpec | src/services/normalizer.ts:137 | only the first space becomes 'T'; every other character is kept |
| Normalizer.ParseFalabellaDate | src/services/normalizer.ts:135-138 | null iff the text is missing or empty; otherwise the first space becomes 'T' and 'Z' is appended |
| Normalizer.VariationAttrsTs | src/services/normalizer.ts:144-147 | one {name, value} per JSON entry, in order |
| Normalizer.ParseVariationFb | src/services/normalizer.ts:140-149 | [] for a missing or empty text or invalid JSON; otherwise one pair per top-level entry, in order |
| Normalizer.ParseVariationFbObject | src/services/normalizer.ts:144-147 | on a JSON object each attribute gives {name, value}, where an object value contributes its `name` and any other value `String(val)` |
| Normalizer.RemoveCommas | api/sync-falabella.js:39 | the result has no comma and keeps only characters of the input |
| Normalizer.ParseAmountMissing | api/sync-falabella.js:39 | a missing or empty amount parses as 0 |
| Normalizer.RemoveCommasExample | api/sync-falabella.js:39 | "1,500" loses its comma |
| Normalizer.ParseFloatStopsAtComma | src/services/normalizer.ts:183 | parseFloat stops at a comma, so "1,500" alone reads as 1 |
| Normalizer.ParseAmountCommaExample | api/sync-falabella.js:38-40 | parseAmount reads "1,500" as 1500 where the TypeScript normaliser's parseFloat reads 1 |
| Normalizer.ParseVariationJs | api/sync-falabella.js:8-17 | as the TypeScript parser, except that a null attribute value throws and the whole variation becomes [] |
| Normalizer.VariationParsersAgree | api/sync-falabella.js:8-17 | without null attribute values the two variation parsers agree |
| Normalizer.VariationNullExample | api/sync-falabella.js:14 | a null value gives "null" in the TypeScript parser and drops the variation in the JavaScript one |
| Normalizer.FbItems | src/services/normalizer.ts:205-216 | one output item per Falabella item, in order |
| Normalizer.FbLogisticType | src/services/normalizer.ts:226-228 | dropshipping or own_warehouse exactly on the exact ShippingType text, null otherwise |
| Normalizer.NormalizeFalabellaStatusAndItems | src/services/normalizer.ts:173-208 | channel falabella, order_id kept, status is the reduced status of the Statuses array (nuevo when absent), one item per item, each of quantity 1 |
| Normalizer.NormalizeFalabellaCurrency | src/services/normalizer.ts:185 | the currency is the first item's Currency when truthy, else 'COP' |
| Normalizer.NormalizeFalabellaLogistics | src/services/normalizer.ts:194-228 | logistic type follows ShippingType exactly, and the shipping address is always present |
| Normalizer.NormalizeFalabellaCustomerId | src/services/normalizer.ts:186-188 | the customer id is the national registration number when truthy, else the order id |
| Normalizer.NormalizeFalabellaAmounts | src/services/normalizer.ts:183-221 | total and paid are both the parsed grand total (else price), the payment info pays that total, and the shipping cost is the parsed shipping fee, 0 when the fee is missing |
| Normalizer.FalabellaShippingNaN | src/services/normalizer.ts:221 | a shipping fee that is not a number gives NaN (`None`), not 0 |
| Normalizer.FbAmountMissing | src/services/normalizer.ts:221 | a missing or empty amount parses as 0 |
| Normalizer.NormalizeFalabellaDate | src/services/normalizer.ts:181 | the TypeScript copy falls back to the current time for a missing CreatedAt; the JavaScript copies leave it null |
| FalabellaStatus.Concat | api/sync-falabella.js:22 | `[].concat(v)` turns one status into a one-element list and keeps a list as it is |
| FalabellaStatus.StatusArraySpec | src/services/normalizer.ts:173 | a missing or empty Status gives ['pending']; a single status becomes a one-element list; a list is kept, even when empty |
| FalabellaStatus.MapOneTable | src/services/normalizer.ts:154-162 | on the lower-cased status: pending to nuevo, ready_to_ship to preparando, shipped to enviado, delivered to entregado, failed/canceled/return_* to cancelado, anything else nuevo; each non-default result in both directions |
| FalabellaStatus.MapOneCaseInsensitive | src/services/normalizer.ts:155 | a status and its lower-cased form map alike |
| FalabellaStatus.PriorityRank | src/services/normalizer.ts:151 | the priority list has five entries and each status's rank is its position in it |
| FalabellaStatus.MapAll | src/services/normalizer.ts:154 | every raw status is mapped, in order |
| FalabellaStatus.FirstIncluded | src/services/normalizer.ts:163-165 | the search returns the first priority entry that occurs in the mapped list, or nothing when none occurs |
| FalabellaStatus.MapFalabellaStatusSpec | src/services/normalizer.ts:151-167 | an empty list gives nuevo; otherwise the result is one of the mapped statuses and outranks every other mapped status |
| FalabellaStatus.PendingDefault | src/services/normalizer.ts:173-180 | the default ['pending'] reduces to nuevo |
| FalabellaStatus.CancelledOnlyIfAllCancelled | src/services/normalizer.ts:151-166 | the order is cancelado iff the list is non-empty and every status maps to cancelado |
| FalabellaStatus.AnyDeliveredWins | src/services/normalizer.ts:151-164 | one delivered item makes the order entregado |
| FalabellaStatus.MapFalabellaStatusJs | api/sync-falabella.js:21-36 | the JavaScript copy accepts one string or an array and agrees with the TypeScript reduction on the list `[].concat` gives |
| FalabellaWebhook.OrderIds | api/falabella-webhook.js:117-123 | the ids are payload.OrderId (scalar or array) in preference to payload.order_id, and none when neither is truthy |
| FalabellaWebhook.OrderField | api/falabella-webhook.js:141-156 | `Body.Orders.Order` is read as one order or a list; other shapes give no order |
| FalabellaWebhook.FindEntry | api/falabella-webhook.js:157 | the first items entry whose OrderId equals the id, or none exactly when no entry has it |
| FalabellaWebhook.ProcessOne | api/falabella-webhook.js:131-182 | a failed order request fails; a missing order is skipped; otherwise the order is normalised with the items of its matching entry (default []) and the outcome follows the upsert |
| FalabellaWebhook.Handler | api/falabella-webhook.js:98-130 | the 200 acknowledgement always comes first; missing credentials process nothing; otherwise every id is processed, in order, whatever happened to the previous ones |
| FalabellaWebhook.SameStatusAsSync | api/falabella-webhook.js:21-38 | the webhook maps statuses exactly as the sync endpoint, with the same ['pending'] default |
| FalabellaWebhook.WrapperArrayNotFound | api/falabella-webhook.js:141-145 | an order response in the wrapper-array form is treated as a missing order |
| FalabellaSync.Somes | api/sync-falabella.js:163-164 | from an array of wrappers, every wrapper that carries an order contributes it and nothing else is kept |
| FalabellaSync.Views | api/sync-falabella.js:159-177 | each response is read as its orders and its TotalCount; a request that throws stays a failure |
| FalabellaSync.Collect | api/sync-falabella.js:144-184 | the paging loop makes at least one more request from any page |
| FalabellaSync.FetchTurn | api/sync-falabella.js:145-183 | one pass either throws, stops on a stop rule, or appends the page and continues at the next offset, exactly as the paging function says |
| FalabellaSync.FetchAllOrders | api/sync-falabella.js:132-184 | the loop returns what the paging function gives for the responses, and consecutive offsets differ by exactly 100 starting at 0 |
| FalabellaSync.CollectSpec | api/sync-falabella.js:144-184 | a successful loop returns the concatenated pages it requested, every page but the last met the continue rule (a full page below min(TotalCount, 1000)), and a failed loop ended on a request that threw |
| FalabellaSync.CollectOrders | api/sync-falabella.js:175 | the orders collected are the requested pages concatenated, in order |
| FalabellaSync.CollectContinues | api/sync-falabella.js:169-183 | every page before the last was non-empty, full and below the cap |
| FalabellaSync.CollectFails | api/sync-falabella.js:147-157 | a failed loop ended on a request that threw (also lines 247-253) |
| FalabellaSync.MissingTotalCountStops | api/sync-falabella.js:177-179 | a missing TotalCount parses as 0, so any count has reached the cap |
| FalabellaSync.FullPagesStopAtCap | api/sync-falabella.js:179 | with full pages of 100 and a numeric total t, the loop makes max(1, ceil(min(t, 1000) / 100)) requests and returns their orders (the cap is set at line 132) |
| FalabellaSync.Requests | api/sync-falabella.js:179 | the request count is between 1 and 10 |
| FalabellaSync.Ids | api/sync-falabella.js:198 | one id per order of the batch, in order |
| FalabellaSync.Record | api/sync-falabella.js:220-224 | recording a batch's answer never removes a key |
| FalabellaSync.Clear | api/sync-falabella.js:228 | clearing a batch never removes a key |
| FalabellaSync.ClearBatch | api/sync-falabella.js:228 | the `forEach` of a failed batch sets the item list of each of its ids to [] |
| FalabellaSync.JoinItems | api/sync-falabella.js:193-230 | the loop builds the dictionary the batch-by-batch join function gives |
| FalabellaSync.JoinTurn | api/sync-falabella.js:197-229 | one pass applies the answer for the ids of `allOrders.slice(i, i + 20)` |
| FalabellaSync.JoinStep | api/sync-falabella.js:196-229 | one more batch applies the answer for the ids of the next slice of 20 |
| FalabellaSync.BatchAt | api/sync-falabella.js:196-197 | batch b is `allOrders.slice(20b, 20b + 20)` |
| FalabellaSync.BatchCount | api/sync-falabella.js:196 | there are ceil(n / 20) batches |
| FalabellaSync.BatchPartition | api/sync-falabella.js:194-197 | the batches concatenate back to the orders, each holds 1 to 20 orders and all but the last exactly 20 |
| FalabellaSync.ClearSets | api/sync-falabella.js:228 | a cleared id maps to []; any other key keeps its entry or stays absent |
| FalabellaSync.RecordKeeps | api/sync-falabella.js:220-224 | recording entries does not touch a key that is not among them |
| FalabellaSync.FailedBatchEmpties | api/sync-falabella.js:225-229 | right after a failed batch, each of its orders has an empty item list |
| FalabellaSync.SeparateBatches | api/sync-falabella.js:196-198 | with distinct ids, an order's id belongs to no other batch |
| FalabellaSync.FailedBatchStaysEmpty | api/sync-falabella.js:194-229 | with distinct ids and an API that answers only the ids asked, an order of a failed batch still has no items when the join ends |
| FalabellaSync.StaysEmptyUpTo | api/sync-falabella.js:196-230 | the empty list of a failed batch survives every later batch |
| FalabellaSync.BatchKeeps | api/sync-falabella.js:200-224 | a batch that does not hold the key leaves its entry alone |
| FalabellaSync.NormalizeAllKeepsOrder | api/sync-falabella.js:233-237 | one normalised order per fetched order, at the same position with the same id, and an order missing from the dictionary gets no items |
| FalabellaSync.Handler | api/sync-falabella.js:104-254 | OPTIONS iff preflight; 405 exactly for any other non-POST; 400 exactly when the request and the environment give no userId or apiKey; UpdatedAfter is dateFrom or six months ago; a throwing page fails the sync; otherwise the normalised join of all collected orders, with total = their count |
| FalabellaClient.Keys | api/_falabella-client.js:12 | `Object.keys`: one key per entry, in insertion order |
| FalabellaClient.Lookup | api/_falabella-client.js:13 | `obj[k]` has a value exactly when `k` is a key |
| FalabellaClient.AssignLookup | api/_falabella-client.js:39 | after `obj[k] = v`, `k` reads `v` and every other key reads as before |
| FalabellaClient.AssignKeys | api/_falabella-client.js:39 | an assignment keeps the key order and puts a new key last |
| FalabellaClient.AssignDistinct | api/_falabella-client.js:39 | an assignment never makes a key appear twice |
| FalabellaClient.Spread | api/_falabella-client.js:33-44 | `{...base, ...extra}` reads each key from `extra` when it has it and from `base` otherwise, with no key twice |
| FalabellaClient.PercentBytes | api/_falabella-client.js:13 | every byte becomes `%XX` with upper-case hex digits |
| FalabellaClient.EncodeChar | api/_falabella-client.js:13 | an unreserved character is kept; any other becomes a `%` escape |
| FalabellaClient.Encode | api/_falabella-client.js:13 | `encodeURIComponent` output holds only unreserved characters and '%', and leaves unreserved text unchanged |
| FalabellaClient.EncodedHasNoSeparators | api/_falabella-client.js:13-14 | no encoded key or value holds '&' or '=', so the canonical string has one reading |
| FalabellaClient.SortedKeysSpec | api/_falabella-client.js:12 | the sorted keys are in ascending order and are a permutation of the keys |
| FalabellaClient.CanonicalOrderIndependent | api/_falabella-client.js:11-16 | two parameter objects with the same entries give the same canonical string, whatever their insertion order |
| FalabellaClient.SameSortedKeys | api/_falabella-client.js:12 | two objects with the same entries list their keys in the same sorted order |
| FalabellaClient.TrimMillis | api/_falabella-client.js:31 | a trailing ".ddd" before 'Z' is removed; any other text is kept |
| FalabellaClient.TrimMillisExample | api/_falabella-client.js:31 | a `toISOString` value loses exactly its milliseconds |
| FalabellaClient.AllParams | api/_falabella-client.js:33-40 | the assembled parameters have no key twice |
| FalabellaClient.AllParamsSpec | api/_falabella-client.js:33-40 | Action, Format=JSON, Timestamp, UserID and Version are always present; a caller parameter of the same name overrides the default and every caller parameter is passed through |
| FalabellaClient.SignedParams | api/_falabella-client.js:42-44 | the signature is computed over every other parameter and then added under Signature, which changes nothing else |
| FalabellaClient.Headers | api/_falabella-client.js:47-58 | User-Agent and accept are always set; Content-Type is present iff a body is sent |
| FalabellaClient.Receive | api/_falabella-client.js:60-74 | the data is returned iff the status is OK and there is no ErrorResponse; otherwise the error message the source builds is raised |
| SyncMLAllStatuses.MapMLStatus | scripts/sync-ml-all-statuses.mjs:45-58 | a cancelled order is cancelado whatever the shipment says |
| SyncMLAllStatuses.MapMLStatusTable | scripts/sync-ml-all-statuses.mjs:48-56 | delivered to entregado, shipped to enviado, cancelled/returned to cancelado, handling to preparando, ready_to_ship to nuevo when ready_to_print and preparando otherwise, anything else or nothing to nuevo |
| SyncMLAllStatuses.MapMLStatusSources | scripts/sync-ml-all-statuses.mjs:45-58 | entregado and enviado come only from the shipment of an uncancelled order; cancelado comes from the order or a cancelled/returned shipment, in both directions |
| SyncMLAllStatuses.Decide | scripts/sync-ml-all-statuses.mjs:177-188 | unchanged iff the new status equals the stored one; a patch is sent iff it changed and this is not a dry run, and it carries the new status; an error iff that patch failed |
| SyncMLAllStatuses.StepSpec | scripts/sync-ml-all-statuses.mjs:162-188 | the shipment is asked iff the order status was read, is not cancelled and a shipping id exists; a write happens only for a changed status and never in a dry run |
| SyncMLAllStatuses.Tally | scripts/sync-ml-all-statuses.mjs:181-187 | recording outcomes adds exactly one to the three counters per outcome |
| SyncMLAllStatuses.TallyPartition | scripts/sync-ml-all-statuses.mjs:181-217 | from zero, updated counts the updated outcomes and updated + unchanged + errors equals the number processed |
| SyncMLAllStatuses.ProcessOrders | scripts/sync-ml-all-statuses.mjs:158-198 | the batched loop gives the outcomes of handling every order in order, and adds them to the counters passed in |
| SyncMLAllStatuses.Run | scripts/sync-ml-all-statuses.mjs:202-228 | missing Supabase or ML variables stop the run, iff; a page read answered with neither OK nor 416 ends the run with exit 1, iff; no collected order means nothing to do; otherwise every collected order is processed and the counters partition them (also lines 109-124, 230) |
| Batches.RunAll | scripts/sync-ml-all-statuses.mjs:159-189 | one outcome per order |
| Batches.RunAllEach | scripts/sync-ml-all-statuses.mjs:159-189 | each outcome is the step applied to its own order with the token the previous orders left |
| Batches.RunAllIndependent | scripts/sync-ml-all-statuses.mjs:162-189 | a step that ignores and keeps the token makes every outcome depend on its own order only |
| Batches.RunSlice | scripts/sync-ml-all-statuses.mjs:160-189 | handling one slice continues the whole run's outcomes and token |
| Batches.RunBatches | scripts/sync-ml-all-statuses.mjs:159-197 | slices of BATCH orders handled in turn give the same outcomes and token as handling every order in sequence |
| Paging.Concat | scripts/sync-ml-all-statuses.mjs:134 | no pages give no rows |
| Paging.Kept | scripts/sync-ml-all-statuses.mjs:131-138 | the loop keeps pages that exist |
| Paging.RequestsKept | scripts/sync-ml-all-statuses.mjs:131-138 | every kept page costs one request, plus one for the empty answer that ended the loop unless a short page ended it |
| Paging.CollectOrFailSpec | scripts/sync-ml-all-statuses.mjs:109-140 | the collection throws iff one of the requests the loop makes answers neither OK nor 416; otherwise it collects what the loop collects with every request answered |
| Paging.CollectShape | scripts/sync-ml-all-statuses.mjs:128-140 | the collected rows are the kept pages in request order; every kept page is non-empty, all but the last full, and the loop stopped on a short page, an empty page or the end |
| Paging.CollectKept | scripts/sync-ml-all-statuses.mjs:134 | the collected rows are the kept pages concatenated |
| Paging.KeptPages | scripts/sync-ml-all-statuses.mjs:133-136 | kept pages are non-empty, all but the last full, and the stop rule held after them |
| Paging.CollectAll | scripts/sync-ml-all-statuses.mjs:109-140 | the loop returns the collected rows or fails on a request that throws, as the failable paging function says; it requests page j at offset j·size and, when it succeeds, makes exactly the requests the paging function counts |
| Paging.Chunks | scripts/sync-ml-all-statuses.mjs:120 | range pages of a result set concatenate to it, each holds 1 to size rows and all but the last exactly size |
| Paging.CollectChunks | scripts/sync-ml-all-statuses.mjs:128-140 | paging through a whole result set gives back exactly its rows, in order |
| BackfillMLEntregados.Pending | scripts/backfill-ml-entregados.mjs:78-99 | the query selects exactly the Mercado Libre rows of the logistic type that are neither entregado nor cancelado |
| BackfillMLEntregados.CoversSelfService | scripts/backfill-ml-entregados.mjs:173 | the loop covers three types, self_service included, although the header says it is excluded (the header is line 8) |
| BackfillMLEntregados.Step | scripts/backfill-ml-entregados.mjs:137-154 | no shipping id means skipped with no call; an order is marked entregado iff its shipment reads delivered; any other status is skipped and a throw is an error; updated iff marked and the write succeeded |
| BackfillMLEntregados.Tally | scripts/backfill-ml-entregados.mjs:138-153 | each outcome adds one to exactly one counter |
| BackfillMLEntregados.ProcessOrders | scripts/backfill-ml-entregados.mjs:132-161 | the batched loop gives the outcome of every order in order and adds them to the counters passed in |
| BackfillMLEntregados.CollectedIsPending | scripts/backfill-ml-entregados.mjs:82-114 | collection returns exactly the query's rows, so delivered or cancelled orders are never candidates |
| BackfillMLEntregados.ReadFailsSpec | scripts/backfill-ml-entregados.mjs:78-114 | a type's read throws iff one of its page requests answers neither OK nor 416 |
| BackfillMLEntregados.RunTypesFailed | scripts/backfill-ml-entregados.mjs:171-182 | the loop over types stops on a failed read iff some type's read throws |
| BackfillMLEntregados.RunType | scripts/backfill-ml-entregados.mjs:174-181 | one pass collects the type's pending orders and processes them; a failed read adds nothing and is reported; an empty collection adds nothing |
| BackfillMLEntregados.TypeTurn | scripts/backfill-ml-entregados.mjs:171-182 | one turn of the loop over types: a failed read adds nothing and ends the run from this type on; otherwise the type's outcomes are added and the counters still tally every outcome |
| BackfillMLEntregados.RunEach | scripts/backfill-ml-entregados.mjs:171-182 | the loop over types gives every type's outcomes in turn up to the first failed read, reports whether one failed, and the shared counters tally all of them |
| BackfillMLEntregados.Run | scripts/backfill-ml-entregados.mjs:165-189 | missing variables exit, iff; a failed page read exits 1, iff some type's read throws, after the outcomes of the types before it; otherwise the outcomes of the three types and counters that tally them (also lines 191-194) |
| BackfillMLEntregados.TallyAppend | scripts/backfill-ml-entregados.mjs:171-181 | counting two runs in turn is counting their outcomes together |
| BackfillStoreNames.StoreName | scripts/backfill-store-names.mjs:38-43 | a store id has a name exactly when it is one of the four known ids |
| BackfillStoreNames.StoreMapTable | scripts/backfill-store-names.mjs:38-43 | the four ids map to MEDELLÍN, AVENIDA 19, CEDI and BULEVAR |
| BackfillStoreNames.Pending | scripts/backfill-store-names.mjs:82-88 | the pending rows are exactly the Mercado Libre rows with a null store id |
| BackfillStoreNames.CollectedIsPending | scripts/backfill-store-names.mjs:126-136 | the collection loop returns exactly the pending rows |
| BackfillStoreNames.StepSpec | scripts/backfill-store-names.mjs:156-174 | no store id means skipped and no write; a write carries the raw id and its mapped name, null for an unknown store; updated iff the write succeeded |
| BackfillStoreNames.Tally | scripts/backfill-store-names.mjs:148-174 | updated + skipped + errors equals the number of outcomes |
| BackfillStoreNames.Run | scripts/backfill-store-names.mjs:118-188 | missing variables exit, iff; a page read answered with neither OK nor 416 exits 1 (lines 82-99, 190), iff; no pending row returns early; otherwise every pending order is handled and the counters partition them |
| BackfillStoreNames.Count | scripts/backfill-store-names.mjs:148-175 | the counters kept while the results come in equal the tally of the outcomes |
| BackfillStoreNames.Writes | scripts/backfill-store-names.mjs:168 | the successful writes are exactly those of the updated outcomes |
| BackfillStoreNames.Patch | scripts/backfill-store-names.mjs:102-114 | a PATCH by id sets store id and name on the matching rows and nothing else |
| BackfillStoreNames.PendingAfterWrites | scripts/backfill-store-names.mjs:85-111 | after the writes a row is pending iff it was pending and no write addressed it |
| BackfillStoreNames.RunWritesPending | scripts/backfill-store-names.mjs:156-170 | each write of a run addresses a pending row and carries a non-empty store id |
| BackfillStoreNames.Idempotent | scripts/backfill-store-names.mjs:159-168 | a run leaves non-pending rows alone and never makes a row pending, so a rerun only sees rows that are still missing a store (also line 85) |
| BackfillStoreNames.UntouchedRows | scripts/backfill-store-names.mjs:103 | a row no write addresses is unchanged |
| BackfillWixUnpaid.StatusOf | scripts/backfill-wix-unpaid.mjs:45-49 | cancelado iff CANCELED; otherwise entregado iff FULFILLED; otherwise nuevo; the three cases are exhaustive and exclusive |
| BackfillWixUnpaid.ShippingCost | scripts/backfill-wix-unpaid.mjs:89 | a cost is present iff the shipping text parses to a non-zero number, and then it is that number |
| BackfillWixUnpaid.NormalizeSpec | scripts/backfill-wix-unpaid.mjs:39-94 | a Wix row with the order number and the mapped status; no pack, shipping id, tags or notes; the order date falls back from createdDate to `_createdDate` to now, and the closed date likewise to null; total equals paid, 0 without a total; the customer id is the buyer id; one item per line item, none without lineItems |
| BackfillWixUnpaid.NormalizeAt | scripts/backfill-wix-unpaid.mjs:50 | the normaliser the loop maps is `normalizeWixOrder` with the clock read at a fixed instant (also line 171) |
| BackfillWixUnpaid.NormalizeKeepsRecent | scripts/backfill-wix-unpaid.mjs:163-171 | an order in range normalises to a Wix row dated on or after the start date (also line 50) |
| BackfillWixUnpaid.RecentOf | scripts/backfill-wix-unpaid.mjs:163-166 | the filter keeps exactly the orders whose createdDate or `_createdDate` is set and not before 2025-12-01, and never grows the page |
| BackfillWixUnpaid.RecentOfAll | scripts/backfill-wix-unpaid.mjs:163-185 | the filtered page is as long as the page iff every order on it is in range, which is the loop's stop test |
| BackfillWixUnpaid.ThenThen | scripts/backfill-wix-unpaid.mjs:148-180 | accumulating the loop's totals is associative |
| BackfillWixUnpaid.NothingThen | scripts/backfill-wix-unpaid.mjs:148-150 | the starting totals are a left identity |
| BackfillWixUnpaid.ThenNothing | scripts/backfill-wix-unpaid.mjs:148-150 | the starting totals are a right identity after an error-free run |
| BackfillWixUnpaid.SentRecent | scripts/backfill-wix-unpaid.mjs:163-171 | with a normaliser that keeps recent orders recent, every row sent is dated |
| BackfillWixUnpaid.PageEffect | scripts/backfill-wix-unpaid.mjs:156-182 | one request sends its cursor; a failed page is a Wix error and adds nothing; a dry run sends nothing; a real page without an upsert error upserts every recent order it fetched |
| BackfillWixUnpaid.NextCursor | scripts/backfill-wix-unpaid.mjs:159-188 | the loop goes on only after a non-empty page with every order in range, a next cursor and hasNext, with that cursor |
| BackfillWixUnpaid.BackfillFromStep | scripts/backfill-wix-unpaid.mjs:153-190 | one turn is the page's effect followed, when there is a next cursor, by the rest of the loop from it |
| BackfillWixUnpaid.ReadPage | scripts/backfill-wix-unpaid.mjs:156-188 | the loop body gives exactly the page's effect and next cursor |
| BackfillWixUnpaid.Turn | scripts/backfill-wix-unpaid.mjs:153-190 | after a turn, the accumulated totals followed by the rest of the loop equal the whole loop from the accumulated totals |
| BackfillWixUnpaid.Backfill | scripts/backfill-wix-unpaid.mjs:148-190 | the while loop computes the recursive definition of the backfill from no cursor |
| BackfillWixUnpaid.PageGoesOn | scripts/backfill-wix-unpaid.mjs:185-188 | the loop goes on only from a page that raised no error (also lines 118, 135) |
| BackfillWixUnpaid.BackfillWritten | scripts/backfill-wix-unpaid.mjs:173-181 | totalUpserted counts exactly the rows sent, and a dry run sends and counts none |
| BackfillWixUnpaid.BackfillComplete | scripts/backfill-wix-unpaid.mjs:168-180 | a real run that ends without an error upserted as many rows as it fetched in range |
| BackfillWixUnpaid.BackfillRequests | scripts/backfill-wix-unpaid.mjs:153-156 | the loop makes at most one request per available page |
| BackfillWixUnpaid.PageWritesRecent | scripts/backfill-wix-unpaid.mjs:163-179 | a page sends only recent rows |
| BackfillWixUnpaid.BackfillWritesRecent | scripts/backfill-wix-unpaid.mjs:163-179 | every row the loop sends is a recent Wix row |
| BackfillWixUnpaid.BackfillFirst | scripts/backfill-wix-unpaid.mjs:148-156 | the first request sends the starting cursor |
| BackfillWixUnpaid.BackfillSendsRecent | scripts/backfill-wix-unpaid.mjs:163-179 | with the script's own normaliser, every row written is a Wix row dated on or after 2025-12-01 (also line 34) |
| BackfillWixUnpaid.NextGoesOn | scripts/backfill-wix-unpaid.mjs:185-188 | a next cursor is given only for a page the loop may go on from |
| BackfillWixUnpaid.ChainedAt | scripts/backfill-wix-unpaid.mjs:187-188 | position by position, each request after the first carries the cursor of the page before it |
| BackfillWixUnpaid.BackfillStops | scripts/backfill-wix-unpaid.mjs:185-189 | the loop goes on only from a page that allows it, and each next request sends that page's cursor |
| BackfillWixUnpaid.RunBackfill | scripts/backfill-wix-unpaid.mjs:140-193 | the run exits iff the Wix key or site id is missing; otherwise the run is dry iff `--dry-run` is in argv, and its totals are the backfill from no cursor with the script's normaliser (also lines 17, 21-32) |
| DotEnv.IndexOf | scripts/backfill-wix-unpaid.mjs:25 | the position found holds the character, and no earlier one does |
| DotEnv.Split | scripts/backfill-wix-unpaid.mjs:23-25 | a split has at least one part |
| DotEnv.SplitParts | scripts/backfill-wix-unpaid.mjs:23-25 | no part holds the separator |
| DotEnv.SplitJoin | scripts/backfill-wix-unpaid.mjs:25 | joining the parts back with the separator gives the text again |
| DotEnv.EntrySpec | scripts/backfill-wix-unpaid.mjs:25 | an entry is the trimmed text before the first '=' and the trimmed rest, later '=' kept |
| DotEnv.Entries | scripts/backfill-wix-unpaid.mjs:24-26 | no entry has an empty key and there are no more entries than lines |
| DotEnv.EntriesSpec | scripts/backfill-wix-unpaid.mjs:24-26 | every entry comes from a kept line, every kept line with a key gives its entry, and comment lines are never kept |
| DotEnv.LookupSpec | scripts/backfill-wix-unpaid.mjs:21-32 | a key has no value iff no entry carries it; otherwise the value is that of its last entry |
| DotEnv.Missing | scripts/sync-incremental.mjs:49-54 | the missing names are exactly the required names whose value is absent or empty |
| SyncMLStatus.AuthorizedExactly | api/sync-ml-status.js:34-40 | a request passes iff no secret is configured or the header is exactly `Bearer <secret>`, so a missing header never passes a set secret |
| SyncMLStatus.DaysBack | api/sync-ml-status.js:46 | days_back is the body's value, 60 when absent |
| SyncMLStatus.DryRun | api/sync-ml-status.js:46 | dry_run is true iff the body says true |
| SyncMLStatus.DateFrom | api/sync-ml-status.js:53 | the lower bound plus days_back days is now, and is not after now for a non-negative window |
| SyncMLStatus.DefaultWindow | api/sync-ml-status.js:46-53 | with no days_back the window is 60 days of milliseconds |
| SyncMLStatus.Filter | api/sync-ml-status.js:101-110 | the query keeps exactly the Mercado Libre rows neither entregado nor cancelado and dated on or after the bound |
| SyncMLStatus.Pending | api/sync-ml-status.js:101-120 | the Range header returns at most 5000 matching rows, and all of them when there are no more than 5000 |
| SyncMLStatus.NewToken | api/sync-ml-status.js:144-151 | as written no new token ever reaches the loop; where one does, it is the refreshed token of a call that refreshed once |
| SyncMLStatus.StepSpec | api/sync-ml-status.js:63-81 | no shipping id means skipped with no call; updated only for delivered shipments, and a delivered shipment is updated when dry or when its PATCH succeeds; any other answered status is skipped; written iff delivered, not dry and not skipped; a failure carries the order id; at most one refresh per order (also lines 144-151) |
| SyncMLStatus.StepToken | api/sync-ml-status.js:144-146 | the loop's token changes only when the refreshed token is propagated (also line 69) |
| SyncMLStatus.Tally | api/sync-ml-status.js:55-81 | updated + skipped + errors equals the number of orders |
| SyncMLStatus.TallyErrors | api/sync-ml-status.js:79-81 | there is one error per failed order, each naming one |
| SyncMLStatus.TallyErrorCount | api/sync-ml-status.js:79-81 | as many errors as failed orders |
| SyncMLStatus.TallyErrorSources | api/sync-ml-status.js:80 | each error names a failed order and its reason |
| SyncMLStatus.TallySnoc | api/sync-ml-status.js:63-82 | counting one more order bumps exactly its counter |
| SyncMLStatus.SummaryOf | api/sync-ml-status.js:84-91 | a 200 with the counters, and errors present iff there are some |
| SyncMLStatus.Handler | api/sync-ml-status.js:32-97 | 401 iff unauthorised; 500 for missing Supabase variables, a missing access token, or a failed query; 200 otherwise, with the counters of the loop over the pending orders |
| SyncMLStatus.AsWrittenRefreshesEveryOrder | api/sync-ml-status.js:144-151 | as written, with an expired token every order refreshes again and the loop's token never changes (also line 69) |
| SyncMLStatus.AcceptedThroughout | api/sync-ml-status.js:139-151 | with a token every shipment accepts, nothing refreshes and the token stays |
| SyncMLStatus.PropagatedRefreshesOnce | api/sync-ml-status.js:144-146 | with the refreshed token propagated, only the first order refreshes and the others reuse the new token (also line 69) |
| ScriptSync.ItemOf | scripts/sync-incremental.mjs:298-306 | an item keeps sku, title, quantity, currency and image; the unit price parses `price.amount`, else `price`, else 0; the full price falls back from `totalPriceAfterTax` to `totalPrice` to `price`, else 0 |
| ScriptSync.ItemsOf | scripts/sync-incremental.mjs:298 | one item per line item, in order |
| ScriptSync.FirstCedulaField | scripts/sync-incremental.mjs:270-272 | `find` gives the first field whose title mentions cédula or cedula, and none iff no field does |
| ScriptSync.Cedula | scripts/sync-incremental.mjs:270-289 | the cédula is present iff the first such field has a non-empty value, and then it is that value |
| ScriptSync.NormalizeWixOrderSpec | scripts/sync-incremental.mjs:256-312 | a Wix row with status enviado and the order number; no pack, shipping id or tags; the order date falls back to `_createdDate`; the closed date to `_updatedDate` then null; total equals paid, 0 without an amount; the customer id is the contact id, else the buyer id; the cédula as found; one item per line item; notes iff a buyer note; no address iff neither destination nor recipient has one |
| ScriptSync.NonZero | scripts/sync-incremental.mjs:168-169 | a coordinate is kept iff present and not 0 |
| ScriptSync.ShipmentAddress | scripts/sync-incremental.mjs:148-175 | the address is null unless the shipment was read and has a receiver address, and then it is that address mapped |
| ScriptSync.ReceiverAddressSpec | scripts/sync-incremental.mjs:158-170 | the street joins street name and number by one space, leaving out an empty part; the country falls back to the country id, then "" |
| ScriptSync.AttachShipment | scripts/sync-incremental.mjs:238-246 | an order with a shipping id gets its shipment's address; any other is returned unchanged |
| ScriptSync.ChunksFrom | scripts/sync-incremental.mjs:74-75 | the tasks from i are the slice of the next `concurrency` tasks followed by the slices after it |
| ScriptSync.ChunksStep | scripts/sync-incremental.mjs:74-77 | taking one more slice keeps the slices so far a prefix of all the slices |
| ScriptSync.SlicesDone | scripts/sync-incremental.mjs:74 | when the loop ends the slices taken are all the slices |
| ScriptSync.PLimit | scripts/sync-incremental.mjs:72-81 | the results are the tasks' results in task order, and the tasks ran in consecutive slices of `concurrency` |
| ScriptSync.SliceTurn | scripts/sync-incremental.mjs:75-77 | one turn advances by at most `concurrency` and appends exactly that slice's results |
| ScriptSync.RunSlice | scripts/sync-incremental.mjs:76 | `Promise.all` gives the slice's results in order |
| ScriptSync.AfterAfter | scripts/sync-incremental.mjs:221-223 | appending two pages' orders in turn is appending them together |
| ScriptSync.MLTurn | scripts/sync-incremental.mjs:190-225 | one turn: a failed search throws; a 401 refreshes and asks the same offset again; an empty or short page ends the loop; a full page appends its orders and asks for the next 50 |
| ScriptSync.CollectML | scripts/sync-incremental.mjs:178-226 | the loop computes the recursive definition of the Mercado Libre collection |
| ScriptSync.PagesOf | scripts/sync-incremental.mjs:214 | a page's orders are its results, or none |
| ScriptSync.MLFromPlain | scripts/sync-incremental.mjs:190-225 | without 401s and failures the loop collects what the shared offset-paging loop collects |
| ScriptSync.CollectMLPlain | scripts/sync-incremental.mjs:182-225 | when the refresh and every search succeed, syncML collects exactly every page up to the first empty or short one |
| ScriptSync.MLFromOffsets | scripts/sync-incremental.mjs:186-221 | the first request asks the starting offset; each next one the same offset after a 401 and 50 more otherwise |
| ScriptSync.WithoutUnauthorized | scripts/sync-incremental.mjs:206-209 | the script of replies with the 401 answers removed |
| ScriptSync.RetryTransparent | scripts/sync-incremental.mjs:206-209 | while refreshing works, a 401 changes only the number of requests: the same error, or the same orders |
| ScriptSync.InWindowOf | scripts/sync-incremental.mjs:348-353 | the filter keeps exactly the orders created inside the window |
| ScriptSync.CollectWix | scripts/sync-incremental.mjs:316-372 | the loop computes the recursive definition of the Wix collection from no cursor |
| ScriptSync.WixFromInWindow | scripts/sync-incremental.mjs:348-362 | every Wix order collected was created inside the window |
| ScriptSync.WixFromShape | scripts/sync-incremental.mjs:364-370 | a page led to another request only if it was full, held no order older than the window and gave a next cursor, which the next request sent |
| ScriptSync.BatchEnd | scripts/sync-incremental.mjs:417-418 | a batch is non-empty and no longer than the batch size |
| ScriptSync.EnrichML | scripts/sync-incremental.mjs:234-248 | one row per collected order, normalised with status enviado and given its shipment's address |
| ScriptSync.SyncML | scripts/sync-incremental.mjs:178-252 | a failed collection throws its message; otherwise the collected orders, enriched |
| ScriptSync.SyncWix | scripts/sync-incremental.mjs:316-375 | a failed collection throws its message; otherwise the collected orders, normalised |
| SyncIncremental.LastOrderDate | scripts/sync-incremental.mjs:378-403 | a failed query throws its message, else the status text; otherwise the newest stored order date, or 2024-01-01 for an empty table |
| SyncIncremental.DateFrom | scripts/sync-incremental.mjs:471-474 | the start date is defined iff the last date reads as a time, and is then that time less two days, as ISO text |
| SyncIncremental.CountNew | scripts/sync-incremental.mjs:429-432 | a batch never has more new orders than orders |
| SyncIncremental.CountNewSpec | scripts/sync-incremental.mjs:429-432 | none new iff the existence query found every id under its channel filter; all new iff it found none |
| SyncIncremental.CombineCombine | scripts/sync-incremental.mjs:434-435 | adding two batches' counts in turn is adding them together |
| SyncIncremental.UpsertFromStep | scripts/sync-incremental.mjs:417-455 | one batch: a failed upsert throws and ends the run; otherwise its new and updated counts are added to those of the rest, over the table with the batch's keys added |
| SyncIncremental.UpsertTurn | scripts/sync-incremental.mjs:417-455 | one turn of the loop is one step of the recursive definition; a failure leaves the table as it was |
| SyncIncremental.Upsert | scripts/sync-incremental.mjs:407-460 | the loop computes the recursive definition of `upsertToSupabase`, 0/0/0 for no orders |
| SyncIncremental.UpsertFromCounts | scripts/sync-incremental.mjs:432-435 | every order from i is counted once, as new or as updated |
| SyncIncremental.UpsertCounts | scripts/sync-incremental.mjs:434-459 | new + updated == total == the number of orders |
| SyncIncremental.UpsertFromStores | scripts/sync-incremental.mjs:441-450 | an upsert never loses a row, and a successful one stores the key of every order |
| SyncIncremental.LabelIsNoCode | scripts/sync-incremental.mjs:495-496 | the label passed as channel ("Mercado Libre", "Wix") is never a stored channel code (also line 422) |
| SyncIncremental.LabelFilterCountsNothingUpdated | scripts/sync-incremental.mjs:495-496 | as written, the existence query filters on the label, so every order counts as new, none as updated (also line 422) |
| SyncIncremental.LabelFindsNothing | scripts/sync-incremental.mjs:422 | an existence query on the label finds none of a batch among rows keyed by codes |
| SyncIncremental.CodesOnlyAfter | scripts/sync-incremental.mjs:441-450 | the upsert keeps the table keyed by channel codes only |
| SyncIncremental.CodeFilterCountsStoredUpdated | scripts/sync-incremental.mjs:422-432 | with the stored code as filter, orders already stored count as updated and none as new |
| SyncIncremental.UpsertStores | scripts/sync-incremental.mjs:407-460 | `upsertToSupabase` loses no row, and when it succeeds every order's key is stored |
| SyncIncremental.UpsertFromCodes | scripts/sync-incremental.mjs:441-450 | a whole upsert keeps the table keyed by channel codes only |
| SyncIncremental.UpsertStoresCodes | scripts/sync-incremental.mjs:417-458 | an upsert, the empty one included, keeps the table keyed by channel codes only |
| SyncIncremental.UpsertBothSpec | scripts/sync-incremental.mjs:495-496 | under either channel filter, the two upserts lose no row; when both succeed, every order of both channels is stored and counted once |
| SyncIncremental.RunIncremental | scripts/sync-incremental.mjs:464-515 | missing variables exit with their names; otherwise the run is the last-date query, both downloads and both upserts, in that order, with the existence query filtering on the label as written or on the code as corrected (also lines 31-59) |
| SyncIncremental.RunAsWrittenCountsNothingUpdated | scripts/sync-incremental.mjs:495-496 | the whole run as written, over a table keyed by codes, reports no order of either channel as updated (also line 422) |
| SyncIncremental.RunSpec | scripts/sync-incremental.mjs:464-515 | under either channel filter, nothing is written before both channels are downloaded; a failed query or download is fatal with the table unchanged; no stored row is lost; a finished run counts each downloaded order once |
| SyncHistorico.ModeNameInjective | scripts/sync-historico.mjs:452 | the three mode names are distinct |
| SyncHistorico.ParseModeSpec | scripts/sync-historico.mjs:451-455 | an answer picks a mode iff, trimmed and lower-cased, it is that mode's name; every other answer ends the script (also lines 62-65) |
| SyncHistorico.ParseModeName | scripts/sync-historico.mjs:451-452 | each mode's own name is accepted as that mode |
| SyncHistorico.DeletedChannels | scripts/sync-historico.mjs:420-462 | the delete covers Mercado Libre iff the mode downloads it, likewise Wix, and never Falabella |
| SyncHistorico.DeleteRows | scripts/sync-historico.mjs:416-441 | the rows kept are exactly those not of a chosen channel dated on or after 2025-12-01 |
| SyncHistorico.AddTotalTwice | scripts/sync-historico.mjs:410 | adding two batch sizes in turn is adding them together |
| SyncHistorico.WriteFromStep | scripts/sync-historico.mjs:388-411 | one batch: a failed write throws with the table as it was; otherwise the batch's size is added to the rest's total, over the table with the batch's rows |
| SyncHistorico.WriteTurn | scripts/sync-historico.mjs:388-411 | one turn of the for loop is one step of the recursive definition |
| SyncHistorico.Upsert | scripts/sync-historico.mjs:379-414 | the loop computes the recursive definition of `upsertToSupabase`, 0 for no orders |
| SyncHistorico.WriteFromSpec | scripts/sync-historico.mjs:379-414 | a write never loses a row; a successful one reports every order and stores each one's row |
| SyncHistorico.WriteBothRun | scripts/sync-historico.mjs:481-482 | the two writes run in turn, each only for a non-empty download |
| SyncHistorico.Resync | scripts/sync-historico.mjs:457-482 | after the question: the delete, then the chosen downloads, then the writes |
| SyncHistorico.RunHistorico | scripts/sync-historico.mjs:445-455 | missing variables exit with their names; an answer that picks no mode declines; otherwise the run after the question (also lines 44-52) |
| SyncHistorico.WriteBothSpec | scripts/sync-historico.mjs:481-482 | the writes keep every row; when both succeed every order is written, counted and stored |
| SyncHistorico.DeleteFirst | scripts/sync-historico.mjs:460-476 | a failed delete changes nothing; a failed Mercado Libre download after the delete leaves the period's rows deleted; rows of other channels, or dated before the period, survive every run |
| SyncHistorico.FinishedSpec | scripts/sync-historico.mjs:464-482 | a finished run counts every downloaded order of the chosen channels, and every Wix order was created inside the fixed period |
| Customers.KeyHead | src/hooks/useCustomers.ts:88-90 | a key starts with `ml:` for Mercado Libre customers and with `wix:` for all others |
| Customers.CustomerKeySpec | src/hooks/useCustomers.ts:88-90 | Mercado Libre keys never collide with the others; equal Mercado Libre keys mean the same customer id; a Falabella customer is keyed like a Wix one |
| Customers.DisplayNameSpec | src/hooks/useCustomers.ts:97-99 | Wix: both names joined by a space, else the one present, else the email, else the id; any other source: the nickname, else `ML-<id>` |
| Customers.KeyOrderSpec | src/hooks/useCustomers.ts:86-111 | the map's keys are those of the orders, in first-seen order, each once |
| Customers.OrdersOfSpec | src/hooks/useCustomers.ts:92-109 | a key's record holds exactly the orders of that key, opened by the key's first order, and a key has a record iff it is listed |
| Customers.OrdersOfMembers | src/hooks/useCustomers.ts:94-107 | a key's rows are exactly the orders with that key |
| Customers.OrdersOfListed | src/hooks/useCustomers.ts:92-100 | a key has rows iff it is in the map |
| Customers.OrdersOfFirst | src/hooks/useCustomers.ts:97-107 | the first row of a key is the first order with that key, whose customer names the record |
| Customers.MapStepKnown | src/hooks/useCustomers.ts:93-95 | an order of a known key is appended to its record and adds its amount to the LTV |
| Customers.MapStepNew | src/hooks/useCustomers.ts:96-109 | an order of a new key opens a record of its own with its amount as LTV |
| Customers.AddOrder | src/hooks/useCustomers.ts:87-110 | one pass of the loop keeps the map equal to the records of the orders so far |
| Customers.CollectProfiles | src/hooks/useCustomers.ts:75-111 | the map's keys, in insertion order, are the first-seen keys, and each record is built from exactly that key's orders |
| Customers.FreqStepNew | src/hooks/useCustomers.ts:124-134 | a name not yet counted is added with its weight |
| Customers.FreqStepOld | src/hooks/useCustomers.ts:124-134 | a counted name has its weight increased |
| Customers.FreqSpec | src/hooks/useCustomers.ts:121-135 | each name appears once with its total weight, and exactly the names of the pairs appear |
| Customers.CountFreq | src/hooks/useCustomers.ts:121-135 | the loop computes the frequency table |
| Customers.Top | src/hooks/useCustomers.ts:127-137 | there is a top entry iff the table is not empty |
| Customers.TopSpec | src/hooks/useCustomers.ts:127-137 | the top name is one of the table's, carrying the largest weight |
| Customers.BuildProfile | src/hooks/useCustomers.ts:114-163 | the `.map` body builds the profile of one record |
| Customers.RawProfileSpec | src/hooks/useCustomers.ts:140-159 | the order count is the number of purchase events, between 1 and the rows; repeat iff more than one; the average ticket is LTV over events; not yet VIP |
| Customers.RawProfileDates | src/hooks/useCustomers.ts:116-156 | the first and last dates are those of the earliest and the latest row |
| Customers.Profiles | src/hooks/useCustomers.ts:114 | one profile per key, in key order |
| Customers.VipCutoff | src/hooks/useCustomers.ts:167 | the cutoff is `max(1, ceil(n / 5))`, stated as bounds |
| Customers.AssignVip | src/hooks/useCustomers.ts:168-172 | the profiles in order, each VIP iff its key is among the top of the LTV ranking |
| Customers.RawProfilesDistinct | src/hooks/useCustomers.ts:114 | the profiles have distinct keys |
| Customers.TopInVip | src/hooks/useCustomers.ts:166-168 | the places before the cutoff hold VIP keys |
| Customers.VipDominates | src/hooks/useCustomers.ts:165-172 | every VIP has an LTV at least that of every customer who is not |
| Customers.VipOverNonVip | src/hooks/useCustomers.ts:166-171 | a VIP's LTV is at least that of one who is not |
| Customers.PermDistinct | src/hooks/useCustomers.ts:166 | sorting keeps the keys distinct |
| Customers.AfterTopNotVip | src/hooks/useCustomers.ts:168 | a place at or after the cutoff holds a non-VIP key |
| Customers.TopVipCount | src/hooks/useCustomers.ts:168 | every place before the cutoff is VIP |
| Customers.RestVipCount | src/hooks/useCustomers.ts:168 | no place after the cutoff is VIP |
| Customers.RankedVipCount | src/hooks/useCustomers.ts:166-168 | exactly the places before the cutoff hold VIP keys |
| Customers.VipCount | src/hooks/useCustomers.ts:165-178 | exactly `min(n, max(1, ceil(n/5)))` customers are VIP |
| Customers.SummaryOf | src/hooks/useCustomers.ts:175-181 | the total is the number of customers; repeat and VIP counts are at most it; retention is the percentage of repeat customers and average LTV the mean, both 0 for no customers |
| Customers.BuildProfiles | src/hooks/useCustomers.ts:114-163 | one profile per key, in insertion order |
| Customers.ProfileTurn | src/hooks/useCustomers.ts:114 | one pass of the map appends the profile of the next key |
| Customers.CustomersSpec | src/hooks/useCustomers.ts:73-187 | one customer per distinct key; the VIP flag marks `min(n, max(1, ceil(n/5)))` of them, and nobody outside has a larger LTV than somebody inside |
| Customers.UseCustomers | src/hooks/useCustomers.ts:73-187 | `useCustomers` returns the VIP-marked profiles and their summary |
| PurchaseEvents.EventKeys | src/hooks/useCustomers.ts:41-47 | the set holds exactly the event keys of the rows |
| PurchaseEvents.CountPurchaseEvents | src/hooks/useCustomers.ts:41-47 | the loop counts the distinct event keys |
| PurchaseEvents.EventCountBounds | src/hooks/useCustomers.ts:37-47 | at least one event for a non-empty list and never more events than rows; rows of one Mercado Libre pack count once |
| PurchaseEvents.FindPack | src/hooks/useCustomers.ts:61 | the event found is the first one of the pack, and none is found iff no event belongs to it |
| PurchaseEvents.AddAmount | src/hooks/useCustomers.ts:67 | merging adds the row's amount to the event and changes nothing else |
| PurchaseEvents.GroupRowSum | src/hooks/useCustomers.ts:56-69 | a row adds its amount to the events' total whether it is pushed or merged |
| PurchaseEvents.FindPackUpdate | src/hooks/useCustomers.ts:61-67 | merging into a pack event keeps where every pack's event is found |
| PurchaseEvents.GroupStep | src/hooks/useCustomers.ts:56-69 | one iteration pushes a non-pack row or a new pack's copy, and otherwise adds to the pack's event at the index the map records |
| PurchaseEvents.GroupToEvents | src/hooks/useCustomers.ts:53-71 | the loop with its pack map computes the grouping |
| PurchaseEvents.PackRows | src/hooks/useCustomers.ts:57 | exactly the rows of pack p |
| PurchaseEvents.Singles | src/hooks/useCustomers.ts:57-59 | the rows that are not Mercado Libre pack rows |
| PurchaseEvents.GroupSingles | src/hooks/useCustomers.ts:57-59 | non-pack rows pass through unchanged and in order |
| PurchaseEvents.GroupSum | src/hooks/useCustomers.ts:50-71 | no amount is lost or counted twice |
| PurchaseEvents.GroupDistinct | src/hooks/useCustomers.ts:61-65 | no two events belong to the same pack |
| PurchaseEvents.PackEventOther | src/hooks/useCustomers.ts:57-59 | a row outside pack p leaves p's event as it was |
| PurchaseEvents.PackEventMerge | src/hooks/useCustomers.ts:66-67 | a later row of pack p adds its amount to p's event |
| PurchaseEvents.PackEventNew | src/hooks/useCustomers.ts:62-65 | the first row of pack p becomes p's event |
| PurchaseEvents.GroupPacks | src/hooks/useCustomers.ts:50-71 | every pack present has one event: its first row carrying the pack's total amount |
| Analytics.InRange | src/hooks/useAnalytics.ts:117-122 | without a range every row is kept; with one, exactly the rows dated inside it |
| Analytics.OpenersSpec | src/hooks/useAnalytics.ts:163-169 | there is one opening row per purchase event, carrying the same events, and each is a row |
| Analytics.OpenersEvents | src/hooks/useAnalytics.ts:165-169 | the opening rows carry exactly the events of the rows |
| Analytics.OpenersCount | src/hooks/useAnalytics.ts:168-169 | as many opening rows as events |
| Analytics.OpenersMembers | src/hooks/useAnalytics.ts:168 | every opening row is one of the rows |
| Analytics.OpensStep | src/hooks/useAnalytics.ts:168-169 | the last row opens an event iff the event count grows, and then it joins the opening rows |
| Analytics.WeekdaysOf | src/hooks/useAnalytics.ts:254-258 | the weekday table has seven entries |
| Analytics.AggregatesOf | src/hooks/useAnalytics.ts:158-284 | after the pass the weekday table still has seven entries |
| Analytics.SeenAgree | src/hooks/useAnalytics.ts:159-169 | the seen set holds the purchase events and the revenue sums every row |
| Analytics.RevenueTablesAgree | src/hooks/useAnalytics.ts:171-252 | the channel, day, week, product and geo tables of the single pass are each their own fold over the rows |
| Analytics.EventTablesAgree | src/hooks/useAnalytics.ts:178-283 | the status, weekday, payment, installment and customer tables are each their own fold over the rows |
| Analytics.AggregatesAgree | src/hooks/useAnalytics.ts:158-284 | the single pass equals the tuple of independent folds |
| Analytics.AddOrderItems | src/hooks/useAnalytics.ts:220-239 | the inner loop adds the row's items to the product table |
| Analytics.AggregateRow | src/hooks/useAnalytics.ts:159-283 | the loop body is one step of the fold |
| Analytics.Aggregate | src/hooks/useAnalytics.ts:125-284 | the loop computes the fold over the filtered rows |
| Analytics.ChannelStepSums | src/hooks/useAnalytics.ts:172-176 | a row adds one to the channel counts iff it opens an event, and its amount to the revenues |
| Analytics.CountStepSum | src/hooks/useAnalytics.ts:180 | counting a key adds one to the total (also line 282) |
| Analytics.BucketStepSum | src/hooks/useAnalytics.ts:193-216 | a dated row adds one to the bucket counts iff it opens an event |
| Analytics.GeoStepSum | src/hooks/useAnalytics.ts:244-251 | a row with a city adds one to the geo counts iff it opens an event |
| Analytics.PaymentStepSum | src/hooks/useAnalytics.ts:263-266 | a named method adds one to the payment counts |
| Analytics.ChannelTotals | src/hooks/useAnalytics.ts:172-176 | channel event counts add up to the number of events, channel revenues to the total revenue (also line 286) |
| Analytics.StatusTotals | src/hooks/useAnalytics.ts:179-181 | the status table counts every event once |
| Analytics.CustomerTotals | src/hooks/useAnalytics.ts:277-283 | the per-customer table counts every event once |
| Analytics.WeekdayTotals | src/hooks/useAnalytics.ts:255-258 | the weekday table counts every event once |
| Analytics.InstallmentTotals | src/hooks/useAnalytics.ts:267-273 | financed events are those whose opening row has more than one installment, and financed plus up-front is every event |
| Analytics.BucketTotals | src/hooks/useAnalytics.ts:186-217 | the day and week tables count the events whose opening row is dated from the cutoff on |
| Analytics.GeoTotals | src/hooks/useAnalytics.ts:242-252 | the geo table counts the events whose opening row names a city |
| Analytics.PaymentTotals | src/hooks/useAnalytics.ts:261-266 | the payment table counts the events whose opening row names a method |
| Analytics.AddItemSpec | src/hooks/useAnalytics.ts:221-238 | one item moves only its product's entry: it creates the entry if missing, adds the event to its ids and its units to its quantity |
| Analytics.AddItemsSpec | src/hooks/useAnalytics.ts:220-239 | a row's items move only their products' entries, each by the row's units of it |
| Analytics.ProductEventsInit | src/hooks/useAnalytics.ts:228 | a product's events grow by the last row's event iff the row holds the product |
| Analytics.ProductsSpec | src/hooks/useAnalytics.ts:219-239 | one entry per product key; an entry exists iff some event holds the product; its ids are exactly those events and its quantity the units over every row |
| AnalyticsSummary.Per | src/hooks/useAnalytics.ts:287-295 | `den > 0 ? num / den : 0` as an exact fraction with a positive denominator |
| AnalyticsSummary.RoundDivSpec | src/hooks/useAnalytics.ts:354 | `Math.round(n / d)` is the integer nearest to n/d, halves rounding up (also lines 409, 477) |
| AnalyticsSummary.ByChannelSpec | src/hooks/useAnalytics.ts:290-296 | one entry per channel; the entries' counts and revenues are the table's; each share is over totalOrders and the shares add up to 100% |
| AnalyticsSummary.StatusEntriesSum | src/hooks/useAnalytics.ts:299-300 | the status entries' counts add up to the table's |
| AnalyticsSummary.ByStatusSpec | src/hooks/useAnalytics.ts:299-301 | byStatus is a permutation of the status entries in descending count order, with the same total |
| AnalyticsSummary.DailyEntriesSum | src/hooks/useAnalytics.ts:304-305 | the bucket entries' counts add up to the table's |
| AnalyticsSummary.ByDateSpec | src/hooks/useAnalytics.ts:304-311 | recentDays and recentWeeks are permutations of the bucket entries in date order |
| AnalyticsSummary.ProductEntries | src/hooks/useAnalytics.ts:314-322 | one entry per product |
| AnalyticsSummary.ProductEntriesCount | src/hooks/useAnalytics.ts:321 | an entry's order count is the number of distinct purchase events holding it |
| AnalyticsSummary.ProductEntriesAt | src/hooks/useAnalytics.ts:315-322 | the entries are the product table's values in order |
| AnalyticsSummary.TopProductsSpec | src/hooks/useAnalytics.ts:314-324 | at most ten products, drawn from the table, in descending quantity, none with fewer units than a product left out |
| AnalyticsSummary.GeoValues | src/hooks/useAnalytics.ts:327 | one value per destination |
| AnalyticsSummary.GeoStatsSpec | src/hooks/useAnalytics.ts:327-329 | at most fifteen destinations, drawn from the table, in descending count, none below one left out |
| AnalyticsSummary.PaymentLabel | src/hooks/useAnalytics.ts:84-95 | a method is relabelled only when the label table has it (also line 335) |
| AnalyticsSummary.PaymentEntriesSum | src/hooks/useAnalytics.ts:332-338 | the payment entries' counts add up to the table's |
| AnalyticsSummary.ByPaymentMethodSpec | src/hooks/useAnalytics.ts:332-339 | byPaymentMethod is in descending count order and counts each event naming a method once |
| AnalyticsSummary.ByDayOfWeek | src/hooks/useAnalytics.ts:351-355 | seven entries |
| AnalyticsSummary.ByDayOfWeekSpec | src/hooks/useAnalytics.ts:348-355 | seven entries Monday to Sunday, with their names and event counts, averages rounded to one decimal, counts adding up to every event (also line 82) |
| AnalyticsSummary.CountPeriodRow | src/hooks/useAnalytics.ts:377-394 | the period loop body is one step of its fold |
| AnalyticsSummary.ComparePeriods | src/hooks/useAnalytics.ts:369-395 | the loop computes the period fold over all orders |
| AnalyticsSummary.PeriodTurn | src/hooks/useAnalytics.ts:376-395 | one pass counts a row's event the first time it appears |
| AnalyticsSummary.WindowsDisjoint | src/hooks/useAnalytics.ts:366-389 | the previous window ends before the range starts, so no row is in both |
| AnalyticsSummary.PeriodSpec | src/hooks/useAnalytics.ts:376-395 | each window counts the events whose first row among all orders falls in it, and sums the revenue of every row in it |
| AnalyticsSummary.ChangeSpec | src/hooks/useAnalytics.ts:408-423 | with no previous amount the change is 100 for a positive current one and 0 otherwise; else the rounded percentage, positive only for growth, negative only for decline, 0 when flat, never below -100 |
| AnalyticsSummary.TrendOf | src/hooks/useAnalytics.ts:411-424 | up iff the change is positive, down iff negative |
| AnalyticsSummary.PeriodWords | src/hooks/useAnalytics.ts:397 | "estos N días" for 7, 30 and 90 days, "este período" otherwise |
| AnalyticsSummary.BestIndex | src/hooks/useAnalytics.ts:453 | the stable sort's head: the first channel with the highest ticket |
| AnalyticsSummary.FalabellaShownAsWix | src/hooks/useAnalytics.ts:456 | as written, a Falabella best channel is announced as Wix |
| AnalyticsSummary.ChannelLabelSpec | src/hooks/useAnalytics.ts:456 | the corrected label is injective, and Mercado Libre and Wix keep theirs |
| AnalyticsSummary.BestChannelNameRules | src/hooks/useAnalytics.ts:456 | the as-written and the corrected name agree on Mercado Libre and Wix and differ on Falabella |
| AnalyticsSummary.ChannelInsightRules | src/hooks/useAnalytics.ts:452-460 | the as-written and the corrected naming give the same insight for a Mercado Libre or Wix best channel and different ones for Falabella |
| AnalyticsSummary.BestDaySpec | src/hooks/useAnalytics.ts:463-464 | the best day has the most orders, and there is one iff some day has an order |
| AnalyticsSummary.RepeatCount | src/hooks/useAnalytics.ts:475 | no more repeat customers than customers |
| AnalyticsSummary.RetentionSpec | src/hooks/useAnalytics.ts:474-483 | the retention rate is a whole percentage from 0 to 100, over every customer, trending up iff at least 20% |
| AnalyticsSummary.TopCitySpec | src/hooks/useAnalytics.ts:487-494 | the top city has at least as many events as every destination |
| AnalyticsSummary.UseAnalytics | src/hooks/useAnalytics.ts:112-513 | the hook's single pass and period comparison give the summary function's result, with the best channel named as written (every other channel "Wix") or by its own label |
| AnalyticsSummary.SummaryTotals | src/hooks/useAnalytics.ts:124 | the summary is EMPTY iff no order is in range; otherwise it counts each purchase event once and sums the revenue of every row in range (also line 286) |
| AnalyticsSummary.SummaryBreakdown | src/hooks/useAnalytics.ts:290-346 | channel, status, weekday and installment breakdowns each account for every event once |
| AnalyticsSummary.SummaryBounds | src/hooks/useAnalytics.ts:359-495 | at most ten products, fifteen destinations, six insights, and seven weekdays (also lines 324, 329, 351) |
| AnalyticsPage.DateRangeSpec | src/pages/Analytics.tsx:73-85 | 'all' has no range; the others end now and span exactly 7, 30 or 90 days, so the period insight reads "estos N días" |
| AnalyticsPage.RepeatOnly | src/pages/Analytics.tsx:225 | exactly the repeat customers, none added |
| AnalyticsPage.RepeatCustomersSpec | src/pages/Analytics.tsx:224-227 | exactly the repeat customers, each as often as in the input, by descending LTV |
| AnalyticsPage.Select | src/pages/Analytics.tsx:374-376 | the rows kept by a filter or a guarded `continue` satisfy it (also lines 230, 339, 404) |
| AnalyticsPage.PageEventKeyOnMl | src/pages/Analytics.tsx:245 | on Mercado Libre rows the page keys events as the summary does (also line 341) |
| AnalyticsPage.PageEventsStep | src/pages/Analytics.tsx:246-247 | a row adds its key to the seen events, and the count grows iff it is new |
| AnalyticsPage.TallyStepSpec | src/pages/Analytics.tsx:345-351 | a row counts one more event iff it is the first of its event, adds its amount to the revenue, and every entry's status counts add up to its events (also lines 411-417) |
| AnalyticsPage.TalliesSpec | src/pages/Analytics.tsx:337-352 | each event counts once, in the entry of its first row; revenue sums every row; and in every entry the status counts add up to its events (also lines 403-418) |
| AnalyticsPage.TallyRow | src/pages/Analytics.tsx:345-351 | the loop body, once a row is kept, is one step of the tally |
| AnalyticsPage.TallyLoop | src/pages/Analytics.tsx:337-352 | the logistics and store loops compute the tally of the kept rows (also lines 403-418) |
| AnalyticsPage.TallyTurn | src/pages/Analytics.tsx:337-352 | one pass tallies a kept row and counts its event if it is new |
| AnalyticsPage.LogisticsEntriesSum | src/pages/Analytics.tsx:354-363 | the entries' counts add up to the table's |
| AnalyticsPage.LogisticsDataSpec | src/pages/Analytics.tsx:332-365 | by descending event count, covering the Mercado Libre rows with a logistic type, each of their events once |
| AnalyticsPage.StoreEntries | src/pages/Analytics.tsx:420-429 | one entry per store, in table order |
| AnalyticsPage.StoreStatsBounds | src/pages/Analytics.tsx:427-428 | a store's delivered events are among its events, so the share is a whole percentage from 0 to 100 |
| AnalyticsPage.StoreEntriesBounds | src/pages/Analytics.tsx:427-428 | every store entry keeps those bounds |
| AnalyticsPage.StoreDataSpec | src/pages/Analytics.tsx:399-431 | by descending event count, counting each event of a row with a store once, each store within its bounds |
| AnalyticsPage.FlexRow | src/pages/Analytics.tsx:383-386 | the loop body adds a first row to its store's Flex or Colecta count |
| AnalyticsPage.FlexColectaLoop | src/pages/Analytics.tsx:373-387 | the loop computes the Flex/Colecta table of the kept rows |
| AnalyticsPage.FlexTurn | src/pages/Analytics.tsx:373-387 | one pass counts a Flex or Colecta row once, for a new event |
| AnalyticsPage.FlexStepSpec | src/pages/Analytics.tsx:378-386 | a row adds one to the totals iff it opens an event, and no entry is empty |
| AnalyticsPage.FlexColectaSpec | src/pages/Analytics.tsx:368-387 | every kept event counts once under its store, and every entry has at least one event |
| AnalyticsPage.InStoreOrderEntries | src/pages/Analytics.tsx:389-395 | each listed store has an entry and its numbers |
| AnalyticsPage.InStoreOrderComplete | src/pages/Analytics.tsx:389-390 | each store with an entry is listed |
| AnalyticsPage.InStoreOrderRanks | src/pages/Analytics.tsx:389-390 | the listed stores keep the fixed store order |
| AnalyticsPage.ListedStores | src/pages/Analytics.tsx:389-395 | entries only for listed stores, none empty, each store with an entry listed, in the fixed order |
| AnalyticsPage.StoreLogisticsDataSpec | src/pages/Analytics.tsx:368-396 | each Flex/Colecta event counts once; only the four physical stores appear, each with an event, in the fixed order |
| AnalyticsPage.PhysicalStoresDistinct | src/pages/Analytics.tsx:369 | the four physical stores are distinct |
| AnalyticsPage.FlexEntries | src/pages/Analytics.tsx:374-386 | every entry is a physical store with at least one event |
| AnalyticsPage.AddTitlesLoop | src/pages/Analytics.tsx:267-268 | the inner loop adds the row's items to the city's titles |
| AnalyticsPage.CityRow | src/pages/Analytics.tsx:256-270 | the loop body, once the row has a city, is one step of the city fold |
| AnalyticsPage.CityLoop | src/pages/Analytics.tsx:230-271 | the loop computes the city table of the Mercado Libre rows |
| AnalyticsPage.CityTurn | src/pages/Analytics.tsx:244-271 | one pass adds a Mercado Libre row with a city to its city |
| AnalyticsPage.LocatedSpec | src/pages/Analytics.tsx:273-274 | the map shows exactly the cities with at least one coordinate |
| AnalyticsPage.TopTitlesSpec | src/pages/Analytics.tsx:280-282 | at most three titles, by units descending, none below a title left out |
| AnalyticsPage.MlGeoDataSpec | src/pages/Analytics.tsx:229-285 | by revenue descending, one point per city with coordinates and none other, each at its mean coordinates with its top three titles |
| AnalyticsPage.AddTitlesDistinct | src/pages/Analytics.tsx:268 | each title appears once |
| AnalyticsPage.AddTitlesSpec | src/pages/Analytics.tsx:268 | each title's units grow by its units among the items |
| AnalyticsPage.PageEventsOnMl | src/pages/Analytics.tsx:230-245 | on Mercado Libre rows the page's events are the summary's |
| AnalyticsPage.CityStepSums | src/pages/Analytics.tsx:262-265 | a row adds one to the city orders iff it opens an event, and one coordinate iff it has both |
| AnalyticsPage.PageOpensOnMl | src/pages/Analytics.tsx:246 | on Mercado Libre rows a row opens the page's event iff it opens the summary's |
| AnalyticsPage.CityOrderTotal | src/pages/Analytics.tsx:244-262 | the cities' order counts add up to the events whose first row names a city |
| AnalyticsPage.CityCoordTotal | src/pages/Analytics.tsx:265 | the cities' coordinate counts add up to the rows with a city and both coordinates |
| SyncWixHook.IncrementalWindow | src/hooks/useSyncWix.ts:51-60 | no stored Wix date means no window; an unreadable date throws; otherwise the window runs from two days before that date to now |
| SyncWixHook.WindowOverlap | src/hooks/useSyncWix.ts:54-58 | every order dated within the two days before the newest stored one, up to now, falls inside the window again |
| SyncWixHook.CurrentStatus | src/hooks/useSyncWix.ts:109-116 | an id no row carries has no status; a status found is that of a row for the id |
| SyncWixHook.MergeStatuses | src/hooks/useSyncWix.ts:115-122 | one row per incoming order, only the status possibly changed |
| SyncWixHook.MergeStatusesSpec | src/hooks/useSyncWix.ts:113-122 | a terminal incoming status (entregado, cancelado) always wins; an order not stored with a status keeps the incoming one; otherwise the stored status is kept |
| SyncWixHook.NewOrdersKeepStatus | src/hooks/useSyncWix.ts:117-121 | an order unknown to the database is uploaded as it came |
| SyncWixHook.SyncWix | src/hooks/useSyncWix.ts:26-146 | missing Wix variables fail with their message; an unreadable last date fails with "Invalid time value"; an HTTP error fails with the reply's error or "Error HTTP n"; an unsuccessful reply and a failed upsert fail with their messages; no orders gives 0/0/0 and no upsert; otherwise the merged rows are upserted and the summary is the upsert's count (0 when null), 0 updated, the reply's total, cursor and hasMore |
| CustomerTable.NextSort | src/components/crm/CustomerTable.tsx:100-107 | the clicked field becomes the sort field; the same field flips the direction, and another field starts descending |
| CustomerTable.NextSortTwice | src/components/crm/CustomerTable.tsx:100-107 | clicking the same header twice restores the direction; clicking a new header twice ends ascending |
| CustomerTable.TableState.constructor | src/components/crm/CustomerTable.tsx:94-98 | the table starts with no search, sorted by LTV descending, all channels, VIP only off |
| CustomerTable.TableState.HandleSort | src/components/crm/CustomerTable.tsx:100-107 | the sort state becomes the next one and the filters are left alone |
| CustomerTable.Where | src/components/crm/CustomerTable.tsx:114-127 | a filter keeps exactly the customers that pass it |
| CustomerTable.BeforeIsOrder | src/components/crm/CustomerTable.tsx:130-151 | the comparator is a total, transitive order for every field and direction |
| CustomerTable.FiltersSpec | src/components/crm/CustomerTable.tsx:109-128 | the three filters in turn keep exactly the customers that pass every one |
| CustomerTable.FilteredAndSortedSpec | src/components/crm/CustomerTable.tsx:109-154 | exactly the customers passing every filter, each as often as in the input, ordered by the chosen field and direction |
| CustomerTable.NoFilterKeepsAll | src/components/crm/CustomerTable.tsx:112-126 | with a blank search, all channels and VIP only off, the table is a reordering of every customer |
| OrderFilters.AllToNone | src/components/orders/OrderFilters.tsx:33-40 | 'all' becomes null, any other value is kept |
| OrderFilters.SearchChange | src/components/orders/OrderFilters.tsx:26-28 | sets the search and leaves every other field alone |
| OrderFilters.ChannelChange | src/components/orders/OrderFilters.tsx:30-35 | sets the channel, null for 'all', and leaves every other field alone |
| OrderFilters.StatusChange | src/components/orders/OrderFilters.tsx:37-42 | sets the status, null for 'all', and leaves every other field alone |
| OrderFilters.SinRemisionToggle | src/components/orders/OrderFilters.tsx:59-61 | flips the flag and leaves every other field alone |
| OrderFilters.Without | src/components/orders/OrderFilters.tsx:47 | `filter(s => s !== store)` removes exactly that store |
| OrderFilters.WithoutNoRepeats | src/components/orders/OrderFilters.tsx:47 | removing keeps a selection free of repeats |
| OrderFilters.StoreToggleSpec | src/components/orders/OrderFilters.tsx:44-50 | only the toggled store changes membership; an empty selection is stored as null; no repeats are introduced; other fields are left alone |
| OrderFilters.StoreToggleTwice | src/components/orders/OrderFilters.tsx:44-50 | toggling an unselected store twice restores the selection |
| OrderFilters.StoreLabel | src/components/orders/OrderFilters.tsx:52-57 | "Todas las tiendas" for none, the store's name for one, "N tiendas" for more |
| OrderFilters.StoreLabelAfterToggle | src/components/orders/OrderFilters.tsx:44-57 | toggling a store into an empty selection shows its name, and toggling it out brings back "Todas las tiendas" |
| OrderFilters.ClearedSpec | src/components/orders/OrderFilters.tsx:63-67 | cleared filters are inactive with the all-stores caption, and a store or the flag makes them active again |
| OrderFilters.HandlersActivate | src/components/orders/OrderFilters.tsx:26-67 | a non-empty search, a real channel or status, a toggled-in store or the flag switched on makes the filters active |
| CrmExport.Escape | src/components/crm/CrmExportButton.tsx:47 | doubling quotes never shortens a cell |
| CrmExport.QuoteAll | src/components/crm/CrmExportButton.tsx:45-49 | one quoted cell per cell |
| CrmExport.RowTexts | src/components/crm/CrmExportButton.tsx:43-51 | one line per row |
| CrmExport.CustomerRows | src/components/crm/CrmExportButton.tsx:27-41 | one row per customer, in order, with its cells |
| CrmExport.ReadBodyEscape | src/components/crm/CrmExportButton.tsx:47-48 | an escaped cell and its closing quote read back as the cell |
| CrmExport.ParseCellsAfterQuote | src/components/crm/CrmExportButton.tsx:48-50 | after one quoted cell the reader stops at the end, ends the line at LF, or reads on after a comma |
| CrmExport.ParseCellsRow | src/components/crm/CrmExportButton.tsx:45-51 | a line followed by LF or by nothing reads back as its cells |
| CrmExport.ParseRowsCsv | src/components/crm/CrmExportButton.tsx:43-52 | reading the CSV text back gives every row's cells, in order |
| CrmExport.ExportRowsShape | src/components/crm/CrmExportButton.tsx:11-41 | every line has the 13 columns; VIP and repeat show "Sí"/"No"; a missing email is "" |
| CrmExport.RowsNonEmpty | src/components/crm/CrmExportButton.tsx:11-43 | no exported line is empty |
| CrmExport.ExportSpec | src/components/crm/CrmExportButton.tsx:43-54 | the text starts with the byte-order mark and after it reads back as the header and one row per customer, in order |
| CrmExport.QuoteInjective | src/components/crm/CrmExportButton.tsx:47-48 | two different cells never quote alike |
| LabelPrinter.ReplaceAllAppend | src/services/labelPrinter.ts:29 | a global replace of one character distributes over concatenation |
| LabelPrinter.ReplaceAllAbsent | src/services/labelPrinter.ts:29 | a text without the character is left as it is |
| LabelPrinter.EscapeHtmlAmp | src/services/labelPrinter.ts:29 | `&` becomes `&amp;` |
| LabelPrinter.EscapeHtmlLt | src/services/labelPrinter.ts:29 | `<` becomes `&lt;`, its `&` not escaped again |
| LabelPrinter.EscapeHtmlGt | src/services/labelPrinter.ts:29 | `>` becomes `&gt;` |
| LabelPrinter.EscapeHtmlQuot | src/services/labelPrinter.ts:29 | `"` becomes `&quot;` |
| LabelPrinter.EscapeHtmlPlain | src/services/labelPrinter.ts:29 | any other character is left alone |
| LabelPrinter.EscapeHtmlEach | src/services/labelPrinter.ts:29 | because `&` goes first, the chain of four replaces escapes each character exactly once |
| LabelPrinter.UnescapeEach | src/services/labelPrinter.ts:29 | unescaping the per-character escape gives back the text |
| LabelPrinter.EscapeEachSafe | src/services/labelPrinter.ts:29 | the escaped text holds no `<`, `>` or `"` |
| LabelPrinter.EscapeHtmlSpec | src/services/labelPrinter.ts:29-66 | the escaped slot holds no `<`, `>` or `"`, and unescaping it gives back the input |
| LabelPrinter.CustomerName | src/services/labelPrinter.ts:11-13 | both names when both are present, else the email, else "Cliente" |
| LabelPrinter.ItemLines | src/services/labelPrinter.ts:25-27 | all item lines, one per item, exactly when no unit price is missing (a missing one throws) |
| LabelPrinter.PrintWixLabelSpec | src/services/labelPrinter.ts:3-66 | only Wix orders print, and a Wix order prints iff its total and every unit price are present; every slot unescapes back to its text, the items slot to the item lines joined by newlines; no address prints "Direccion no disponible"; otherwise the lines are the non-empty parts, city and state among them, the receiver falling back to the customer name |
| PushToHalcon.Destinatario | api/push-to-halcon.js:49-50 | a receiver name on the shipment wins |
| PushToHalcon.DestinatarioSpec | api/push-to-halcon.js:46-53 | the receiver, else both names, else the nickname, else the email, else "Sin nombre", so never empty |
| PushToHalcon.Direccion | api/push-to-halcon.js:57-59 | "street, comment" with a comment, else the street, else "" |
| PushToHalcon.ToPedidoSpec | api/push-to-halcon.js:61-67 | the origin is the channel; the shipment number is `WIX-` or `ML-` followed by the order id; the order id is passed on |
| PushToHalcon.Handle | api/push-to-halcon.js:14-67 | 405 for a non-POST, 400 without an order, 500 without the URL or the secret, 400 for an order not Wix and not Mercado Libre self_service, and only otherwise the order's pedido is sent |
| PushToHalcon.HandleReplySpec | api/push-to-halcon.js:69-100 | a sent order comes back 200 iff Halcón answered 2xx, with Halcón's status for any other answer, and 500 when Halcón cannot be reached |
| Sorting.SortSpec | src/hooks/useAnalytics.ts:299-301 | for a total preorder the stable sort's output is sorted and a permutation of the input |
| Sorting.SortDescSpec | src/hooks/useAnalytics.ts:301-339 | sorting by a descending key gives non-increasing keys and a permutation |
| Sorting.SortAscSpec | src/hooks/useCustomers.ts:116-118 | sorting by an ascending key gives non-decreasing keys and a permutation |
| Sorting.TakeDescSpec | src/hooks/useAnalytics.ts:323-329 | the first n after a descending sort: at most n, in order, none below an element left out |
| Sorting.SumByPerm | src/hooks/useAnalytics.ts:299-301 | a sum over a list depends only on its elements, so sorting keeps it |
| Sorting.CountWherePerm | src/hooks/useCustomers.ts:166-178 | a count over a list depends only on its elements |
| Sorting.SortedEnds | src/hooks/useCustomers.ts:116-156 | an ascending sort's first and last elements are a smallest and a largest |
| OrderedMap.IndexOf | src/hooks/useAnalytics.ts:172 | `get` finds the key's entry, and nothing exactly when the key is absent |
| OrderedMap.PutSpec | src/hooks/useAnalytics.ts:173-176 | `set` changes its key's entry alone, keeps every position and appends a new key at the end |
| OrderedMap.SumOfPut | src/hooks/useAnalytics.ts:172-176 | setting a key moves a sum over the values by the difference between new and old value |
| OrderedMap.GetOrPut | src/hooks/useAnalytics.ts:180 | `get(t) ?? d` after `set(k, v)` is v for t == k and unchanged otherwise |

## Left out

- Network and storage I/O are not modelled. This covers every fetch/axios call to Mercado Libre, Wix, Falabella, Supabase/PostgREST and Halcón, the OAuth refresh side effects, `.env.local` file reads, console questions and output, and Blob/DOM downloads. Each call's answer is a parameter, or a finite script of replies with one reply per request.
- A loop whose end depends on the remote API takes a finite script of replies. What running out of replies means differs by member:
  - Paging.CollectAll and Paging.CollectOrFail: a request past the last page gets the empty answer of a 416 reply and ends the loop;
  - ScriptSync.MLFrom, ScriptSync.WixFrom and BackfillWixUnpaid.BackfillFrom: running out of replies ends the loop as a last page does;
  - FalabellaSync.Collect: a request past the end of the script throws, as a failed request does.
- This bounds:
  - the unguarded 401-refresh-and-repeat of the script paging loops;
  - the `while (true)` and `while (keepGoing)` loops.
- Concurrency and timing are not modelled: `Promise.all` inside batches, `pLimit` parallelism, `sleep` delays, `setInterval` polling and realtime subscriptions. A batch's tasks run in order, and a token refresh is threaded from one task to the next.
- Batches.RunAll: the orders of a batch are handled one after another, so the model does not capture two requests of one batch racing for the same token refresh.
- ScriptSync.AttachShipment: the source assigns `order.shipping_address` in place on the shared order object. The model returns a new order with that field set, so aliasing between the task list and `allOrders` is not captured.
- Floating point is not modelled. Money is an integer number of pesos, parsed by `parseFloat`. `parseFloat` is modelled as optional leading whitespace, an optional sign and leading decimal digits, with any fraction dropped; a text without a leading digit is NaN (`None`).
- Averages are exact integer ratios. `Math.round` is round-half-up on non-negative rationals. AnalyticsPage.CityDataOf averages coordinates as exact ratios. The map colour and radius helpers of the analytics map are not part of this model.
- Dates are ISO strings compared as text or integer milliseconds. Parsing by `new Date`, rendering by `toISOString`, `getDay`, `toLocaleString`/`Intl.NumberFormat` and the date-fns formatters are parameters or are not part of this model.
- `localeCompare` is code-point order on the text. `toLowerCase` covers ASCII and the Latin-1 capitals, and `trim` covers a fixed whitespace set. JavaScript's rendering of a non-integer number (`String(avgTicket)` in the CSV export) is a parameter.
- HMAC-SHA256 in `signRequest` (RFC 2104) is a parameter. Only the canonical string, the parameter assembly and the timestamp trimming are modelled. `encodeURIComponent` percent-encodes each character's UTF-8 bytes. A Dafny `char` is a Unicode scalar value, so the lone surrogates on which it throws do not arise.
- `JSON.parse` and `JSON.stringify` are not modelled. A parse's success or failure is an input, and a request body is the record it would encode.
- PostgREST semantics are reduced to what each query filters. The stored table is a list of rows, lookups are on `channel` and `order_id`, an upsert appends the batch's rows to the list (SyncIncremental.UpsertFrom, SyncHistorico.WriteFrom), so a lookup finds a key once any row carries it, while the replacement of an earlier row with the same key by `merge-duplicates` is not captured, a `Range` header keeps a prefix, and `order=...` sorting is applied by the caller, who passes the rows in that order.
- React rendering, JSX and the chart components are not modelled. Only the handlers, memos and helper functions of the listed components are modelled; their `useState`/`useMemo` state is the value they compute.
- LabelPrinter: the fixed HTML page template, `window.open` and `document.write` are not part of this model. Only the escaped text slots are modelled.
- The `normalize*` copies in server/proxy.js are the same as api/sync-ml.js and api/sync-wix.js, so they are modelled once. tmp/pdfs/generate_app_summary_pdf.py has no logic of its own and is not part of this model.
- CrmExport.ParseRows: the reader exists only to state the round trip. It is proved to read back the texts the export writes; other RFC 4180 input is not characterised.
- BackfillWixUnpaid.RunBackfill: with `--dry-run`, the model states that nothing is written, not the console report the script prints.

## Findings

| source | as written | input that shows it | evidently intended | confidence | as-written member | corrected member |
|---|---|---|---|---|---|---|
| api/sync-ml-status.js:144-151 | `fetchShipmentStatus` refreshes the token after a 401 but returns `newToken: null`, so the loop at line 69 never replaces `accessToken` | an expired access token and two pending orders with shipping ids: each order refreshes again | the refreshed token is handed back and used for the remaining orders | not executed | SyncMLStatus.AsWrittenRefreshesEveryOrder | SyncMLStatus.PropagatedRefreshesOnce |
| src/hooks/useAnalytics.ts:456 | the best-channel insight names every channel other than `mercadolibre` "Wix" | a range where Falabella has the highest average ticket: the insight says "Wix" | each channel is named by its own label | not executed | AnalyticsSummary.FalabellaShownAsWix | AnalyticsSummary.ChannelLabelSpec |
| scripts/sync-incremental.mjs:422 | the existence check filters `channel=eq.<label>` with the label "Mercado Libre" or "Wix", while stored rows carry the codes `mercadolibre` and `wix` | running the sync twice over the same orders: the second run still reports every order as new and none as updated | the check filters on the stored channel code | not executed | SyncIncremental.LabelFilterCountsNothingUpdated | SyncIncremental.CodeFilterCountsStoredUpdated |
