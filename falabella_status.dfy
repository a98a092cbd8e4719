// Reduction of the per-item statuses of a Falabella order to one order status
// (src/services/normalizer.ts:151-167; copied in api/sync-falabella.js:19-36 and
// api/falabella-webhook.js:19-35, where the argument also passes through `[].concat`).
module FalabellaStatus {
  import opened Wrappers
  import opened Text
  import opened OrderModel
  import opened Raw

  /** `[].concat(v)`: a single string becomes a one-element list. */
  function Concat(v: StatusValue): (r: seq<string>)
    ensures v.OneStatus? ==> r == [v.s]
    ensures v.StatusList? ==> r == v.items
  {
    match v
    case OneStatus(s) => [s]
    case StatusList(items) => items
  }

  /** `[].concat(order.Statuses?.Status || ['pending'])`: a missing field and an empty
      string (both falsy) default to ['pending']; an array, even an empty one, is kept. */
  function StatusArray(f: Option<StatusValue>): (r: seq<string>)
  {
    if f.None? || f.value == OneStatus("") then ["pending"] else Concat(f.value)
  }

  lemma StatusArraySpec(f: Option<StatusValue>)
    ensures f.None? ==> StatusArray(f) == ["pending"]
    ensures f.Some? && f.value.OneStatus? ==>
      StatusArray(f) == [if f.value.s == "" then "pending" else f.value.s]
    ensures f.Some? && f.value.StatusList? ==> StatusArray(f) == f.value.items
  {
  }

  /** The status one raw Falabella item status maps to, compared lower-cased. */
  function MapOne(raw: string): (r: OrderStatus)
  {
    var lower := ToLower(raw);
    if lower == "pending" then Nuevo
    else if lower == "ready_to_ship" then Preparando
    else if lower == "shipped" then Enviado
    else if lower == "delivered" then Entregado
    else if lower == "failed" || lower == "canceled" || StartsWith(lower, "return_") then Cancelado
    else Nuevo
  }

  /** The mapping table, stated on the lower-cased status. */
  lemma NotReturnPrefixed(lower: string)
    requires lower in {"pending", "ready_to_ship", "shipped", "delivered"}
    ensures !StartsWith(lower, "return_")
  {
    assert lower[0] != 'r' || lower[2] != 't';
  }

  lemma MapOneTable(raw: string)
    ensures ToLower(raw) == "pending" ==> MapOne(raw) == Nuevo
    ensures ToLower(raw) == "ready_to_ship" ==> MapOne(raw) == Preparando
    ensures ToLower(raw) == "shipped" ==> MapOne(raw) == Enviado
    ensures ToLower(raw) == "delivered" ==> MapOne(raw) == Entregado
    ensures ToLower(raw) in {"failed", "canceled"} || StartsWith(ToLower(raw), "return_") ==>
      MapOne(raw) == Cancelado
    ensures MapOne(raw) == Cancelado <==>
      ToLower(raw) in {"failed", "canceled"} || StartsWith(ToLower(raw), "return_")
    ensures MapOne(raw) == Preparando <==> ToLower(raw) == "ready_to_ship"
    ensures MapOne(raw) == Enviado <==> ToLower(raw) == "shipped"
    ensures MapOne(raw) == Entregado <==> ToLower(raw) == "delivered"
  {
    var lower := ToLower(raw);
    if lower in {"pending", "ready_to_ship", "shipped", "delivered"} {
      NotReturnPrefixed(lower);
    }
  }

  /** Case does not matter: a status and its lower-cased form map alike. */
  lemma MapOneCaseInsensitive(raw: string)
    ensures MapOne(raw) == MapOne(ToLower(raw))
  {
    ToLowerIdempotent(raw);
  }

  /** FB_STATUS_PRIORITY. */
  const Priority: seq<OrderStatus> := [Entregado, Enviado, Preparando, Nuevo, Cancelado]

  /** Position in the priority list; smaller wins. */
  function Rank(s: OrderStatus): nat {
    match s
    case Entregado => 0
    case Enviado => 1
    case Preparando => 2
    case Nuevo => 3
    case Cancelado => 4
  }

  lemma PriorityRank()
    ensures |Priority| == 5
    ensures forall i :: 0 <= i < |Priority| ==> Rank(Priority[i]) == i
  {
  }

  function MapAll(statuses: seq<string>): (r: seq<OrderStatus>)
    ensures |r| == |statuses|
    ensures forall i :: 0 <= i < |statuses| ==> r[i] == MapOne(statuses[i])
  {
    if statuses == [] then [] else [MapOne(statuses[0])] + MapAll(statuses[1..])
  }

  /** The `for (const p of FB_STATUS_PRIORITY) if (mapped.includes(p)) return p` search. */
  function FirstIncluded(priority: seq<OrderStatus>, mapped: seq<OrderStatus>): (r: Option<OrderStatus>)
    ensures r.Some? ==> r.value in priority && r.value in mapped
    ensures r.None? ==> forall p :: p in priority ==> p !in mapped
    ensures r.Some? ==> exists i :: (0 <= i < |priority| && priority[i] == r.value
      && forall j :: 0 <= j < i ==> priority[j] !in mapped)
  {
    if priority == [] then None
    else if priority[0] in mapped then Some(priority[0])
    else
      var rest := FirstIncluded(priority[1..], mapped);
      assert rest.Some? ==> (exists i :: (0 <= i < |priority[1..]| && priority[1..][i] == rest.value
        && forall j :: 0 <= j < i ==> priority[1..][j] !in mapped));
      if rest.Some? then
        var i :| 0 <= i < |priority[1..]| && priority[1..][i] == rest.value
          && forall j :: 0 <= j < i ==> priority[1..][j] !in mapped;
        assert priority[i + 1] == rest.value;
        assert forall j :: 0 <= j < i + 1 ==> priority[j] !in mapped by {
          forall j | 0 <= j < i + 1 ensures priority[j] !in mapped {
            if j > 0 { assert priority[j] == priority[1..][j - 1]; }
          }
        }
        rest
      else rest
  }

  /** mapFalabellaStatus on a list of raw statuses. */
  function MapFalabellaStatus(statuses: seq<string>): (r: OrderStatus)
  {
    var found := FirstIncluded(Priority, MapAll(statuses));
    if found.Some? then found.value else Nuevo
  }

  /** The result is the mapped status of highest priority; an empty list gives nuevo. */
  lemma MapFalabellaStatusSpec(statuses: seq<string>)
    ensures statuses == [] ==> MapFalabellaStatus(statuses) == Nuevo
    ensures statuses != [] ==>
      (exists i :: 0 <= i < |statuses| && MapOne(statuses[i]) == MapFalabellaStatus(statuses))
      && (forall i :: 0 <= i < |statuses| ==> Rank(MapFalabellaStatus(statuses)) <= Rank(MapOne(statuses[i])))
  {
    var mapped := MapAll(statuses);
    var found := FirstIncluded(Priority, mapped);
    if statuses != [] {
      var m0 := MapOne(statuses[0]);
      assert m0 in mapped;
      assert m0 in Priority by {
        match m0
        case Entregado => assert Priority[0] == m0;
        case Enviado => assert Priority[1] == m0;
        case Preparando => assert Priority[2] == m0;
        case Nuevo => assert Priority[3] == m0;
        case Cancelado => assert Priority[4] == m0;
      }
      assert found.Some?;
      var r := found.value;
      var k :| 0 <= k < |Priority| && Priority[k] == r && forall j :: 0 <= j < k ==> Priority[j] !in mapped;
      PriorityRank();
      forall i | 0 <= i < |statuses| ensures Rank(r) <= Rank(MapOne(statuses[i])) {
        var m := mapped[i];
        assert Priority[Rank(m)] == m;
        assert !(Rank(m) < k);
      }
      var w :| w in mapped && w == r;
      var i :| 0 <= i < |mapped| && mapped[i] == w;
      assert MapOne(statuses[i]) == r;
    }
  }

  /** The default status list ['pending'] reduces to nuevo. */
  lemma PendingDefault()
    ensures MapFalabellaStatus(StatusArray(None)) == Nuevo
  {
    assert ToLower("pending") == "pending";
    assert MapAll(["pending"]) == [Nuevo];
  }

  /** The order is cancelled only when every item status maps to cancelado. */
  lemma CancelledOnlyIfAllCancelled(statuses: seq<string>)
    ensures MapFalabellaStatus(statuses) == Cancelado <==>
      statuses != [] && forall i :: 0 <= i < |statuses| ==> MapOne(statuses[i]) == Cancelado
  {
    MapFalabellaStatusSpec(statuses);
    if statuses != [] && forall i :: 0 <= i < |statuses| ==> MapOne(statuses[i]) == Cancelado {
      var i :| 0 <= i < |statuses| && MapOne(statuses[i]) == MapFalabellaStatus(statuses);
    }
    if MapFalabellaStatus(statuses) == Cancelado {
      forall i | 0 <= i < |statuses| ensures MapOne(statuses[i]) == Cancelado {
        assert Rank(Cancelado) <= Rank(MapOne(statuses[i]));
      }
    }
  }

  /** A delivered item makes the order delivered, whatever the other items say. */
  lemma AnyDeliveredWins(statuses: seq<string>, i: nat)
    requires i < |statuses| && MapOne(statuses[i]) == Entregado
    ensures MapFalabellaStatus(statuses) == Entregado
  {
    MapFalabellaStatusSpec(statuses);
  }

  /** The JavaScript copies accept one string or an array (`[].concat(statuses)`) and
      agree with the TypeScript reduction on the resulting list. */
  function MapFalabellaStatusJs(statuses: StatusValue): (r: OrderStatus)
    ensures statuses.OneStatus? ==> r == MapOne(statuses.s)
    ensures statuses.StatusList? ==> r == MapFalabellaStatus(statuses.items)
  {
    var r := MapFalabellaStatus(Concat(statuses));
    if statuses.OneStatus? then
      MapFalabellaStatusSpec([statuses.s]);
      r
    else r
  }
}
