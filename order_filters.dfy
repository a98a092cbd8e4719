// src/components/orders/OrderFilters.tsx: the filter handlers, each of which returns a
// copy of the filters with one field changed, the store-button caption and the
// "filters active" test.
module OrderFilters {
  import opened Wrappers
  import opened Text

  /** The filters object. `status` and `channel` hold the select's value, `None` for
      "all"; `sinRemision` counts a missing flag as `false`. */
  datatype Filters = Filters(
    search: Option<string>,
    status: Option<string>,
    channel: Option<string>,
    store: Option<seq<string>>,
    sinRemision: bool,
    page: Option<int>,
    pageSize: Option<int>)

  /** `value === 'all' ? null : value`. */
  function AllToNone(v: string): (r: Option<string>)
    ensures r.None? <==> v == "all"
    ensures r.Some? ==> r.value == v
  {
    if v == "all" then None else Some(v)
  }

  function SearchChange(f: Filters, v: string): (r: Filters)
    ensures r.search == Some(v)
    ensures r.status == f.status && r.channel == f.channel && r.store == f.store
    ensures r.sinRemision == f.sinRemision && r.page == f.page && r.pageSize == f.pageSize
  {
    f.(search := Some(v))
  }

  function ChannelChange(f: Filters, v: string): (r: Filters)
    ensures r.channel == AllToNone(v)
    ensures r.search == f.search && r.status == f.status && r.store == f.store
    ensures r.sinRemision == f.sinRemision && r.page == f.page && r.pageSize == f.pageSize
  {
    f.(channel := AllToNone(v))
  }

  function StatusChange(f: Filters, v: string): (r: Filters)
    ensures r.status == AllToNone(v)
    ensures r.search == f.search && r.channel == f.channel && r.store == f.store
    ensures r.sinRemision == f.sinRemision && r.page == f.page && r.pageSize == f.pageSize
  {
    f.(status := AllToNone(v))
  }

  function SinRemisionToggle(f: Filters): (r: Filters)
    ensures r.sinRemision == !f.sinRemision
    ensures r.search == f.search && r.status == f.status && r.channel == f.channel
    ensures r.store == f.store && r.page == f.page && r.pageSize == f.pageSize
  {
    f.(sinRemision := !f.sinRemision)
  }

  function Selected(f: Filters): seq<string> {
    if f.store.Some? then f.store.value else []
  }

  function Without(s: seq<string>, x: string): (r: seq<string>)
    ensures forall y :: y in r <==> y in s && y != x
    ensures x !in s ==> r == s
    decreases |s|
  {
    if s == [] then []
    else
      var init, last := s[..|s| - 1], s[|s| - 1];
      assert s == init + [last];
      Without(init, x) + (if last != x then [last] else [])
  }

  /** `handleStoreToggle`. */
  function StoreToggle(f: Filters, x: string): Filters {
    var current := Selected(f);
    var updated := if x in current then Without(current, x) else current + [x];
    f.(store := if |updated| > 0 then Some(updated) else None)
  }

  ghost predicate NoRepeats(s: seq<string>) {
    forall i, j :: 0 <= i < j < |s| ==> s[i] != s[j]
  }

  lemma {:induction false} WithoutNoRepeats(s: seq<string>, x: string)
    requires NoRepeats(s)
    ensures NoRepeats(Without(s, x))
    decreases |s|
  {
    if s != [] {
      var init, last := s[..|s| - 1], s[|s| - 1];
      assert s == init + [last];
      assert NoRepeats(init) by {
        forall i, j | 0 <= i < j < |init| ensures init[i] != init[j] {
          assert init[i] == s[i] && init[j] == s[j];
        }
      }
      WithoutNoRepeats(init, x);
      assert last !in init by {
        forall i | 0 <= i < |init| ensures init[i] != last {
          assert init[i] == s[i];
        }
      }
    }
  }

  /** Toggling flips the store's membership and no other store's, never stores an
      empty list, keeps a list without repeats free of them, and leaves the other
      fields alone. */
  lemma StoreToggleSpec(f: Filters, x: string)
    ensures var r := StoreToggle(f, x);
      && (x in Selected(r) <==> x !in Selected(f))
      && (forall y :: y != x ==> (y in Selected(r) <==> y in Selected(f)))
      && (r.store.Some? ==> r.store.value != [])
      && (NoRepeats(Selected(f)) ==> NoRepeats(Selected(r)))
      && r.search == f.search && r.status == f.status && r.channel == f.channel
      && r.sinRemision == f.sinRemision && r.page == f.page && r.pageSize == f.pageSize
  {
    var current := Selected(f);
    if x in current {
      if NoRepeats(current) {
        WithoutNoRepeats(current, x);
      }
    } else {
      var u := current + [x];
      if NoRepeats(current) {
        assert NoRepeats(u) by {
          forall i, j | 0 <= i < j < |u| ensures u[i] != u[j] {
            if j == |current| {
              assert u[i] == current[i];
            } else {
              assert u[i] == current[i] && u[j] == current[j];
            }
          }
        }
      }
    }
  }

  /** Toggling a store that is not selected, and then again, gives back the same
      selection (an empty one as `null`). */
  lemma StoreToggleTwice(f: Filters, x: string)
    requires x !in Selected(f)
    ensures StoreToggle(StoreToggle(f, x), x) == f.(store := if Selected(f) == [] then None else Some(Selected(f)))
  {
    var current := Selected(f);
    var once := StoreToggle(f, x);
    assert Selected(once) == current + [x];
    assert x in Selected(once);
    var back := Without(current + [x], x);
    assert (current + [x])[..|current|] == current;
    assert back == Without(current, x);
  }

  /** `storeLabel`. */
  function StoreLabel(f: Filters): (r: string)
    ensures Selected(f) == [] ==> r == "Todas las tiendas"
    ensures |Selected(f)| == 1 ==> r == Selected(f)[0]
    ensures |Selected(f)| >= 2 ==> r == NatToString(|Selected(f)|) + " tiendas"
  {
    var selected := Selected(f);
    if |selected| == 0 then "Todas las tiendas"
    else if |selected| == 1 then selected[0]
    else NatToString(|selected|) + " tiendas"
  }

  /** After toggling a store into an empty selection the caption is that store's
      name; toggling it out again brings back the "all stores" caption. */
  lemma StoreLabelAfterToggle(f: Filters, x: string)
    requires Selected(f) == []
    ensures StoreLabel(StoreToggle(f, x)) == x
    ensures StoreLabel(StoreToggle(StoreToggle(f, x), x)) == "Todas las tiendas"
  {
    StoreToggleTwice(f, x);
  }

  /** `handleClearFilters`. */
  const Cleared := Filters(Some(""), None, None, Some([]), false, None, None)

  /** `hasActiveFilters`, as a truth value. */
  predicate HasActiveFilters(f: Filters) {
    Truthy(f.search) || Truthy(f.status) || Truthy(f.channel)
    || (f.store.Some? && |f.store.value| > 0) || f.sinRemision
  }

  /** The cleared filters are inactive and show the "all stores" caption; toggling a
      store or the "sin remisión" flag on them makes them active again. */
  lemma ClearedSpec(x: string)
    ensures !HasActiveFilters(Cleared)
    ensures StoreLabel(Cleared) == "Todas las tiendas"
    ensures HasActiveFilters(StoreToggle(Cleared, x)) && HasActiveFilters(SinRemisionToggle(Cleared))
  {
    StoreToggleSpec(Cleared, x);
  }

  /** Each handler turns the filters active: a non-empty search, a real channel or
      status, a toggled-in store, the "sin remisión" flag switched on. */
  lemma HandlersActivate(f: Filters, v: string, x: string)
    ensures v != "" ==> HasActiveFilters(SearchChange(f, v))
    ensures v != "" && v != "all" ==> HasActiveFilters(ChannelChange(f, v)) && HasActiveFilters(StatusChange(f, v))
    ensures x !in Selected(f) ==> HasActiveFilters(StoreToggle(f, x))
    ensures !f.sinRemision ==> HasActiveFilters(SinRemisionToggle(f))
  {
    StoreToggleSpec(f, x);
  }
}
