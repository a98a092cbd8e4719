// src/components/crm/CustomerTable.tsx: the sort-header state (`handleSort`) and the
// `filteredAndSorted` pipeline over the customer profiles.
module CustomerTable {
  import opened Wrappers
  import opened Text
  import opened OrderModel
  import Customers
  import Sorting

  type Profile = Customers.Profile

  datatype SortField = OrderCount | Ltv | AvgTicket | LastOrderDate
  datatype SortDir = Asc | Desc
  datatype ChannelFilter = AllChannels | Only(channel: Channel)

  /** `handleSort`: the same field flips the direction, another field starts
      descending. */
  function NextSort(field: SortField, dir: SortDir, clicked: SortField): (r: (SortField, SortDir))
    ensures r.0 == clicked
    ensures field == clicked ==> r.1 != dir
    ensures field != clicked ==> r.1 == Desc
  {
    if field == clicked then (field, if dir == Desc then Asc else Desc) else (clicked, Desc)
  }

  /** Clicking the same header twice restores the direction; clicking any header
      after another one always lands on a descending sort. */
  lemma NextSortTwice(field: SortField, dir: SortDir, clicked: SortField)
    ensures var s := NextSort(field, dir, clicked);
      NextSort(s.0, s.1, clicked) == (if field == clicked then (field, dir) else (clicked, Asc))
  {
  }

  /** The table's own state. */
  class TableState {
    var search: string
    var sortField: SortField
    var sortDir: SortDir
    var channelFilter: ChannelFilter
    var vipOnly: bool

    constructor()
      ensures search == "" && sortField == Ltv && sortDir == Desc
      ensures channelFilter == AllChannels && !vipOnly
    {
      search := "";
      sortField := Ltv;
      sortDir := Desc;
      channelFilter := AllChannels;
      vipOnly := false;
    }

    method HandleSort(clicked: SortField)
      modifies this
      ensures (sortField, sortDir) == NextSort(old(sortField), old(sortDir), clicked)
      ensures search == old(search) && channelFilter == old(channelFilter) && vipOnly == old(vipOnly)
    {
      if sortField == clicked {
        sortDir := if sortDir == Desc then Asc else Desc;
      } else {
        sortField := clicked;
        sortDir := Desc;
      }
    }

    /** What the table shows for `customers`. */
    function View(customers: seq<Profile>): seq<Profile>
      reads this
    {
      FilteredAndSorted(customers, search, channelFilter, vipOnly, sortField, sortDir)
    }
  }

  // ----- filteredAndSorted -----

  function OptContains(s: Option<string>, q: string): bool {
    s.Some? && Contains(ToLower(s.value), q)
  }

  /** The search test with the already lower-cased query `q`. */
  predicate MatchesQuery(c: Profile, q: string) {
    Contains(ToLower(c.displayName), q) || OptContains(c.email, q) || OptContains(c.nickname, q)
  }

  function Where(cs: seq<Profile>, P: Profile -> bool): (r: seq<Profile>)
    ensures forall c :: c in r <==> c in cs && P(c)
    ensures |r| <= |cs|
    decreases |cs|
  {
    if cs == [] then []
    else
      var init, c := cs[..|cs| - 1], cs[|cs| - 1];
      assert cs == init + [c];
      Where(init, P) + (if P(c) then [c] else [])
  }

  function SearchStep(cs: seq<Profile>, search: string): seq<Profile> {
    if Trim(search) != "" then Where(cs, (c: Profile) => MatchesQuery(c, ToLower(search))) else cs
  }

  function ChannelStep(cs: seq<Profile>, cf: ChannelFilter): seq<Profile> {
    if cf.Only? then Where(cs, (c: Profile) => c.channel == cf.channel) else cs
  }

  function VipStep(cs: seq<Profile>, vipOnly: bool): seq<Profile> {
    if vipOnly then Where(cs, (c: Profile) => c.isVip) else cs
  }

  /** A profile's average ticket as a number. */
  function TicketValue(c: Profile): real {
    if c.avgTicket.den == 0 then 0.0 else c.avgTicket.num as real / c.avgTicket.den as real
  }

  function NumericKey(c: Profile, field: SortField): real {
    match field
    case OrderCount => c.orderCount as real
    case Ltv => c.ltv as real
    case AvgTicket => TicketValue(c)
    case LastOrderDate => 0.0
  }

  function DateKey(c: Profile): string { OrEmpty(c.lastOrderDate) }

  /** "`a` may come first" under the chosen field and direction. */
  function Before(field: SortField, dir: SortDir): (Profile, Profile) -> bool {
    (a: Profile, b: Profile) =>
      if field == LastOrderDate then
        (if dir == Desc then StrLe(DateKey(b), DateKey(a)) else StrLe(DateKey(a), DateKey(b)))
      else
        (if dir == Desc then NumericKey(a, field) >= NumericKey(b, field) else NumericKey(a, field) <= NumericKey(b, field))
  }

  lemma BeforeIsOrder(field: SortField, dir: SortDir)
    ensures Sorting.Total(Before(field, dir)) && Sorting.Transitive(Before(field, dir))
  {
    var le := Before(field, dir);
    forall a, b ensures le(a, b) || le(b, a) {
      StrLeTotal(DateKey(a), DateKey(b));
    }
    forall a, b, c | le(a, b) && le(b, c) ensures le(a, c) {
      if field == LastOrderDate {
        if dir == Desc {
          StrLeTransitive(DateKey(c), DateKey(b), DateKey(a));
        } else {
          StrLeTransitive(DateKey(a), DateKey(b), DateKey(c));
        }
      }
    }
  }

  /** `filteredAndSorted`: the three filters in turn, then a sorted copy. */
  function FilteredAndSorted(cs: seq<Profile>, search: string, cf: ChannelFilter, vipOnly: bool,
                             field: SortField, dir: SortDir): seq<Profile> {
    Sorting.Sort(VipStep(ChannelStep(SearchStep(cs, search), cf), vipOnly), Before(field, dir))
  }

  /** The filters' joint test as one predicate. */
  predicate Kept(c: Profile, search: string, cf: ChannelFilter, vipOnly: bool) {
    (Trim(search) == "" || MatchesQuery(c, ToLower(search)))
    && (cf.AllChannels? || c.channel == cf.channel)
    && (!vipOnly || c.isVip)
  }

  /** Membership after the filters is exactly the joint test, order kept. */
  lemma FiltersSpec(cs: seq<Profile>, search: string, cf: ChannelFilter, vipOnly: bool)
    ensures var r := VipStep(ChannelStep(SearchStep(cs, search), cf), vipOnly);
      forall c :: c in r <==> c in cs && Kept(c, search, cf, vipOnly)
  {
  }

  /** The table shows exactly the customers that pass every filter, each as often as
      in the input, ordered by the chosen field in the chosen direction. */
  lemma FilteredAndSortedSpec(cs: seq<Profile>, search: string, cf: ChannelFilter, vipOnly: bool,
                              field: SortField, dir: SortDir)
    ensures var sel := VipStep(ChannelStep(SearchStep(cs, search), cf), vipOnly);
      var r := FilteredAndSorted(cs, search, cf, vipOnly, field, dir);
      && multiset(r) == multiset(sel)
      && (forall c :: c in r <==> c in cs && Kept(c, search, cf, vipOnly))
      && (forall i, j :: 0 <= i < j < |r| ==> Before(field, dir)(r[i], r[j]))
  {
    var sel := VipStep(ChannelStep(SearchStep(cs, search), cf), vipOnly);
    BeforeIsOrder(field, dir);
    Sorting.SortSpec(sel, Before(field, dir));
    FiltersSpec(cs, search, cf, vipOnly);
    var r := FilteredAndSorted(cs, search, cf, vipOnly, field, dir);
    forall c ensures c in r <==> c in sel {
      assert c in r <==> c in multiset(r);
    }
  }

  /** No filter drops anyone when the search is blank, the channel is "all" and VIP
      only is off; the table is then a reordering of every customer. */
  lemma NoFilterKeepsAll(cs: seq<Profile>, search: string, field: SortField, dir: SortDir)
    requires Trim(search) == ""
    ensures multiset(FilteredAndSorted(cs, search, AllChannels, false, field, dir)) == multiset(cs)
  {
  }
}
