/** The listing page of `src/pages/AllVehicles.jsx`: the filter record, its
    single-key update and reset, and the derivation of the visible list
    (search, category and location filters, then an optional stable sort). */
module Listing {
  import opened Seqs
  import opened Domain
  import Text

  datatype Filters = Filters(category: string, location: string, search: string, sortBy: string)

  datatype FilterKey = CategoryKey | LocationKey | SearchKey | SortByKey

  /** The initial filters, and what `resetFilters` installs. */
  function EmptyFilters(): (f: Filters)
    ensures f.category == "" && f.location == "" && f.search == "" && f.sortBy == ""
  {
    Filters("", "", "", "")
  }

  function Field(f: Filters, k: FilterKey): string {
    match k
    case CategoryKey => f.category
    case LocationKey => f.location
    case SearchKey => f.search
    case SortByKey => f.sortBy
  }

  /** `handleFilterChange(k, value)`: `{...prev, [k]: value}`. */
  function SetFilter(f: Filters, k: FilterKey, value: string): (r: Filters)
    ensures Field(r, k) == value
    ensures forall other :: other != k ==> Field(r, other) == Field(f, other)
  {
    match k
    case CategoryKey => f.(category := value)
    case LocationKey => f.(location := value)
    case SearchKey => f.(search := value)
    case SortByKey => f.(sortBy := value)
  }

  /** Setting a field back to the value it had changes nothing; setting it twice keeps the last value. */
  lemma SetFilterLaws(f: Filters, k: FilterKey, a: string, b: string)
    ensures SetFilter(f, k, Field(f, k)) == f
    ensures SetFilter(SetFilter(f, k, a), k, b) == SetFilter(f, k, b)
  {
  }

  function NameHas(text: string): Vehicle -> bool {
    (v: Vehicle) => Text.ContainsIgnoringCase(v.vehicleName, text)
  }

  function CategoryIs(category: string): Vehicle -> bool {
    (v: Vehicle) => v.category == category
  }

  function LocationHas(text: string): Vehicle -> bool {
    (v: Vehicle) => Text.ContainsIgnoringCase(v.location, text)
  }

  /** The reference meaning of the three filters together: a field that is
      empty constrains nothing, a set field must match. */
  predicate Matches(f: Filters, v: Vehicle) {
    && (f.search == "" || Text.ContainsIgnoringCase(v.vehicleName, f.search))
    && (f.category == "" || v.category == f.category)
    && (f.location == "" || Text.ContainsIgnoringCase(v.location, f.location))
  }

  function Keep(f: Filters): Vehicle -> bool {
    (v: Vehicle) => Matches(f, v)
  }

  datatype SortKey = Unsorted | PriceLow | PriceHigh | Newest

  /** The `sortBy` values the effect recognises; any other value sorts nothing. */
  function SortKeyOf(sortBy: string): SortKey {
    if sortBy == "price-low" then PriceLow
    else if sortBy == "price-high" then PriceHigh
    else if sortBy == "newest" then Newest
    else Unsorted
  }

  function Price(v: Vehicle): int { v.pricePerDay }
  function PriceDescending(v: Vehicle): int { -v.pricePerDay }
  function NewestFirst(v: Vehicle): int { -v.createdAt }

  /** The three filter stages, each applied only when its field is truthy. */
  function Staged(vehicles: seq<Vehicle>, f: Filters): seq<Vehicle> {
    var bySearch := if f.search != "" then Filter(vehicles, NameHas(f.search)) else vehicles;
    var byCategory := if f.category != "" then Filter(bySearch, CategoryIs(f.category)) else bySearch;
    if f.location != "" then Filter(byCategory, LocationHas(f.location)) else byCategory
  }

  /** A stable sort with comparator `(a, b) => key(a) - key(b)` orders as a
      stable ascending sort by `key`; price-high and newest sort ascending by
      the negated price and creation time. */
  function SortStage(s: seq<Vehicle>, key: SortKey): seq<Vehicle> {
    match key
    case Unsorted => s
    case PriceLow => SortBy(s, Price)
    case PriceHigh => SortBy(s, PriceDescending)
    case Newest => SortBy(s, NewestFirst)
  }

  /** The filter effect: a copy of `vehicles`, filtered, then sorted. */
  function Derive(vehicles: seq<Vehicle>, f: Filters): (r: seq<Vehicle>)
    ensures multiset(r) == multiset(Filter(vehicles, Keep(f)))
    ensures multiset(r) <= multiset(vehicles) && |r| <= |vehicles|
    ensures SortKeyOf(f.sortBy) == Unsorted ==> r == Filter(vehicles, Keep(f))
    ensures forall i :: 0 <= i < |r| ==> Matches(f, r[i])
  {
    StagedIsFilter(vehicles, f);
    var r := SortStage(Staged(vehicles, f), SortKeyOf(f.sortBy));
    PermutationKeeps(r, Filter(vehicles, Keep(f)), Keep(f));
    r
  }

  /** price-low gives non-decreasing prices, price-high non-increasing prices,
      newest non-increasing creation times. */
  lemma DeriveSorted(vehicles: seq<Vehicle>, f: Filters)
    ensures var r := Derive(vehicles, f);
            SortKeyOf(f.sortBy) == PriceLow ==>
              forall i, j :: 0 <= i < j < |r| ==> r[i].pricePerDay <= r[j].pricePerDay
    ensures var r := Derive(vehicles, f);
            SortKeyOf(f.sortBy) == PriceHigh ==>
              forall i, j :: 0 <= i < j < |r| ==> r[i].pricePerDay >= r[j].pricePerDay
    ensures var r := Derive(vehicles, f);
            SortKeyOf(f.sortBy) == Newest ==>
              forall i, j :: 0 <= i < j < |r| ==> r[i].createdAt >= r[j].createdAt
  {
    var r := Derive(vehicles, f);
    var s := Staged(vehicles, f);
    match SortKeyOf(f.sortBy)
    case Unsorted =>
    case PriceLow =>
      assert r == SortBy(s, Price);
      assert SortedBy(r, Price);
    case PriceHigh =>
      assert r == SortBy(s, PriceDescending);
      assert SortedBy(r, PriceDescending);
    case Newest =>
      assert r == SortBy(s, NewestFirst);
      assert SortedBy(r, NewestFirst);
  }

  lemma {:induction false} FilterSame(s: seq<Vehicle>, p: Vehicle -> bool, q: Vehicle -> bool)
    requires forall i :: 0 <= i < |s| ==> p(s[i]) == q(s[i])
    ensures Filter(s, p) == Filter(s, q)
    decreases |s|
  {
    if |s| > 0 {
      FilterSame(s[1..], p, q);
    }
  }

  /** Filter stages run one after another keep exactly what `Matches` keeps. */
  lemma StagedIsFilter(vehicles: seq<Vehicle>, f: Filters)
    ensures Staged(vehicles, f) == Filter(vehicles, Keep(f))
  {
    var a := When(f.search != "", NameHas(f.search));
    var b := When(f.category != "", CategoryIs(f.category));
    var c := When(f.location != "", LocationHas(f.location));
    StageAsFilter(vehicles, f.search != "", NameHas(f.search));
    var s1 := Filter(vehicles, a);
    StageAsFilter(s1, f.category != "", CategoryIs(f.category));
    var s2 := Filter(s1, b);
    StageAsFilter(s2, f.location != "", LocationHas(f.location));
    assert Staged(vehicles, f) == Filter(s2, c);
    FilterFilter(vehicles, a, b);
    FilterFilter(vehicles, Both(a, b), c);
    forall i | 0 <= i < |vehicles|
      ensures Both(Both(a, b), c)(vehicles[i]) == Keep(f)(vehicles[i])
    {
      var v := vehicles[i];
      assert a(v) == (f.search == "" || NameHas(f.search)(v));
      assert b(v) == (f.category == "" || CategoryIs(f.category)(v));
      assert c(v) == (f.location == "" || LocationHas(f.location)(v));
    }
    FilterSame(vehicles, Both(Both(a, b), c), Keep(f));
  }

  /** The reset state shows the full list in its original order. */
  lemma DeriveEmptyFilters(vehicles: seq<Vehicle>)
    ensures Derive(vehicles, EmptyFilters()) == vehicles
  {
    FilterAll(vehicles, Keep(EmptyFilters()));
  }

  /** Without a recognised sort key the visible list is an order-preserving
      subsequence of the full list. */
  lemma DeriveUnsortedSubsequence(vehicles: seq<Vehicle>, f: Filters)
    requires SortKeyOf(f.sortBy) == Unsorted
    ensures IsSubsequence(Derive(vehicles, f), vehicles)
  {
    FilterIsSubsequence(vehicles, Keep(f));
  }

  /** A vehicle is visible iff it is listed and matches every set filter. */
  lemma DeriveMembers(vehicles: seq<Vehicle>, f: Filters)
    ensures forall i :: 0 <= i < |Derive(vehicles, f)| ==>
              Derive(vehicles, f)[i] in vehicles && Matches(f, Derive(vehicles, f)[i])
    ensures forall i :: 0 <= i < |vehicles| && Matches(f, vehicles[i]) ==> vehicles[i] in Derive(vehicles, f)
  {
    var r := Derive(vehicles, f);
    var m := Filter(vehicles, Keep(f));
    forall i | 0 <= i < |r|
      ensures r[i] in vehicles
    {
      assert r[i] in multiset(r);
    }
    forall i | 0 <= i < |vehicles| && Matches(f, vehicles[i])
      ensures vehicles[i] in r
    {
      assert Keep(f)(vehicles[i]);
      assert vehicles[i] in m;
      assert vehicles[i] in multiset(m);
    }
  }

  /** A non-empty search alone keeps exactly the vehicles whose lower-cased
      name contains the lower-cased search text, in list order. */
  lemma SearchOnly(vehicles: seq<Vehicle>, text: string)
    requires text != ""
    ensures Derive(vehicles, EmptyFilters().(search := text)) == Filter(vehicles, NameHas(text))
  {
    FilterSame(vehicles, Keep(EmptyFilters().(search := text)), NameHas(text));
  }

  lemma {:induction false} FilterWeaker(s: seq<Vehicle>, p: Vehicle -> bool, q: Vehicle -> bool)
    requires forall i :: 0 <= i < |s| && p(s[i]) ==> q(s[i])
    ensures multiset(Filter(s, p)) <= multiset(Filter(s, q))
    decreases |s|
  {
    if |s| > 0 {
      FilterWeaker(s[1..], p, q);
    }
  }

  /** The filters are conjunctive: clearing one filter field can only widen
      the visible multiset, so a result under several filters lies within
      the result under each of them alone. */
  lemma ClearingWidens(vehicles: seq<Vehicle>, f: Filters, k: FilterKey)
    requires k != SortByKey
    ensures multiset(Derive(vehicles, f)) <= multiset(Derive(vehicles, SetFilter(f, k, "")))
  {
    FilterWeaker(vehicles, Keep(f), Keep(SetFilter(f, k, "")));
  }

  lemma Conjunctive(vehicles: seq<Vehicle>, category: string, location: string)
    ensures var both := EmptyFilters().(category := category, location := location);
            multiset(Derive(vehicles, both))
            <= multiset(Derive(vehicles, EmptyFilters().(category := category)))
             * multiset(Derive(vehicles, EmptyFilters().(location := location)))
  {
    var both := EmptyFilters().(category := category, location := location);
    ClearingWidens(vehicles, both, LocationKey);
    ClearingWidens(vehicles, both, CategoryKey);
    assert SetFilter(both, LocationKey, "") == EmptyFilters().(category := category);
    assert SetFilter(both, CategoryKey, "") == EmptyFilters().(location := location);
  }

  /** Sorting is stable: vehicles sharing a sort key appear in the order the
      filter stages left them. */
  lemma DeriveStable(vehicles: seq<Vehicle>, f: Filters, c: int)
    ensures SortKeyOf(f.sortBy) == PriceLow ==>
              Filter(Derive(vehicles, f), HasKey(Price, c)) == Filter(Filter(vehicles, Keep(f)), HasKey(Price, c))
    ensures SortKeyOf(f.sortBy) == PriceHigh ==>
              Filter(Derive(vehicles, f), HasKey(PriceDescending, c))
              == Filter(Filter(vehicles, Keep(f)), HasKey(PriceDescending, c))
    ensures SortKeyOf(f.sortBy) == Newest ==>
              Filter(Derive(vehicles, f), HasKey(NewestFirst, c))
              == Filter(Filter(vehicles, Keep(f)), HasKey(NewestFirst, c))
  {
    StagedIsFilter(vehicles, f);
    var m := Filter(vehicles, Keep(f));
    SortStable(m, Price, c);
    SortStable(m, PriceDescending, c);
    SortStable(m, NewestFirst, c);
  }

  /** The scenario of a Civic at 40.00 and a CR-V at 60.00 sorted price-low. */
  lemma PriceLowScenario(civic: Vehicle, crv: Vehicle)
    requires civic.vehicleName == "Civic" && civic.pricePerDay == 4000 && civic.category == "Sedan"
    requires crv.vehicleName == "CR-V" && crv.pricePerDay == 6000 && crv.category == "SUV"
    ensures Derive([civic, crv], EmptyFilters().(sortBy := "price-low")) == [civic, crv]
  {
    var f := EmptyFilters().(sortBy := "price-low");
    var vs := [civic, crv];
    assert Staged(vs, f) == vs;
    assert [civic, crv][1..] == [crv];
    assert SortBy([crv], Price) == [crv];
    assert SortBy(vs, Price) == Insert(civic, [crv], Price) == [civic, crv];
  }

  /** No two different vehicles that pass the filters share a price. */
  predicate DistinctPrices(vehicles: seq<Vehicle>, f: Filters) {
    forall i, j ::
      (0 <= i < |vehicles| && 0 <= j < |vehicles| && Matches(f, vehicles[i]) && Matches(f, vehicles[j])
       && vehicles[i] != vehicles[j]) ==> vehicles[i].pricePerDay != vehicles[j].pricePerDay
  }

  /** When no two different matching vehicles share a price, price-high
      shows exactly the price-low list backwards. */
  lemma DeriveReversed(vehicles: seq<Vehicle>, f: Filters)
    requires DistinctPrices(vehicles, f)
    ensures Derive(vehicles, f.(sortBy := "price-high")) == Reverse(Derive(vehicles, f.(sortBy := "price-low")))
  {
    var s := Staged(vehicles, f);
    assert Staged(vehicles, f.(sortBy := "price-high")) == s;
    assert Staged(vehicles, f.(sortBy := "price-low")) == s;
    var low := SortBy(s, Price);
    var high := SortBy(s, PriceDescending);
    assert Derive(vehicles, f.(sortBy := "price-low")) == low;
    assert Derive(vehicles, f.(sortBy := "price-high")) == high;
    ReverseMultiset(high);
    ReversedAscending(high);
    StagedIsFilter(vehicles, f);
    DistinctPricesIn(vehicles, f, low);
    SortedUnique(low, Reverse(high), Price);
    ReverseReverse(high);
  }

  lemma ReversedAscending(high: seq<Vehicle>)
    requires SortedBy(high, PriceDescending)
    ensures SortedBy(Reverse(high), Price)
  {
    var back := Reverse(high);
    forall i, j | 0 <= i < j < |back|
      ensures Price(back[i]) <= Price(back[j])
    {
      assert PriceDescending(high[|high| - 1 - j]) <= PriceDescending(high[|high| - 1 - i]);
    }
  }

  /** A rearrangement of the matching vehicles inherits their distinct prices. */
  lemma DistinctPricesIn(vehicles: seq<Vehicle>, f: Filters, low: seq<Vehicle>)
    requires DistinctPrices(vehicles, f)
    requires multiset(low) == multiset(Filter(vehicles, Keep(f)))
    ensures forall i, j :: 0 <= i < |low| && 0 <= j < |low| && Price(low[i]) == Price(low[j]) ==> low[i] == low[j]
  {
    forall i, j | 0 <= i < |low| && 0 <= j < |low| && Price(low[i]) == Price(low[j])
      ensures low[i] == low[j]
    {
      var ix := Origin(vehicles, f, low, i);
      var iy := Origin(vehicles, f, low, j);
    }
  }

  /** Where in the full list an element of a rearranged filter result comes from. */
  lemma Origin(vehicles: seq<Vehicle>, f: Filters, low: seq<Vehicle>, i: nat) returns (k: nat)
    requires multiset(low) == multiset(Filter(vehicles, Keep(f)))
    requires i < |low|
    ensures k < |vehicles| && vehicles[k] == low[i] && Matches(f, low[i])
  {
    var m := Filter(vehicles, Keep(f));
    assert low[i] in multiset(m);
    var km :| 0 <= km < |m| && m[km] == low[i];
    assert Keep(f)(m[km]);
    assert low[i] in multiset(vehicles);
    k :| 0 <= k < |vehicles| && vehicles[k] == low[i];
  }

  /** The page state: the full list, the visible list, the spinner flag and the filters. */
  datatype Page = Page(vehicles: seq<Vehicle>, visible: seq<Vehicle>, loading: bool, filters: Filters)

  function InitialPage(): Page {
    Page([], [], true, EmptyFilters())
  }

  /** The initial fetch resolved: both lists become the fetched data. */
  function OnLoaded(p: Page, data: seq<Vehicle>): (r: Page)
    ensures r.vehicles == data && r.visible == data && !r.loading && r.filters == p.filters
  {
    p.(vehicles := data, visible := data, loading := false)
  }

  /** The initial fetch rejected: only the spinner goes away. */
  function OnLoadFailed(p: Page): (r: Page)
    ensures !r.loading && r.vehicles == p.vehicles && r.visible == p.visible && r.filters == p.filters
  {
    p.(loading := false)
  }

  /** A filter control changed: one field of the filters takes the new value;
      the lists wait for the effect. */
  function ChangeFilter(p: Page, k: FilterKey, value: string): (r: Page)
    ensures Field(r.filters, k) == value
    ensures forall other :: other != k ==> Field(r.filters, other) == Field(p.filters, other)
    ensures r.vehicles == p.vehicles && r.visible == p.visible && r.loading == p.loading
  {
    p.(filters := SetFilter(p.filters, k, value))
  }

  /** The reset button: every filter field becomes empty; the lists wait for the effect. */
  function ResetFilters(p: Page): (r: Page)
    ensures forall k :: Field(r.filters, k) == ""
    ensures r.vehicles == p.vehicles && r.visible == p.visible && r.loading == p.loading
  {
    p.(filters := EmptyFilters())
  }

  /** The effect that re-runs on every change of `filters` or `vehicles`. */
  function Refresh(p: Page): (r: Page)
    ensures r.vehicles == p.vehicles && r.filters == p.filters && r.loading == p.loading
    ensures r.visible == Derive(p.vehicles, p.filters)
    ensures multiset(r.visible) <= multiset(p.vehicles)
  {
    p.(visible := Derive(p.vehicles, p.filters))
  }

  /** After the first load the effect shows the fetched list unchanged. */
  lemma LoadThenRefresh(data: seq<Vehicle>)
    ensures Refresh(OnLoaded(InitialPage(), data)) == OnLoaded(InitialPage(), data)
  {
    DeriveEmptyFilters(data);
  }

  /** Reset, from any state, shows the full list in order; a second reset changes nothing. */
  lemma ResetShowsAll(p: Page)
    ensures Refresh(ResetFilters(p)).visible == p.vehicles
    ensures ResetFilters(ResetFilters(p)) == ResetFilters(p)
  {
    DeriveEmptyFilters(p.vehicles);
  }

  /** Changing one filter and refreshing leaves the other filters and the full list as they were. */
  lemma ChangeFilterKeepsOthers(p: Page, k: FilterKey, value: string)
    ensures var r := Refresh(ChangeFilter(p, k, value));
            && r.vehicles == p.vehicles
            && Field(r.filters, k) == value
            && forall other :: other != k ==> Field(r.filters, other) == Field(p.filters, other)
  {
  }
}
