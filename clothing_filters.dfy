/**
 * The filter panel's state: five lists of chosen values (categories, occasions, colours,
 * sizes, brands) and a price range, with the toggle, remove, clear and price handlers and
 * the active-filter count shown on the badge.
 */
module ClothingFilters {
  import opened Seqs

  datatype FilterList = Categories | Occasions | Colors | Sizes | Brands

  /** The keys `handleRemoveFilter` accepts: one of the five lists, or the price range. */
  datatype FilterKey = ListKey(list: FilterList) | PriceRangeKey

  /**
   * A stored price bound: a number, or `NaN`, which `parseInt` yields when a price box is
   * cleared or holds no digits.
   */
  datatype Bound = Num(n: int) | NaN

  /** `b > m` in JavaScript: false when `b` is `NaN`. */
  predicate Above(b: Bound, m: int) {
    b.Num? && b.n > m
  }

  /** `b < m` in JavaScript: false when `b` is `NaN`. */
  predicate Below(b: Bound, m: int) {
    b.Num? && b.n < m
  }

  datatype FiltersState = FiltersState(
    categories: seq<string>,
    occasions: seq<string>,
    colors: seq<string>,
    sizes: seq<string>,
    brands: seq<string>,
    priceLow: Bound,
    priceHigh: Bound)

  const PriceMin := 0
  const PriceMax := 500

  const InitialFilters := FiltersState([], [], [], [], [], Num(PriceMin), Num(PriceMax))

  function Get(f: FiltersState, l: FilterList): seq<string> {
    match l
    case Categories => f.categories
    case Occasions => f.occasions
    case Colors => f.colors
    case Sizes => f.sizes
    case Brands => f.brands
  }

  /** `{ ...prev, [l]: v }`: one list replaced, everything else as it was. */
  function Put(f: FiltersState, l: FilterList, v: seq<string>): (r: FiltersState)
    ensures Get(r, l) == v
    ensures forall other :: other != l ==> Get(r, other) == Get(f, other)
    ensures r.priceLow == f.priceLow && r.priceHigh == f.priceHigh
  {
    match l
    case Categories => f.(categories := v)
    case Occasions => f.(occasions := v)
    case Colors => f.(colors := v)
    case Sizes => f.(sizes := v)
    case Brands => f.(brands := v)
  }

  /** The test `filter((x) => x !== value)` keeps an element by. */
  function Differs(value: string): string -> bool {
    (x: string) => x != value
  }

  /** One toggle on one list: remove every occurrence when present, append when absent. */
  function ToggleValue(list: seq<string>, value: string): seq<string> {
    if value in list then Filter(list, Differs(value)) else list + [value]
  }

  /** `handleToggleCategory` and its four siblings. */
  function Toggle(f: FiltersState, l: FilterList, value: string): FiltersState {
    Put(f, l, ToggleValue(Get(f, l), value))
  }

  /** `handleRemoveFilter(key, value)`: removing from the price range leaves it as it was. */
  function RemoveFilter(f: FiltersState, key: FilterKey, value: string): FiltersState {
    match key
    case ListKey(l) => Put(f, l, Filter(Get(f, l), Differs(value)))
    case PriceRangeKey => f
  }

  /**
   * `handlePriceChange([low, high])`: stored as given, neither ordered nor clamped. The slider
   * passes numbers; the two boxes pass `parseInt` of their text, which may be `NaN`.
   */
  function PriceChange(f: FiltersState, low: Bound, high: Bound): FiltersState {
    f.(priceLow := low, priceHigh := high)
  }

  /** `handleResetPriceRange()`. */
  function ResetPriceRange(f: FiltersState): FiltersState {
    f.(priceLow := Num(PriceMin), priceHigh := Num(PriceMax))
  }

  /** Whether the price range counts as one active filter; a `NaN` side never does. */
  function PriceActive(f: FiltersState): int {
    if Above(f.priceLow, PriceMin) || Below(f.priceHigh, PriceMax) then 1 else 0
  }

  /** `activeFilterCount`: every chosen value, plus one for a narrowed price range. */
  function ActiveFilterCount(f: FiltersState): (r: int)
    ensures r >= 0
    ensures r == 0 <==> f.categories == [] && f.occasions == [] && f.colors == [] && f.sizes == []
                        && f.brands == [] && !Above(f.priceLow, PriceMin) && !Below(f.priceHigh, PriceMax)
  {
    |f.categories| + |f.occasions| + |f.colors| + |f.sizes| + |f.brands| + PriceActive(f)
  }

  /** The count as a sum over the lists. */
  function ListsLength(f: FiltersState): int {
    |f.categories| + |f.occasions| + |f.colors| + |f.sizes| + |f.brands|
  }

  /**
   * Toggling an absent value appends it, and toggling a present value removes every
   * occurrence and keeps the rest in order; the other lists and the price range are untouched.
   */
  lemma ToggleSpec(f: FiltersState, l: FilterList, value: string)
    ensures value !in Get(f, l) ==> Get(Toggle(f, l, value), l) == Get(f, l) + [value]
    ensures value in Get(f, l) ==>
              value !in Get(Toggle(f, l, value), l)
              && SubsequenceOf(Get(Toggle(f, l, value), l), Get(f, l))
              && forall k :: 0 <= k < |Get(f, l)| && Get(f, l)[k] != value ==> Get(f, l)[k] in Get(Toggle(f, l, value), l)
    ensures forall other :: other != l ==> Get(Toggle(f, l, value), other) == Get(f, other)
    ensures Toggle(f, l, value).priceLow == f.priceLow && Toggle(f, l, value).priceHigh == f.priceHigh
  {
    FilterIsSubsequence(Get(f, l), Differs(value));
  }

  /** Toggling an absent value twice restores the list. */
  lemma ToggleTwiceRestores(list: seq<string>, value: string)
    requires value !in list
    ensures ToggleValue(ToggleValue(list, value), value) == list
  {
    assert value in list + [value];
    FilterAppend(list, [value], Differs(value));
    FilterAllKept(list, Differs(value));
  }

  /** A list without duplicates keeps none after a toggle. */
  lemma ToggleKeepsNoDuplicates(list: seq<string>, value: string)
    requires NoDuplicates(list)
    ensures NoDuplicates(ToggleValue(list, value))
  {
    if value in list {
      FilterNoDuplicates(list, Differs(value));
    } else {
      AppendFreshNoDuplicates(list, value);
    }
  }

  /** Removing a value that occurs once from a list shortens it by exactly one. */
  lemma {:induction false} RemoveSingleOccurrence(list: seq<string>, value: string)
    requires NoDuplicates(list) && value in list
    ensures |Filter(list, Differs(value))| == |list| - 1
  {
    assert NoDuplicates(list[1..]) by {
      forall i, j | 0 <= i < j < |list[1..]| ensures list[1..][i] != list[1..][j] {
        assert list[1..][i] == list[i + 1] && list[1..][j] == list[j + 1];
      }
    }
    if list[0] == value {
      assert value !in list[1..] by {
        forall k | 0 <= k < |list[1..]| ensures list[1..][k] != value {
          assert list[1..][k] == list[k + 1];
        }
      }
      assert forall k :: 0 <= k < |list[1..]| ==> Differs(value)(list[1..][k]);
      FilterAllKept(list[1..], Differs(value));
    } else {
      assert value in list[1..] by {
        var k :| 0 <= k < |list| && list[k] == value;
        assert list[1..][k - 1] == value;
      }
      RemoveSingleOccurrence(list[1..], value);
    }
  }

  /** On a duplicate-free list, a toggle moves the badge count by exactly one. */
  lemma ToggleCount(f: FiltersState, l: FilterList, value: string)
    requires NoDuplicates(Get(f, l))
    ensures value !in Get(f, l) ==> ActiveFilterCount(Toggle(f, l, value)) == ActiveFilterCount(f) + 1
    ensures value in Get(f, l) ==> ActiveFilterCount(Toggle(f, l, value)) == ActiveFilterCount(f) - 1
  {
    if value in Get(f, l) {
      RemoveSingleOccurrence(Get(f, l), value);
    }
  }

  /** `handleRemoveFilter` on a list removes the value only there; on the price range it does nothing. */
  lemma RemoveFilterSpec(f: FiltersState, key: FilterKey, value: string)
    ensures key.ListKey? ==>
              value !in Get(RemoveFilter(f, key, value), key.list)
              && forall other :: other != key.list ==> Get(RemoveFilter(f, key, value), other) == Get(f, other)
    ensures RemoveFilter(f, key, value).priceLow == f.priceLow && RemoveFilter(f, key, value).priceHigh == f.priceHigh
    ensures key == PriceRangeKey ==> RemoveFilter(f, key, value) == f
  {
  }

  /** Clearing leaves no active filter. */
  lemma ClearedCountIsZero()
    ensures ActiveFilterCount(InitialFilters) == 0
  {
  }

  /** Resetting the price range changes nothing else and drops its contribution to the count. */
  lemma ResetPriceRangeSpec(f: FiltersState)
    ensures forall l :: Get(ResetPriceRange(f), l) == Get(f, l)
    ensures ActiveFilterCount(ResetPriceRange(f)) == ListsLength(f)
    ensures ActiveFilterCount(f) == ListsLength(f) + PriceActive(f)
  {
  }

  /** Any pair is stored, even a reversed one; a reversed pair inside the bounds still counts as active. */
  lemma PriceChangeStoresAsGiven(f: FiltersState, low: Bound, high: Bound)
    ensures PriceChange(f, low, high).priceLow == low && PriceChange(f, low, high).priceHigh == high
    ensures forall l :: Get(PriceChange(f, low, high), l) == Get(f, l)
    ensures low.Num? && high.Num? && low.n > high.n && low.n > PriceMin ==> PriceActive(PriceChange(f, low, high)) == 1
  {
  }

  /**
   * A cleared price box stores `NaN`, and that side no longer narrows the count: clearing the
   * upper box of a range whose lower bound is at the minimum leaves no active price filter.
   */
  lemma ClearedBoxNotCounted(f: FiltersState, low: int)
    requires low <= PriceMin
    ensures PriceActive(PriceChange(f, Num(low), NaN)) == 0
    ensures ActiveFilterCount(PriceChange(f, Num(low), NaN)) == ListsLength(f)
    ensures PriceChange(f, Num(low), NaN).priceHigh != Num(PriceMax)
  {
  }

  /** The panel: the chosen filters, the sort choice and the mobile sheet flag. */
  class FilterPanel {
    var activeFilters: FiltersState
    var sortOption: string
    var mobileFiltersOpen: bool

    constructor ()
      ensures activeFilters == InitialFilters && sortOption == "recommended" && !mobileFiltersOpen
    {
      activeFilters := InitialFilters;
      sortOption := "recommended";
      mobileFiltersOpen := false;
    }

    /** One of the five toggle handlers, chosen by `l`. */
    method HandleToggle(l: FilterList, value: string)
      modifies this
      ensures activeFilters == Toggle(old(activeFilters), l, value)
      ensures NoDuplicates(Get(old(activeFilters), l)) ==> NoDuplicates(Get(activeFilters, l))
      ensures sortOption == old(sortOption) && mobileFiltersOpen == old(mobileFiltersOpen)
    {
      if NoDuplicates(Get(activeFilters, l)) {
        ToggleKeepsNoDuplicates(Get(activeFilters, l), value);
      }
      var list := Get(activeFilters, l);
      if value in list {
        activeFilters := Put(activeFilters, l, Filter(list, Differs(value)));
      } else {
        activeFilters := Put(activeFilters, l, list + [value]);
      }
    }

    method HandleRemoveFilter(key: FilterKey, value: string)
      modifies this
      ensures activeFilters == RemoveFilter(old(activeFilters), key, value)
      ensures sortOption == old(sortOption) && mobileFiltersOpen == old(mobileFiltersOpen)
    {
      activeFilters := RemoveFilter(activeFilters, key, value);
    }

    method HandlePriceChange(low: Bound, high: Bound)
      modifies this
      ensures activeFilters == PriceChange(old(activeFilters), low, high)
      ensures sortOption == old(sortOption) && mobileFiltersOpen == old(mobileFiltersOpen)
    {
      activeFilters := PriceChange(activeFilters, low, high);
    }

    method HandleClearFilters()
      modifies this
      ensures activeFilters == InitialFilters && ActiveFilterCount(activeFilters) == 0
      ensures sortOption == old(sortOption) && mobileFiltersOpen == old(mobileFiltersOpen)
    {
      activeFilters := InitialFilters;
    }

    method HandleResetPriceRange()
      modifies this
      ensures activeFilters == ResetPriceRange(old(activeFilters))
      ensures sortOption == old(sortOption) && mobileFiltersOpen == old(mobileFiltersOpen)
    {
      activeFilters := ResetPriceRange(activeFilters);
    }

    /** The sheet's `onOpenChange`: opening or dismissing the mobile sheet. */
    method SetMobileFiltersOpen(open: bool)
      modifies this
      ensures mobileFiltersOpen == open
      ensures activeFilters == old(activeFilters) && sortOption == old(sortOption)
    {
      mobileFiltersOpen := open;
    }

    /** `handleApplyFilters()`: reports the current filters and closes the mobile sheet. */
    method HandleApplyFilters() returns (reported: FiltersState)
      modifies this
      ensures reported == activeFilters == old(activeFilters) && !mobileFiltersOpen
      ensures sortOption == old(sortOption)
    {
      mobileFiltersOpen := false;
      return activeFilters;
    }

    method SetSortOption(value: string)
      modifies this
      ensures sortOption == value && activeFilters == old(activeFilters)
      ensures mobileFiltersOpen == old(mobileFiltersOpen)
    {
      sortOption := value;
    }
  }
}
