/**
 * The admin rentals screen: the rental records, the three filters over them (search text,
 * status, date) and the statistics cards. The records are generated randomly in the
 * application; here they are inputs, and `MakeRental` states how each record's duration
 * and price follow from its dates.
 */
module RentalManagement {
  import opened Wrappers
  import opened Seqs
  import opened Text
  import opened Days
  import opened ProductData

  datatype Rental = Rental(
    id: string, productId: string, productName: string, user: string,
    startDate: int, endDate: int, duration: int, status: string, totalPrice: int)

  /** A generated record: `duration` is whole days between the dates, rounded down; price is duration times the daily price. */
  function MakeRental(id: string, item: Product, user: string, startDate: int, endDate: int, status: string): (r: Rental)
    ensures DAY * r.duration <= endDate - startDate < DAY * (r.duration + 1)
    ensures r.totalPrice == r.duration * item.price
    ensures r.productId == item.id && r.productName == item.name
  {
    var duration := FloorDays(startDate, endDate);
    Rental(id, item.id, item.name, user, startDate, endDate, duration, status, duration * item.price)
  }

  /** A rental that ends `n` whole days after it starts lasts `n` days. */
  lemma WholeDaysDuration(id: string, item: Product, user: string, startDate: int, n: int, status: string)
    ensures MakeRental(id, item, user, startDate, startDate + n * DAY, status).duration == n
    ensures MakeRental(id, item, user, startDate, startDate + n * DAY, status).totalPrice == n * item.price
  {
    var r := MakeRental(id, item, user, startDate, startDate + n * DAY, status);
    assert DAY * r.duration <= n * DAY < DAY * (r.duration + 1);
    DurationUnique(r.duration, n);
  }

  /** Helper: `DAY * d <= DAY * n < DAY * (d + 1)` pins `d` to `n`. */
  lemma DurationUnique(d: int, n: int)
    requires DAY * d <= DAY * n < DAY * (d + 1)
    ensures d == n
  {
  }

  /** The search filter: product name, user or rental id contains the term, ignoring case. */
  predicate MatchesSearch(term: string, r: Rental) {
    ContainsIgnoringCase(r.productName, term) || ContainsIgnoringCase(r.user, term) || ContainsIgnoringCase(r.id, term)
  }

  /** The status filter: "all" passes every rental. */
  predicate MatchesStatus(statusFilter: string, r: Rental) {
    statusFilter == "all" || r.status == statusFilter
  }

  /** The date filter: no date passes every rental; otherwise the date lies within the rental, ends included. */
  predicate MatchesDate(selected: Option<int>, r: Rental) {
    selected.None? || (r.startDate <= selected.value && r.endDate >= selected.value)
  }

  function Passes(term: string, statusFilter: string, selected: Option<int>): Rental -> bool {
    (r: Rental) => MatchesSearch(term, r) && MatchesStatus(statusFilter, r) && MatchesDate(selected, r)
  }

  /** `filteredRentals`. */
  function FilteredRentals(rentals: seq<Rental>, term: string, statusFilter: string, selected: Option<int>): seq<Rental> {
    Filter(rentals, Passes(term, statusFilter, selected))
  }

  function IsActive(r: Rental): bool { r.status == "active" }

  function TotalPrice(r: Rental): int { r.totalPrice }

  /** Active and due back between now and three days from now, both ends included. */
  function DueSoon(now: int): Rental -> bool {
    (r: Rental) => r.status == "active" && now <= r.endDate <= now + 3 * DAY
  }

  /** `activeRentals`: over all rentals, whatever the filters. */
  function ActiveRentals(rentals: seq<Rental>): nat {
    |Filter(rentals, IsActive)|
  }

  /** `totalRevenue`. */
  function TotalRevenue(rentals: seq<Rental>): int {
    Sum(rentals, TotalPrice)
  }

  /** `upcomingReturns`. */
  function UpcomingReturns(rentals: seq<Rental>, now: int): nat {
    |Filter(rentals, DueSoon(now))|
  }

  /**
   * The table lists exactly the rentals passing all three filters, in their original order.
   */
  lemma FilteredSpec(rentals: seq<Rental>, term: string, statusFilter: string, selected: Option<int>)
    ensures var shown := FilteredRentals(rentals, term, statusFilter, selected);
            (forall k :: 0 <= k < |shown| ==>
               MatchesSearch(term, shown[k]) && MatchesStatus(statusFilter, shown[k]) && MatchesDate(selected, shown[k]))
            && (forall k :: 0 <= k < |rentals| &&
                  MatchesSearch(term, rentals[k]) && MatchesStatus(statusFilter, rentals[k]) && MatchesDate(selected, rentals[k])
                  ==> rentals[k] in shown)
            && SubsequenceOf(shown, rentals)
  {
    var p := Passes(term, statusFilter, selected);
    FilterIsSubsequence(rentals, p);
    var shown := Filter(rentals, p);
    forall k | 0 <= k < |shown|
      ensures MatchesSearch(term, shown[k]) && MatchesStatus(statusFilter, shown[k]) && MatchesDate(selected, shown[k])
    {
      assert p(shown[k]);
    }
    forall k | 0 <= k < |rentals| &&
               MatchesSearch(term, rentals[k]) && MatchesStatus(statusFilter, rentals[k]) && MatchesDate(selected, rentals[k])
      ensures rentals[k] in shown
    {
      assert p(rentals[k]);
    }
  }

  /** The empty term, "all" and no date show every rental. */
  lemma NoFiltersShowAll(rentals: seq<Rental>)
    ensures FilteredRentals(rentals, "", "all", None) == rentals
  {
    forall k | 0 <= k < |rentals| ensures Passes("", "all", None)(rentals[k]) {
      EmptyTermMatches(rentals[k].productName);
    }
    FilterAllKept(rentals, Passes("", "all", None));
  }

  /** Choosing a particular status shows a sub-list of what "all" shows. */
  lemma StatusNarrows(rentals: seq<Rental>, term: string, statusFilter: string, selected: Option<int>)
    ensures SubsequenceOf(FilteredRentals(rentals, term, statusFilter, selected), FilteredRentals(rentals, term, "all", selected))
  {
    FilterStricter(rentals, Passes(term, statusFilter, selected), Passes(term, "all", selected));
  }

  /** Upcoming returns are active rentals, so they never outnumber them. */
  lemma UpcomingAtMostActive(rentals: seq<Rental>, now: int)
    ensures UpcomingReturns(rentals, now) <= ActiveRentals(rentals)
  {
    FilterStricter(rentals, DueSoon(now), IsActive);
    SubsequenceLength(Filter(rentals, DueSoon(now)), Filter(rentals, IsActive));
  }

  /** A rental due back exactly three days from now counts; one due a millisecond later does not. */
  lemma UpcomingWindowInclusive(r: Rental, now: int)
    requires r.status == "active"
    ensures r.endDate == now + 3 * DAY ==> DueSoon(now)(r)
    ensures r.endDate == now + 3 * DAY + 1 ==> !DueSoon(now)(r)
    ensures r.endDate == now ==> DueSoon(now)(r)
  {
  }

  /** Revenue is the revenue of the active rentals plus that of all the others. */
  lemma RevenueSplitsByActivity(rentals: seq<Rental>)
    ensures TotalRevenue(rentals) ==
            Sum(Filter(rentals, IsActive), TotalPrice) + Sum(Filter(rentals, (r: Rental) => !IsActive(r)), TotalPrice)
  {
    SumSplit(rentals, IsActive, (r: Rental) => !IsActive(r), TotalPrice);
  }

  /** Records whose price is duration times a non-negative price and whose dates are forward give non-negative revenue. */
  lemma {:induction false} RevenueNonNegative(rentals: seq<Rental>)
    requires forall k :: 0 <= k < |rentals| ==> rentals[k].totalPrice >= 0
    ensures TotalRevenue(rentals) >= 0
  {
    if rentals != [] {
      assert forall k :: 0 <= k < |rentals[1..]| ==> rentals[1..][k] == rentals[k + 1];
      RevenueNonNegative(rentals[1..]);
    }
  }

  /** A record made from forward dates and a non-negative price has a non-negative price. */
  lemma MadeRentalPriceNonNegative(id: string, item: Product, user: string, startDate: int, endDate: int, status: string)
    requires startDate <= endDate && item.price >= 0
    ensures MakeRental(id, item, user, startDate, endDate, status).totalPrice >= 0
  {
    var r := MakeRental(id, item, user, startDate, endDate, status);
    assert r.duration >= 0;
    NonNegativeProduct(r.duration, item.price);
  }

  lemma NonNegativeProduct(a: int, b: int)
    requires a >= 0 && b >= 0
    ensures a * b >= 0
  {
  }
}
