/**
 * The admin inventory screen: catalogue products with a stock and an available count, the
 * search box, the sortable table, the three summary cards and the stock editor.
 * The initial stock figures are random in the application; here they are an input.
 */
module InventoryManagement {
  import opened Wrappers
  import opened Seqs
  import opened ProductData
  import SearchResults

  datatype InventoryItem = InventoryItem(product: Product, stock: int, available: int)

  datatype Direction = Asc | Desc

  /** `sortBy` names a field of the row; `sortDirection` is ascending or descending. */
  datatype SortState = SortState(sortBy: string, direction: Direction)

  const InitialSort := SortState("name", Asc)

  /** `toggleSort(field)`: flip the direction on the current field, else switch field, ascending. */
  function ToggleSort(s: SortState, field: string): (r: SortState)
    ensures s.sortBy == field ==> r.sortBy == field && r.direction != s.direction
    ensures s.sortBy != field ==> r == SortState(field, Asc)
  {
    if s.sortBy == field then s.(direction := if s.direction == Asc then Desc else Asc)
    else SortState(field, Asc)
  }

  /** Toggling the same field twice restores the sort state. */
  lemma ToggleTwiceRestores(s: SortState)
    ensures ToggleSort(ToggleSort(s, s.sortBy), s.sortBy) == s
  {
  }

  /** The numeric fields of a row; other field names have no numeric value. */
  function NumericValue(item: InventoryItem, field: string): Option<int> {
    if field == "price" then Some(item.product.price)
    else if field == "retailPrice" then Some(item.product.retailPrice)
    else if field == "stock" then Some(item.stock)
    else if field == "available" then Some(item.available)
    else None
  }

  predicate NumericField(field: string) {
    field == "price" || field == "retailPrice" || field == "stock" || field == "available"
  }

  /** The key the comparator orders by: the value, negated for a descending sort. */
  function SortKey(item: InventoryItem, field: string, d: Direction): int {
    var v := NumericValue(item, field).GetOr(0);
    if d == Asc then v else -v
  }

  /** Ordered by the comparator `a[f] - b[f]` (ascending) or `b[f] - a[f]` (descending). */
  predicate SortedBy(s: seq<InventoryItem>, field: string, d: Direction) {
    forall i, j :: 0 <= i < j < |s| ==> SortKey(s[i], field, d) <= SortKey(s[j], field, d)
  }

  /** Put `x` before the first row whose key is not smaller. */
  function Insert(x: InventoryItem, s: seq<InventoryItem>, field: string, d: Direction): (r: seq<InventoryItem>)
    ensures multiset(r) == multiset(s) + multiset{x}
    ensures |r| == |s| + 1
  {
    if s == [] then [x]
    else if SortKey(x, field, d) <= SortKey(s[0], field, d) then [x] + s
    else
      assert s == [s[0]] + s[1..];
      [s[0]] + Insert(x, s[1..], field, d)
  }

  /** The table order for a numeric field. */
  function SortRows(s: seq<InventoryItem>, field: string, d: Direction): (r: seq<InventoryItem>)
    ensures multiset(r) == multiset(s)
    ensures |r| == |s|
  {
    if s == [] then []
    else
      assert s == [s[0]] + s[1..];
      Insert(s[0], SortRows(s[1..], field, d), field, d)
  }

  /** Inserting a row no smaller than `b` into rows no smaller than `b` keeps them so. */
  lemma {:induction false} InsertKeepsLowerBound(x: InventoryItem, s: seq<InventoryItem>, field: string, d: Direction, b: int)
    requires b <= SortKey(x, field, d)
    requires forall k :: 0 <= k < |s| ==> b <= SortKey(s[k], field, d)
    ensures forall k :: 0 <= k < |Insert(x, s, field, d)| ==> b <= SortKey(Insert(x, s, field, d)[k], field, d)
  {
    if s != [] && SortKey(x, field, d) > SortKey(s[0], field, d) {
      InsertKeepsLowerBound(x, s[1..], field, d, b);
    }
  }

  lemma {:induction false} InsertSorted(x: InventoryItem, s: seq<InventoryItem>, field: string, d: Direction)
    requires SortedBy(s, field, d)
    ensures SortedBy(Insert(x, s, field, d), field, d)
  {
    if s != [] && SortKey(x, field, d) > SortKey(s[0], field, d) {
      var rest := s[1..];
      var b := SortKey(s[0], field, d);
      assert SortedBy(rest, field, d);
      InsertSorted(x, rest, field, d);
      InsertKeepsLowerBound(x, rest, field, d, b);
      var tail := Insert(x, rest, field, d);
      var r := [s[0]] + tail;
      forall i, j | 0 <= i < j < |r| ensures SortKey(r[i], field, d) <= SortKey(r[j], field, d) {
        assert r[j] == tail[j - 1];
        if i > 0 {
          assert r[i] == tail[i - 1];
        }
      }
    }
  }

  /** The sorted table rows are ordered by the comparator. */
  lemma {:induction false} SortRowsSorted(s: seq<InventoryItem>, field: string, d: Direction)
    ensures SortedBy(SortRows(s, field, d), field, d)
  {
    if s != [] {
      SortRowsSorted(s[1..], field, d);
      InsertSorted(s[0], SortRows(s[1..], field, d), field, d);
    }
  }

  /** The search test of the table: name, brand or category contains the term, ignoring case. */
  function RowMatches(term: string): InventoryItem -> bool {
    (item: InventoryItem) => SearchResults.ItemMatches(term, item.product)
  }

  /**
   * `filteredInventory`: the matching rows, sorted for a numeric field. For any other field
   * the rows keep their order (see the notes on text fields).
   */
  function TableRows(inv: seq<InventoryItem>, term: string, s: SortState): seq<InventoryItem> {
    var matching := Filter(inv, RowMatches(term));
    if NumericField(s.sortBy) then SortRows(matching, s.sortBy, s.direction) else matching
  }

  /** Every table row passes the search test, and the rows are those that pass, as a multiset. */
  lemma TableRowsMatch(inv: seq<InventoryItem>, term: string, s: SortState)
    ensures multiset(TableRows(inv, term, s)) == multiset(Filter(inv, RowMatches(term)))
    ensures forall row :: row in TableRows(inv, term, s) ==> SearchResults.ItemMatches(term, row.product)
  {
    var matching := Filter(inv, RowMatches(term));
    var rows := TableRows(inv, term, s);
    forall row | row in rows ensures SearchResults.ItemMatches(term, row.product) {
      assert row in multiset(matching);
      var m :| 0 <= m < |matching| && matching[m] == row;
      assert RowMatches(term)(matching[m]);
    }
  }

  /** For a numeric field the rows are ascending, or descending, in that field. */
  lemma TableRowsOrdered(inv: seq<InventoryItem>, term: string, s: SortState)
    requires NumericField(s.sortBy)
    ensures var rows := TableRows(inv, term, s);
            forall i, j :: 0 <= i < j < |rows| ==>
              if s.direction == Asc
              then NumericValue(rows[i], s.sortBy).value <= NumericValue(rows[j], s.sortBy).value
              else NumericValue(rows[i], s.sortBy).value >= NumericValue(rows[j], s.sortBy).value
  {
    SortRowsSorted(Filter(inv, RowMatches(term)), s.sortBy, s.direction);
  }

  function Stock(item: InventoryItem): int { item.stock }

  function Available(item: InventoryItem): int { item.available }

  function Rented(item: InventoryItem): int { item.stock - item.available }

  function IsLowStock(item: InventoryItem): bool { item.stock <= 3 }

  /** `lowStockItems`: rows with at most three in stock. */
  function LowStockCount(inv: seq<InventoryItem>): (n: nat)
    ensures n <= |inv|
  {
    |Filter(inv, IsLowStock)|
  }

  /** `totalItems`: the sum of the stock figures. */
  function TotalItems(inv: seq<InventoryItem>): int {
    Sum(inv, Stock)
  }

  /** `rentedItems`: the sum of stock minus available. */
  function RentedItems(inv: seq<InventoryItem>): int {
    Sum(inv, Rented)
  }

  /** The rented figure is total stock minus total available. */
  lemma {:induction false} RentedIsTotalMinusAvailable(inv: seq<InventoryItem>)
    ensures RentedItems(inv) == TotalItems(inv) - Sum(inv, Available)
  {
    if inv != [] {
      RentedIsTotalMinusAvailable(inv[1..]);
    }
  }

  /** Nothing keeps it non-negative: a row with more available than in stock makes it negative. */
  lemma RentedCanBeNegative(p: Product)
    ensures RentedItems([InventoryItem(p, 1, 4)]) == -3
  {
    var inv := [InventoryItem(p, 1, 4)];
    assert inv[1..] == [];
    assert Sum(inv, Rented) == Rented(inv[0]) + Sum(inv[1..], Rented);
  }

  /** It is non-negative when no row has more available than in stock. */
  lemma {:induction false} RentedNonNegative(inv: seq<InventoryItem>)
    requires forall k :: 0 <= k < |inv| ==> inv[k].available <= inv[k].stock
    ensures RentedItems(inv) >= 0
  {
    if inv != [] {
      assert forall k :: 0 <= k < |inv[1..]| ==> inv[1..][k] == inv[k + 1];
      RentedNonNegative(inv[1..]);
    }
  }

  /** `updateStock(id, n)`: rows with that id get stock n; nothing else changes. */
  function UpdateStock(inv: seq<InventoryItem>, id: string, n: int): (r: seq<InventoryItem>)
    ensures |r| == |inv|
    ensures forall k :: 0 <= k < |inv| ==>
      r[k] == if inv[k].product.id == id then inv[k].(stock := n) else inv[k]
  {
    if inv == [] then []
    else [if inv[0].product.id == id then inv[0].(stock := n) else inv[0]] + UpdateStock(inv[1..], id, n)
  }

  /** With one row carrying the id, the total stock moves by the difference. */
  lemma UpdateStockTotal(inv: seq<InventoryItem>, i: int, n: int)
    requires 0 <= i < |inv|
    requires forall k :: 0 <= k < |inv| && k != i ==> inv[k].product.id != inv[i].product.id
    ensures TotalItems(UpdateStock(inv, inv[i].product.id, n)) == TotalItems(inv) - inv[i].stock + n
  {
    var r := UpdateStock(inv, inv[i].product.id, n);
    assert r == inv[i := inv[i].(stock := n)];
    SumUpdate(inv, i, inv[i].(stock := n), Stock);
  }

  /** The stock input accepts only a parsed, non-negative integer. */
  predicate StockInputAccepted(parsed: Option<int>) {
    parsed.Some? && parsed.value >= 0
  }

  /** The inventory screen's state. */
  class InventoryPage {
    var inventory: seq<InventoryItem>
    var searchTerm: string
    var sort: SortState

    /** Starts with the given stock figures (random in the application: stock 1-10, available 0-4). */
    constructor (initial: seq<InventoryItem>)
      ensures inventory == initial && searchTerm == "" && sort == InitialSort
    {
      inventory := initial;
      searchTerm := "";
      sort := InitialSort;
    }

    method SetSearchTerm(term: string)
      modifies this
      ensures searchTerm == term && inventory == old(inventory) && sort == old(sort)
    {
      searchTerm := term;
    }

    method HandleToggleSort(field: string)
      modifies this
      ensures sort == ToggleSort(old(sort), field)
      ensures inventory == old(inventory) && searchTerm == old(searchTerm)
    {
      if sort.sortBy == field {
        sort := sort.(direction := if sort.direction == Asc then Desc else Asc);
      } else {
        sort := SortState(field, Asc);
      }
    }

    /** The stock input's change handler on the row with `id`, given the parsed text. */
    method OnStockInput(id: string, parsed: Option<int>)
      modifies this
      ensures StockInputAccepted(parsed) ==> inventory == UpdateStock(old(inventory), id, parsed.value)
      ensures !StockInputAccepted(parsed) ==> inventory == old(inventory)
      ensures searchTerm == old(searchTerm) && sort == old(sort)
    {
      if parsed.Some? && parsed.value >= 0 {
        inventory := UpdateStock(inventory, id, parsed.value);
      }
    }
  }
}
