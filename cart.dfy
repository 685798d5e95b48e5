/**
 * The cart store: the list of cart lines with add (merging on the full line key), remove
 * and quantity update (matching on the product id alone), clear, the item count and the
 * subtotal.
 */
module CartContext {
  import opened Wrappers
  import opened Seqs
  import Days

  datatype Insurance = Basic | Premium | NoInsurance

  /** A cart line. Dates are instants in milliseconds; absent fields are `None`. */
  datatype CartItem = CartItem(
    id: string,
    quantity: int,
    name: string,
    price: int,
    image: string,
    rentalStart: Option<int>,
    rentalEnd: Option<int>,
    size: Option<string>,
    insuranceOption: Option<Insurance>)

  /**
   * The key `addItem` merges on: same id, same size, same start and end instants. Two absent
   * values compare equal (`undefined === undefined`), an absent and a present one do not.
   */
  predicate SameLine(a: CartItem, b: CartItem) {
    a.id == b.id && a.size == b.size && a.rentalStart == b.rentalStart && a.rentalEnd == b.rentalEnd
  }

  /** No two lines share the full key. */
  predicate KeysUnique(items: seq<CartItem>) {
    forall i, j :: 0 <= i < j < |items| ==> !SameLine(items[i], items[j])
  }

  /** Every line holds at least one unit. */
  predicate QuantitiesPositive(items: seq<CartItem>) {
    forall k :: 0 <= k < |items| ==> items[k].quantity >= 1
  }

  /** `findIndex` on the full key: the first line with the same key as `item`, if any. */
  function FindLine(items: seq<CartItem>, item: CartItem): (r: Option<nat>)
    ensures r.Some? ==> r.value < |items| && SameLine(items[r.value], item)
                        && forall j :: 0 <= j < r.value ==> !SameLine(items[j], item)
    ensures r.None? ==> forall j :: 0 <= j < |items| ==> !SameLine(items[j], item)
  {
    if items == [] then None
    else if SameLine(items[0], item) then Some(0)
    else match FindLine(items[1..], item)
      case None => None
      case Some(i) => Some(i + 1)
  }

  /** The lines after `addItem(item)`: merge into the first same-key line, or append. */
  function AddLine(items: seq<CartItem>, item: CartItem): seq<CartItem> {
    match FindLine(items, item)
    case Some(i) => items[i := items[i].(quantity := items[i].quantity + item.quantity)]
    case None => items + [item]
  }

  predicate HasId(line: CartItem, id: string) {
    line.id == id
  }

  /** The test `removeItem(id)` keeps a line by. */
  function OtherId(id: string): CartItem -> bool {
    line => !HasId(line, id)
  }

  /** The test selecting the lines `removeItem(id)` drops. */
  function SameId(id: string): CartItem -> bool {
    line => HasId(line, id)
  }

  /** The lines after `removeItem(id)`: every line with that id goes, whatever its size or dates. */
  function RemoveLines(items: seq<CartItem>, id: string): seq<CartItem> {
    Filter(items, OtherId(id))
  }

  /** The lines that carry `id`, in cart order. */
  function LinesWithId(items: seq<CartItem>, id: string): seq<CartItem> {
    Filter(items, SameId(id))
  }

  /** The `map` in `updateItemQuantity`: every line with that id gets quantity `q`. */
  function SetQuantity(items: seq<CartItem>, id: string, q: int): (r: seq<CartItem>)
    ensures |r| == |items|
    ensures forall k :: 0 <= k < |items| ==>
      r[k] == if items[k].id == id then items[k].(quantity := q) else items[k]
  {
    if items == [] then []
    else [if items[0].id == id then items[0].(quantity := q) else items[0]] + SetQuantity(items[1..], id, q)
  }

  /** The lines after `updateItemQuantity(id, q)`. */
  function UpdateQuantity(items: seq<CartItem>, id: string, q: int): seq<CartItem> {
    if q <= 0 then RemoveLines(items, id) else SetQuantity(items, id, q)
  }

  /** The day factor `getSubtotal` applies: the rounded-up day span when both dates are set, else 1. */
  function LineDays(line: CartItem): int {
    if line.rentalStart.Some? && line.rentalEnd.Some?
    then Days.CeilDays(line.rentalStart.value, line.rentalEnd.value)
    else 1
  }

  /** price x quantity x days for one line. */
  function LineTotal(line: CartItem): int {
    line.price * line.quantity * LineDays(line)
  }

  function Quantity(line: CartItem): int {
    line.quantity
  }

  /** `getSubtotal()`: the sum of the line totals. */
  function Subtotal(items: seq<CartItem>): int {
    Sum(items, LineTotal)
  }

  /** `itemCount`: the sum of the line quantities (not the number of lines). */
  function ItemCount(items: seq<CartItem>): int {
    Sum(items, Quantity)
  }

  /**
   * Adding an item whose key equals an existing line's adds its quantity to the first such
   * line; the number of lines and every other line stay as they were.
   */
  lemma AddMergesIntoFirstMatch(items: seq<CartItem>, item: CartItem, i: int)
    requires 0 <= i < |items| && SameLine(items[i], item)
    requires forall j :: 0 <= j < i ==> !SameLine(items[j], item)
    ensures |AddLine(items, item)| == |items|
    ensures AddLine(items, item)[i].quantity == items[i].quantity + item.quantity
    ensures SameLine(AddLine(items, item)[i], items[i])
    ensures forall j :: 0 <= j < |items| && j != i ==> AddLine(items, item)[j] == items[j]
  {
    assert FindLine(items, item) == Some(i);
  }

  /** Adding an item that matches no line appends it after the unchanged earlier lines. */
  lemma AddAppendsNewLine(items: seq<CartItem>, item: CartItem)
    requires forall j :: 0 <= j < |items| ==> !SameLine(items[j], item)
    ensures AddLine(items, item) == items + [item]
  {
  }

  /** If no two lines share a key before `addItem`, none do after. */
  lemma AddKeepsKeysUnique(items: seq<CartItem>, item: CartItem)
    requires KeysUnique(items)
    ensures KeysUnique(AddLine(items, item))
  {
    var r := AddLine(items, item);
    match FindLine(items, item)
    case Some(i) =>
      forall a, b | 0 <= a < b < |r| ensures !SameLine(r[a], r[b]) {
        assert SameLine(r[a], items[a]) && SameLine(r[b], items[b]);
        assert !SameLine(items[a], items[b]);
      }
    case None =>
      forall a, b | 0 <= a < b < |r| ensures !SameLine(r[a], r[b]) {
        if b == |items| {
          assert r[a] == items[a] && r[b] == item;
        } else {
          assert r[a] == items[a] && r[b] == items[b];
        }
      }
  }

  /** With a positive incoming quantity, every line keeps at least one unit. */
  lemma AddKeepsQuantitiesPositive(items: seq<CartItem>, item: CartItem)
    requires QuantitiesPositive(items) && item.quantity >= 1
    ensures QuantitiesPositive(AddLine(items, item))
  {
  }

  /** `addItem` raises the item count by exactly the incoming quantity, merged or appended. */
  lemma AddItemCount(items: seq<CartItem>, item: CartItem)
    ensures ItemCount(AddLine(items, item)) == ItemCount(items) + item.quantity
  {
    match FindLine(items, item)
    case Some(i) =>
      SumUpdate(items, i, items[i].(quantity := items[i].quantity + item.quantity), Quantity);
    case None =>
      SumAppend(items, [item], Quantity);
  }

  /**
   * `addItem` raises the subtotal by the incoming quantity priced at the line that receives
   * it: the existing line's price when merging (the incoming price is dropped), the
   * item's own price when appending. The day factor is the same either way.
   */
  lemma AddSubtotal(items: seq<CartItem>, item: CartItem)
    ensures var price := match FindLine(items, item) case Some(i) => items[i].price case None => item.price;
            Subtotal(AddLine(items, item)) == Subtotal(items) + price * item.quantity * LineDays(item)
  {
    match FindLine(items, item)
    case Some(i) =>
      var merged := items[i].(quantity := items[i].quantity + item.quantity);
      SumUpdate(items, i, merged, LineTotal);
      assert LineDays(merged) == LineDays(items[i]) == LineDays(item);
      var p, q, d := items[i].price, items[i].quantity, LineDays(item);
      assert p * (q + item.quantity) * d == p * q * d + p * item.quantity * d by {
        assert p * (q + item.quantity) == p * q + p * item.quantity;
      }
    case None =>
      SumAppend(items, [item], LineTotal);
  }

  /** Two additions with the same key give one line holding both quantities, never two lines. */
  lemma AddSameKeyTwice(items: seq<CartItem>, a: CartItem, b: CartItem)
    requires forall j :: 0 <= j < |items| ==> !SameLine(items[j], a)
    requires SameLine(a, b)
    ensures AddLine(AddLine(items, a), b) == items + [a.(quantity := a.quantity + b.quantity)]
  {
    var once := AddLine(items, a);
    assert once == items + [a];
    assert forall j :: 0 <= j < |items| ==> !SameLine(once[j], b);
    AddMergesIntoFirstMatch(once, b, |items|);
  }

  /** Two additions of the same product with a different size or different dates give two lines. */
  lemma AddDifferentKeyTwice(items: seq<CartItem>, a: CartItem, b: CartItem)
    requires forall j :: 0 <= j < |items| ==> !SameLine(items[j], a) && !SameLine(items[j], b)
    requires !SameLine(a, b)
    ensures AddLine(AddLine(items, a), b) == items + [a, b]
  {
    var once := AddLine(items, a);
    assert once == items + [a];
    assert forall j :: 0 <= j < |once| ==> !SameLine(once[j], b);
    assert once + [b] == items + [a, b];
  }

  /**
   * `removeItem(id)` drops every line with that id and keeps every other line, in order;
   * when no line has the id the cart is unchanged.
   */
  lemma RemoveDropsEveryMatch(items: seq<CartItem>, id: string)
    ensures forall k :: 0 <= k < |RemoveLines(items, id)| ==> RemoveLines(items, id)[k].id != id
    ensures forall k :: 0 <= k < |items| && items[k].id != id ==> items[k] in RemoveLines(items, id)
    ensures SubsequenceOf(RemoveLines(items, id), items)
    ensures (forall k :: 0 <= k < |items| ==> items[k].id != id) ==> RemoveLines(items, id) == items
  {
    FilterIsSubsequence(items, OtherId(id));
    if forall k :: 0 <= k < |items| ==> items[k].id != id {
      FilterAllKept(items, OtherId(id));
    }
  }

  /** After `removeItem(id)` the subtotal and item count lose exactly the lines with that id. */
  lemma RemoveSubtractsLines(items: seq<CartItem>, id: string)
    ensures Subtotal(items) == Subtotal(RemoveLines(items, id)) + Subtotal(LinesWithId(items, id))
    ensures ItemCount(items) == ItemCount(RemoveLines(items, id)) + ItemCount(LinesWithId(items, id))
  {
    SumSplit(items, OtherId(id), SameId(id), LineTotal);
    SumSplit(items, OtherId(id), SameId(id), Quantity);
  }

  /** Removing keeps at least one unit on every remaining line. */
  lemma RemoveKeepsQuantitiesPositive(items: seq<CartItem>, id: string)
    requires QuantitiesPositive(items)
    ensures QuantitiesPositive(RemoveLines(items, id))
  {
    var r := RemoveLines(items, id);
    forall k | 0 <= k < |r| ensures r[k].quantity >= 1 {
      assert r[k] in items;
    }
  }

  /**
   * Updating a quantity never leaves a line with zero or fewer units: a non-positive request
   * removes the lines instead of storing it.
   */
  lemma UpdateKeepsQuantitiesPositive(items: seq<CartItem>, id: string, q: int)
    requires QuantitiesPositive(items)
    ensures QuantitiesPositive(UpdateQuantity(items, id, q))
  {
    if q <= 0 {
      RemoveKeepsQuantitiesPositive(items, id);
    }
  }

  /** Removing never creates a shared key. */
  lemma RemoveKeepsKeysUnique(items: seq<CartItem>, id: string)
    requires KeysUnique(items)
    ensures KeysUnique(RemoveLines(items, id))
  {
    FilterIsSubsequence(items, OtherId(id));
    SubsequenceKeepsKeysUnique(RemoveLines(items, id), items);
  }

  lemma {:induction false} SubsequenceKeepsKeysUnique(r: seq<CartItem>, s: seq<CartItem>)
    requires SubsequenceOf(r, s) && KeysUnique(s)
    ensures KeysUnique(r)
    decreases |s|
  {
    if r != [] && s != [] {
      assert KeysUnique(s[1..]) by {
        forall i, j | 0 <= i < j < |s[1..]| ensures !SameLine(s[1..][i], s[1..][j]) {
          assert s[1..][i] == s[i + 1] && s[1..][j] == s[j + 1];
        }
      }
      if r[0] == s[0] && SubsequenceOf(r[1..], s[1..]) {
        SubsequenceKeepsKeysUnique(r[1..], s[1..]);
        SubsequenceMembers(r[1..], s[1..]);
        forall i, j | 0 <= i < j < |r| ensures !SameLine(r[i], r[j]) {
          if i == 0 {
            assert r[j] == r[1..][j - 1];
            var k :| 0 <= k < |s[1..]| && s[1..][k] == r[j];
            assert !SameLine(s[0], s[k + 1]);
          } else {
            assert r[i] == r[1..][i - 1] && r[j] == r[1..][j - 1];
          }
        }
      } else {
        SubsequenceKeepsKeysUnique(r, s[1..]);
      }
    }
  }

  lemma {:induction false} SubsequenceMembers(r: seq<CartItem>, s: seq<CartItem>)
    requires SubsequenceOf(r, s)
    ensures forall i :: 0 <= i < |r| ==> exists k :: 0 <= k < |s| && s[k] == r[i]
    decreases |s|
  {
    if r != [] && s != [] {
      if r[0] == s[0] && SubsequenceOf(r[1..], s[1..]) {
        SubsequenceMembers(r[1..], s[1..]);
        forall i | 0 <= i < |r| ensures exists k :: 0 <= k < |s| && s[k] == r[i] {
          if i == 0 {
            assert s[0] == r[0];
          } else {
            assert r[i] == r[1..][i - 1];
            var k :| 0 <= k < |s[1..]| && s[1..][k] == r[1..][i - 1];
            assert s[k + 1] == r[i];
          }
        }
      } else {
        SubsequenceMembers(r, s[1..]);
        forall i | 0 <= i < |r| ensures exists k :: 0 <= k < |s| && s[k] == r[i] {
          var k :| 0 <= k < |s[1..]| && s[1..][k] == r[i];
          assert s[k + 1] == r[i];
        }
      }
    }
  }

  /** A non-positive quantity update is exactly `removeItem(id)`. */
  lemma UpdateNonPositiveRemoves(items: seq<CartItem>, id: string, q: int)
    requires q <= 0
    ensures UpdateQuantity(items, id, q) == RemoveLines(items, id)
  {
  }

  /**
   * A positive quantity update sets `q` on every line with that id and leaves the line count,
   * every key and every other line as they were; the item count becomes the other lines'
   * count plus `q` per matching line.
   */
  lemma {:induction false} UpdatePositiveSetsEveryMatch(items: seq<CartItem>, id: string, q: int)
    requires q > 0
    ensures var r := UpdateQuantity(items, id, q);
            |r| == |items|
            && (forall k :: 0 <= k < |items| ==> SameLine(r[k], items[k]))
            && (forall k :: 0 <= k < |items| && items[k].id == id ==> r[k].quantity == q)
            && (forall k :: 0 <= k < |items| && items[k].id != id ==> r[k] == items[k])
            && ItemCount(r) == ItemCount(RemoveLines(items, id)) + q * |LinesWithId(items, id)|
  {
    SetQuantityCount(items, id, q);
  }

  lemma {:induction false} SetQuantityCount(items: seq<CartItem>, id: string, q: int)
    ensures ItemCount(SetQuantity(items, id, q)) == ItemCount(RemoveLines(items, id)) + q * |LinesWithId(items, id)|
  {
    if items != [] {
      var rest := items[1..];
      SetQuantityCount(rest, id, q);
      SetQuantityCons(items, id, q);
      var a := ItemCount(SetQuantity(rest, id, q));
      var b := ItemCount(RemoveLines(rest, id));
      var n := |LinesWithId(rest, id)|;
      assert a == b + q * n;
      if items[0].id == id {
        SplitMatchingHead(items, id);
        assert ItemCount(SetQuantity(items, id, q)) == q + a;
        Distribute(q, n);
      } else {
        SplitOtherHead(items, id);
        assert ItemCount(SetQuantity(items, id, q)) == items[0].quantity + a;
      }
    }
  }

  lemma Distribute(q: int, n: int)
    ensures q * (n + 1) == q * n + q
  {
  }

  lemma SetQuantityCons(items: seq<CartItem>, id: string, q: int)
    requires items != []
    ensures ItemCount(SetQuantity(items, id, q))
         == (if items[0].id == id then q else items[0].quantity) + ItemCount(SetQuantity(items[1..], id, q))
  {
    var r := SetQuantity(items, id, q);
    assert r[1..] == SetQuantity(items[1..], id, q);
  }

  lemma SplitMatchingHead(items: seq<CartItem>, id: string)
    requires items != [] && items[0].id == id
    ensures RemoveLines(items, id) == RemoveLines(items[1..], id)
    ensures |LinesWithId(items, id)| == 1 + |LinesWithId(items[1..], id)|
  {
    assert !OtherId(id)(items[0]) && SameId(id)(items[0]);
  }

  lemma SplitOtherHead(items: seq<CartItem>, id: string)
    requires items != [] && items[0].id != id
    ensures ItemCount(RemoveLines(items, id)) == items[0].quantity + ItemCount(RemoveLines(items[1..], id))
    ensures LinesWithId(items, id) == LinesWithId(items[1..], id)
  {
    assert OtherId(id)(items[0]) && !SameId(id)(items[0]);
    var r := RemoveLines(items, id);
    assert r == [items[0]] + RemoveLines(items[1..], id);
    assert r[1..] == RemoveLines(items[1..], id);
  }

  /** Quantity updates keep keys unique. */
  lemma UpdateKeepsKeysUnique(items: seq<CartItem>, id: string, q: int)
    requires KeysUnique(items)
    ensures KeysUnique(UpdateQuantity(items, id, q))
  {
    if q <= 0 {
      RemoveKeepsKeysUnique(items, id);
    } else {
      var r := SetQuantity(items, id, q);
      forall i, j | 0 <= i < j < |r| ensures !SameLine(r[i], r[j]) {
        assert SameLine(r[i], items[i]) && SameLine(r[j], items[j]);
      }
    }
  }

  /** The empty cart has no lines, no units and a zero subtotal. */
  lemma EmptyCartTotals()
    ensures ItemCount([]) == 0 && Subtotal([]) == 0
  {
  }

  /** The cart store: the `items` state and the four operations that replace it. */
  class CartStore {
    var items: seq<CartItem>

    /** A new store starts empty. */
    constructor ()
      ensures items == []
    {
      items := [];
    }

    /** `addItem(item)`; the incoming quantity is not checked. */
    method AddItem(item: CartItem)
      modifies this
      ensures items == AddLine(old(items), item)
      ensures ItemCount(items) == ItemCount(old(items)) + item.quantity
      ensures KeysUnique(old(items)) ==> KeysUnique(items)
      ensures QuantitiesPositive(old(items)) && item.quantity >= 1 ==> QuantitiesPositive(items)
    {
      AddItemCount(items, item);
      if KeysUnique(items) {
        AddKeepsKeysUnique(items, item);
      }
      var found := FindLine(items, item);
      match found
      case Some(i) =>
        items := items[i := items[i].(quantity := items[i].quantity + item.quantity)];
      case None =>
        items := items + [item];
    }

    /** `removeItem(id)`: drops every line with that id. */
    method RemoveItem(id: string)
      modifies this
      ensures items == RemoveLines(old(items), id)
      ensures KeysUnique(old(items)) ==> KeysUnique(items)
      ensures QuantitiesPositive(old(items)) ==> QuantitiesPositive(items)
    {
      if KeysUnique(items) {
        RemoveKeepsKeysUnique(items, id);
      }
      if QuantitiesPositive(items) {
        RemoveKeepsQuantitiesPositive(items, id);
      }
      items := RemoveLines(items, id);
    }

    /** `updateItemQuantity(id, q)`: removes when `q <= 0`, else sets `q` on every line with that id. */
    method UpdateItemQuantity(id: string, q: int)
      modifies this
      ensures items == UpdateQuantity(old(items), id, q)
      ensures KeysUnique(old(items)) ==> KeysUnique(items)
      ensures QuantitiesPositive(old(items)) ==> QuantitiesPositive(items)
    {
      if QuantitiesPositive(items) {
        UpdateKeepsQuantitiesPositive(items, id, q);
      }
      if q <= 0 {
        RemoveItem(id);
        return;
      }
      if KeysUnique(items) {
        UpdateKeepsKeysUnique(items, id, q);
      }
      items := SetQuantity(items, id, q);
    }

    /** `clearCart()`. */
    method ClearCart()
      modifies this
      ensures items == []
      ensures ItemCount(items) == 0 && Subtotal(items) == 0
    {
      items := [];
    }
  }
}
