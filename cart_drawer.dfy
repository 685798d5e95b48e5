/**
 * The cart drawer: the slide-out list of cart lines with per-line totals, the quantity and
 * remove buttons that call into the cart store, the count badge and the totals block.
 */
module CartDrawer {
  import opened Wrappers
  import opened Seqs
  import opened Days
  import opened CartContext

  /** `calculateDays(start, end)`: 1 when either date is missing, else the rounded-up day span. */
  function CalculateDays(start: Option<int>, end: Option<int>): (r: int)
    ensures start.None? || end.None? ==> r == 1
    ensures start.Some? && end.Some? ==> DAY * (r - 1) < end.value - start.value <= DAY * r
  {
    if start.None? || end.None? then 1 else CeilDays(start.value, end.value)
  }

  /** The total shown beside one line. */
  function DrawerLineTotal(item: CartItem): int {
    item.price * item.quantity * CalculateDays(item.rentalStart, item.rentalEnd)
  }

  /** The drawer's day factor is the one the store's subtotal uses. */
  lemma CalculateDaysIsLineDays(item: CartItem)
    ensures CalculateDays(item.rentalStart, item.rentalEnd) == LineDays(item)
    ensures DrawerLineTotal(item) == LineTotal(item)
  {
  }

  /** The line totals shown add up to the subtotal the store reports. */
  lemma LineTotalsSumToSubtotal(items: seq<CartItem>)
    ensures Sum(items, DrawerLineTotal) == Subtotal(items)
  {
    forall k | 0 <= k < |items| ensures DrawerLineTotal(items[k]) == LineTotal(items[k]) {
      CalculateDaysIsLineDays(items[k]);
    }
    SumPointwise(items, DrawerLineTotal, LineTotal);
  }

  /** The count badge is rendered only for a positive item count. */
  predicate ShowBadge(items: seq<CartItem>) {
    ItemCount(items) > 0
  }

  /** With every line holding at least one unit, the badge shows exactly when the cart has lines. */
  lemma BadgeIffLines(items: seq<CartItem>)
    requires QuantitiesPositive(items)
    ensures ShowBadge(items) <==> items != []
    ensures ItemCount(items) >= |items|
  {
    SumAtLeastLength(items, Quantity);
  }

  /** The totals block: subtotal, insurance and delivery shown as 0, total. */
  datatype Totals = Totals(subtotal: int, insurance: int, delivery: int, total: int)

  function DisplayedTotals(items: seq<CartItem>): (t: Totals)
    ensures t.total == t.subtotal + t.insurance + t.delivery
    ensures t.insurance == 0 && t.delivery == 0 && t.total == Subtotal(items)
  {
    Totals(Subtotal(items), 0, 0, Subtotal(items))
  }

  /** The lines after pressing minus on line `k`. */
  function PressMinus(items: seq<CartItem>, k: nat): seq<CartItem>
    requires k < |items|
  {
    UpdateQuantity(items, items[k].id, items[k].quantity - 1)
  }

  /** The lines after pressing plus on line `k`. */
  function PressPlus(items: seq<CartItem>, k: nat): seq<CartItem>
    requires k < |items|
  {
    UpdateQuantity(items, items[k].id, items[k].quantity + 1)
  }

  /**
   * Minus on a line holding one unit removes every line with that id, including lines of
   * other sizes or dates.
   */
  lemma MinusOnSingleRemovesAllWithId(items: seq<CartItem>, k: nat)
    requires k < |items| && items[k].quantity == 1
    ensures PressMinus(items, k) == RemoveLines(items, items[k].id)
    ensures forall j :: 0 <= j < |PressMinus(items, k)| ==> PressMinus(items, k)[j].id != items[k].id
  {
    RemoveDropsEveryMatch(items, items[k].id);
  }

  /**
   * Minus on a line holding more than one unit, and plus on any line with a non-negative
   * quantity, set that line's new quantity on every line sharing its id.
   */
  lemma PlusMinusSetEveryLineWithId(items: seq<CartItem>, k: nat)
    requires k < |items| && items[k].quantity >= 0
    ensures var r := PressPlus(items, k);
            |r| == |items|
            && forall j :: 0 <= j < |items| ==>
                 r[j] == if items[j].id == items[k].id then items[j].(quantity := items[k].quantity + 1) else items[j]
    ensures items[k].quantity >= 2 ==>
            var r := PressMinus(items, k);
            |r| == |items|
            && forall j :: 0 <= j < |items| ==>
                 r[j] == if items[j].id == items[k].id then items[j].(quantity := items[k].quantity - 1) else items[j]
  {
  }

  /** The drawer: its open flag and the cart store its buttons act on. */
  class Drawer {
    var open: bool
    const cart: CartStore

    constructor (store: CartStore)
      ensures cart == store && !open
    {
      cart := store;
      open := false;
    }

    /** The sheet's open/close control. */
    method SetOpen(value: bool)
      modifies this
      ensures open == value
    {
      open := value;
    }

    /** Checkout closes the drawer (the navigation is not modelled). */
    method HandleCheckout()
      modifies this
      ensures !open
    {
      open := false;
    }

    /** The minus button on line `k`. */
    method Minus(k: nat)
      requires k < |cart.items|
      modifies cart
      ensures cart.items == PressMinus(old(cart.items), k)
    {
      cart.UpdateItemQuantity(cart.items[k].id, cart.items[k].quantity - 1);
    }

    /** The plus button on line `k`. */
    method Plus(k: nat)
      requires k < |cart.items|
      modifies cart
      ensures cart.items == PressPlus(old(cart.items), k)
    {
      cart.UpdateItemQuantity(cart.items[k].id, cart.items[k].quantity + 1);
    }

    /** The remove button on line `k`. */
    method Remove(k: nat)
      requires k < |cart.items|
      modifies cart
      ensures cart.items == RemoveLines(old(cart.items), old(cart.items)[k].id)
    {
      cart.RemoveItem(cart.items[k].id);
    }
  }
}
