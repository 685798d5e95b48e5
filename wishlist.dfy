/**
 * The wishlist store: a list of product ids that never holds the same id twice, with add,
 * remove, membership, clear and the entry count. Persistence to browser storage is not
 * part of this model.
 */
module WishlistContext {
  import opened Seqs

  datatype WishlistItem = WishlistItem(id: string)

  /** `isInWishlist(id)`: `items.some(item => item.id === id)`. */
  predicate InWishlist(items: seq<WishlistItem>, id: string) {
    exists k :: 0 <= k < |items| && items[k].id == id
  }

  /** No id occurs in two entries. */
  predicate IdsUnique(items: seq<WishlistItem>) {
    forall i, j :: 0 <= i < j < |items| ==> items[i].id != items[j].id
  }

  /** The entries after `addItem(id)`: unchanged when present, `{ id }` appended when absent. */
  function AddId(items: seq<WishlistItem>, id: string): seq<WishlistItem> {
    if InWishlist(items, id) then items else items + [WishlistItem(id)]
  }

  /** The test `removeItem(id)` keeps an entry by. */
  function OtherEntry(id: string): WishlistItem -> bool {
    (item: WishlistItem) => item.id != id
  }

  /** The entries after `removeItem(id)`. */
  function RemoveId(items: seq<WishlistItem>, id: string): seq<WishlistItem> {
    Filter(items, OtherEntry(id))
  }

  /** `itemCount`: the number of entries. */
  function ItemCount(items: seq<WishlistItem>): (r: nat)
    ensures r == 0 <==> items == []
  {
    |items|
  }

  /** Adding a present id leaves the list as it was. */
  lemma AddPresentIsNoOp(items: seq<WishlistItem>, id: string)
    requires InWishlist(items, id)
    ensures AddId(items, id) == items
  {
  }

  /**
   * Adding an absent id appends exactly one entry with that id at the end, whether or not
   * the catalogue knows the id; afterwards the id is in the wishlist.
   */
  lemma AddAbsentAppends(items: seq<WishlistItem>, id: string)
    requires !InWishlist(items, id)
    ensures AddId(items, id) == items + [WishlistItem(id)]
    ensures ItemCount(AddId(items, id)) == ItemCount(items) + 1
    ensures InWishlist(AddId(items, id), id)
  {
    var r := AddId(items, id);
    assert r[|items|].id == id;
  }

  /** `addItem` never introduces a duplicate id. */
  lemma AddKeepsIdsUnique(items: seq<WishlistItem>, id: string)
    requires IdsUnique(items)
    ensures IdsUnique(AddId(items, id))
  {
    if !InWishlist(items, id) {
      var r := items + [WishlistItem(id)];
      forall i, j | 0 <= i < j < |r| ensures r[i].id != r[j].id {
        if j == |items| {
          assert r[i] == items[i];
        } else {
          assert r[i] == items[i] && r[j] == items[j];
        }
      }
    }
  }

  /**
   * `removeItem(id)` leaves no entry with that id, keeps every other entry in order, and
   * keeps the ids unique.
   */
  lemma RemoveDropsId(items: seq<WishlistItem>, id: string)
    ensures !InWishlist(RemoveId(items, id), id)
    ensures forall k :: 0 <= k < |items| && items[k].id != id ==> items[k] in RemoveId(items, id)
    ensures SubsequenceOf(RemoveId(items, id), items)
    ensures IdsUnique(items) ==> IdsUnique(RemoveId(items, id))
  {
    FilterIsSubsequence(items, OtherEntry(id));
    if IdsUnique(items) {
      assert NoDuplicates(items) by {
        forall i, j | 0 <= i < j < |items| ensures items[i] != items[j] {
          assert items[i].id != items[j].id;
        }
      }
      FilterNoDuplicates(items, OtherEntry(id));
      var r := RemoveId(items, id);
      assert NoDuplicates(r);
      forall i, j | 0 <= i < j < |r| ensures r[i].id != r[j].id {
        assert r[i] != r[j];
      }
    }
  }

  /** Adding then removing an absent id restores the list. */
  lemma AddThenRemove(items: seq<WishlistItem>, id: string)
    requires !InWishlist(items, id)
    ensures RemoveId(AddId(items, id), id) == items
  {
    FilterAppend(items, [WishlistItem(id)], OtherEntry(id));
    FilterAllKept(items, OtherEntry(id));
  }

  /** The wishlist store: the `items` state and the three operations that replace it. */
  class WishlistStore {
    var items: seq<WishlistItem>

    /** A new store starts with the given saved entries (the empty list when nothing was saved). */
    constructor (saved: seq<WishlistItem>)
      ensures items == saved
    {
      items := saved;
    }

    /** `addItem(id)`. */
    method AddItem(id: string)
      modifies this
      ensures items == AddId(old(items), id)
      ensures InWishlist(items, id)
      ensures IdsUnique(old(items)) ==> IdsUnique(items)
    {
      if IdsUnique(items) {
        AddKeepsIdsUnique(items, id);
      }
      if !InWishlist(items, id) {
        AddAbsentAppends(items, id);
        items := items + [WishlistItem(id)];
      }
    }

    /** `removeItem(id)`. */
    method RemoveItem(id: string)
      modifies this
      ensures items == RemoveId(old(items), id)
      ensures !InWishlist(items, id)
      ensures IdsUnique(old(items)) ==> IdsUnique(items)
    {
      RemoveDropsId(items, id);
      items := RemoveId(items, id);
    }

    /** `clearWishlist()`. */
    method ClearWishlist()
      modifies this
      ensures items == [] && ItemCount(items) == 0
    {
      items := [];
    }
  }
}
