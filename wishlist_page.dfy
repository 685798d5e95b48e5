/**
 * The wishlist page: the effect that joins the wishlist's ids with the catalogue, the saved
 * count and the "Clear All" button.
 */
module WishlistPage {
  import opened Wrappers
  import opened Seqs
  import opened ProductData
  import opened WishlistContext

  /** The catalogue has a product for the entry's id. */
  function Known(catalogue: seq<Product>): WishlistItem -> bool {
    (w: WishlistItem) => FindById(catalogue, w.id).Some?
  }

  /**
   * `items.map(find in catalogue).filter(Boolean)`: the product for each entry, in wishlist
   * order, with entries the catalogue does not know dropped.
   */
  function Join(catalogue: seq<Product>, entries: seq<WishlistItem>): (r: seq<Product>)
    ensures |r| <= |entries|
  {
    if entries == [] then []
    else
      (match FindById(catalogue, entries[0].id) case Some(p) => [p] case None => [])
      + Join(catalogue, entries[1..])
  }

  /** What the page shows for the given wishlist entries. */
  function DisplayedItems(entries: seq<WishlistItem>): seq<Product> {
    Join(MockClothing, entries)
  }

  /**
   * The displayed products are, one for one and in order, the catalogue's products for the
   * entries the catalogue knows; each carries its entry's id.
   */
  lemma {:induction false} JoinIsLookupOfKnown(catalogue: seq<Product>, entries: seq<WishlistItem>)
    ensures var kept := Filter(entries, Known(catalogue));
            var r := Join(catalogue, entries);
            |r| == |kept|
            && forall k :: 0 <= k < |kept| ==> FindById(catalogue, kept[k].id) == Some(r[k]) && r[k].id == kept[k].id
  {
    if entries != [] {
      var rest := entries[1..];
      JoinIsLookupOfKnown(catalogue, rest);
      var kept := Filter(entries, Known(catalogue));
      var keptRest := Filter(rest, Known(catalogue));
      var r := Join(catalogue, entries);
      var rRest := Join(catalogue, rest);
      match FindById(catalogue, entries[0].id)
      case Some(p) =>
        assert Known(catalogue)(entries[0]);
        assert kept == [entries[0]] + keptRest;
        assert r == [p] + rRest;
        forall k | 0 <= k < |kept|
          ensures FindById(catalogue, kept[k].id) == Some(r[k]) && r[k].id == kept[k].id
        {
          if k > 0 {
            assert kept[k] == keptRest[k - 1] && r[k] == rRest[k - 1];
          }
        }
      case None =>
        assert !Known(catalogue)(entries[0]);
        assert kept == keptRest;
        assert r == rRest;
    }
  }

  /** Entries the catalogue does not know are not shown: with none known the page is empty. */
  lemma UnknownEntriesDropped(catalogue: seq<Product>, entries: seq<WishlistItem>)
    requires forall k :: 0 <= k < |entries| ==> FindById(catalogue, entries[k].id).None?
    ensures Join(catalogue, entries) == []
  {
    FilterNoneKept(entries, Known(catalogue));
    JoinIsLookupOfKnown(catalogue, entries);
  }

  /** When every entry is known, one product is shown per entry, with the entries' ids in order. */
  lemma AllKnownShowsEveryEntry(catalogue: seq<Product>, entries: seq<WishlistItem>)
    requires forall k :: 0 <= k < |entries| ==> FindById(catalogue, entries[k].id).Some?
    ensures |Join(catalogue, entries)| == |entries|
    ensures forall k :: 0 <= k < |entries| ==> Join(catalogue, entries)[k].id == entries[k].id
  {
    FilterAllKept(entries, Known(catalogue));
    JoinIsLookupOfKnown(catalogue, entries);
  }

  /**
   * The "N items saved" figure counts displayed products, so an entry whose id the
   * catalogue lacks makes it smaller than the wishlist's own count.
   */
  lemma SavedCountBelowEntriesWhenUnknown(catalogue: seq<Product>, entries: seq<WishlistItem>, k: int)
    requires 0 <= k < |entries| && FindById(catalogue, entries[k].id).None?
    ensures |Join(catalogue, entries)| < WishlistContext.ItemCount(entries)
  {
    JoinIsLookupOfKnown(catalogue, entries);
    FilterSkipsOne(entries, Known(catalogue), k);
  }

  lemma {:induction false} FilterSkipsOne(s: seq<WishlistItem>, keep: WishlistItem -> bool, k: int)
    requires 0 <= k < |s| && !keep(s[k])
    ensures |Filter(s, keep)| < |s|
  {
    if k > 0 {
      assert s[1..][k - 1] == s[k];
      FilterSkipsOne(s[1..], keep, k - 1);
    }
  }

  /** "Clear All" is offered only while something is displayed. */
  predicate ShowClearAll(displayed: seq<Product>) {
    |displayed| > 0
  }

  /** The page: the joined products it holds, and the wishlist store it reads and clears. */
  class WishlistView {
    var wishlistItems: seq<Product>
    const store: WishlistStore

    constructor (s: WishlistStore)
      ensures store == s && wishlistItems == []
    {
      store := s;
      wishlistItems := [];
    }

    /** The effect that runs whenever the store's entries change. */
    method Refresh()
      modifies this
      ensures wishlistItems == DisplayedItems(store.items)
    {
      wishlistItems := Join(MockClothing, store.items);
    }

    /** The count in the heading. */
    function SavedCount(): nat
      reads this
    {
      |wishlistItems|
    }

    /** "Clear All", which exists only while something is displayed. */
    method ClearAll()
      requires ShowClearAll(wishlistItems)
      modifies store
      ensures store.items == []
    {
      store.ClearWishlist();
    }
  }
}
