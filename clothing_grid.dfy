/**
 * The product grid. It shows its own local list of twelve items (not the shared catalogue),
 * optionally narrowed to one category compared ignoring case. Its `filters` and
 * `searchQuery` props are accepted but never read, and its loading flag never becomes true.
 */
module ClothingGrid {
  import opened Wrappers
  import opened Seqs
  import opened Text
  import opened ProductData
  import ClothingFilters

  /** The grid's own twelve items; none carries a description, and a missing `isNew` is false. */
  const GridItems: seq<Product> := [
      Product("1", "Floral Print ", 30, 320,
        "https://i5.walmartimages.com/asr/703151fb-f16e-4ce1-8fa3-95f29c981912_1.4f30402adade0b18584be88f0dd115b7.jpeg",
        "Gucci", "Dresses", true, None),
      Product("2", "Classic Black Tuxedo", 89, 450,
        "https://www.mrporter.com/variants/images/1647597306907732/in/w2000_q60.jpg",
        "Armani", "Suits", false, None),
      Product("3", "Silk Evening Gown", 75, 380,
        "https://images.unsplash.com/photo-1566174053879-31528523f8ae?q=80&w=2830&auto=format&fit=crop",
        "Versace", "Dresses", false, None),
      Product("4", "Casual Linen Blazer", 45, 220,
        "https://images.unsplash.com/photo-1611312449408-fcece27cdbb7?q=80&w=2938&auto=format&fit=crop",
        "Zara", "Outerwear", true, None),
      Product("5", "Sequin Cocktail Dress", 70, 350,
        "https://images.unsplash.com/photo-1596703263926-eb0762ee17e4?q=80&w=2787&auto=format&fit=crop",
        "Prada", "Dresses", false, None),
      Product("6", "Navy Blue Suit", 85, 420,
        "https://th.bing.com/th/id/OIP.Co-EH9Jk6te-uBT9d0nEVQAAAA?rs=1&pid=ImgDetMain",
        "Hugo Boss", "Suits", false, None),
      Product("7", "Crystal Embellished Clutch", 30, 150,
        "https://images.unsplash.com/photo-1601924638867-3a6de6b7a500?q=80&w=2770&auto=format&fit=crop",
        "Chanel", "Accessories", true, None),
      Product("8", "Leather Biker Jacket", 55, 275,
        "https://images.unsplash.com/photo-1521223890158-f9f7c3d5d504?q=80&w=2923&auto=format&fit=crop",
        "Saint Laurent", "Outerwear", false, None),
      Product("9", "Velvet Formal Dress", 60, 300,
        "https://cdn.shopify.com/s/files/1/0014/6217/3742/products/11375574-WHIT_1_2000x.jpg?v=1582306758",
        "Dolce & Gabbana", "Dresses", false, None),
      Product("10", "Charcoal Gray Suit", 80, 400,
        "https://images.unsplash.com/photo-1593032465175-481ac7f401a0?q=80&w=2940&auto=format&fit=crop",
        "Tom Ford", "Suits", true, None),
      Product("11", "Off-Shoulder Satin Gown", 95, 475,
        "https://images.unsplash.com/photo-1583744946564-b52ac1c389c8?q=80&w=2874&auto=format&fit=crop",
        "Valentino", "Dresses", false, None),
      Product("12", "Designer Bow Tie", 15, 75,
        "https://images.unsplash.com/photo-1607541602069-fef603da2be3?q=80&w=2781&auto=format&fit=crop",
        "Fendi", "Accessories", false, None)
  ]

  /** The category test: equal after lower-casing both sides. */
  function InCategory(category: string): Product -> bool {
    (item: Product) => ToLower(item.category) == ToLower(category)
  }

  /** `displayItems` over a list: everything without a (non-empty) category, else that category's items. */
  function DisplayIn(items: seq<Product>, category: Option<string>): seq<Product> {
    if category.None? || category.value == "" then items
    else Filter(items, InCategory(category.value))
  }

  /** The items the grid shows; the `filters` and `searchQuery` props play no part. */
  function DisplayItems(category: Option<string>, filters: Option<ClothingFilters.FiltersState>, searchQuery: Option<string>): seq<Product> {
    DisplayIn(GridItems, category)
  }

  /** What the grid renders. */
  datatype GridView = Skeleton | NoItemsFound | Cards(items: seq<Product>)

  /** `loading` starts false and nothing ever sets it. */
  const Loading := false

  function View(category: Option<string>, filters: Option<ClothingFilters.FiltersState>, searchQuery: Option<string>): (v: GridView)
    ensures v != Skeleton
    ensures v == NoItemsFound <==> DisplayItems(category, filters, searchQuery) == []
    ensures v.Cards? ==> v.items == DisplayItems(category, filters, searchQuery)
  {
    var shown := DisplayItems(category, filters, searchQuery);
    if Loading then Skeleton else if |shown| == 0 then NoItemsFound else Cards(shown)
  }

  /** The local list holds twelve items with ids "1" to "12", in order. */
  lemma GridIdsAre(k: int)
    requires 0 <= k < |GridItems|
    ensures |GridItems| == 12
    ensures GridItems[k].id == ["1", "2", "3", "4", "5", "6", "7", "8", "9", "10", "11", "12"][k]
  {
  }

  /** Without a category, or with the empty one, all local items are shown in order. */
  lemma NoCategoryShowsAll(filters: Option<ClothingFilters.FiltersState>, searchQuery: Option<string>)
    ensures DisplayItems(None, filters, searchQuery) == GridItems
    ensures DisplayItems(Some(""), filters, searchQuery) == GridItems
  {
  }

  /**
   * With a category, the items shown are exactly the items whose category equals it ignoring
   * case, in list order.
   */
  lemma CategoryFilterSpec(items: seq<Product>, category: string)
    requires category != ""
    ensures forall k :: 0 <= k < |DisplayIn(items, Some(category))| ==>
              ToLower(DisplayIn(items, Some(category))[k].category) == ToLower(category)
    ensures forall k :: 0 <= k < |items| && ToLower(items[k].category) == ToLower(category) ==>
              items[k] in DisplayIn(items, Some(category))
    ensures SubsequenceOf(DisplayIn(items, Some(category)), items)
  {
    FilterIsSubsequence(items, InCategory(category));
  }

  /** The category's letter case does not matter. */
  lemma CategoryCaseIgnored(items: seq<Product>, c1: string, c2: string)
    requires c1 != "" && c2 != "" && ToLower(c1) == ToLower(c2)
    ensures DisplayIn(items, Some(c1)) == DisplayIn(items, Some(c2))
  {
    FilterSameTest(items, InCategory(c1), InCategory(c2));
  }

  /** Different `filters` or `searchQuery` props never change what is shown. */
  lemma OtherPropsIgnored(category: Option<string>,
                          f1: Option<ClothingFilters.FiltersState>, q1: Option<string>,
                          f2: Option<ClothingFilters.FiltersState>, q2: Option<string>)
    ensures View(category, f1, q1) == View(category, f2, q2)
  {
  }
}
