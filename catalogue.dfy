/**
 * The product catalogue shared by the browse, detail, search, wishlist and admin pages,
 * and its two lookups.
 */
module ProductData {
  import opened Wrappers
  import opened Seqs

  /** A catalogue product. `isNew` stands for the optional flag, absent meaning false. */
  datatype Product = Product(
    id: string,
    name: string,
    price: int,
    retailPrice: int,
    image: string,
    brand: string,
    category: string,
    isNew: bool,
    description: Option<string>)

  /** The related-products list shows at most this many products unless told otherwise. */
  const DefaultRelatedLimit: int := 4

  /** The twelve catalogue products, in display order. */
  const MockClothing: seq<Product> := [
      Product("1", "Floral Print Maxi Dress", 56, 320,
        "https://images.unsplash.com/photo-1619161519929-6d149fdcc661?q=80&w=2787&auto=format&fit=crop",
        "Gucci", "Dresses", true,
        Some("This stunning floral print maxi dress is perfect for summer events, garden parties, or elegant evenings out. The premium fabric and flattering silhouette make it a standout choice for any occasion.")),
      Product("2", "Classic Black Tuxedo", 89, 450,
        "https://images.unsplash.com/photo-1556032743-4a05cf119e8f?q=80&w=2835&auto=format&fit=crop",
        "Armani", "Suits", false,
        Some("A timeless classic black tuxedo that offers sophistication and elegance for formal events. Tailored to perfection with premium materials.")),
      Product("3", "Silk Evening Gown", 75, 380,
        "https://images.unsplash.com/photo-1566174053879-31528523f8ae?q=80&w=2830&auto=format&fit=crop",
        "Versace", "Dresses", false,
        Some("An exquisite silk evening gown that exudes luxury and grace. Designed with attention to detail and crafted from the finest silk.")),
      Product("4", "Casual Linen Blazer", 45, 220,
        "https://images.unsplash.com/photo-1611312449408-fcece27cdbb7?q=80&w=2938&auto=format&fit=crop",
        "Zara", "Outerwear", true,
        Some("A versatile linen blazer perfect for casual or semi-formal occasions. Lightweight and comfortable for year-round wear.")),
      Product("5", "Sequin Cocktail Dress", 70, 350,
        "https://images.unsplash.com/photo-1596703263926-eb0762ee17e4?q=80&w=2787&auto=format&fit=crop",
        "Prada", "Dresses", false,
        Some("Make a statement with this dazzling sequin cocktail dress. Perfect for parties and evening events where you want to shine.")),
      Product("6", "Navy Blue Suit", 85, 420,
        "https://images.unsplash.com/photo-1594938298603-c8148c4dae35?q=80&w=2784&auto=format&fit=crop",
        "Hugo Boss", "Suits", false,
        Some("A sophisticated navy blue suit that combines classic styling with modern tailoring. Versatile enough for both business and formal occasions.")),
      Product("7", "Crystal Embellished Clutch", 30, 150,
        "https://images.unsplash.com/photo-1601924638867-3a6de6b7a500?q=80&w=2770&auto=format&fit=crop",
        "Chanel", "Accessories", true,
        Some("An elegant crystal embellished clutch that adds a touch of glamour to any outfit. Perfect for special occasions and evening events.")),
      Product("8", "Leather Biker Jacket", 55, 275,
        "https://images.unsplash.com/photo-1521223890158-f9f7c3d5d504?q=80&w=2923&auto=format&fit=crop",
        "Saint Laurent", "Outerwear", false,
        Some("A classic leather biker jacket that never goes out of style. Crafted from premium leather with attention to detail and durability.")),
      Product("9", "Velvet Formal Dress", 60, 300,
        "https://images.unsplash.com/photo-1623609163859-ca93c959b98a?q=80&w=2787&auto=format&fit=crop",
        "Dolce & Gabbana", "Dresses", false,
        Some("A luxurious velvet formal dress that combines elegance with comfort. The rich texture adds depth and sophistication to your look.")),
      Product("10", "Charcoal Gray Suit", 80, 400,
        "https://images.unsplash.com/photo-1593032465175-481ac7f401a0?q=80&w=2940&auto=format&fit=crop",
        "Tom Ford", "Suits", true,
        Some("A premium charcoal gray suit that offers versatility and style. Perfect for business meetings, formal events, or special occasions.")),
      Product("11", "Off-Shoulder Satin Gown", 95, 475,
        "https://images.unsplash.com/photo-1583744946564-b52ac1c389c8?q=80&w=2874&auto=format&fit=crop",
        "Valentino", "Dresses", false,
        Some("An elegant off-shoulder satin gown that creates a stunning silhouette. The flowing design and premium fabric make it perfect for galas and formal events.")),
      Product("12", "Designer Bow Tie", 15, 75,
        "https://images.unsplash.com/photo-1607541602069-fef603da2be3?q=80&w=2781&auto=format&fit=crop",
        "Fendi", "Accessories", false,
        Some("A sophisticated designer bow tie that adds the perfect finishing touch to formal attire. Crafted with precision and attention to detail."))
    ]

  /** No two products of the list share an id. */
  predicate DistinctIds(products: seq<Product>) {
    forall i, j :: 0 <= i < j < |products| ==> products[i].id != products[j].id
  }

  /** `products.find(p => p.id === id)`: the first product with that id, if any. */
  function FindById(products: seq<Product>, id: string): (r: Option<Product>)
    ensures r.None? <==> forall k :: 0 <= k < |products| ==> products[k].id != id
    ensures r.Some? ==> exists k :: 0 <= k < |products| && products[k] == r.value && products[k].id == id
                                    && forall j :: 0 <= j < k ==> products[j].id != id
  {
    if products == [] then None
    else if products[0].id == id then Some(products[0])
    else
      var r := FindById(products[1..], id);
      if r.Some? then
        var k :| 0 <= k < |products[1..]| && products[1..][k] == r.value && products[1..][k].id == id
                 && forall j :: 0 <= j < k ==> products[1..][j].id != id;
        assert products[k + 1] == r.value;
        r
      else r
  }

  /** `getProductById`: the catalogue product with that id, or null. */
  function GetProductById(id: string): (r: Option<Product>)
    ensures r.Some? ==> r.value in MockClothing && r.value.id == id
    ensures r.None? ==> forall p :: p in MockClothing ==> p.id != id
  {
    FindById(MockClothing, id)
  }

  /** `arr.slice(0, limit)`: a negative limit counts back from the end. */
  function SliceEnd(n: nat, limit: int): (r: nat)
    ensures r <= n
    ensures limit >= 0 ==> r == if limit <= n then limit else n
    ensures limit < 0 ==> r == if n + limit >= 0 then n + limit else 0
  {
    if limit >= 0 then (if limit <= n then limit else n)
    else if n + limit >= 0 then n + limit else 0
  }

  /** The products `getRelatedProducts` keeps: another id, exactly the same category (case-sensitive). */
  predicate IsRelated(p: Product, id: string, category: string) {
    p.id != id && p.category == category
  }

  /** Every product of `products` related to (id, category), in list order. */
  function RelatedIn(products: seq<Product>, id: string, category: string): seq<Product> {
    Filter(products, p => IsRelated(p, id, category))
  }

  /** The first `limit` products of `products` related to (id, category). */
  function FirstRelated(products: seq<Product>, id: string, category: string, limit: int): seq<Product> {
    var matches := RelatedIn(products, id, category);
    matches[..SliceEnd(|matches|, limit)]
  }

  /** `getRelatedProducts(id, category, limit)` over the catalogue. */
  function GetRelatedProducts(id: string, category: string, limit: int): seq<Product> {
    FirstRelated(MockClothing, id, category, limit)
  }

  /** The catalogue's ids are "1" to "12", in order. */
  lemma CatalogueIdsAre(k: int)
    requires 0 <= k < |MockClothing|
    ensures |MockClothing| == 12
    ensures MockClothing[k].id == ["1", "2", "3", "4", "5", "6", "7", "8", "9", "10", "11", "12"][k]
  {
  }

  lemma TwelveIdsDistinct()
    ensures NoDuplicates(["1", "2", "3", "4", "5", "6", "7", "8", "9", "10", "11", "12"])
  {
  }

  /** No two catalogue products share an id. */
  lemma CatalogueIdsDistinct()
    ensures DistinctIds(MockClothing)
  {
    TwelveIdsDistinct();
    forall i, j | 0 <= i < j < |MockClothing| ensures MockClothing[i].id != MockClothing[j].id {
      CatalogueIdsAre(i);
      CatalogueIdsAre(j);
    }
  }

  /** In a list whose ids are distinct, a product found by id is the only product with that id. */
  lemma FoundIsUnique(products: seq<Product>, id: string)
    requires DistinctIds(products)
    ensures FindById(products, id).Some? ==>
      forall p :: p in products && p.id == id ==> p == FindById(products, id).value
  {
    forall p | p in products && p.id == id && FindById(products, id).Some?
      ensures p == FindById(products, id).value
    {
      var q := FindById(products, id).value;
      var i :| 0 <= i < |products| && products[i] == p;
      var j :| 0 <= j < |products| && products[j] == q && products[j].id == id;
      assert i == j;
    }
  }

  /** So `getProductById` returns the unique catalogue product with that id. */
  lemma GetProductByIdUnique(id: string)
    ensures GetProductById(id).Some? ==>
      forall p :: p in MockClothing && p.id == id ==> p == GetProductById(id).value
  {
    CatalogueIdsDistinct();
    FoundIsUnique(MockClothing, id);
  }

  /**
   * Related products never carry the given id, all have exactly the given category, there
   * are `limit` of them (for a non-negative limit) or every related product when fewer exist,
   * and they are the first related products in list order.
   */
  lemma {:induction false} FirstRelatedSpec(products: seq<Product>, id: string, category: string, limit: int)
    ensures forall p :: p in FirstRelated(products, id, category, limit) ==>
              p in products && p.id != id && p.category == category
    ensures limit >= 0 ==> |FirstRelated(products, id, category, limit)| <= limit
    ensures var n := |RelatedIn(products, id, category)|;
            limit >= 0 ==> |FirstRelated(products, id, category, limit)| == (if limit <= n then limit else n)
    ensures FirstRelated(products, id, category, limit) <= RelatedIn(products, id, category)
    ensures SubsequenceOf(FirstRelated(products, id, category, limit), products)
  {
    var matches := RelatedIn(products, id, category);
    var n := SliceEnd(|matches|, limit);
    var r := matches[..n];
    forall p | p in r ensures p in products && IsRelated(p, id, category) {
      var k :| 0 <= k < n && r[k] == p;
      assert matches[k] == p;
    }
    FilterIsSubsequence(products, p => IsRelated(p, id, category));
    PrefixOfSubsequence(r, matches, products);
  }

  /** A prefix of a sub-list is itself a sub-list. */
  lemma {:induction false} PrefixOfSubsequence(r: seq<Product>, m: seq<Product>, s: seq<Product>)
    requires r <= m && SubsequenceOf(m, s)
    ensures SubsequenceOf(r, s)
    decreases |s|
  {
    if r != [] && s != [] {
      if m[0] == s[0] && SubsequenceOf(m[1..], s[1..]) {
        PrefixOfSubsequence(r[1..], m[1..], s[1..]);
      } else {
        PrefixOfSubsequence(r, m, s[1..]);
      }
    }
  }

  /** With the default limit, `getRelatedProducts` returns at most four catalogue products. */
  lemma DefaultRelatedAtMostFour(id: string, category: string)
    ensures |GetRelatedProducts(id, category, DefaultRelatedLimit)| <= 4
  {
    FirstRelatedSpec(MockClothing, id, category, DefaultRelatedLimit);
  }
}
