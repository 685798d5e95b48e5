/**
 * The admin product screen: the product list, its search box, the add and edit dialogs with
 * their form-schema checks, and deletion. New product ids are random in the application;
 * here the fresh id is an input.
 */
module ProductManagement {
  import opened Wrappers
  import opened Seqs
  import opened ProductData
  import SearchResults

  /** The values of the product form, shared by the add and edit dialogs. */
  datatype ProductForm = ProductForm(
    name: string, brand: string, category: string,
    price: int, retailPrice: int, description: string, image: string)

  const DefaultForm := ProductForm("", "", "", 0, 0, "", "")

  /** The fields of the form, as named in its error messages. */
  datatype FormField = NameField | BrandField | CategoryField | PriceField | RetailPriceField | DescriptionField

  /** One schema rule: whether `field` passes in `v`. */
  predicate FieldPasses(v: ProductForm, field: FormField) {
    match field
    case NameField => |v.name| >= 2
    case BrandField => |v.brand| >= 1
    case CategoryField => |v.category| >= 1
    case PriceField => v.price > 0
    case RetailPriceField => v.retailPrice > 0
    case DescriptionField => |v.description| >= 10
  }

  /** The schema accepts the form when every rule passes. */
  predicate SchemaValid(v: ProductForm) {
    |v.name| >= 2 && |v.brand| >= 1 && |v.category| >= 1
    && v.price > 0 && v.retailPrice > 0 && |v.description| >= 10
  }

  /** The fields the schema reports, in form order. */
  function SchemaIssues(v: ProductForm): (r: seq<FormField>)
    ensures forall f :: f in r <==> !FieldPasses(v, f)
    ensures r == [] <==> SchemaValid(v)
  {
    (if |v.name| >= 2 then [] else [NameField])
    + (if |v.brand| >= 1 then [] else [BrandField])
    + (if |v.category| >= 1 then [] else [CategoryField])
    + (if v.price > 0 then [] else [PriceField])
    + (if v.retailPrice > 0 then [] else [RetailPriceField])
    + (if |v.description| >= 10 then [] else [DescriptionField])
  }

  /** The empty form fails every rule. */
  lemma DefaultFormFailsEveryRule()
    ensures SchemaIssues(DefaultForm) == [NameField, BrandField, CategoryField, PriceField, RetailPriceField, DescriptionField]
  {
  }

  /** The product `handleAddProduct` builds: the form values, the fresh id, marked new. */
  function NewProduct(v: ProductForm, freshId: string): Product {
    Product(freshId, v.name, v.price, v.retailPrice, v.image, v.brand, v.category, true, Some(v.description))
  }

  /** `handleAddProduct`: the list with the new product appended. */
  function AddProduct(products: seq<Product>, v: ProductForm, freshId: string): seq<Product> {
    products + [NewProduct(v, freshId)]
  }

  /** The product with the seven form fields overwritten; id and `isNew` stay. */
  function Overwrite(p: Product, v: ProductForm): Product {
    p.(name := v.name, brand := v.brand, category := v.category, price := v.price,
       retailPrice := v.retailPrice, description := Some(v.description), image := v.image)
  }

  /** The `map` of `handleEditProduct` over products with id `id`. */
  function EditAll(products: seq<Product>, id: string, v: ProductForm): (r: seq<Product>)
    ensures |r| == |products|
    ensures forall k :: 0 <= k < |products| ==>
      r[k] == if products[k].id == id then Overwrite(products[k], v) else products[k]
  {
    if products == [] then []
    else [if products[0].id == id then Overwrite(products[0], v) else products[0]] + EditAll(products[1..], id, v)
  }

  /** `handleEditProduct`: nothing without a current product. */
  function EditProduct(products: seq<Product>, current: Option<Product>, v: ProductForm): seq<Product> {
    if current.None? then products else EditAll(products, current.value.id, v)
  }

  function OtherProduct(id: string): Product -> bool {
    (p: Product) => p.id != id
  }

  /** `handleDeleteProduct`. */
  function DeleteProduct(products: seq<Product>, id: string): seq<Product> {
    Filter(products, OtherProduct(id))
  }

  /** `filteredProducts`: name, brand or category contains the term, ignoring case. */
  function Visible(products: seq<Product>, term: string): seq<Product> {
    Filter(products, SearchResults.Matches(term))
  }

  /** `openEditDialog`: the form pre-filled from the product, "" for a missing description. */
  function Prefill(p: Product): (v: ProductForm)
    ensures v.description == (if p.description.Some? then p.description.value else "")
  {
    ProductForm(p.name, p.brand, p.category, p.price, p.retailPrice, p.description.GetOr(""), p.image)
  }

  /** Adding keeps every existing product where it was and puts the new one, marked new, last. */
  lemma AddAppendsNewProduct(products: seq<Product>, v: ProductForm, freshId: string)
    ensures var r := AddProduct(products, v, freshId);
            |r| == |products| + 1 && r[..|products|] == products
            && r[|products|].id == freshId && r[|products|].isNew
            && Prefill(r[|products|]) == v
  {
  }

  /** With a fresh id the ids stay distinct. */
  lemma AddKeepsIdsDistinct(products: seq<Product>, v: ProductForm, freshId: string)
    requires DistinctIds(products)
    requires forall k :: 0 <= k < |products| ==> products[k].id != freshId
    ensures DistinctIds(AddProduct(products, v, freshId))
  {
    var r := AddProduct(products, v, freshId);
    forall i, j | 0 <= i < j < |r| ensures r[i].id != r[j].id {
      assert r[i] == products[i];
      if j < |products| {
        assert r[j] == products[j];
      }
    }
  }

  /** Deleting the product just added restores the list. */
  lemma DeleteUndoesAdd(products: seq<Product>, v: ProductForm, freshId: string)
    requires forall k :: 0 <= k < |products| ==> products[k].id != freshId
    ensures DeleteProduct(AddProduct(products, v, freshId), freshId) == products
  {
    FilterAppend(products, [NewProduct(v, freshId)], OtherProduct(freshId));
    FilterAllKept(products, OtherProduct(freshId));
  }

  /** Deleting removes every product with the id and keeps the others in order. */
  lemma DeleteSpec(products: seq<Product>, id: string)
    ensures forall k :: 0 <= k < |DeleteProduct(products, id)| ==> DeleteProduct(products, id)[k].id != id
    ensures forall k :: 0 <= k < |products| && products[k].id != id ==> products[k] in DeleteProduct(products, id)
    ensures SubsequenceOf(DeleteProduct(products, id), products)
  {
    FilterIsSubsequence(products, OtherProduct(id));
  }

  /** Editing keeps the list of ids, hence their distinctness, and every id's `isNew`. */
  lemma EditKeepsIds(products: seq<Product>, current: Option<Product>, v: ProductForm)
    ensures var r := EditProduct(products, current, v);
            |r| == |products|
            && (forall k :: 0 <= k < |r| ==> r[k].id == products[k].id && r[k].isNew == products[k].isNew)
            && (DistinctIds(products) ==> DistinctIds(r))
  {
  }

  /** Saving the same values twice is saving them once. */
  lemma EditIdempotent(products: seq<Product>, current: Option<Product>, v: ProductForm)
    ensures EditProduct(EditProduct(products, current, v), current, v) == EditProduct(products, current, v)
  {
  }

  /**
   * Saving the pre-filled form unedited changes nothing, except that a missing description
   * becomes the empty one.
   */
  lemma SavePrefilledUnchanged(p: Product)
    ensures Overwrite(p, Prefill(p)) == p.(description := Some(p.description.GetOr("")))
    ensures p.description.Some? ==> Overwrite(p, Prefill(p)) == p
  {
  }

  /** The empty search term shows every product; any term shows a sub-list of matching ones. */
  lemma VisibleSpec(products: seq<Product>, term: string)
    ensures Visible(products, "") == products
    ensures forall k :: 0 <= k < |Visible(products, term)| ==> SearchResults.ItemMatches(term, Visible(products, term)[k])
    ensures forall k :: 0 <= k < |products| && SearchResults.ItemMatches(term, products[k]) ==> products[k] in Visible(products, term)
    ensures SubsequenceOf(Visible(products, term), products)
  {
    SearchResults.EmptyQueryShowsEverything(products);
    FilterIsSubsequence(products, SearchResults.Matches(term));
  }

  /** The product screen's state. */
  class ProductAdmin {
    var products: seq<Product>
    var searchTerm: string
    var currentProduct: Option<Product>
    /** The values currently entered in the form both dialogs share. */
    var form: ProductForm
    /**
     * The values a bare `form.reset()` restores: `useForm`'s defaults until `openEditDialog`
     * resets the form with a product's values, which then become the defaults.
     */
    var formDefaults: ProductForm
    var addDialogOpen: bool
    var editDialogOpen: bool

    /** The reset target is the empty form, or the form of the product last opened for editing. */
    predicate ResetTargetKnown()
      reads this
    {
      formDefaults == DefaultForm || (currentProduct.Some? && formDefaults == Prefill(currentProduct.value))
    }

    /** Starts from the given catalogue (the mock catalogue in the application). */
    constructor (catalogue: seq<Product>)
      ensures products == catalogue && searchTerm == "" && currentProduct.None?
      ensures form == DefaultForm && formDefaults == DefaultForm && !addDialogOpen && !editDialogOpen
      ensures ResetTargetKnown()
    {
      products := catalogue;
      searchTerm := "";
      currentProduct := None;
      form := DefaultForm;
      formDefaults := DefaultForm;
      addDialogOpen := false;
      editDialogOpen := false;
    }

    method SetSearchTerm(term: string)
      modifies this
      ensures searchTerm == term && products == old(products) && currentProduct == old(currentProduct)
      ensures form == old(form) && formDefaults == old(formDefaults)
      ensures addDialogOpen == old(addDialogOpen) && editDialogOpen == old(editDialogOpen)
    {
      searchTerm := term;
    }

    method SetAddDialogOpen(open: bool)
      modifies this
      ensures addDialogOpen == open && products == old(products) && searchTerm == old(searchTerm)
      ensures currentProduct == old(currentProduct) && form == old(form) && formDefaults == old(formDefaults)
      ensures editDialogOpen == old(editDialogOpen)
    {
      addDialogOpen := open;
    }

    /** Typing into the dialog's inputs: the form holds the values entered so far. */
    method SetFormValues(v: ProductForm)
      modifies this
      ensures form == v && formDefaults == old(formDefaults)
      ensures products == old(products) && searchTerm == old(searchTerm) && currentProduct == old(currentProduct)
      ensures addDialogOpen == old(addDialogOpen) && editDialogOpen == old(editDialogOpen)
    {
      form := v;
    }

    /**
     * Submitting the add dialog with the form's current values: the schema gates
     * `handleAddProduct`; on success the product is appended, the dialog closes and the form
     * is reset to its current defaults, which are the empty form only if no product has been
     * opened for editing.
     */
    method SubmitAdd(freshId: string) returns (issues: seq<FormField>)
      requires ResetTargetKnown()
      modifies this
      ensures ResetTargetKnown()
      ensures issues == SchemaIssues(old(form))
      ensures issues == [] ==> products == AddProduct(old(products), old(form), freshId) && !addDialogOpen && form == formDefaults
      ensures issues == [] ==> form == DefaultForm || (currentProduct.Some? && form == Prefill(currentProduct.value))
      ensures issues != [] ==> products == old(products) && addDialogOpen == old(addDialogOpen) && form == old(form)
      ensures searchTerm == old(searchTerm) && currentProduct == old(currentProduct) && editDialogOpen == old(editDialogOpen)
      ensures formDefaults == old(formDefaults)
    {
      issues := SchemaIssues(form);
      if issues == [] {
        products := products + [NewProduct(form, freshId)];
        addDialogOpen := false;
        form := formDefaults;
      }
    }

    /** `openEditDialog(p)`: `form.reset(values)` also makes the values the form's defaults. */
    method OpenEditDialog(p: Product)
      modifies this
      ensures currentProduct == Some(p) && form == Prefill(p) && formDefaults == Prefill(p) && editDialogOpen
      ensures ResetTargetKnown()
      ensures products == old(products) && searchTerm == old(searchTerm) && addDialogOpen == old(addDialogOpen)
    {
      currentProduct := Some(p);
      form := Prefill(p);
      formDefaults := Prefill(p);
      editDialogOpen := true;
    }

    /**
     * Submitting the edit dialog with the form's current values: the schema gates `handleEditProduct`, which returns early
     * without a current product; otherwise the products are rewritten and the dialog closes.
     */
    method SubmitEdit() returns (issues: seq<FormField>)
      modifies this
      ensures issues == SchemaIssues(form)
      ensures issues == [] && old(currentProduct).Some? ==>
                products == EditProduct(old(products), old(currentProduct), form) && !editDialogOpen
      ensures issues != [] || old(currentProduct).None? ==>
                products == old(products) && editDialogOpen == old(editDialogOpen)
      ensures searchTerm == old(searchTerm) && currentProduct == old(currentProduct)
      ensures form == old(form) && formDefaults == old(formDefaults) && addDialogOpen == old(addDialogOpen)
    {
      issues := SchemaIssues(form);
      if issues == [] && currentProduct.Some? {
        products := EditAll(products, currentProduct.value.id, form);
        editDialogOpen := false;
      }
    }

    /** `handleDeleteProduct(id)`. */
    method DeleteItem(id: string)
      modifies this
      ensures products == DeleteProduct(old(products), id)
      ensures forall k :: 0 <= k < |products| ==> products[k].id != id
      ensures searchTerm == old(searchTerm) && currentProduct == old(currentProduct)
      ensures form == old(form) && formDefaults == old(formDefaults)
      ensures addDialogOpen == old(addDialogOpen) && editDialogOpen == old(editDialogOpen)
    {
      DeleteSpec(products, id);
      products := Filter(products, OtherProduct(id));
    }
  }
}
