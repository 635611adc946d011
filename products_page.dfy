/**
 * The product catalogue page (frontend/src/pages/ProductsPage.tsx): the
 * name search and category filter, and the local update after a product is
 * created.
 */
module ProductsPage {
  import opened Wrappers
  import opened JsText
  import opened Types
  import Seqs
  import MainApp

  /** `p.category_id === parseInt(filterCategory, 10)`; NaN equals nothing. */
  predicate InCategory(p: Product, filterCategory: string)
  {
    var parsed := ParseInt(filterCategory);
    parsed.Some? && p.categoryId == parsed
  }

  predicate Shown(p: Product, searchTerm: string, filterCategory: string)
  {
    (searchTerm == "" || ContainsIgnoringCase(p.name, searchTerm)) &&
    (filterCategory == "all" || InCategory(p, filterCategory))
  }

  function BySearch(products: seq<Product>, searchTerm: string): seq<Product>
  {
    if searchTerm != "" then Seqs.Filter(products, (p: Product) => ContainsIgnoringCase(p.name, searchTerm)) else products
  }

  /** `filterProducts`: the name search, then the category filter. */
  function FilterProducts(products: seq<Product>, searchTerm: string, filterCategory: string): seq<Product>
  {
    var filtered := BySearch(products, searchTerm);
    if filterCategory != "all" then Seqs.Filter(filtered, (p: Product) => InCategory(p, filterCategory)) else filtered
  }

  /** The two filters in a row are one filter by `Shown`. */
  lemma {:induction false} FilterProductsIsOneFilter(products: seq<Product>, searchTerm: string, filterCategory: string)
    ensures FilterProducts(products, searchTerm, filterCategory)
         == Seqs.Filter(products, (p: Product) => Shown(p, searchTerm, filterCategory))
  {
    var shown := (p: Product) => Shown(p, searchTerm, filterCategory);
    var search := (p: Product) => ContainsIgnoringCase(p.name, searchTerm);
    var category := (p: Product) => InCategory(p, filterCategory);
    if filterCategory != "all" {
      if searchTerm != "" {
        Seqs.FilterFilter(products, search, category, shown);
      } else {
        Seqs.FilterSameTest(products, category, shown);
      }
    } else {
      if searchTerm != "" {
        Seqs.FilterSameTest(products, search, shown);
      } else {
        Seqs.FilterKeepsAll(products, shown);
      }
    }
  }

  /** The shown products are exactly those passing both filters, in catalogue order. */
  lemma FilterProductsMeaning(products: seq<Product>, searchTerm: string, filterCategory: string)
    ensures Seqs.IsSubsequence(FilterProducts(products, searchTerm, filterCategory), products)
    ensures forall p :: p in FilterProducts(products, searchTerm, filterCategory) ==> Shown(p, searchTerm, filterCategory)
    ensures forall i :: 0 <= i < |products| && Shown(products[i], searchTerm, filterCategory) ==>
      products[i] in FilterProducts(products, searchTerm, filterCategory)
  {
    FilterProductsIsOneFilter(products, searchTerm, filterCategory);
    Seqs.FilterIsSubsequence(products, (p: Product) => Shown(p, searchTerm, filterCategory));
  }

  /** With no search and category `'all'` the page shows the whole catalogue. */
  lemma NoFilterShowsAll(products: seq<Product>)
    ensures FilterProducts(products, "", "all") == products
  {
  }

  /**
   * Selecting category `c` here (compared after `parseInt`) and on the main
   * catalogue screen (compared as `toString`) picks the same products.
   */
  lemma {:induction false} CategoryTestsAgree(p: Product, c: int)
    ensures InCategory(p, IntToString(c)) <==> MainApp.CategorySelected(p, IntToString(c))
  {
    IntToStringParses(c);
    if p.categoryId.Some? {
      IntToStringParses(p.categoryId.value);
    }
  }

  // ---------------------------------------------------------------------------
  // Create

  datatype ProductForm = ProductForm(name: string, categoryId: Option<int>, estimatedPrice: Option<int>, unit: string)

  const EmptyProductForm: ProductForm := ProductForm("", None, None, "ud")

  datatype ProductsState = ProductsState(products: seq<Product>, form: ProductForm, showNewProductModal: bool)

  /**
   * `handleCreateProduct`: a blank name is refused and nothing changes;
   * otherwise `created` goes first, the modal closes and the form goes back to
   * empty fields with unit `'ud'`.
   */
  function HandleCreateProduct(s: ProductsState, created: Product): (r: ProductsState)
    ensures Trim(s.form.name) == "" ==> r == s
    ensures Trim(s.form.name) != "" ==>
      |r.products| == |s.products| + 1 && r.products[0] == created && r.products[1..] == s.products &&
      !r.showNewProductModal && r.form.unit == "ud" && r.form.name == "" &&
      r.form.categoryId.None? && r.form.estimatedPrice.None?
  {
    if Trim(s.form.name) == "" then s
    else ProductsState([created] + s.products, EmptyProductForm, false)
  }

  /** After a creation the form is the page's initial form again, ready for the next product. */
  lemma CreateResetsForm(s: ProductsState, created: Product)
    requires !IsBlank(s.form.name)
    ensures HandleCreateProduct(s, created).form == EmptyProductForm
    ensures Trim(HandleCreateProduct(HandleCreateProduct(s, created), created).form.name) == ""
  {
    TrimEmptyIffBlank(s.form.name);
  }
}
