/**
 * The list and product logic of the main application screens
 * (frontend/src/index.tsx): the search over shopping lists and its split into
 * active and completed lists, the item sorts and the pending/completed split
 * of a list's items, the local item updates after toggling or deleting, the
 * product catalogue's filter and sort, and the "add item" dialog's save rule.
 *
 * `localeCompare` is a caller-given ranking `collate` of strings; every
 * comparator of the source has the form `key(a) - key(b)`, so each sort is
 * `Seqs.SortByKey` with the matching key.
 */
module MainApp {
  import opened Wrappers
  import opened JsText
  import opened Types
  import Seqs

  // ---------------------------------------------------------------------------
  // Shopping lists on the home screen

  predicate NameMatches(l: ShoppingList, query: string)
  {
    ContainsIgnoringCase(l.name, query)
  }

  /** `filteredLists`: the lists whose name contains the query, in their order. */
  function FilteredLists(lists: seq<ShoppingList>, query: string): (r: seq<ShoppingList>)
    ensures Seqs.IsSubsequence(r, lists)
    ensures forall i :: 0 <= i < |r| ==> NameMatches(r[i], query)
    ensures forall i :: 0 <= i < |lists| && NameMatches(lists[i], query) ==> lists[i] in r
  {
    Seqs.FilterIsSubsequence(lists, (l: ShoppingList) => NameMatches(l, query));
    Seqs.Filter(lists, (l: ShoppingList) => NameMatches(l, query))
  }

  function ActiveLists(lists: seq<ShoppingList>, query: string): seq<ShoppingList>
  {
    Seqs.Filter(FilteredLists(lists, query), (l: ShoppingList) => !l.isCompleted)
  }

  function CompletedLists(lists: seq<ShoppingList>, query: string): seq<ShoppingList>
  {
    Seqs.Filter(FilteredLists(lists, query), (l: ShoppingList) => l.isCompleted)
  }

  /** Active and completed lists split the matching lists between them. */
  lemma ListsPartition(lists: seq<ShoppingList>, query: string)
    ensures multiset(ActiveLists(lists, query)) + multiset(CompletedLists(lists, query))
         == multiset(FilteredLists(lists, query))
    ensures forall l :: l in ActiveLists(lists, query) ==> !l.isCompleted && NameMatches(l, query)
    ensures forall l :: l in CompletedLists(lists, query) ==> l.isCompleted && NameMatches(l, query)
  {
    Seqs.FilterPartition(FilteredLists(lists, query), (l: ShoppingList) => !l.isCompleted, (l: ShoppingList) => l.isCompleted);
  }

  // ---------------------------------------------------------------------------
  // Items of one list

  const NoCategory: string := "Sin categoría"

  /** `product_name || custom_product_name || ''`. */
  function ItemName(it: ListItem): string
  {
    OrText(it.productName, OrText(it.customProductName, ""))
  }

  /** The sort key each comparator of `sortItems` subtracts. */
  function ItemKey(sortBy: string, collate: string -> int, it: ListItem): int
  {
    if sortBy == "name" then collate(ItemName(it))
    else if sortBy == "price_asc" then OrZero(it.estimatedPrice)
    else if sortBy == "price_desc" then -OrZero(it.estimatedPrice)
    else if sortBy == "category" then collate(OrText(it.categoryName, NoCategory))
    else it.id
  }

  /** `sortItems(itemsToSort)`: a sorted copy holding exactly the same items. */
  function SortItems(items: seq<ListItem>, sortBy: string, collate: string -> int): (r: seq<ListItem>)
    ensures multiset(r) == multiset(items) && |r| == |items|
    ensures sortBy == "name" ==>
      forall i, j :: 0 <= i < j < |r| ==> collate(ItemName(r[i])) <= collate(ItemName(r[j]))
    ensures sortBy == "price_asc" ==>
      forall i, j :: 0 <= i < j < |r| ==> OrZero(r[i].estimatedPrice) <= OrZero(r[j].estimatedPrice)
    ensures sortBy == "price_desc" ==>
      forall i, j :: 0 <= i < j < |r| ==> OrZero(r[i].estimatedPrice) >= OrZero(r[j].estimatedPrice)
    ensures sortBy == "category" ==>
      forall i, j :: 0 <= i < j < |r| ==> collate(OrText(r[i].categoryName, NoCategory)) <= collate(OrText(r[j].categoryName, NoCategory))
    ensures sortBy !in {"name", "price_asc", "price_desc", "category"} ==>
      forall i, j :: 0 <= i < j < |r| ==> r[i].id <= r[j].id
  {
    var key := (it: ListItem) => ItemKey(sortBy, collate, it);
    var r := Seqs.SortByKey(items, key);
    assert forall i, j :: 0 <= i < j < |r| ==> key(r[i]) <= key(r[j]);
    r
  }

  function PendingItems(items: seq<ListItem>, sortBy: string, collate: string -> int): seq<ListItem>
  {
    SortItems(Seqs.Filter(items, (it: ListItem) => !it.isPurchased), sortBy, collate)
  }

  function CompletedItems(items: seq<ListItem>, sortBy: string, collate: string -> int): seq<ListItem>
  {
    SortItems(Seqs.Filter(items, (it: ListItem) => it.isPurchased), sortBy, collate)
  }

  /** Every item is shown exactly once: pending if not purchased, completed if purchased. */
  lemma ItemsPartition(items: seq<ListItem>, sortBy: string, collate: string -> int)
    ensures multiset(PendingItems(items, sortBy, collate)) + multiset(CompletedItems(items, sortBy, collate)) == multiset(items)
    ensures forall it :: it in PendingItems(items, sortBy, collate) ==> !it.isPurchased
    ensures forall it :: it in CompletedItems(items, sortBy, collate) ==> it.isPurchased
  {
    var pending := Seqs.Filter(items, (it: ListItem) => !it.isPurchased);
    var done := Seqs.Filter(items, (it: ListItem) => it.isPurchased);
    Seqs.FilterPartition(items, (it: ListItem) => !it.isPurchased, (it: ListItem) => it.isPurchased);
    forall it | it in PendingItems(items, sortBy, collate)
      ensures !it.isPurchased
    {
      assert it in multiset(pending);
    }
    forall it | it in CompletedItems(items, sortBy, collate)
      ensures it.isPurchased
    {
      assert it in multiset(done);
    }
  }

  /**
   * `toggleItem(itemId, isPurchased)`: the item with that id gets
   * `is_purchased: !isPurchased`, taken from the argument; the rest are kept.
   */
  function ToggleItem(items: seq<ListItem>, itemId: int, isPurchased: bool): (r: seq<ListItem>)
    ensures |r| == |items|
    ensures forall i :: 0 <= i < |r| ==> r[i].id == items[i].id
    ensures forall i :: 0 <= i < |r| && items[i].id == itemId ==> r[i] == items[i].(isPurchased := !isPurchased)
    ensures forall i :: 0 <= i < |r| && items[i].id != itemId ==> r[i] == items[i]
  {
    seq(|items|, i requires 0 <= i < |items| =>
      if items[i].id == itemId then items[i].(isPurchased := !isPurchased) else items[i])
  }

  /** Toggling an item with its current state and then with its new state restores the items. */
  lemma ToggleTwice(items: seq<ListItem>, itemId: int, isPurchased: bool)
    requires forall i :: 0 <= i < |items| && items[i].id == itemId ==> items[i].isPurchased == isPurchased
    ensures ToggleItem(ToggleItem(items, itemId, isPurchased), itemId, !isPurchased) == items
  {
  }

  /** `deleteItem(itemId)`: every item with another id stays, in order. */
  function DeleteItem(items: seq<ListItem>, itemId: int): (r: seq<ListItem>)
    ensures Seqs.IsSubsequence(r, items)
    ensures forall i :: 0 <= i < |r| ==> r[i].id != itemId
    ensures forall i :: 0 <= i < |items| && items[i].id != itemId ==> items[i] in r
  {
    Seqs.FilterIsSubsequence(items, (it: ListItem) => it.id != itemId);
    Seqs.Filter(items, (it: ListItem) => it.id != itemId)
  }

  // ---------------------------------------------------------------------------
  // The product catalogue

  /** `product.category_id?.toString() === selectedCategory`, with no selection matching all. */
  predicate CategorySelected(p: Product, selectedCategory: string)
  {
    selectedCategory == "" || (p.categoryId.Some? && IntToString(p.categoryId.value) == selectedCategory)
  }

  predicate ProductMatches(p: Product, search: string, selectedCategory: string)
  {
    ContainsIgnoringCase(p.name, search) && CategorySelected(p, selectedCategory)
  }

  /** The sort key of the catalogue's comparators; the default `'created'` puts higher ids first. */
  function ProductKey(sortBy: string, collate: string -> int, p: Product): int
  {
    if sortBy == "name" then collate(p.name)
    else if sortBy == "price_asc" then OrZero(p.estimatedPrice)
    else if sortBy == "price_desc" then -OrZero(p.estimatedPrice)
    else if sortBy == "category" then collate(OrText(p.categoryName, NoCategory))
    else -p.id
  }

  /** `filteredAndSortedProducts`: the matching products, sorted. */
  function FilteredAndSortedProducts(products: seq<Product>, search: string, selectedCategory: string,
                                     sortBy: string, collate: string -> int): (r: seq<Product>)
    ensures multiset(r) == multiset(Seqs.Filter(products, (p: Product) => ProductMatches(p, search, selectedCategory)))
    ensures forall i :: 0 <= i < |r| ==> ProductMatches(r[i], search, selectedCategory) && r[i] in products
    ensures forall i :: 0 <= i < |products| && ProductMatches(products[i], search, selectedCategory) ==> products[i] in r
    ensures sortBy == "name" ==>
      forall i, j :: 0 <= i < j < |r| ==> collate(r[i].name) <= collate(r[j].name)
    ensures sortBy == "price_asc" ==>
      forall i, j :: 0 <= i < j < |r| ==> OrZero(r[i].estimatedPrice) <= OrZero(r[j].estimatedPrice)
    ensures sortBy == "price_desc" ==>
      forall i, j :: 0 <= i < j < |r| ==> OrZero(r[i].estimatedPrice) >= OrZero(r[j].estimatedPrice)
    ensures sortBy == "category" ==>
      forall i, j :: 0 <= i < j < |r| ==> collate(OrText(r[i].categoryName, NoCategory)) <= collate(OrText(r[j].categoryName, NoCategory))
    ensures sortBy !in {"name", "price_asc", "price_desc", "category"} ==>
      forall i, j :: 0 <= i < j < |r| ==> r[i].id >= r[j].id
  {
    var matching := Seqs.Filter(products, (p: Product) => ProductMatches(p, search, selectedCategory));
    var key := (p: Product) => ProductKey(sortBy, collate, p);
    var r := Seqs.SortByKey(matching, key);
    ProductOrder(r, sortBy, collate);
    Seqs.SameElements(r, matching);
    r
  }

  /** What ascending `ProductKey` order means for each sort of the catalogue. */
  lemma ProductOrder(r: seq<Product>, sortBy: string, collate: string -> int)
    requires Seqs.SortedBy(r, (p: Product) => ProductKey(sortBy, collate, p))
    ensures sortBy == "name" ==>
      forall i, j :: 0 <= i < j < |r| ==> collate(r[i].name) <= collate(r[j].name)
    ensures sortBy == "price_asc" ==>
      forall i, j :: 0 <= i < j < |r| ==> OrZero(r[i].estimatedPrice) <= OrZero(r[j].estimatedPrice)
    ensures sortBy == "price_desc" ==>
      forall i, j :: 0 <= i < j < |r| ==> OrZero(r[i].estimatedPrice) >= OrZero(r[j].estimatedPrice)
    ensures sortBy == "category" ==>
      forall i, j :: 0 <= i < j < |r| ==> collate(OrText(r[i].categoryName, NoCategory)) <= collate(OrText(r[j].categoryName, NoCategory))
    ensures sortBy !in {"name", "price_asc", "price_desc", "category"} ==>
      forall i, j :: 0 <= i < j < |r| ==> r[i].id >= r[j].id
  {
    assert forall i, j :: 0 <= i < j < |r| ==> ProductKey(sortBy, collate, r[i]) <= ProductKey(sortBy, collate, r[j]);
  }

  /** The add-item dialog's filter: `!searchTerm || name includes searchTerm`. */
  predicate ModalProductMatches(p: Product, searchTerm: string, selectedCategory: string)
  {
    (searchTerm == "" || ContainsIgnoringCase(p.name, searchTerm)) && CategorySelected(p, selectedCategory)
  }

  function ModalFilteredProducts(products: seq<Product>, searchTerm: string, selectedCategory: string,
                                 sortBy: string, collate: string -> int): seq<Product>
  {
    var matching := Seqs.Filter(products, (p: Product) => ModalProductMatches(p, searchTerm, selectedCategory));
    Seqs.SortByKey(matching, (p: Product) => ProductKey(sortBy, collate, p))
  }

  /** The dialog's extra `!searchTerm` test changes nothing: it shows the catalogue screen's list. */
  lemma ModalFilterAgrees(products: seq<Product>, searchTerm: string, selectedCategory: string,
                          sortBy: string, collate: string -> int)
    ensures ModalFilteredProducts(products, searchTerm, selectedCategory, sortBy, collate)
         == FilteredAndSortedProducts(products, searchTerm, selectedCategory, sortBy, collate)
  {
    forall i | 0 <= i < |products|
      ensures ModalProductMatches(products[i], searchTerm, selectedCategory)
           == ProductMatches(products[i], searchTerm, selectedCategory)
    {
      EmptyTermMatches(products[i].name);
    }
    Seqs.FilterSameTest(products,
      (p: Product) => ModalProductMatches(p, searchTerm, selectedCategory),
      (p: Product) => ProductMatches(p, searchTerm, selectedCategory));
  }

  // ---------------------------------------------------------------------------
  // The add-item dialog's save

  /** The product created first when the dialog adds a new product. */
  datatype NewProductData = NewProductData(
    name: string,
    categoryId: Option<int>,
    estimatedPrice: Option<int>,
    unit: string)

  /** The item body posted to the list. */
  datatype ItemPayload = ItemPayload(
    productId: int,
    quantity: int,
    unit: string,
    estimatedPrice: Option<int>)

  datatype SaveAction =
    | NoSave
      /** Create the product, then post `ItemForCreated` of what the server returns. */
    | CreateProductThenAdd(product: NewProductData, quantity: int)
    | AddExisting(payload: ItemPayload)

  /** `canSave`. */
  predicate CanSave(isCreatingNew: bool, customName: string, selectedProduct: Option<Product>)
  {
    (isCreatingNew && Trim(customName) != "") || (!isCreatingNew && selectedProduct.Some?)
  }

  /**
   * `handleSave`. `newProductPrice` is the parsed price field (`None` when
   * empty); `parseInt` of the category selection that is not a number is sent
   * as `null`.
   */
  function HandleSave(token: Option<string>, isCreatingNew: bool, customName: string,
                      selectedProduct: Option<Product>, quantity: int, selectedCategory: string,
                      newProductPrice: Option<int>, newProductUnit: string): (r: SaveAction)
    ensures r.CreateProductThenAdd? ==> isCreatingNew && r.product.name == customName && r.quantity == quantity
    ensures r.CreateProductThenAdd? && selectedCategory == "" ==> r.product.categoryId.None?
    ensures r.CreateProductThenAdd? && selectedCategory != "" ==> r.product.categoryId == ParseInt(selectedCategory)
    ensures r.CreateProductThenAdd? ==>
      r.product.estimatedPrice == newProductPrice && r.product.unit == newProductUnit
    ensures r.AddExisting? ==> !isCreatingNew && selectedProduct.Some? && r.payload.productId == selectedProduct.value.id
    ensures r.AddExisting? ==>
      var p := selectedProduct.value;
      && r.payload.quantity == quantity
      && r.payload.unit == (if p.unit != "" then p.unit else "unidad")
      && r.payload.estimatedPrice == (if p.estimatedPrice == Some(0) then None else p.estimatedPrice)
    ensures r.AddExisting? ==> r.payload.unit != "" && r.payload.estimatedPrice != Some(0)
  {
    if token.None? || token.value == "" then NoSave
    else if isCreatingNew && Trim(customName) == "" then NoSave
    else if !isCreatingNew && selectedProduct.None? then NoSave
    else if isCreatingNew then
      CreateProductThenAdd(
        NewProductData(customName,
          if selectedCategory != "" then ParseInt(selectedCategory) else None,
          newProductPrice, newProductUnit),
        quantity)
    else
      var p := selectedProduct.value;
      AddExisting(ItemPayload(p.id, quantity, if p.unit != "" then p.unit else "unidad",
        if p.estimatedPrice.Some? && p.estimatedPrice.value != 0 then p.estimatedPrice else None))
  }

  /** The item posted after the new product exists: its id and the unit the server stored. */
  function ItemForCreated(created: Product, quantity: int): (r: ItemPayload)
    ensures r.productId == created.id && r.unit == created.unit && r.estimatedPrice.None?
  {
    ItemPayload(created.id, quantity, created.unit, None)
  }

  /** With a session, the dialog saves exactly when `canSave` says it can; without one it never does. */
  lemma SaveIffCanSave(token: Option<string>, isCreatingNew: bool, customName: string,
                       selectedProduct: Option<Product>, quantity: int, selectedCategory: string,
                       newProductPrice: Option<int>, newProductUnit: string)
    ensures token.Some? && token.value != "" ==>
      (HandleSave(token, isCreatingNew, customName, selectedProduct, quantity, selectedCategory, newProductPrice, newProductUnit) != NoSave
       <==> CanSave(isCreatingNew, customName, selectedProduct))
    ensures token.None? ==>
      HandleSave(token, isCreatingNew, customName, selectedProduct, quantity, selectedCategory, newProductPrice, newProductUnit) == NoSave
  {
  }
}
