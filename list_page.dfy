/**
 * The shopping-list page (frontend/src/pages/ListPage.tsx): the product
 * search of its "add product" dialog, the request that dialog submits, and
 * the local update once the item has been added.
 */
module ListPage {
  import opened Wrappers
  import opened JsText
  import opened Types
  import Seqs
  import Server

  /** `filteredProducts`: all products for an empty search, else those whose name contains it. */
  function FilteredProducts(products: seq<Product>, searchTerm: string): (r: seq<Product>)
    ensures searchTerm == "" ==> r == products
    ensures Seqs.IsSubsequence(r, products)
    ensures forall i :: 0 <= i < |r| ==> ContainsIgnoringCase(r[i].name, searchTerm)
    ensures forall i :: 0 <= i < |products| && ContainsIgnoringCase(products[i].name, searchTerm) ==> products[i] in r
  {
    var matches := (p: Product) => ContainsIgnoringCase(p.name, searchTerm);
    if searchTerm != "" then
      Seqs.FilterIsSubsequence(products, matches);
      Seqs.Filter(products, matches)
    else
      Seqs.FilterKeepsAll(products, matches);
      Seqs.FilterIsSubsequence(products, matches);
      forall i | 0 <= i < |products| ensures matches(products[i]) {
        EmptyTermMatches(products[i].name);
      }
      products
  }

  /** `handleSubmit`: the request passed to `onAddItem`, if any. */
  function HandleSubmit(isCreatingNew: bool, customProductName: string, selectedProduct: Option<Product>,
                        quantity: int): (r: Option<CreateListItemRequest>)
    ensures r.Some? && isCreatingNew ==>
      r.value.customProductName == Some(customProductName) && r.value.productId.None? && r.value.quantity == quantity
    ensures r.Some? && !isCreatingNew ==>
      selectedProduct.Some? && r.value.productId == Some(selectedProduct.value.id) &&
      r.value.customProductName.None? && r.value.quantity == quantity
    ensures r.Some? && !isCreatingNew ==>
      r.value.estimatedPrice == if selectedProduct.value.estimatedPrice == Some(0) then None else selectedProduct.value.estimatedPrice
  {
    if isCreatingNew && Trim(customProductName) != "" then
      Some(CreateListItemRequest(None, Some(customProductName), quantity, None, None))
    else if !isCreatingNew && selectedProduct.Some? then
      var p := selectedProduct.value;
      Some(CreateListItemRequest(Some(p.id), None, quantity, None,
        if p.estimatedPrice.Some? && p.estimatedPrice.value != 0 then p.estimatedPrice else None))
    else None
  }

  /** `canSubmit`. */
  predicate CanSubmit(isCreatingNew: bool, customProductName: string, selectedProduct: Option<Product>)
  {
    (isCreatingNew && Trim(customProductName) != "") || (!isCreatingNew && selectedProduct.Some?)
  }

  /** The submit button is enabled exactly when submitting sends a request. */
  lemma SubmitIffCanSubmit(isCreatingNew: bool, customProductName: string, selectedProduct: Option<Product>, quantity: int)
    ensures HandleSubmit(isCreatingNew, customProductName, selectedProduct, quantity).Some?
        <==> CanSubmit(isCreatingNew, customProductName, selectedProduct)
  {
  }

  /** The request as the back end's item handler reads it. */
  function AsNewItem(req: CreateListItemRequest): Server.NewItem
  {
    Server.NewItem(req.productId, req.customProductName, Some(req.quantity), req.unit, req.estimatedPrice, None)
  }

  /**
   * Every request the dialog sends names a product or a custom name, so the
   * back end's 400 check never refuses it (catalogue ids are positive).
   */
  lemma SubmittedRequestsAreAccepted(isCreatingNew: bool, customProductName: string, selectedProduct: Option<Product>, quantity: int)
    requires selectedProduct.Some? ==> selectedProduct.value.id > 0
    requires HandleSubmit(isCreatingNew, customProductName, selectedProduct, quantity).Some?
    ensures Server.HasProductOrName(AsNewItem(HandleSubmit(isCreatingNew, customProductName, selectedProduct, quantity).value))
  {
  }

  /** `handleAddItem`'s update: the new item goes to the end of the loaded list's items. */
  function HandleAddItem(list: Option<ShoppingList>, newItem: ListItem): (r: Option<ShoppingList>)
    ensures list.None? ==> r.None?
    ensures list.Some? ==> r.Some? && r.value.items.Some?
    ensures list.Some? ==>
      var before := Coalesce(list.value.items, []);
      r.value.items.value == before + [newItem] && r.value.items.value[..|before|] == before &&
      r.value == list.value.(items := r.value.items)
  {
    match list
    case None => None
    case Some(l) => Some(l.(items := Some(Coalesce(l.items, []) + [newItem])))
  }

  /** Adding an item grows the list by one and keeps every earlier item where it was. */
  lemma AddItemAppends(l: ShoppingList, newItem: ListItem)
    ensures |HandleAddItem(Some(l), newItem).value.items.value| == |Coalesce(l.items, [])| + 1
    ensures forall i :: 0 <= i < |Coalesce(l.items, [])| ==>
      HandleAddItem(Some(l), newItem).value.items.value[i] == Coalesce(l.items, [])[i]
    ensures HandleAddItem(Some(l), newItem).value.items.value[|Coalesce(l.items, [])|] == newItem
  {
  }
}
