/**
 * The records the front end works with (frontend/src/types/index.ts and the
 * `supermarkets` row of frontend/src/lib/supabase.ts). Optional and nullable
 * fields are `Option`s; prices are whole cents.
 */
module Types {
  import opened Wrappers

  datatype Product = Product(
    id: int,
    name: string,
    categoryId: Option<int>,
    categoryName: Option<string>,
    estimatedPrice: Option<int>,
    unit: string)

  datatype ListItem = ListItem(
    id: int,
    shoppingListId: int,
    productId: Option<int>,
    customProductName: Option<string>,
    quantity: int,
    unit: string,
    estimatedPrice: Option<int>,
    isPurchased: bool,
    productName: Option<string>,
    categoryName: Option<string>)

  datatype ShoppingList = ShoppingList(
    id: int,
    name: string,
    description: Option<string>,
    isCompleted: bool,
    items: Option<seq<ListItem>>)

  datatype Supermarket = Supermarket(
    id: int,
    name: string,
    logoUrl: Option<string>,
    color: string)

  /** The body of "add an item to a list". */
  datatype CreateListItemRequest = CreateListItemRequest(
    productId: Option<int>,
    customProductName: Option<string>,
    quantity: int,
    unit: Option<string>,
    estimatedPrice: Option<int>)

  /** `text || fallback` on an optional string: missing and empty both give the fallback. */
  function OrText(o: Option<string>, fallback: string): (r: string)
    ensures o.Some? && o.value != "" ==> r == o.value
    ensures (o.None? || o.value == "") ==> r == fallback
  {
    if o.Some? && o.value != "" then o.value else fallback
  }

  /** `price || 0` on an optional number. */
  function OrZero(o: Option<int>): (r: int)
    ensures o.Some? ==> r == o.value
    ensures o.None? ==> r == 0
  {
    Coalesce(o, 0)
  }
}
