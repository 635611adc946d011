/**
 * The Express back end (backend/server.js): the tables `products`,
 * `shopping_lists` and `list_items` held as maps from row id to row, the
 * request handlers that change them, the automatic completion of shopping
 * lists, registration checks and the bearer-token split of the
 * authentication middleware.
 *
 * `now` stands for the database's CURRENT_TIMESTAMP; prices are whole cents.
 */
module Server {
  import opened Wrappers
  import opened JsText
  import Seqs

  // ---------------------------------------------------------------------------
  // Rows

  datatype ProductRow = ProductRow(
    name: string,
    categoryId: Option<int>,
    estimatedPrice: Option<int>,
    unit: string)

  datatype ListRow = ListRow(
    userId: int,
    name: string,
    description: Option<string>,
    totalBudget: Option<int>,
    isCompleted: bool,
    completedAt: Option<int>)

  datatype ItemRow = ItemRow(
    listId: int,
    productId: Option<int>,
    customProductName: Option<string>,
    quantity: int,
    unit: string,
    estimatedPrice: Option<int>,
    actualPrice: Option<int>,
    isPurchased: bool,
    notes: Option<string>,
    purchasedAt: Option<int>)

  /** The errors the handlers answer with. */
  datatype ApiError =
    | ProductOrNameRequired   // 400
    | ProductInUse            // 400
    | ProductNotFound         // 404
    | ListNotFound            // 404
    | ItemNotFound            // 404

  function StatusCode(e: ApiError): int
  {
    match e
    case ProductOrNameRequired => 400
    case ProductInUse => 400
    case ProductNotFound => 404
    case ListNotFound => 404
    case ItemNotFound => 404
  }

  // ---------------------------------------------------------------------------
  // JavaScript truthiness of request fields

  predicate IdGiven(o: Option<int>)
  {
    o.Some? && o.value != 0
  }

  predicate TextGiven(o: Option<string>)
  {
    o.Some? && o.value != ""
  }

  // ---------------------------------------------------------------------------
  // Automatic completion of a list

  /** The ids of the items of list `listId` (`COUNT(*)` counts them). */
  function ItemsOf(items: map<int, ItemRow>, listId: int): set<int>
  {
    set id | id in items && items[id].listId == listId
  }

  /** The ids of its purchased items (`COUNT(CASE WHEN is_purchased ...)`). */
  function PurchasedOf(items: map<int, ItemRow>, listId: int): set<int>
  {
    set id | id in items && items[id].listId == listId && items[id].isPurchased
  }

  /** The ids of the items that refer to product `productId`. */
  function ItemsUsing(items: map<int, ItemRow>, productId: int): set<int>
  {
    set id | id in items && items[id].productId == Some(productId)
  }

  /** The usage count is positive exactly when some item refers to the product. */
  lemma InUseMeaning(items: map<int, ItemRow>, productId: int)
    ensures |ItemsUsing(items, productId)| > 0 <==> exists id :: id in items && items[id].productId == Some(productId)
  {
    if exists id :: id in items && items[id].productId == Some(productId) {
      var id :| id in items && items[id].productId == Some(productId);
      assert id in ItemsUsing(items, productId);
    } else {
      assert ItemsUsing(items, productId) == {};
    }
  }

  /** `total_items > 0 && total_items === purchased_items`. */
  predicate ShouldBeCompleted(items: map<int, ItemRow>, listId: int)
  {
    |ItemsOf(items, listId)| > 0 && |ItemsOf(items, listId)| == |PurchasedOf(items, listId)|
  }

  /** A list is due for completion exactly when it has an item and every item is purchased. */
  lemma ShouldBeCompletedMeaning(items: map<int, ItemRow>, listId: int)
    ensures ShouldBeCompleted(items, listId) <==>
      (exists id :: id in items && items[id].listId == listId) &&
      (forall id :: id in items && items[id].listId == listId ==> items[id].isPurchased)
  {
    var all, bought := ItemsOf(items, listId), PurchasedOf(items, listId);
    if !exists id :: id in items && items[id].listId == listId {
      assert all == {};
    } else if !forall id :: id in items && items[id].listId == listId ==> items[id].isPurchased {
      var id :| id in items && items[id].listId == listId && !items[id].isPurchased;
      ProperSubsetIsSmaller(bought, all, id);
    } else {
      var id :| id in items && items[id].listId == listId;
      assert id in all;
      assert all == bought;
    }
  }

  lemma ProperSubsetIsSmaller(a: set<int>, b: set<int>, x: int)
    requires a <= b && x in b && x !in a
    ensures |a| < |b|
  {
    assert b == a + (b - a);
    assert x in b - a;
  }

  /**
   * The two guarded updates of the completion check on one list row:
   * `UPDATE ... SET is_completed = true, completed_at = now WHERE ... AND is_completed = false`
   * when the list should be complete, and
   * `UPDATE ... SET is_completed = false, completed_at = NULL WHERE ... AND is_completed = true`
   * otherwise.
   */
  function CompletionStep(row: ListRow, complete: bool, now: int): (r: ListRow)
    ensures r.isCompleted == complete
    ensures row.isCompleted == complete ==> r == row
    ensures complete && !row.isCompleted ==> r.completedAt == Some(now)
    ensures !complete ==> r.completedAt == (if row.isCompleted then None else row.completedAt)
    ensures r.(isCompleted := row.isCompleted, completedAt := row.completedAt) == row
  {
    if complete then
      if !row.isCompleted then row.(isCompleted := true, completedAt := Some(now)) else row
    else
      if row.isCompleted then row.(isCompleted := false, completedAt := None) else row
  }

  /** Running the completion check a second time changes nothing, whatever the time. */
  lemma CompletionStepIdempotent(row: ListRow, complete: bool, now: int, later: int)
    ensures CompletionStep(CompletionStep(row, complete, now), complete, later)
         == CompletionStep(row, complete, now)
  {
  }

  // ---------------------------------------------------------------------------
  // Partial updates (`SET field = COALESCE($n, field)`)

  datatype ProductPatch = ProductPatch(
    name: Option<string>,
    categoryId: Option<int>,
    estimatedPrice: Option<int>,
    unit: Option<string>)

  datatype ListPatch = ListPatch(
    name: Option<string>,
    description: Option<string>,
    totalBudget: Option<int>,
    isCompleted: Option<bool>)

  datatype ItemPatch = ItemPatch(
    quantity: Option<int>,
    unit: Option<string>,
    estimatedPrice: Option<int>,
    actualPrice: Option<int>,
    isPurchased: Option<bool>,
    notes: Option<string>)

  /** A field takes the supplied value, or keeps its own when none is supplied. */
  predicate PatchedField<T(==)>(supplied: Option<T>, before: T, after: T)
  {
    after == if supplied.Some? then supplied.value else before
  }

  /** PUT /api/products/:id, the row update. */
  function PatchProduct(p: ProductRow, patch: ProductPatch): (r: ProductRow)
    ensures PatchedField(patch.name, p.name, r.name)
    ensures patch.categoryId.Some? ==> r.categoryId == patch.categoryId
    ensures patch.categoryId.None? ==> r.categoryId == p.categoryId
    ensures patch.estimatedPrice.Some? ==> r.estimatedPrice == patch.estimatedPrice
    ensures patch.estimatedPrice.None? ==> r.estimatedPrice == p.estimatedPrice
    ensures PatchedField(patch.unit, p.unit, r.unit)
    ensures patch == ProductPatch(None, None, None, None) ==> r == p
  {
    ProductRow(
      Coalesce(patch.name, p.name),
      if patch.categoryId.Some? then patch.categoryId else p.categoryId,
      if patch.estimatedPrice.Some? then patch.estimatedPrice else p.estimatedPrice,
      Coalesce(patch.unit, p.unit))
  }

  /**
   * PUT /api/shopping-lists/:id, the row update: `completed_at` is stamped
   * only when `is_completed` is supplied as true, and is otherwise kept, even
   * when the list is set back to not completed.
   */
  function PatchList(l: ListRow, patch: ListPatch, now: int): (r: ListRow)
    ensures r.userId == l.userId
    ensures PatchedField(patch.name, l.name, r.name)
    ensures patch.description.Some? ==> r.description == patch.description
    ensures patch.description.None? ==> r.description == l.description
    ensures patch.totalBudget.Some? ==> r.totalBudget == patch.totalBudget
    ensures patch.totalBudget.None? ==> r.totalBudget == l.totalBudget
    ensures PatchedField(patch.isCompleted, l.isCompleted, r.isCompleted)
    ensures r.completedAt == if patch.isCompleted == Some(true) then Some(now) else l.completedAt
  {
    ListRow(
      l.userId,
      Coalesce(patch.name, l.name),
      if patch.description.Some? then patch.description else l.description,
      if patch.totalBudget.Some? then patch.totalBudget else l.totalBudget,
      Coalesce(patch.isCompleted, l.isCompleted),
      if patch.isCompleted == Some(true) then Some(now) else l.completedAt)
  }

  /**
   * PUT /api/shopping-lists/:listId/items/:itemId, the row update:
   * `purchased_at` is stamped only when `is_purchased` is supplied as true.
   */
  function PatchItem(it: ItemRow, patch: ItemPatch, now: int): (r: ItemRow)
    ensures r.listId == it.listId && r.productId == it.productId
    ensures r.customProductName == it.customProductName
    ensures PatchedField(patch.quantity, it.quantity, r.quantity)
    ensures PatchedField(patch.unit, it.unit, r.unit)
    ensures patch.estimatedPrice.Some? ==> r.estimatedPrice == patch.estimatedPrice
    ensures patch.estimatedPrice.None? ==> r.estimatedPrice == it.estimatedPrice
    ensures patch.actualPrice.Some? ==> r.actualPrice == patch.actualPrice
    ensures patch.actualPrice.None? ==> r.actualPrice == it.actualPrice
    ensures PatchedField(patch.isPurchased, it.isPurchased, r.isPurchased)
    ensures patch.notes.Some? ==> r.notes == patch.notes
    ensures patch.notes.None? ==> r.notes == it.notes
    ensures r.purchasedAt == if patch.isPurchased == Some(true) then Some(now) else it.purchasedAt
  {
    it.(
      quantity := Coalesce(patch.quantity, it.quantity),
      unit := Coalesce(patch.unit, it.unit),
      estimatedPrice := if patch.estimatedPrice.Some? then patch.estimatedPrice else it.estimatedPrice,
      actualPrice := if patch.actualPrice.Some? then patch.actualPrice else it.actualPrice,
      isPurchased := Coalesce(patch.isPurchased, it.isPurchased),
      notes := if patch.notes.Some? then patch.notes else it.notes,
      purchasedAt := if patch.isPurchased == Some(true) then Some(now) else it.purchasedAt)
  }

  /** Sending the same partial update twice leaves the row as sending it once (at a later time only the stamps move). */
  lemma PatchesIdempotent(p: ProductRow, pp: ProductPatch, l: ListRow, lp: ListPatch, it: ItemRow, ip: ItemPatch, now: int)
    ensures PatchProduct(PatchProduct(p, pp), pp) == PatchProduct(p, pp)
    ensures PatchList(PatchList(l, lp, now), lp, now) == PatchList(l, lp, now)
    ensures PatchItem(PatchItem(it, ip, now), ip, now) == PatchItem(it, ip, now)
  {
  }

  // ---------------------------------------------------------------------------
  // POST /api/shopping-lists/:listId/items, the row inserted

  datatype NewItem = NewItem(
    productId: Option<int>,
    customProductName: Option<string>,
    quantity: Option<int>,
    unit: Option<string>,
    estimatedPrice: Option<int>,
    notes: Option<string>)

  /** `!product_id && !custom_product_name` is refused. */
  predicate HasProductOrName(req: NewItem)
  {
    IdGiven(req.productId) || TextGiven(req.customProductName)
  }

  /**
   * The row a valid request inserts: quantity `|| 1`, unit `|| 'unidad'`,
   * and, for a catalog product sent without a price, the product's price and
   * (when no unit is sent) the product's unit.
   */
  /** A catalogue product sent without a price, found in `products`: its price and unit are looked up. */
  predicate FromCatalog(req: NewItem, products: map<int, ProductRow>)
  {
    IdGiven(req.productId) && req.estimatedPrice.None? && req.productId.value in products
  }

  function NewItemRow(listId: int, req: NewItem, products: map<int, ProductRow>): (r: ItemRow)
    ensures r.listId == listId && r.productId == req.productId
    ensures r.customProductName == req.customProductName && r.notes == req.notes
    ensures !r.isPurchased && r.purchasedAt.None? && r.actualPrice.None?
    ensures r.quantity != 0
    ensures req.quantity.Some? && req.quantity.value != 0 ==> r.quantity == req.quantity.value
    ensures !(req.quantity.Some? && req.quantity.value != 0) ==> r.quantity == 1
    ensures r.unit != ""
    ensures TextGiven(req.unit) ==> r.unit == req.unit.value
    ensures !FromCatalog(req, products) ==> r.estimatedPrice == req.estimatedPrice
    ensures !FromCatalog(req, products) && !TextGiven(req.unit) ==> r.unit == "unidad"
    ensures FromCatalog(req, products) ==>
      var p := products[req.productId.value];
      && r.estimatedPrice == p.estimatedPrice
      && (!TextGiven(req.unit) ==> r.unit == (if p.unit != "" then p.unit else "unidad"))
  {
    var unit := if TextGiven(req.unit) then req.unit.value else "unidad";
    var fromCatalog := FromCatalog(req, products);
    var price := if fromCatalog then products[req.productId.value].estimatedPrice else req.estimatedPrice;
    var finalUnit :=
      if fromCatalog then
        (if TextGiven(req.unit) then req.unit.value
         else if products[req.productId.value].unit != "" then products[req.productId.value].unit
         else "unidad")
      else unit;
    ItemRow(listId, req.productId, req.customProductName,
            if req.quantity.Some? && req.quantity.value != 0 then req.quantity.value else 1,
            finalUnit, price, None, false, req.notes, None)
  }

  // ---------------------------------------------------------------------------
  // POST /api/auth/register, the checks before the insert

  datatype RegisterRequest = RegisterRequest(
    username: Option<string>,
    email: Option<string>,
    password: Option<string>,
    passwordConfirmation: Option<string>)

  datatype UserRow = UserRow(username: string, email: string)

  datatype RegisterError =
    | MissingFields      // 400
    | PasswordMismatch   // 400
    | EmailTaken         // 409
    | UsernameTaken      // 409

  predicate AllFieldsGiven(req: RegisterRequest)
  {
    TextGiven(req.username) && TextGiven(req.email) && TextGiven(req.password) && TextGiven(req.passwordConfirmation)
  }

  predicate ClashesWith(req: RegisterRequest, u: UserRow)
    requires AllFieldsGiven(req)
  {
    u.email == req.email.value || u.username == req.username.value
  }

  /**
   * The registration checks. `users` are the rows of
   * `SELECT * FROM users WHERE email = $1 OR username = $2` in the order the
   * database returns them (any rows that match neither are ignored); the
   * first returned row decides which clash is reported.
   */
  function CheckRegistration(req: RegisterRequest, users: seq<UserRow>): (r: Option<RegisterError>)
    ensures r.None? <==>
      AllFieldsGiven(req) && req.password == req.passwordConfirmation &&
      forall i :: 0 <= i < |users| ==> users[i].email != req.email.value && users[i].username != req.username.value
    ensures r == Some(EmailTaken) ==> AllFieldsGiven(req) && exists i :: 0 <= i < |users| && users[i].email == req.email.value
    ensures r == Some(UsernameTaken) ==> AllFieldsGiven(req) && exists i :: 0 <= i < |users| && users[i].username == req.username.value
    ensures !AllFieldsGiven(req) ==> r == Some(MissingFields)
    ensures AllFieldsGiven(req) && req.password != req.passwordConfirmation ==> r == Some(PasswordMismatch)
    ensures AllFieldsGiven(req) && req.password == req.passwordConfirmation ==>
      forall k :: 0 <= k < |users| && ClashesWith(req, users[k]) && (forall j :: 0 <= j < k ==> !ClashesWith(req, users[j])) ==>
        r == if users[k].email == req.email.value then Some(EmailTaken) else Some(UsernameTaken)
  {
    if !AllFieldsGiven(req) then Some(MissingFields)
    else if req.password != req.passwordConfirmation then Some(PasswordMismatch)
    else
      var rows := Seqs.Filter(users, (u: UserRow) => ClashesWith(req, u));
      Seqs.FilterHeadIsFirst(users, (u: UserRow) => ClashesWith(req, u));
      if |rows| > 0 then
        if rows[0].email == req.email.value then Some(EmailTaken)
        else if rows[0].username == req.username.value then Some(UsernameTaken)
        else None
      else
        assert forall i :: 0 <= i < |users| ==> !ClashesWith(req, users[i]);
        None
  }

  // ---------------------------------------------------------------------------
  // authenticateToken

  /** `authHeader && authHeader.split(' ')[1]`, with `None` for undefined. */
  function BearerToken(header: Option<string>): (token: Option<string>)
    ensures header.None? ==> token.None?
    ensures header == Some("") ==> token == Some("")
  {
    match header
    case None => None
    case Some(h) =>
      if h == "" then Some("")
      else
        var parts := Split(h, ' ');
        if |parts| > 1 then Some(parts[1]) else None
  }

  datatype AuthOutcome = Unauthorized | Forbidden | Authenticated(userId: int)

  /**
   * The middleware's decision: 401 without a token, 403 when the token does
   * not verify, and the token's user otherwise. `verify` stands for
   * `jwt.verify` with the server's secret.
   */
  function Authenticate(header: Option<string>, verify: string -> Option<int>): (r: AuthOutcome)
    ensures r == Unauthorized <==> BearerToken(header).None?
    ensures r.Authenticated? ==> verify(BearerToken(header).value) == Some(r.userId)
    ensures BearerToken(header).Some? && verify(BearerToken(header).value).None? ==> r == Forbidden
    ensures BearerToken(header).Some? && verify(BearerToken(header).value).Some? ==>
      r == Authenticated(verify(BearerToken(header).value).value)
  {
    match BearerToken(header)
    case None => Unauthorized
    case Some(token) =>
      match verify(token)
      case None => Forbidden
      case Some(user) => Authenticated(user)
  }

  /** A well-formed `Bearer <token>` header yields its token. */
  lemma BearerRoundTrip(token: string)
    requires ' ' !in token
    ensures BearerToken(Some("Bearer " + token)) == Some(token)
  {
    assert "Bearer " + token == "Bearer" + [' '] + token;
    SplitAtFirst("Bearer", ' ', token);
    SplitWithoutSeparator(token, ' ');
  }

  /** A header with no space at all carries no token and is answered with 401. */
  lemma HeaderWithoutSpaceIsUnauthorized(header: string, verify: string -> Option<int>)
    requires header != "" && ' ' !in header
    ensures Authenticate(Some(header), verify) == Unauthorized
  {
    SplitWithoutSeparator(header, ' ');
  }

  // ---------------------------------------------------------------------------
  // The tables and the handlers that change them

  class Store {
    var products: map<int, ProductRow>
    var lists: map<int, ListRow>
    var items: map<int, ItemRow>
    /** The next value of the `list_items.id` sequence. */
    var nextItemId: int

    ghost predicate Valid()
      reads this
    {
      forall id :: id in items ==> id < nextItemId
    }

    /** The completion flag of list `listId` agrees with its items. */
    ghost predicate Agrees(listId: int)
      reads this
    {
      listId in lists ==> lists[listId].isCompleted == ShouldBeCompleted(items, listId)
    }

    /** The list exists and belongs to `userId` (`WHERE id = $1 AND user_id = $2`). */
    predicate Owns(userId: int, listId: int)
      reads this
    {
      listId in lists && lists[listId].userId == userId
    }

    constructor ()
      ensures Valid()
      ensures products == map[] && lists == map[] && items == map[]
    {
      products, lists, items := map[], map[], map[];
      nextItemId := 1;
    }

    /** checkAndUpdateListCompletion(listId). */
    method CheckAndUpdateListCompletion(listId: int, now: int)
      modifies this`lists
      ensures lists == if listId in old(lists)
        then old(lists)[listId := CompletionStep(old(lists)[listId], ShouldBeCompleted(items, listId), now)]
        else old(lists)
      ensures Agrees(listId)
    {
      var total := |ItemsOf(items, listId)|;
      var purchased := |PurchasedOf(items, listId)|;
      var shouldBeCompleted := total > 0 && total == purchased;
      if shouldBeCompleted {
        if listId in lists && !lists[listId].isCompleted {
          lists := lists[listId := lists[listId].(isCompleted := true, completedAt := Some(now))];
        }
      } else {
        if listId in lists && lists[listId].isCompleted {
          lists := lists[listId := lists[listId].(isCompleted := false, completedAt := None)];
        }
      }
    }

    /** PUT /api/products/:id. */
    method UpdateProduct(id: int, patch: ProductPatch) returns (r: Result<ProductRow, ApiError>)
      modifies this`products
      ensures id !in old(products) ==> r == Err(ProductNotFound) && products == old(products)
      ensures id in old(products) ==>
        r == Ok(PatchProduct(old(products)[id], patch)) && products == old(products)[id := r.value]
    {
      if id !in products {
        return Err(ProductNotFound);
      }
      var row := PatchProduct(products[id], patch);
      products := products[id := row];
      return Ok(row);
    }

    /** DELETE /api/products/:id: refused while any list item refers to the product. */
    method DeleteProduct(id: int) returns (r: Result<(), ApiError>)
      modifies this`products
      ensures (exists k :: k in items && items[k].productId == Some(id)) ==>
        r == Err(ProductInUse) && products == old(products)
      ensures (forall k :: k in items ==> items[k].productId != Some(id)) ==>
        if id in old(products) then r == Ok(()) && products == old(products) - {id}
        else r == Err(ProductNotFound) && products == old(products)
    {
      var usage := |ItemsUsing(items, id)|;
      InUseMeaning(items, id);
      if usage > 0 {
        return Err(ProductInUse);
      }
      if id !in products {
        return Err(ProductNotFound);
      }
      products := products - {id};
      return Ok(());
    }

    /** PUT /api/shopping-lists/:id. */
    method UpdateList(userId: int, id: int, patch: ListPatch, now: int) returns (r: Result<ListRow, ApiError>)
      modifies this`lists
      ensures !old(Owns(userId, id)) ==> r == Err(ListNotFound) && lists == old(lists)
      ensures old(Owns(userId, id)) ==>
        r == Ok(PatchList(old(lists)[id], patch, now)) && lists == old(lists)[id := r.value]
    {
      if !Owns(userId, id) {
        return Err(ListNotFound);
      }
      var row := PatchList(lists[id], patch, now);
      lists := lists[id := row];
      return Ok(row);
    }

    /** POST /api/shopping-lists/:listId/items. */
    method AddItem(userId: int, listId: int, req: NewItem, now: int) returns (r: Result<int, ApiError>)
      requires Valid()
      modifies this`items, this`nextItemId, this`lists
      ensures Valid()
      ensures !old(Owns(userId, listId)) ==> r == Err(ListNotFound)
      ensures old(Owns(userId, listId)) && !HasProductOrName(req) ==> r == Err(ProductOrNameRequired)
      ensures r.Err? ==> items == old(items) && lists == old(lists) && nextItemId == old(nextItemId)
      ensures r.Ok? ==> nextItemId == old(nextItemId) + 1
      ensures old(Owns(userId, listId)) && HasProductOrName(req) ==>
        && r == Ok(old(nextItemId))
        && r.value !in old(items)
        && items == old(items)[r.value := NewItemRow(listId, req, products)]
        && lists == old(lists)[listId := CompletionStep(old(lists)[listId], ShouldBeCompleted(items, listId), now)]
        && Agrees(listId)
    {
      if !Owns(userId, listId) {
        return Err(ListNotFound);
      }
      if !HasProductOrName(req) {
        return Err(ProductOrNameRequired);
      }
      var id := nextItemId;
      items := items[id := NewItemRow(listId, req, products)];
      nextItemId := nextItemId + 1;
      CheckAndUpdateListCompletion(listId, now);
      return Ok(id);
    }

    /** PUT /api/shopping-lists/:listId/items/:itemId. */
    method UpdateItem(userId: int, listId: int, itemId: int, patch: ItemPatch, now: int) returns (r: Result<ItemRow, ApiError>)
      modifies this`items, this`lists
      ensures !old(Owns(userId, listId)) ==> r == Err(ListNotFound)
      ensures old(Owns(userId, listId)) && !(itemId in old(items) && old(items)[itemId].listId == listId) ==>
        r == Err(ItemNotFound)
      ensures r.Err? ==> items == old(items) && lists == old(lists)
      ensures old(Owns(userId, listId)) && itemId in old(items) && old(items)[itemId].listId == listId ==>
        && r == Ok(PatchItem(old(items)[itemId], patch, now))
        && items == old(items)[itemId := r.value]
        && lists == old(lists)[listId := CompletionStep(old(lists)[listId], ShouldBeCompleted(items, listId), now)]
        && Agrees(listId)
    {
      if !Owns(userId, listId) {
        return Err(ListNotFound);
      }
      if !(itemId in items && items[itemId].listId == listId) {
        return Err(ItemNotFound);
      }
      var row := PatchItem(items[itemId], patch, now);
      items := items[itemId := row];
      CheckAndUpdateListCompletion(listId, now);
      return Ok(row);
    }

    /** DELETE /api/shopping-lists/:listId/items/:itemId. */
    method DeleteItem(userId: int, listId: int, itemId: int, now: int) returns (r: Result<(), ApiError>)
      modifies this`items, this`lists
      ensures !old(Owns(userId, listId)) ==> r == Err(ListNotFound)
      ensures old(Owns(userId, listId)) && !(itemId in old(items) && old(items)[itemId].listId == listId) ==>
        r == Err(ItemNotFound)
      ensures r.Err? ==> items == old(items) && lists == old(lists)
      ensures old(Owns(userId, listId)) && itemId in old(items) && old(items)[itemId].listId == listId ==>
        && r == Ok(())
        && items == old(items) - {itemId}
        && lists == old(lists)[listId := CompletionStep(old(lists)[listId], ShouldBeCompleted(items, listId), now)]
        && Agrees(listId)
    {
      if !Owns(userId, listId) {
        return Err(ListNotFound);
      }
      if !(itemId in items && items[itemId].listId == listId) {
        return Err(ItemNotFound);
      }
      items := items - {itemId};
      CheckAndUpdateListCompletion(listId, now);
      return Ok(());
    }
  }

  /** An item change in one list leaves the completion rule of every other list as it was. */
  lemma OtherListsUnaffected(before: map<int, ItemRow>, after: map<int, ItemRow>, listId: int, other: int)
    requires other != listId
    requires forall id :: id in before && before[id].listId != listId ==> id in after && after[id] == before[id]
    requires forall id :: id in after && after[id].listId != listId ==> id in before && before[id] == after[id]
    ensures ShouldBeCompleted(after, other) == ShouldBeCompleted(before, other)
  {
    forall id ensures id in ItemsOf(after, other) <==> id in ItemsOf(before, other) {
      if id in after && after[id].listId == other {
        assert id in before;
      }
      if id in before && before[id].listId == other {
        assert id in after;
      }
    }
    assert ItemsOf(after, other) == ItemsOf(before, other);
    forall id ensures id in PurchasedOf(after, other) <==> id in PurchasedOf(before, other) {
      if id in after && after[id].listId == other {
        assert id in before;
      }
      if id in before && before[id].listId == other {
        assert id in after;
      }
    }
    assert PurchasedOf(after, other) == PurchasedOf(before, other);
  }
}
