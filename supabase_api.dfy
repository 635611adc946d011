/**
 * The effect of the Supabase service layer
 * (frontend/src/services/supabase-api.ts) on the tables it reads and writes:
 * the directed `product_alternatives` pairs and the product cascade, the
 * statistics attached to shopping lists, and the display name given at
 * registration. The query builder itself is not modelled; each call is its
 * effect on in-memory tables.
 */
module SupabaseApi {
  import opened Wrappers
  import opened JsText
  import opened Types
  import Seqs

  // ---------------------------------------------------------------------------
  // Alternatives: a table of directed pairs

  /** A row of `product_alternatives`: `alternativeId` is offered in place of `productId`. */
  datatype Link = Link(productId: int, alternativeId: int)

  predicate Mentions(l: Link, id: int)
  {
    l.productId == id || l.alternativeId == id
  }

  /** The alternatives recorded for `id`: the targets of the pairs whose source is `id`. */
  function Targets(links: set<Link>, id: int): (r: set<int>)
    ensures forall a :: a in r <==> Link(id, a) in links
  {
    set l | l in links && l.productId == id :: l.alternativeId
  }

  /** The pairs left by `.or('product_id.eq.id,alternative_product_id.eq.id')` deletion. */
  function Unlink(links: set<Link>, id: int): (r: set<Link>)
    ensures r <= links
    ensures forall l :: l in r ==> !Mentions(l, id)
    ensures forall l :: l in links && !Mentions(l, id) ==> l in r
  {
    set l | l in links && !Mentions(l, id)
  }

  /** Adding `(p, a)` gives `p` the alternative `a` and leaves every other product's alternatives as they were; in particular `a` does not gain `p`. */
  lemma AddIsDirected(links: set<Link>, p: int, a: int, q: int)
    requires q != p
    ensures Targets(links + {Link(p, a)}, p) == Targets(links, p) + {a}
    ensures Targets(links + {Link(p, a)}, q) == Targets(links, q)
  {
  }

  /** Removing `(p, a)` takes `a` from `p`'s alternatives and nothing else. */
  lemma RemoveIsExact(links: set<Link>, p: int, a: int, q: int)
    requires q != p
    ensures Targets(links - {Link(p, a)}, p) == Targets(links, p) - {a}
    ensures Targets(links - {Link(p, a)}, q) == Targets(links, q)
  {
  }

  /** Removing a pair just added restores the table when the pair was new. */
  lemma RemoveUndoesAdd(links: set<Link>, p: int, a: int)
    requires Link(p, a) !in links
    ensures links + {Link(p, a)} - {Link(p, a)} == links
  {
  }

  /** After the cascade the product has no alternatives and is nobody's alternative. */
  lemma UnlinkClears(links: set<Link>, id: int, q: int)
    ensures Targets(Unlink(links, id), id) == {}
    ensures id !in Targets(Unlink(links, id), q)
    ensures q != id ==> Targets(Unlink(links, id), q) == Targets(links, q) - {id}
  {
  }

  /** `products` and `product_alternatives` together (`productService`). */
  class Catalog {
    var products: map<int, Product>
    var alternatives: set<Link>

    /** The foreign keys of `product_alternatives`: both ends of a pair are products. */
    ghost predicate Valid()
      reads this
    {
      forall l :: l in alternatives ==> l.productId in products && l.alternativeId in products
    }

    constructor (products: map<int, Product>)
      ensures Valid()
      ensures this.products == products && alternatives == {}
    {
      this.products := products;
      alternatives := {};
    }

    /**
     * addAlternative(productId, alternativeId): inserts exactly that pair. The
     * insert fails (the database's foreign keys) when either id is not a product.
     */
    method AddAlternative(productId: int, alternativeId: int) returns (ok: bool)
      requires Valid()
      modifies this`alternatives
      ensures Valid()
      ensures ok <==> productId in products && alternativeId in products
      ensures alternatives == if ok then old(alternatives) + {Link(productId, alternativeId)} else old(alternatives)
    {
      ok := productId in products && alternativeId in products;
      if ok {
        alternatives := alternatives + {Link(productId, alternativeId)};
      }
    }

    /** removeAlternative(productId, alternativeId): deletes exactly that pair. */
    method RemoveAlternative(productId: int, alternativeId: int)
      requires Valid()
      modifies this`alternatives
      ensures Valid()
      ensures alternatives == old(alternatives) - {Link(productId, alternativeId)}
    {
      alternatives := alternatives - {Link(productId, alternativeId)};
    }

    /** getAlternatives(id): the products recorded as alternatives of `id`. */
    function GetAlternatives(id: int): (r: map<int, Product>)
      requires Valid()
      reads this
      ensures forall a :: a in r <==> a in Targets(alternatives, id)
      ensures forall a :: a in r ==> r[a] == products[a]
    {
      map a | a in Targets(alternatives, id) :: products[a]
    }

    /** delete(id): every pair touching the product goes first, then the product. */
    method Delete(id: int)
      requires Valid()
      modifies this
      ensures Valid()
      ensures alternatives == Unlink(old(alternatives), id)
      ensures products == old(products) - {id}
    {
      alternatives := Unlink(alternatives, id);
      products := products - {id};
    }
  }

  // ---------------------------------------------------------------------------
  // List statistics

  datatype Category = Category(name: string, color: string, icon: string)

  datatype SupermarketRef = SupermarketRef(name: string, color: string)

  /** The product embedded in an item row by the join. */
  datatype JoinedProduct = JoinedProduct(category: Option<Category>, supermarket: Option<SupermarketRef>)

  datatype ItemRecord = ItemRecord(
    id: int,
    isPurchased: bool,
    estimatedPrice: Option<int>,
    quantity: int,
    product: Option<JoinedProduct>)

  /** An item as `getById` hands it on: the row plus the fields flattened out of the join. */
  datatype ItemView = ItemView(
    item: ItemRecord,
    categoryName: Option<string>,
    categoryColor: Option<string>,
    categoryIcon: Option<string>,
    supermarketName: Option<string>,
    supermarketColor: Option<string>)

  datatype ListRecord = ListRecord(
    id: int,
    userId: string,
    name: string,
    description: Option<string>,
    isCompleted: bool,
    listItems: Option<seq<ItemRecord>>)

  datatype Stats = Stats(totalItems: nat, purchasedItems: nat, totalEstimated: int)

  datatype ListSummary = ListSummary(list: ListRecord, stats: Stats)

  datatype ListDetail = ListDetail(list: ListRecord, items: seq<ItemView>, stats: Stats)

  /** `item.estimated_price * item.quantity || 0`; a missing price counts as 0. */
  function Cost(it: ItemRecord): int
  {
    if it.estimatedPrice.Some? then it.estimatedPrice.value * it.quantity else 0
  }

  function SumCosts(items: seq<ItemRecord>): int
  {
    if items == [] then 0 else SumCosts(items[..|items| - 1]) + Cost(items[|items| - 1])
  }

  function Purchased(items: seq<ItemRecord>): seq<ItemRecord>
  {
    Seqs.Filter(items, (it: ItemRecord) => it.isPurchased)
  }

  /** The counts and total of a list's items. */
  function ItemStats(items: seq<ItemRecord>): (s: Stats)
    ensures s.totalItems == |items|
    ensures s.purchasedItems <= s.totalItems
    ensures s.purchasedItems == |Purchased(items)|
  {
    Stats(|items|, |Purchased(items)|, SumCosts(items))
  }

  /** getAll: each list with its statistics; a list without an item array counts as empty. */
  function GetAll(lists: seq<ListRecord>): (r: seq<ListSummary>)
    ensures |r| == |lists|
    ensures forall i :: 0 <= i < |r| ==> r[i].list == lists[i]
    ensures forall i :: 0 <= i < |r| ==> r[i].stats.purchasedItems <= r[i].stats.totalItems
    ensures forall i :: 0 <= i < |r| ==>
      r[i].stats == if lists[i].listItems.Some? then ItemStats(lists[i].listItems.value) else Stats(0, 0, 0)
  {
    seq(|lists|, i requires 0 <= i < |lists| =>
      ListSummary(lists[i], if lists[i].listItems.Some? then ItemStats(lists[i].listItems.value) else Stats(0, 0, 0)))
  }

  /** The joined category and supermarket fields copied onto the item. */
  function Flatten(it: ItemRecord): (v: ItemView)
    ensures v.item == it
    ensures it.product.None? ==> v.categoryName.None? && v.supermarketName.None?
    ensures it.product.Some? && it.product.value.category.Some? ==>
      var c := it.product.value.category.value;
      v.categoryName == Some(c.name) && v.categoryColor == Some(c.color) && v.categoryIcon == Some(c.icon)
    ensures !(it.product.Some? && it.product.value.category.Some?) ==>
      v.categoryName.None? && v.categoryColor.None? && v.categoryIcon.None?
    ensures it.product.Some? && it.product.value.supermarket.Some? ==>
      var m := it.product.value.supermarket.value;
      v.supermarketName == Some(m.name) && v.supermarketColor == Some(m.color)
    ensures !(it.product.Some? && it.product.value.supermarket.Some?) ==>
      v.supermarketName.None? && v.supermarketColor.None?
  {
    var cat := if it.product.Some? then it.product.value.category else None;
    var sup := if it.product.Some? then it.product.value.supermarket else None;
    ItemView(it,
      if cat.Some? then Some(cat.value.name) else None,
      if cat.Some? then Some(cat.value.color) else None,
      if cat.Some? then Some(cat.value.icon) else None,
      if sup.Some? then Some(sup.value.name) else None,
      if sup.Some? then Some(sup.value.color) else None)
  }

  function FlattenAll(items: seq<ItemRecord>): (r: seq<ItemView>)
    ensures |r| == |items|
    ensures forall i :: 0 <= i < |r| ==> r[i] == Flatten(items[i])
  {
    if items == [] then [] else [Flatten(items[0])] + FlattenAll(items[1..])
  }

  function Rows(views: seq<ItemView>): (r: seq<ItemRecord>)
    ensures |r| == |views|
    ensures forall i :: 0 <= i < |r| ==> r[i] == views[i].item
  {
    if views == [] then [] else [views[0].item] + Rows(views[1..])
  }

  /** The rows behind the flattened items are the original rows, in order. */
  lemma {:induction false} RowsOfFlattened(items: seq<ItemRecord>)
    ensures Rows(FlattenAll(items)) == items
  {
    var r := Rows(FlattenAll(items));
    assert |r| == |items|;
    assert forall i :: 0 <= i < |r| ==> r[i] == items[i];
  }

  /**
   * getById(id): `.single()` fails unless exactly one list has the id; the
   * items are flattened one to one and the statistics are computed over the
   * flattened items.
   */
  function GetById(lists: seq<ListRecord>, id: int): (r: Result<ListDetail, string>)
    ensures r.Ok? <==> |Seqs.Filter(lists, (l: ListRecord) => l.id == id)| == 1
    ensures r.Ok? ==> r.value.list.id == id && r.value.list in lists
    ensures r.Ok? ==> Rows(r.value.items) == Coalesce(r.value.list.listItems, [])
    ensures r.Ok? ==> r.value.stats == ItemStats(Coalesce(r.value.list.listItems, []))
  {
    var matching := Seqs.Filter(lists, (l: ListRecord) => l.id == id);
    if |matching| != 1 then Err("JSON object requested, multiple (or no) rows returned")
    else
      var list := matching[0];
      var views := FlattenAll(Coalesce(list.listItems, []));
      RowsOfFlattened(Coalesce(list.listItems, []));
      Ok(ListDetail(list, views, ViewStats(views)))
  }

  /** The statistics as `getById` computes them, over the flattened items. */
  function ViewStats(views: seq<ItemView>): (s: Stats)
    ensures s == ItemStats(Rows(views))
  {
    PurchasedViews(views);
    Stats(|views|, |Seqs.Filter(views, (v: ItemView) => v.item.isPurchased)|, SumViewCosts(views))
  }

  function SumViewCosts(views: seq<ItemView>): (t: int)
    ensures t == SumCosts(Rows(views))
  {
    if views == [] then 0
    else
      var init := views[..|views| - 1];
      assert Rows(views)[..|views| - 1] == Rows(init);
      SumViewCosts(init) + Cost(views[|views| - 1].item)
  }

  lemma {:induction false} PurchasedViews(views: seq<ItemView>)
    ensures |Seqs.Filter(views, (v: ItemView) => v.item.isPurchased)| == |Purchased(Rows(views))|
  {
    if views != [] {
      PurchasedViews(views[1..]);
      assert Rows(views)[1..] == Rows(views[1..]);
    }
  }

  /** A list's statistics are the same whether read through getAll or getById. */
  lemma GetAllAgreesWithGetById(lists: seq<ListRecord>, i: nat)
    requires i < |lists|
    requires |Seqs.Filter(lists, (l: ListRecord) => l.id == lists[i].id)| == 1
    ensures GetById(lists, lists[i].id).Ok?
    ensures GetById(lists, lists[i].id).value.stats == GetAll(lists)[i].stats
  {
    var m := Seqs.Filter(lists, (l: ListRecord) => l.id == lists[i].id);
    assert lists[i] in m;
    assert m[0] == lists[i];
    var items := Coalesce(lists[i].listItems, []);
    var detail := GetById(lists, lists[i].id).value;
    assert detail.list == lists[i];
    assert detail.stats == ItemStats(items);
    assert ItemStats([]) == Stats(0, 0, 0);
  }

  datatype NewList = NewList(name: string, description: Option<string>)

  /** create(list): refused without a signed-in user; a new list reports no items and a zero total. */
  function Create(user: Option<string>, req: NewList, id: int): (r: Result<ListSummary, string>)
    ensures r.Err? <==> user.None?
    ensures r.Ok? ==> r.value.list.userId == user.value && r.value.list.name == req.name
    ensures r.Ok? ==> r.value.stats == Stats(0, 0, 0)
  {
    match user
    case None => Err("Not authenticated")
    case Some(u) => Ok(ListSummary(ListRecord(id, u, req.name, req.description, false, None), Stats(0, 0, 0)))
  }

  /** The zero statistics of a new list are what getAll reports for a list with no items. */
  lemma CreatedListStats(u: string, req: NewList, id: int)
    ensures Create(Some(u), req, id).value.stats == ItemStats([])
    ensures GetAll([Create(Some(u), req, id).value.list])[0].stats == Create(Some(u), req, id).value.stats
  {
  }

  // ---------------------------------------------------------------------------
  // Registration

  /** `displayName || email.split('@')[0]`. */
  function DisplayName(email: string, displayName: Option<string>): (r: string)
    ensures displayName.Some? && displayName.value != "" ==> r == displayName.value
    ensures (displayName.None? || displayName.value == "") ==> r <= email && '@' !in r
    ensures (displayName.None? || displayName.value == "") ==> |r| == |email| || email[|r|] == '@'
  {
    if displayName.Some? && displayName.value != "" then displayName.value
    else
      SplitHeadIsPrefix(email, '@');
      Split(email, '@')[0]
  }

  /** Without a display name, `local@domain` is shown as `local`. */
  lemma DisplayNameOfAddress(local: string, domain: string)
    requires '@' !in local
    ensures DisplayName(local + "@" + domain, None) == local
  {
    SplitAtFirst(local, '@', domain);
  }
}
