/** The donation page: a cart of order items, the ids of the products already
    in the cart, the product search, and the checks run before a donation is
    sent to the stock-deduction action. */
module Give {
  import opened Sequences
  import opened Text
  import opened Inventory
  import Restock

  /** The search list shows at most this many products. */
  const MaxSearchResults: nat := 10
  const DefaultErrorMessage: string := "Une erreur est survenue"
  const OutOfStockCode: string := "OUT_OF_STOCK"

  /** The product ids of the cart lines, in cart order. */
  function OrderIds(orders: seq<OrderItem>): (r: seq<string>)
    ensures |r| == |orders|
    ensures forall i :: 0 <= i < |orders| ==> r[i] == orders[i].productId
  {
    if orders == [] then [] else [orders[0].productId] + OrderIds(orders[1..])
  }

  // ---------------------------------------------------------------- search

  /** A product is offered when its lower-cased name contains the lower-cased
      query and it is not in the cart yet. */
  predicate Searchable(p: Product, query: string, selectedIds: seq<string>)
  {
    Includes(Lower(p.name), Lower(query)) && p.id !in selectedIds
  }

  function SearchMatches(products: seq<Product>, query: string, selectedIds: seq<string>): (r: seq<Product>)
  {
    Filter((p: Product) => Searchable(p, query, selectedIds), products)
  }

  /** `filteredAvailableProducts`: the first ten searchable products. */
  function AvailableProducts(products: seq<Product>, query: string, selectedIds: seq<string>): (r: seq<Product>)
    ensures |r| <= MaxSearchResults
    ensures forall p :: p in r ==> Includes(Lower(p.name), Lower(query)) && p.id !in selectedIds
    ensures IsSubsequence(r, products)
    ensures |r| == Min(MaxSearchResults, |SearchMatches(products, query, selectedIds)|)
    ensures r == SearchMatches(products, query, selectedIds)[..|r|]
    ensures |SearchMatches(products, query, selectedIds)| <= MaxSearchResults ==>
              forall p :: p in products && Searchable(p, query, selectedIds) ==> p in r
  {
    var m := SearchMatches(products, query, selectedIds);
    var r := Slice(m, 0, MaxSearchResults);
    assert r == m[..|r|];
    forall p | p in r ensures p in m {
      var i :| 0 <= i < |r| && r[i] == p;
      assert m[i] == p;
    }
    PrefixIsSubsequence(m, |r|);
    SubsequenceTransitive(r, m, products);
    r
  }

  /** With an empty query every product outside the cart matches. */
  lemma {:induction false} EmptyQueryMatchesUnselected(products: seq<Product>, selectedIds: seq<string>)
    ensures SearchMatches(products, "", selectedIds) == Filter((p: Product) => p.id !in selectedIds, products)
  {
    if products != [] {
      EmptyQueryMatchesUnselected(products[1..], selectedIds);
      assert Lower("") == "";
      assert Includes(Lower(products[0].name), "");
    }
  }

  // ---------------------------------------------------------------- cart updates

  /** The cart line added for a product that is not in the cart yet. */
  function NewItem(product: Product): (item: OrderItem)
  {
    OrderItem(product.id, 1, product.unit, product.imageUrl, product.name, product.quantity)
  }

  /** Every line of `product` gets one more unit, capped by the product's stock. */
  function Increment(orders: seq<OrderItem>, product: Product): (r: seq<OrderItem>)
    ensures |r| == |orders|
    ensures forall i :: 0 <= i < |r| ==>
              r[i] == if orders[i].productId == product.id
                      then orders[i].(quantity := Min(orders[i].quantity + 1, product.quantity))
                      else orders[i]
  {
    if orders == [] then []
    else
      var item := orders[0];
      [if item.productId == product.id then item.(quantity := Min(item.quantity + 1, product.quantity)) else item]
        + Increment(orders[1..], product)
  }

  /** The cart after `handleAddToCart(product)`. */
  function AddToOrders(orders: seq<OrderItem>, product: Product): (r: seq<OrderItem>)
    ensures product.id in OrderIds(orders) ==>
              |r| == |orders| &&
              forall i :: 0 <= i < |r| ==>
                if orders[i].productId == product.id
                then r[i] == orders[i].(quantity := Min(orders[i].quantity + 1, product.quantity))
                else r[i] == orders[i]
    ensures product.id !in OrderIds(orders) ==>
              |r| == |orders| + 1 && r[..|orders|] == orders &&
              r[|orders|] == OrderItem(product.id, 1, product.unit, product.imageUrl, product.name, product.quantity)
    ensures OrderIds(r) == if product.id in OrderIds(orders) then OrderIds(orders)
                           else OrderIds(orders) + [product.id]
  {
    if product.id in OrderIds(orders) then
      var r := Increment(orders, product);
      assert OrderIds(r) == OrderIds(orders);
      r
    else
      var r := orders + [NewItem(product)];
      assert OrderIds(r) == OrderIds(orders) + [product.id];
      assert r[..|orders|] == orders;
      r
  }

  /** The selected ids after `handleAddToCart(product)`: appended only if absent. */
  function AddToIds(ids: seq<string>, id: string): (r: seq<string>)
    ensures forall x :: x in r <==> x in ids || x == id
    ensures NoDuplicates(ids) ==> NoDuplicates(r)
    ensures id in ids ==> r == ids
    ensures id !in ids ==> r == ids + [id]
  {
    if id in ids then ids else ids + [id]
  }

  /** The cart after `handleQuantityChange(productId, newQuantity)`. */
  function ChangeQuantity(orders: seq<OrderItem>, productId: string, newQuantity: int): (r: seq<OrderItem>)
    ensures newQuantity < 0 ==> r == orders
    ensures newQuantity >= 0 ==>
              |r| == |orders| &&
              forall i :: 0 <= i < |r| ==>
                r[i] == if orders[i].productId == productId then orders[i].(quantity := newQuantity)
                        else orders[i]
    ensures OrderIds(r) == OrderIds(orders)
  {
    if newQuantity < 0 then orders
    else
      var r := SetQuantity(orders, productId, newQuantity);
      assert OrderIds(r) == OrderIds(orders);
      r
  }

  function SetQuantity(orders: seq<OrderItem>, productId: string, q: int): (r: seq<OrderItem>)
    ensures |r| == |orders|
    ensures forall i :: 0 <= i < |r| ==>
              r[i] == if orders[i].productId == productId then orders[i].(quantity := q) else orders[i]
  {
    if orders == [] then []
    else
      var item := orders[0];
      [if item.productId == productId then item.(quantity := q) else item]
        + SetQuantity(orders[1..], productId, q)
  }

  /** The cart after `handleRemoveFromCart(productId)`. */
  function RemoveFromOrders(orders: seq<OrderItem>, productId: string): (r: seq<OrderItem>)
    ensures forall x :: x in r <==> x in orders && x.productId != productId
    ensures productId !in OrderIds(r)
    ensures IsSubsequence(r, orders)
    ensures OrderIds(r) == RemoveFromIds(OrderIds(orders), productId)
  {
    var r := Filter((item: OrderItem) => item.productId != productId, orders);
    OrderIdsOfRemoval(orders, productId);
    r
  }

  /** The selected ids after `handleRemoveFromCart(productId)`. */
  function RemoveFromIds(ids: seq<string>, productId: string): (r: seq<string>)
    ensures productId !in r
    ensures forall x :: x in r <==> x in ids && x != productId
    ensures NoDuplicates(ids) ==> NoDuplicates(r)
    ensures IsSubsequence(r, ids)
  {
    FilterKeepsNoDuplicates((id: string) => id != productId, ids);
    Filter((id: string) => id != productId, ids)
  }

  lemma {:induction false} OrderIdsOfRemoval(orders: seq<OrderItem>, productId: string)
    ensures OrderIds(Filter((item: OrderItem) => item.productId != productId, orders))
         == Filter((id: string) => id != productId, OrderIds(orders))
  {
    if orders != [] {
      OrderIdsOfRemoval(orders[1..], productId);
      assert OrderIds(orders)[1..] == OrderIds(orders[1..]);
    }
  }

  /** Removing a product undoes adding it. */
  lemma {:induction false} RemoveUndoesAdd(orders: seq<OrderItem>, product: Product)
    ensures RemoveFromOrders(AddToOrders(orders, product), product.id) == RemoveFromOrders(orders, product.id)
  {
    var keep := (item: OrderItem) => item.productId != product.id;
    if product.id in OrderIds(orders) {
      FilterIgnoresMatchingLines(orders, product);
    } else {
      FilterAppendDropped(keep, orders, NewItem(product));
    }
  }

  lemma {:induction false} FilterIgnoresMatchingLines(orders: seq<OrderItem>, product: Product)
    ensures Filter((item: OrderItem) => item.productId != product.id, Increment(orders, product))
         == Filter((item: OrderItem) => item.productId != product.id, orders)
  {
    if orders != [] {
      FilterIgnoresMatchingLines(orders[1..], product);
      assert Increment(orders, product)[1..] == Increment(orders[1..], product);
    }
  }

  lemma {:induction false} FilterAppendDropped<T(!new)>(p: T -> bool, s: seq<T>, x: T)
    requires !p(x)
    ensures Filter(p, s + [x]) == Filter(p, s)
  {
    if s != [] {
      assert (s + [x])[1..] == s[1..] + [x];
      FilterAppendDropped(p, s[1..], x);
    } else {
      assert s + [x] == [x];
    }
  }

  /** Changing a quantity and then removing the product is removing it. */
  lemma {:induction false} RemoveAfterChangeQuantity(orders: seq<OrderItem>, productId: string, q: int)
    ensures RemoveFromOrders(ChangeQuantity(orders, productId, q), productId) == RemoveFromOrders(orders, productId)
  {
    if q >= 0 {
      RemoveIgnoresSetQuantity(orders, productId, q);
    }
  }

  lemma {:induction false} RemoveIgnoresSetQuantity(orders: seq<OrderItem>, productId: string, q: int)
    ensures Filter((item: OrderItem) => item.productId != productId, SetQuantity(orders, productId, q))
         == Filter((item: OrderItem) => item.productId != productId, orders)
  {
    if orders != [] {
      RemoveIgnoresSetQuantity(orders[1..], productId, q);
      assert SetQuantity(orders, productId, q)[1..] == SetQuantity(orders[1..], productId, q);
    }
  }

  // ---------------------------------------------------------------- confirmation

  /** The outcome of a confirmation attempt. */
  datatype Notice =
    | CartEmpty
    | ZeroQuantity
    | Declined
    | Donated
    | OfferRestock(message: string, productId: Option<string>)
    | ErrorShown(message: string)
    | Logged

  /** What the deduction action gave back: it raised, it returned nothing, or
      it returned a response object. */
  datatype DeductReply =
    | Raised
    | NoReply
    | Reply(success: bool, message: string, code: string, productId: string)

  /** The number of cart lines whose quantity is not positive. */
  function InvalidLineCount(orders: seq<OrderItem>): (n: nat)
    ensures n == 0 <==> forall i :: 0 <= i < |orders| ==> orders[i].quantity > 0
  {
    var invalid := (o: OrderItem) => o.quantity <= 0;
    FilterEmpty(invalid, orders);
    |Filter(invalid, orders)|
  }

  /** The guards of `handleConfirmDonation`, in order: `Some(notice)` when the
      donation is stopped before the deduction action is called. */
  function DonationBlocked(orders: seq<OrderItem>, confirmed: bool): (r: Option<Notice>)
    ensures r.None? <==> |orders| > 0 && confirmed && forall i :: 0 <= i < |orders| ==> orders[i].quantity > 0
    ensures r == Some(CartEmpty) <==> |orders| == 0
    ensures r == Some(ZeroQuantity) <==> |orders| > 0 && exists i :: 0 <= i < |orders| && orders[i].quantity <= 0
    ensures r == Some(Declined) <==>
              |orders| > 0 && !confirmed && forall i :: 0 <= i < |orders| ==> orders[i].quantity > 0
  {
    if |orders| == 0 then Some(CartEmpty)
    else if InvalidLineCount(orders) > 0 then Some(ZeroQuantity)
    else if !confirmed then Some(Declined)
    else None
  }

  /** How the page reacts to the deduction action's answer. */
  function ReplyNotice(reply: DeductReply): (r: Notice)
    ensures r == Donated <==> reply.Reply? && reply.success
    ensures r == Logged <==> reply.Raised?
    ensures r.OfferRestock? <==> reply.Reply? && !reply.success && reply.code == OutOfStockCode
    ensures r.ErrorShown? <==> reply.NoReply? || (reply.Reply? && !reply.success && reply.code != OutOfStockCode)
    ensures r.OfferRestock? ==> r.productId == (if reply.productId == "" then None else Some(reply.productId))
    ensures r.OfferRestock? || r.ErrorShown? ==>
              r.message == (if reply.Reply? && reply.message != "" then reply.message else DefaultErrorMessage)
  {
    match reply
    case Raised => Logged
    case NoReply => ErrorShown(DefaultErrorMessage)
    case Reply(success, message, code, productId) =>
      if success then Donated
      else
        var msg := if message != "" then message else DefaultErrorMessage;
        if code == OutOfStockCode then OfferRestock(msg, if productId != "" then Some(productId) else None)
        else ErrorShown(msg)
  }

  /** The product id the restock button of an out-of-stock notice sends in
      its `openStockModal` event; `""` stands for null. */
  function RestockEventId(notice: Notice): (pid: string)
    requires notice.OfferRestock?
    ensures pid != "" <==> notice.productId.Some? && notice.productId.value != ""
    ensures notice.productId.Some? ==> pid == notice.productId.value
  {
    if notice.productId.Some? then notice.productId.value else ""
  }

  /** An out-of-stock answer naming a loaded product makes the restock panel,
      once its button is pressed, select that product and show its card; an
      answer without a product id leaves the panel's selection alone. */
  lemma OutOfStockPreselectsProduct(reply: DeductReply, s: Restock.Selection, products: seq<Product>)
    requires reply.Reply? && !reply.success && reply.code == OutOfStockCode
    ensures var after := Restock.OnOpenEvent(s, products, RestockEventId(ReplyNotice(reply)));
            (reply.productId == "" ==> after == s) &&
            (reply.productId != "" && FindProduct(products, reply.productId).Some? ==>
               after.id == reply.productId && after.product.Some? && Restock.Consistent(after))
  {
  }

  // ---------------------------------------------------------------- the page state

  class GivePage {
    const email: string
    var products: seq<Product>
    var orders: seq<OrderItem>
    var searchQuery: string
    var selectedProductIds: seq<string>
    /** The server actions called so far. */
    ghost var calls: seq<ActionCall>

    /** The selected ids are the cart's product ids, in cart order, without repetition. */
    ghost predicate Valid()
      reads this
    {
      OrderIds(orders) == selectedProductIds && NoDuplicates(selectedProductIds)
    }

    constructor (email: string)
      ensures Valid()
      ensures this.email == email && products == [] && orders == [] && searchQuery == ""
      ensures selectedProductIds == [] && calls == []
    {
      this.email := email;
      products, orders, searchQuery, selectedProductIds := [], [], "", [];
      calls := [];
    }

    /** `fetchProducts`: asks for the products when signed in; `fetched` is
        the answer, `None` when the action answered `null`/`undefined` or raised
        (an empty list is an answer and replaces the products). */
    method FetchProducts(fetched: Option<seq<Product>>)
      modifies this`products, this`calls
      ensures calls == old(calls) + (if email != "" then [ReadProducts(email)] else [])
      ensures products == if email != "" && fetched.Some? then fetched.value else old(products)
    {
      if email != "" {
        calls := calls + [ReadProducts(email)];
        if fetched.Some? {
          products := fetched.value;
        }
      }
    }

    method SetSearchQuery(query: string)
      modifies this`searchQuery
      ensures searchQuery == query
    {
      searchQuery := query;
    }

    method AddToCart(product: Product)
      requires Valid()
      modifies this`orders, this`selectedProductIds
      ensures Valid()
      ensures orders == AddToOrders(old(orders), product)
      ensures selectedProductIds == AddToIds(old(selectedProductIds), product.id)
    {
      orders := AddToOrders(orders, product);
      selectedProductIds := AddToIds(selectedProductIds, product.id);
    }

    method QuantityChange(productId: string, newQuantity: int)
      requires Valid()
      modifies this`orders
      ensures Valid()
      ensures orders == ChangeQuantity(old(orders), productId, newQuantity)
    {
      if newQuantity < 0 {
        return;
      }
      orders := ChangeQuantity(orders, productId, newQuantity);
    }

    method RemoveFromCart(productId: string)
      requires Valid()
      modifies this`orders, this`selectedProductIds
      ensures Valid()
      ensures orders == RemoveFromOrders(old(orders), productId)
      ensures selectedProductIds == RemoveFromIds(old(selectedProductIds), productId)
    {
      orders := RemoveFromOrders(orders, productId);
      selectedProductIds := RemoveFromIds(selectedProductIds, productId);
    }

    /** `handleConfirmDonation`. `confirmed` is the user's answer to the
        confirmation dialog, `reply` the deduction action's answer and
        `refreshed` the product list fetched after a successful donation. */
    method ConfirmDonation(confirmed: bool, reply: DeductReply, refreshed: Option<seq<Product>>)
      returns (notice: Notice)
      requires Valid()
      modifies this`orders, this`selectedProductIds, this`products, this`calls
      ensures Valid()
      ensures var blocked := DonationBlocked(old(orders), confirmed);
              notice == (if blocked.Some? then blocked.value else ReplyNotice(reply))
      ensures DonationBlocked(old(orders), confirmed).Some? ==> calls == old(calls)
      ensures DonationBlocked(old(orders), confirmed).None? ==>
                calls == old(calls) + [DeductStock(old(orders), email)]
                         + (if notice == Donated && email != "" then [ReadProducts(email)] else [])
      ensures notice == Donated ==>
                orders == [] && selectedProductIds == [] &&
                products == (if email != "" && refreshed.Some? then refreshed.value else old(products))
      ensures notice != Donated ==>
                orders == old(orders) && selectedProductIds == old(selectedProductIds) && products == old(products)
    {
      var blocked := DonationBlocked(orders, confirmed);
      if blocked.Some? {
        notice := blocked.value;
        return;
      }
      calls := calls + [DeductStock(orders, email)];
      notice := ReplyNotice(reply);
      if notice == Donated {
        orders := [];
        selectedProductIds := [];
        FetchProducts(refreshed);
      }
    }
  }
}
