/** The restock panel: a product chosen in a select box (its id, and the
    product card shown under it), a quantity, and the submit handler that
    calls the replenishment action. The panel can also be opened by an
    `openStockModal` event carrying a product id, possibly before the product
    list has been loaded. */
module Restock {
  import opened Sequences
  import opened Inventory

  /** The id bound to the select box and the product whose card is shown. */
  datatype Selection = Selection(id: string, product: Option<Product>)

  /** The card shown belongs to the product selected in the box. */
  predicate Consistent(s: Selection)
  {
    s.product.Some? ==> s.product.value.id == s.id
  }

  /** `handleProductChange(productId)`. */
  function OnProductChange(products: seq<Product>, productId: string): (r: Selection)
    ensures r.id == productId
    ensures r.product.None? <==> forall i :: 0 <= i < |products| ==> products[i].id != productId
    ensures r.product.Some? ==> r.product.value in products
    ensures r.product == FindProduct(products, productId)
    ensures Consistent(r)
  {
    Selection(productId, FindProduct(products, productId))
  }

  /** The `openStockModal` handler as written; `pid == ""` stands for a
      missing or null id. */
  function OnOpenEvent(s: Selection, products: seq<Product>, pid: string): (r: Selection)
    ensures pid == "" ==> r == s
    ensures pid != "" ==> r.id == pid
    ensures pid != "" && FindProduct(products, pid).Some? ==>
              r.product == FindProduct(products, pid) && r.product.value in products && Consistent(r)
    ensures pid != "" && FindProduct(products, pid).None? ==> r.product == s.product
  {
    if pid == "" then s
    else
      match FindProduct(products, pid)
      case Some(prod) => Selection(pid, Some(prod))
      case None => s.(id := pid)
  }

  /** The effect that fills in the card once the products are there. */
  function OnDeferredResolve(s: Selection, products: seq<Product>): (r: Selection)
    ensures r.id == s.id
    ensures s.id == "" || s.product.Some? || products == [] ==> r == s
    ensures s.id != "" && s.product.None? && FindProduct(products, s.id).Some? ==>
              r.product == FindProduct(products, s.id) && r.product.value in products
    ensures FindProduct(products, s.id).None? ==> r == s
    ensures Consistent(s) ==> Consistent(r)
  {
    if s.id != "" && s.product.None? && |products| > 0 then
      match FindProduct(products, s.id)
      case Some(prod) => s.(product := Some(prod))
      case None => s
    else s
  }

  /** Opening the panel for a product that is not loaded, while another
      product's card is shown, leaves that card in place; loading the
      product afterwards does not replace it. */
  lemma StaleCardAfterUnloadedOpen()
    ensures var a := Product("a", "rice", 3, "kg", "", "food");
            var b := Product("b", "oil", 0, "l", "", "food");
            var chosen := OnProductChange([a], "a");
            var afterEvent := OnOpenEvent(chosen, [a], "b");
            Consistent(chosen) && !Consistent(afterEvent) &&
            afterEvent.id == "b" && afterEvent.product == Some(a) &&
            OnDeferredResolve(afterEvent, [a, b]) == afterEvent
  {
  }

  /** The handler with the behaviour its comment describes: an id that is
      not loaded yet clears the card, so that the deferred effect can fill
      it in once the products arrive. */
  function OnOpenEventCorrected(s: Selection, products: seq<Product>, pid: string): (r: Selection)
    ensures pid == "" ==> r == s
    ensures pid != "" ==> r.id == pid && r.product == FindProduct(products, pid)
    ensures Consistent(s) ==> Consistent(r)
  {
    if pid == "" then s else Selection(pid, FindProduct(products, pid))
  }

  /** With the corrected handler, an id received before its product is
      loaded ends up with that product's card once the list arrives. */
  lemma CorrectedOpenResolvesAfterLoad(s: Selection, before: seq<Product>, after: seq<Product>, pid: string)
    requires pid != ""
    requires FindProduct(before, pid).None? && FindProduct(after, pid).Some?
    ensures var r := OnDeferredResolve(OnOpenEventCorrected(s, before, pid), after);
            r.id == pid && r.product == FindProduct(after, pid) && Consistent(r)
  {
  }

  /** What the submit handler reports. */
  datatype SubmitNotice = QuantityRejected | Replenished | FailureLogged

  class StockPanel {
    const email: string
    var products: seq<Product>
    var selectedProductId: string
    var selectedProduct: Option<Product>
    var quantity: int
    /** The server actions called so far. */
    ghost var calls: seq<ActionCall>

    function Current(): Selection
      reads this
    {
      Selection(selectedProductId, selectedProduct)
    }

    constructor (email: string)
      ensures this.email == email && products == [] && selectedProductId == ""
      ensures selectedProduct == None && quantity == 0 && calls == []
    {
      this.email := email;
      products := [];
      selectedProductId, selectedProduct, quantity := "", None, 0;
      calls := [];
    }

    /** `fetchProducts`; `None` stands for a `null`/`undefined` answer or a
        raised call (an empty list is an answer and replaces the products). */
    method FetchProducts(fetched: Option<seq<Product>>)
      modifies this`products, this`calls
      ensures calls == old(calls) + (if email != "" then [ReadProducts(email)] else [])
      ensures products == if email != "" && fetched.Some? then WithCategoryDefault(fetched.value)
                          else old(products)
    {
      if email != "" {
        calls := calls + [ReadProducts(email)];
        if fetched.Some? {
          products := WithCategoryDefault(fetched.value);
        }
      }
    }

    method ProductChange(productId: string)
      modifies this`selectedProductId, this`selectedProduct
      ensures Current() == OnProductChange(products, productId)
    {
      selectedProduct := FindProduct(products, productId);
      selectedProductId := productId;
    }

    method OpenStockModal(pid: string)
      modifies this`selectedProductId, this`selectedProduct
      ensures Current() == OnOpenEvent(old(Current()), products, pid)
    {
      if pid != "" {
        var prod := FindProduct(products, pid);
        if prod.Some? {
          selectedProductId := pid;
          selectedProduct := prod;
        } else {
          selectedProductId := pid;
        }
      }
    }

    method ResolveDeferredSelection()
      modifies this`selectedProduct
      ensures Current() == OnDeferredResolve(old(Current()), products)
    {
      if selectedProductId != "" && selectedProduct.None? && |products| > 0 {
        var prod := FindProduct(products, selectedProductId);
        if prod.Some? {
          selectedProduct := prod;
        }
      }
    }

    method SetQuantity(q: int)
      modifies this`quantity
      ensures quantity == q
    {
      quantity := q;
    }

    /** `handleSubmit`. `replenishRaised` says whether the replenishment
        action raised, `refreshed` is the product list fetched afterwards. */
    method Submit(replenishRaised: bool, refreshed: Option<seq<Product>>) returns (notice: SubmitNotice)
      modifies this`selectedProductId, this`selectedProduct, this`quantity, this`products, this`calls
      ensures old(selectedProductId) == "" || old(quantity) <= 0 ==>
                notice == QuantityRejected && calls == old(calls) &&
                Current() == old(Current()) && quantity == old(quantity) && products == old(products)
      ensures old(selectedProductId) != "" && old(quantity) > 0 && email != "" && replenishRaised ==>
                notice == FailureLogged &&
                calls == old(calls) + [ReplenishStock(old(selectedProductId), old(quantity), email)] &&
                Current() == old(Current()) && quantity == old(quantity) && products == old(products)
      ensures old(selectedProductId) != "" && old(quantity) > 0 && (email == "" || !replenishRaised) ==>
                notice == Replenished &&
                calls == old(calls) +
                  (if email != "" then [ReplenishStock(old(selectedProductId), old(quantity), email), ReadProducts(email)]
                   else []) &&
                selectedProductId == "" && quantity == 0 && selectedProduct == None &&
                products == (if email != "" && refreshed.Some? then WithCategoryDefault(refreshed.value)
                             else old(products))
    {
      if selectedProductId == "" || quantity <= 0 {
        notice := QuantityRejected;
        return;
      }
      if email != "" {
        calls := calls + [ReplenishStock(selectedProductId, quantity, email)];
        if replenishRaised {
          notice := FailureLogged;
          return;
        }
      }
      notice := Replenished;
      FetchProducts(refreshed);
      selectedProductId := "";
      quantity := 0;
      selectedProduct := None;
    }
  }
}
