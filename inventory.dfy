/** The records the client pages hold (products, cart items, ledger entries)
    and the server actions they call. The server actions themselves are not
    modelled: a call is recorded as an `ActionCall` entry in a trace. */
module Inventory {
  import opened Sequences

  datatype Option<T> = None | Some(value: T)

  datatype Product = Product(
    id: string,
    name: string,
    quantity: int,
    unit: string,
    imageUrl: string,
    categoryName: string)

  /** One line of a donation cart. */
  datatype OrderItem = OrderItem(
    productId: string,
    quantity: int,
    unit: string,
    imageUrl: string,
    name: string,
    availableQuantity: int)

  datatype TxKind = In | Out

  /** A ledger entry; `createdAt` is a timestamp in milliseconds. */
  datatype Transaction = Transaction(
    id: string,
    productId: string,
    kind: TxKind,
    quantity: int,
    createdAt: int)

  /** A call into a server action whose body is not part of this model. */
  datatype ActionCall =
    | ReadProducts(email: string)
    | GetTransactions(email: string)
    | DeductStock(orders: seq<OrderItem>, email: string)
    | ReplenishStock(productId: string, quantity: int, email: string)

  /** Placeholder category shown when a product has none. */
  const UnknownCategory: string := "Inconnu"

  /** `products.find(p => p.id === id)`, `None` standing for `undefined`. */
  function FindProduct(products: seq<Product>, id: string): (r: Option<Product>)
    ensures r.None? <==> forall i :: 0 <= i < |products| ==> products[i].id != id
    ensures r.Some? ==> r.value.id == id && r.value in products
    ensures r.Some? ==> exists k :: 0 <= k < |products| && products[k] == r.value
                                    && forall j :: 0 <= j < k ==> products[j].id != id
  {
    var k := FindIndex((p: Product) => p.id == id, products);
    if k == -1 then None else Some(products[k])
  }

  /** The `categoryName || "Inconnu"` normalisation applied to fetched products. */
  function WithCategoryDefault(products: seq<Product>): (r: seq<Product>)
    ensures |r| == |products|
    ensures forall i :: 0 <= i < |r| ==>
              r[i].categoryName != "" &&
              r[i] == (if products[i].categoryName == "" then products[i].(categoryName := UnknownCategory)
                       else products[i])
  {
    if products == [] then []
    else
      var p := products[0];
      [if p.categoryName == "" then p.(categoryName := UnknownCategory) else p]
        + WithCategoryDefault(products[1..])
  }
}
