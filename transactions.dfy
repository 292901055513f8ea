/** The transaction history page: the ledger filtered by product and by an
    inclusive day range, shown five entries per page, and the product list
    narrowed to the products active in the chosen days.

    Dates are timestamps in milliseconds. A date field that is empty is
    `None`; a chosen start (end) date is given as the bound the page computes
    from it: the date string read by `new Date`, then moved with `setHours` to
    the first (last) millisecond of that instant's local day. */
module TransactionsView {
  import opened Sequences
  import opened Inventory

  const ItemsPerPage: nat := 5

  /** The time test of `filteredTransactions`: on or after the start of the
      first day and on or before the end of the last day. */
  predicate InRange(t: int, startOfDay: Option<int>, endOfDay: Option<int>)
  {
    (startOfDay.None? || t >= startOfDay.value) && (endOfDay.None? || t <= endOfDay.value)
  }

  predicate Kept(tx: Transaction, productId: Option<string>, startOfDay: Option<int>, endOfDay: Option<int>)
  {
    (productId.None? || tx.productId == productId.value) && InRange(tx.createdAt, startOfDay, endOfDay)
  }

  /** `filteredTransactions`. */
  function FilterTransactions(txs: seq<Transaction>, productId: Option<string>,
                              startOfDay: Option<int>, endOfDay: Option<int>): (r: seq<Transaction>)
    ensures IsSubsequence(r, txs)
    ensures forall tx :: tx in r <==>
              tx in txs && (productId.None? || tx.productId == productId.value) &&
              (startOfDay.None? || tx.createdAt >= startOfDay.value) &&
              (endOfDay.None? || tx.createdAt <= endOfDay.value)
    ensures productId.None? && startOfDay.None? && endOfDay.None? ==> r == txs
  {
    var keep := (tx: Transaction) => Kept(tx, productId, startOfDay, endOfDay);
    FilterKeepsAll(keep, txs);
    Filter(keep, txs)
  }

  // ---------------------------------------------------------------- pagination

  /** `Math.ceil(n / 5)`. */
  function TotalPages(n: nat): (r: nat)
    ensures r * ItemsPerPage >= n
    ensures r > 0 ==> (r - 1) * ItemsPerPage < n
    ensures r == 0 <==> n == 0
  {
    (n + ItemsPerPage - 1) / ItemsPerPage
  }

  function StartIndex(page: int): (i: int)
  {
    (page - 1) * ItemsPerPage
  }

  /** `currentTransactions`: the slice [startIndex, startIndex + 5) of the filtered list. */
  function PageItems(filtered: seq<Transaction>, page: int): (r: seq<Transaction>)
    requires page >= 1
    ensures |r| <= ItemsPerPage
    ensures forall i :: 0 <= i < |r| ==> StartIndex(page) + i < |filtered| && r[i] == filtered[StartIndex(page) + i]
    ensures page <= TotalPages(|filtered|) ==> |r| == Min(ItemsPerPage, |filtered| - StartIndex(page)) > 0
    ensures page > TotalPages(|filtered|) ==> r == []
  {
    Slice(filtered, StartIndex(page), StartIndex(page) + ItemsPerPage)
  }

  /** Every entry of the filtered list is on page `i / 5 + 1`, at position `i % 5`. */
  lemma EntryOnItsPage(filtered: seq<Transaction>, i: nat)
    requires i < |filtered|
    ensures 1 <= i / ItemsPerPage + 1 <= TotalPages(|filtered|)
    ensures i % ItemsPerPage < |PageItems(filtered, i / ItemsPerPage + 1)|
    ensures PageItems(filtered, i / ItemsPerPage + 1)[i % ItemsPerPage] == filtered[i]
  {
  }

  /** Pages 1 to k laid end to end. */
  function PagesUpTo(filtered: seq<Transaction>, k: nat): (r: seq<Transaction>)
  {
    if k == 0 then [] else PagesUpTo(filtered, k - 1) + PageItems(filtered, k)
  }

  /** Laid end to end, the pages give the first 5k entries of the filtered list. */
  lemma {:induction false} PagesUpToIsPrefix(filtered: seq<Transaction>, k: nat)
    ensures PagesUpTo(filtered, k) == filtered[..Min(k * ItemsPerPage, |filtered|)]
  {
    if k > 0 {
      PagesUpToIsPrefix(filtered, k - 1);
      var before := Min((k - 1) * ItemsPerPage, |filtered|);
      var after := Min(k * ItemsPerPage, |filtered|);
      var page := PageItems(filtered, k);
      if (k - 1) * ItemsPerPage >= |filtered| {
        assert page == [];
        assert before == after;
      } else {
        assert |page| == after - before;
        assert filtered[..after] == filtered[..before] + filtered[before..after];
        assert page == filtered[before..after];
      }
    }
  }

  /** All the pages together are exactly the filtered list. */
  lemma {:induction false} PagesCoverFiltered(filtered: seq<Transaction>)
    ensures PagesUpTo(filtered, TotalPages(|filtered|)) == filtered
  {
    PagesUpToIsPrefix(filtered, TotalPages(|filtered|));
  }

  // ---------------------------------------------------------------- products active in the range

  /** The time test of the product-list effect. It checks each bound for
      truthiness, so a bound whose timestamp is 0 is not applied. */
  predicate InRangeTruthy(t: int, startOfDay: Option<int>, endOfDay: Option<int>)
  {
    (startOfDay.None? || startOfDay.value == 0 || t >= startOfDay.value) &&
    (endOfDay.None? || endOfDay.value == 0 || t <= endOfDay.value)
  }

  predicate HasActivity(p: Product, txs: seq<Transaction>, startOfDay: Option<int>, endOfDay: Option<int>)
  {
    exists tx :: tx in txs && tx.productId == p.id && InRangeTruthy(tx.createdAt, startOfDay, endOfDay)
  }

  /** The products that have at least one transaction in the chosen days. */
  function ProductsWithActivity(products: seq<Product>, txs: seq<Transaction>,
                                startOfDay: Option<int>, endOfDay: Option<int>): (r: seq<Product>)
    ensures IsSubsequence(r, products)
    ensures forall p :: p in r <==>
              p in products &&
              exists tx :: tx in txs && tx.productId == p.id && InRangeTruthy(tx.createdAt, startOfDay, endOfDay)
  {
    Filter((p: Product) => HasActivity(p, txs, startOfDay, endOfDay), products)
  }

  /** Narrowing an already narrowed list gives an equal list. This is about
      values only: the page stores a new array on every run, so the effect
      is triggered again each time (see the README). */
  lemma ProductsWithActivityIdempotent(products: seq<Product>, txs: seq<Transaction>,
                                       startOfDay: Option<int>, endOfDay: Option<int>)
    ensures var once := ProductsWithActivity(products, txs, startOfDay, endOfDay);
            ProductsWithActivity(once, txs, startOfDay, endOfDay) == once
  {
    FilterIdempotent((p: Product) => HasActivity(p, txs, startOfDay, endOfDay), products);
  }

  /** With non-zero bounds, a product stays in the list exactly when the
      ledger filtered by that product and those days is not empty. */
  lemma {:induction false} ActivityMatchesLedgerFilter(p: Product, txs: seq<Transaction>,
                                                      startOfDay: Option<int>, endOfDay: Option<int>)
    requires startOfDay.Some? ==> startOfDay.value != 0
    requires endOfDay.Some? ==> endOfDay.value != 0
    ensures HasActivity(p, txs, startOfDay, endOfDay) <==>
            FilterTransactions(txs, Some(p.id), startOfDay, endOfDay) != []
  {
    var r := FilterTransactions(txs, Some(p.id), startOfDay, endOfDay);
    if HasActivity(p, txs, startOfDay, endOfDay) {
      var tx :| tx in txs && tx.productId == p.id && InRangeTruthy(tx.createdAt, startOfDay, endOfDay);
      assert tx in r;
    }
    if r != [] {
      assert r[0] in r;
      assert r[0] in txs && r[0].productId == p.id && InRangeTruthy(r[0].createdAt, startOfDay, endOfDay);
    }
  }

  // ---------------------------------------------------------------- the page state

  class TransactionsPage {
    const email: string
    var products: seq<Product>
    var transactions: seq<Transaction>
    var selectedProduct: Option<Product>
    var startOfDay: Option<int>
    var endOfDay: Option<int>
    var currentPage: int
    /** The server actions called so far. */
    ghost var calls: seq<ActionCall>

    ghost predicate Valid()
      reads this
    {
      currentPage >= 1
    }

    constructor (email: string)
      ensures Valid()
      ensures this.email == email && products == [] && transactions == [] && selectedProduct == None
      ensures startOfDay == None && endOfDay == None && currentPage == 1 && calls == []
    {
      this.email := email;
      products, transactions := [], [];
      selectedProduct, startOfDay, endOfDay := None, None, None;
      currentPage := 1;
      calls := [];
    }

    function Filtered(): seq<Transaction>
      reads this
    {
      FilterTransactions(transactions, if selectedProduct.Some? then Some(selectedProduct.value.id) else None,
                         startOfDay, endOfDay)
    }

    function PageCount(): nat
      reads this
    {
      TotalPages(|Filtered()|)
    }

    function CurrentTransactions(): seq<Transaction>
      reads this
      requires Valid()
    {
      PageItems(Filtered(), currentPage)
    }

    /** The previous/next buttons are rendered only when there is more than one page. */
    predicate ControlsShown()
      reads this
    {
      |Filtered()| > ItemsPerPage
    }

    /** `fetchData`: reads the products and the ledger when signed in; `None`
        stands for a `null`/`undefined` answer (an empty list is an answer and
        replaces the old one). Both lists are stored only after both reads
        returned, so a raised call of either action is two `None` answers. */
    method FetchData(fetchedProducts: Option<seq<Product>>, fetchedTransactions: Option<seq<Transaction>>)
      modifies this`products, this`transactions, this`calls
      ensures calls == old(calls) + (if email != "" then [ReadProducts(email), GetTransactions(email)] else [])
      ensures products == if email != "" && fetchedProducts.Some? then WithCategoryDefault(fetchedProducts.value)
                          else old(products)
      ensures transactions == if email != "" && fetchedTransactions.Some? then fetchedTransactions.value
                              else old(transactions)
    {
      if email != "" {
        calls := calls + [ReadProducts(email), GetTransactions(email)];
        if fetchedProducts.Some? {
          products := WithCategoryDefault(fetchedProducts.value);
        }
        if fetchedTransactions.Some? {
          transactions := fetchedTransactions.value;
        }
      }
    }

    /** The product select box: the product with that id, or none. */
    method SelectProduct(value: string)
      modifies this`selectedProduct
      ensures selectedProduct == FindProduct(products, value)
    {
      selectedProduct := FindProduct(products, value);
    }

    method SetDateRange(start: Option<int>, end: Option<int>)
      modifies this`startOfDay, this`endOfDay
      ensures startOfDay == start && endOfDay == end
    {
      startOfDay, endOfDay := start, end;
    }

    /** `resetFilters`; the current page is left as it is. */
    method ResetFilters()
      modifies this`selectedProduct, this`startOfDay, this`endOfDay
      ensures selectedProduct == None && startOfDay == None && endOfDay == None
      ensures Filtered() == transactions
    {
      selectedProduct, startOfDay, endOfDay := None, None, None;
    }

    /** `handlePageChange`: only a page between 1 and the page count is taken. */
    method PageChange(newPage: int)
      requires Valid()
      modifies this`currentPage
      ensures Valid()
      ensures 1 <= newPage <= PageCount() ==> currentPage == newPage
      ensures !(1 <= newPage <= PageCount()) ==> currentPage == old(currentPage)
    {
      if newPage >= 1 && newPage <= PageCount() {
        currentPage := newPage;
      }
    }

    /** The previous-page button. */
    method PreviousPage()
      requires Valid() && ControlsShown()
      modifies this`currentPage
      ensures Valid()
      ensures currentPage == Max(1, old(currentPage) - 1)
    {
      currentPage := Max(1, currentPage - 1);
    }

    /** The next-page button: never goes past the last page. */
    method NextPage()
      requires Valid() && ControlsShown()
      modifies this`currentPage
      ensures Valid()
      ensures currentPage == Min(PageCount(), old(currentPage) + 1)
      ensures 1 <= currentPage <= PageCount() && |CurrentTransactions()| > 0
    {
      currentPage := Min(PageCount(), currentPage + 1);
    }

    /** The effect that narrows the product list when a date is chosen. It
        narrows the current list, which an earlier range may already have
        narrowed: nothing here, nor `ResetFilters`, brings a dropped product
        back before the next `FetchData`. */
    method ApplyDateRangeToProducts()
      modifies this`products
      ensures startOfDay.None? && endOfDay.None? ==> products == old(products)
      ensures startOfDay.Some? || endOfDay.Some? ==>
                products == ProductsWithActivity(old(products), transactions, startOfDay, endOfDay)
    {
      if startOfDay.None? && endOfDay.None? {
        return;
      }
      products := ProductsWithActivity(products, transactions, startOfDay, endOfDay);
    }
  }
}
