/** The public product list page: adding a product to the stored cart, the
    client-side text search, and pagination (shared with the seller
    dashboard, which uses a smaller page). */
module ProductsList {
  import opened Common
  import opened Cart
  import Text

  /** A product as the list endpoint returns it, with its seller. */
  datatype ListedProduct = ListedProduct(
    id: int,
    name: string,
    description: string,
    price: int,
    stock: int,
    category: string,
    status: string,
    mainImage: Option<string>,
    seller: Seller,
    views: int,
    rating: int)

  const ProductsPerPage: nat := 9

  // ---------------------------------------------------------------------
  // Adding to the cart

  /** `findIndex` on the product id: the first position of an item for
      product `pid`, or -1 when there is none. */
  function FindIndex(cart: seq<CartItem>, pid: int): (k: int)
    ensures -1 <= k < |cart|
    ensures k >= 0 ==> cart[k].productId == pid && forall j :: 0 <= j < k ==> cart[j].productId != pid
    ensures k == -1 <==> forall j :: 0 <= j < |cart| ==> cart[j].productId != pid
  {
    if cart == [] then -1
    else if cart[0].productId == pid then 0
    else
      var k := FindIndex(cart[1..], pid);
      assert forall j :: 1 <= j < |cart| ==> cart[1..][j - 1] == cart[j];
      if k == -1 then -1 else k + 1
  }

  /** The item pushed for a product not yet in the cart. */
  function NewCartItem(p: ListedProduct, newId: int): (item: CartItem)
    ensures item.id == newId && item.productId == p.id && item.quantity == 1
    ensures item.name == p.name && item.description == p.description && item.price == p.price
    ensures item.mainImage == p.mainImage && item.seller == p.seller
  {
    CartItem(newId, p.id, p.name, p.description, p.price, 1, p.mainImage, p.seller)
  }

  /** The cart after `addToCart(p)`: the first item for the product gets
      one more unit, or else a new item with quantity 1 is appended. */
  function AddedToCart(cart: seq<CartItem>, p: ListedProduct, newId: int): (r: seq<CartItem>)
    ensures FindIndex(cart, p.id) >= 0 ==>
              var k := FindIndex(cart, p.id);
              |r| == |cart| && r[k] == cart[k].(quantity := cart[k].quantity + 1)
              && forall j :: 0 <= j < |cart| && j != k ==> r[j] == cart[j]
    ensures FindIndex(cart, p.id) == -1 ==> r == cart + [NewCartItem(p, newId)]
  {
    var k := FindIndex(cart, p.id);
    if k > -1 then cart[k := cart[k].(quantity := cart[k].quantity + 1)]
    else cart + [NewCartItem(p, newId)]
  }

  predicate UniqueProducts(cart: seq<CartItem>) {
    forall i, j :: 0 <= i < j < |cart| ==> cart[i].productId != cart[j].productId
  }

  /** Adding keeps product ids unique, grows the cart only for a new
      product, and raises the subtotal by one unit's price: the stored
      item's price when the product was already there, else the product's. */
  lemma AddToCartProperties(cart: seq<CartItem>, p: ListedProduct, newId: int)
    ensures UniqueProducts(cart) ==> UniqueProducts(AddedToCart(cart, p, newId))
    ensures |AddedToCart(cart, p, newId)| == |cart| + (if FindIndex(cart, p.id) >= 0 then 0 else 1)
    ensures Subtotal(AddedToCart(cart, p, newId))
         == Subtotal(cart) + (if FindIndex(cart, p.id) >= 0 then cart[FindIndex(cart, p.id)].price else p.price)
  {
    var k := FindIndex(cart, p.id);
    var r := AddedToCart(cart, p, newId);
    if k >= 0 {
      SubtotalBump(cart, k);
    } else {
      SubtotalAppend(cart, [NewCartItem(p, newId)]);
      assert [NewCartItem(p, newId)][1..] == [];
    }
  }

  /** One more unit of item `k` adds its price to the subtotal. */
  lemma {:induction false} SubtotalBump(cart: seq<CartItem>, k: int)
    requires 0 <= k < |cart|
    ensures Subtotal(cart[k := cart[k].(quantity := cart[k].quantity + 1)]) == Subtotal(cart) + cart[k].price
  {
    var r := cart[k := cart[k].(quantity := cart[k].quantity + 1)];
    if k == 0 {
      assert r[1..] == cart[1..];
    } else {
      assert r[1..] == cart[1..][k - 1 := cart[1..][k - 1].(quantity := cart[1..][k - 1].quantity + 1)];
      SubtotalBump(cart[1..], k - 1);
    }
  }

  // ---------------------------------------------------------------------
  // Search

  /** The lower-cased name or description contains the lower-cased search. */
  predicate MatchesSearch(p: ListedProduct, search: string) {
    || Text.Contains(Text.Lower(p.name), Text.Lower(search))
    || Text.Contains(Text.Lower(p.description), Text.Lower(search))
  }

  /** The products matching `search`, in their order. */
  function FilterBySearch(ps: seq<ListedProduct>, search: string): (r: seq<ListedProduct>)
    ensures |r| <= |ps|
    ensures forall x :: x in r <==> x in ps && MatchesSearch(x, search)
  {
    if ps == [] then []
    else if MatchesSearch(ps[0], search) then [ps[0]] + FilterBySearch(ps[1..], search)
    else FilterBySearch(ps[1..], search)
  }

  /** Filtering keeps the original order: it acts on each part separately. */
  lemma {:induction false} FilterBySearchAppend(a: seq<ListedProduct>, b: seq<ListedProduct>, search: string)
    ensures FilterBySearch(a + b, search) == FilterBySearch(a, search) + FilterBySearch(b, search)
  {
    if a != [] {
      assert (a + b)[1..] == a[1..] + b;
      FilterBySearchAppend(a[1..], b, search);
    } else {
      assert a + b == b;
    }
  }

  /** The search effect: every product for an empty search, otherwise the
      matching ones. */
  function SearchResults(ps: seq<ListedProduct>, search: string): (r: seq<ListedProduct>)
    ensures search == "" ==> r == ps
    ensures search != "" ==> forall x :: x in r <==> x in ps && MatchesSearch(x, search)
  {
    if search != "" then FilterBySearch(ps, search) else ps
  }

  /** The empty search matches every product anyway, so the empty-search
      branch agrees with filtering. */
  lemma {:induction false} EmptySearchMatchesAll(ps: seq<ListedProduct>)
    ensures FilterBySearch(ps, "") == ps
  {
    if ps != [] {
      assert Text.Lower("") == "";
      assert "" <= Text.Lower(ps[0].name);
      EmptySearchMatchesAll(ps[1..]);
    }
  }

  // ---------------------------------------------------------------------
  // Pagination

  /** A `slice` bound: negative counts from the end, then clamped to `0..n`. */
  function SliceBound(i: int, n: nat): (b: nat)
    ensures b <= n
    ensures 0 <= i <= n ==> b == i
    ensures i > n ==> b == n
    ensures i < 0 ==> b == (if i + n < 0 then 0 else i + n)
  {
    if i < 0 then (if i + n < 0 then 0 else i + n) else if i > n then n else i
  }

  /** `s.slice(start, end)`. */
  function Slice<T>(s: seq<T>, start: int, end: int): seq<T> {
    var a := SliceBound(start, |s|);
    var b := SliceBound(end, |s|);
    if a < b then s[a..b] else []
  }

  /** Page `page` of `s`: the slice from `page * size - size` to `page * size`. */
  function PageOf<T>(s: seq<T>, page: int, size: nat): seq<T> {
    Slice(s, page * size - size, page * size)
  }

  function Min(a: int, b: int): int { if a < b then a else b }

  /** For a page number from 1, the page is the window
      `[(page - 1) * size, page * size)` cut to the list. */
  lemma PageIsWindow<T>(s: seq<T>, page: int, size: nat)
    requires page >= 1
    ensures PageOf(s, page, size) == s[Min((page - 1) * size, |s|)..Min(page * size, |s|)]
  {
    assert (page - 1) * size == page * size - size;
    assert page * size >= 0 && (page - 1) * size >= 0;
  }

  /** `Math.ceil(n / size)`. */
  function TotalPages(n: nat, size: nat): (t: nat)
    requires size > 0
    ensures t * size >= n
    ensures t > 0 ==> (t - 1) * size < n
  {
    (n + size - 1) / size
  }

  /** Pages 1 to `k` put together. */
  function PagesUpTo<T>(s: seq<T>, size: nat, k: nat): seq<T> {
    if k == 0 then [] else PagesUpTo(s, size, k - 1) + PageOf(s, k, size)
  }

  lemma {:induction false} PagesUpToIsPrefix<T>(s: seq<T>, size: nat, k: nat)
    ensures PagesUpTo(s, size, k) == s[..Min(k * size, |s|)]
  {
    if k > 0 {
      PagesUpToIsPrefix(s, size, k - 1);
      PageIsWindow(s, k, size);
      assert (k - 1) * size <= k * size;
      var a := Min((k - 1) * size, |s|);
      var b := Min(k * size, |s|);
      assert s[..a] + s[a..b] == s[..b];
    }
  }

  /** Pages 1 to `TotalPages` cover the list exactly once, in order. */
  lemma PagesCoverList<T>(s: seq<T>, size: nat)
    requires size > 0
    ensures PagesUpTo(s, size, TotalPages(|s|, size)) == s
  {
    PagesUpToIsPrefix(s, size, TotalPages(|s|, size));
    assert s[..|s|] == s;
  }

  lemma MulMonotone(a: int, b: int, c: nat)
    requires a >= b
    ensures a * c >= b * c
  {
    assert (a - b) * c >= 0;
  }

  /** Every page after the last is empty. */
  lemma PagesBeyondLastEmpty<T>(s: seq<T>, size: nat, page: int)
    requires size > 0 && page > TotalPages(|s|, size)
    ensures PageOf(s, page, size) == []
  {
    PageIsWindow(s, page, size);
    MulMonotone(page - 1, TotalPages(|s|, size), size);
  }

  // ---------------------------------------------------------------------
  // The page

  class ProductsListPage {
    var products: seq<ListedProduct>
    var filteredProducts: seq<ListedProduct>
    var search: string
    var currentPage: int
    const saved: SavedCart

    constructor (saved: SavedCart)
      ensures this.saved == saved && products == [] && filteredProducts == []
      ensures search == "" && currentPage == 1
    {
      this.saved := saved;
      products := [];
      filteredProducts := [];
      search := "";
      currentPage := 1;
    }

    /** The products shown on the current page. */
    function CurrentProducts(): seq<ListedProduct>
      reads this
    {
      PageOf(filteredProducts, currentPage, ProductsPerPage)
    }

    function PageCount(): nat
      reads this
    {
      TotalPages(|filteredProducts|, ProductsPerPage)
    }

    /** Typing in the search box: the search effect recomputes the shown
        products and goes back to page 1. */
    method SetSearch(s: string)
      modifies this
      ensures search == s && products == old(products)
      ensures filteredProducts == SearchResults(products, s) && currentPage == 1
    {
      search := s;
      filteredProducts := SearchResults(products, search);
      currentPage := 1;
    }

    /** A successful fetch: the products are replaced, and the search
        effect that follows filters them by the current search and goes back
        to page 1. */
    method ProductsLoaded(ps: seq<ListedProduct>)
      modifies this
      ensures products == ps && search == old(search)
      ensures filteredProducts == SearchResults(ps, search) && currentPage == 1
    {
      products := ps;
      filteredProducts := ps;
      filteredProducts := SearchResults(products, search);
      currentPage := 1;
    }

    /** `paginate`: show page `n`. */
    method Paginate(n: int)
      modifies this
      ensures currentPage == n
      ensures products == old(products) && filteredProducts == old(filteredProducts) && search == old(search)
    {
      currentPage := n;
    }

    /** `addToCart`: read the stored cart (empty when absent), add the
        product to it, and store it again. `newId` stands for `Date.now()`. */
    method AddToCart(p: ListedProduct, newId: int)
      modifies saved
      ensures saved.entry == Some(AddedToCart(old(saved.entry).GetOr([]), p, newId))
    {
      var cart := saved.entry.GetOr([]);
      var k := FindIndex(cart, p.id);
      if k > -1 {
        cart := cart[k := cart[k].(quantity := cart[k].quantity + 1)];
      } else {
        cart := cart + [NewCartItem(p, newId)];
      }
      saved.entry := Some(cart);
    }
  }
}
