/** The catalog service (`ProductService`): the `products` table it shares
    with the order service, the public listing filters, and the seller's
    ownership-checked mutations with their stock/status coupling. */
module Catalog {
  import opened Common
  import opened ProductEntity
  import opened ProductDto
  import Tables
  import Text

  /** The `products` repository: rows by auto-increment primary key. */
  class ProductTable {
    var rows: map<int, Product>
    var nextId: nat

    ghost predicate Valid()
      reads this
    {
      && nextId >= 1
      && forall id :: id in rows ==> rows[id].id == id && 1 <= id < nextId
    }

    constructor ()
      ensures Valid() && rows == map[] && nextId == 1
    {
      rows := map[];
      nextId := 1;
    }
  }

  function ProductId(p: Product): int { p.id }
  function ProductCreated(p: Product): int { p.createdAt }

  // ---------------------------------------------------------------------
  // Listing filters

  /** A product passes the `andWhere` conditions `findAll` adds for `f`.
      Following JavaScript truthiness, an empty category, status or search
      and a seller id of 0 add no condition; the price bounds apply whenever
      present. Without a status the listing shows active products only.
      `LIKE '%search%'` is read as plain substring search. */
  predicate MatchesFilter(p: Product, f: ProductFilterDto) {
    && (f.category.Some? && f.category.value != "" ==> CategoryName(p.category) == f.category.value)
    && (if f.status.Some? && f.status.value != "" then StatusName(p.status) == f.status.value
        else p.status == Active)
    && (f.sellerId.Some? && f.sellerId.value != 0 ==> p.sellerId == f.sellerId.value)
    && (f.minPrice.Some? ==> p.price >= f.minPrice.value)
    && (f.maxPrice.Some? ==> p.price <= f.maxPrice.value)
    && (f.search.Some? && f.search.value != "" ==>
          Text.Contains(p.name, f.search.value) || Text.Contains(p.description, f.search.value))
  }

  function FilterOf(f: ProductFilterDto): Product -> bool {
    (p: Product) => MatchesFilter(p, f)
  }

  function OfSeller(sellerId: int): Product -> bool {
    (p: Product) => p.sellerId == sellerId
  }

  /** With no filter at all, exactly the active products are listed. */
  lemma DefaultFilterIsActiveOnly(p: Product)
    ensures MatchesFilter(p, ProductFilterDto(None, None, None, None, None, None)) <==> p.status == Active
  {
  }

  /** The filter does not require `minPrice <= maxPrice`: an inverted range
      passes validation and then matches no product at all. */
  lemma InvertedPriceRangeMatchesNothing(p: Product, lo: int, hi: int)
    requires 0 <= hi < lo
    ensures ValidFilter(ProductFilterDto(None, None, Some(lo), Some(hi), None, None))
    ensures !MatchesFilter(p, ProductFilterDto(None, None, Some(lo), Some(hi), None, None))
  {
  }

  // ---------------------------------------------------------------------
  // Seller statistics

  datatype SellerStats = SellerStats(
    totalProducts: nat,
    activeProducts: nat,
    inactiveProducts: nat,
    outOfStock: nat,
    totalViews: int,
    averageRating: real,
    totalReviews: int)

  function CountStatus(ps: seq<Product>, st: ProductStatus): (n: nat)
    ensures n <= |ps|
  {
    if ps == [] then 0 else (if ps[0].status == st then 1 else 0) + CountStatus(ps[1..], st)
  }

  function SumViews(ps: seq<Product>): int {
    if ps == [] then 0 else ps[0].views + SumViews(ps[1..])
  }

  function SumRatings(ps: seq<Product>): int {
    if ps == [] then 0 else ps[0].rating + SumRatings(ps[1..])
  }

  function SumReviews(ps: seq<Product>): int {
    if ps == [] then 0 else ps[0].reviewsCount + SumReviews(ps[1..])
  }

  /** Every product has exactly one of the three statuses. */
  lemma {:induction false} StatusCountsPartition(ps: seq<Product>)
    ensures CountStatus(ps, Active) + CountStatus(ps, Inactive) + CountStatus(ps, OutOfStock) == |ps|
  {
    if ps != [] {
      StatusCountsPartition(ps[1..]);
    }
  }

  /** The statistics `getSellerStats` computes over one seller's products.
      The mean rating is exact (in hundredths); it is 0 without products. */
  function StatsOf(ps: seq<Product>): (s: SellerStats)
    ensures s.totalProducts == |ps|
    ensures s.activeProducts + s.inactiveProducts + s.outOfStock == s.totalProducts
    ensures s.totalViews == SumViews(ps) && s.totalReviews == SumReviews(ps)
    ensures ps == [] ==> s.averageRating == 0.0
  {
    StatusCountsPartition(ps);
    SellerStats(
      |ps|,
      CountStatus(ps, Active),
      CountStatus(ps, Inactive),
      CountStatus(ps, OutOfStock),
      SumViews(ps),
      if |ps| > 0 then (SumRatings(ps) as real) / (|ps| as real) else 0.0,
      SumReviews(ps))
  }

  // ---------------------------------------------------------------------
  // Pure steps of the mutations

  /** The lookup-then-ownership check every mutation starts with: NotFound
      for an absent id first, then Forbidden for another seller's product. */
  function Owned(rows: map<int, Product>, id: int, userId: int): (r: Result<Product>)
    ensures r == Err(NotFound(id)) <==> id !in rows
    ensures r == Err(NotOwner) <==> id in rows && rows[id].sellerId != userId
    ensures r.Ok? <==> id in rows && rows[id].sellerId == userId
    ensures r.Ok? ==> r.value == rows[id]
  {
    if id !in rows then Err(NotFound(id))
    else if rows[id].sellerId != userId then Err(NotOwner)
    else Ok(rows[id])
  }

  /** The row `create` saves: the body's properties, the caller as seller,
      the body's status or `active`, and the column defaults. A stock of 0
      does not make the product out of stock. */
  function NewProduct(id: int, d: CreateProductDto, sellerId: int, now: int): (p: Product)
    requires ValidCreate(d)
    ensures p.id == id && p.sellerId == sellerId && p.createdAt == now
    ensures p.name == d.name.value && p.description == d.description.value
    ensures p.price == d.price.value && p.stock == d.stock.value
    ensures CategoryName(p.category) == d.category.value
    ensures d.status.Some? ==> StatusName(p.status) == d.status.value
    ensures d.status.None? ==> p.status == Active
    ensures p.images == d.images && p.mainImage == d.mainImage
    ensures p.views == 0 && p.rating == 0 && p.reviewsCount == 0
  {
    Product(
      id, d.name.value, d.description.value, d.price.value, d.stock.value,
      ParseCategory(d.category.value).value,
      if d.status.Some? then ParseStatus(d.status.value).value else DefaultStatus,
      d.images, d.mainImage, sellerId, 0, 0, 0, now)
  }

  /** `Object.assign(product, dto)` followed by the stock rule: every
      property present in the body overwrites the product's, nothing else
      changes, and a body stock of 0 forces `out_of_stock` even over a body
      status. */
  function ApplyUpdate(p: Product, d: UpdateProductDto): (q: Product)
    requires ValidUpdate(d)
    ensures q.name == d.name.GetOr(p.name) && q.description == d.description.GetOr(p.description)
    ensures q.price == d.price.GetOr(p.price) && q.stock == d.stock.GetOr(p.stock)
    ensures d.category.Some? ==> CategoryName(q.category) == d.category.value
    ensures d.category.None? ==> q.category == p.category
    ensures d.stock == Some(0) ==> q.status == OutOfStock
    ensures d.stock != Some(0) && d.status.Some? ==> StatusName(q.status) == d.status.value
    ensures d.stock != Some(0) && d.status.None? ==> q.status == p.status
    ensures q.images == (if d.images.Some? then d.images else p.images)
    ensures q.mainImage == (if d.mainImage.Some? then d.mainImage else p.mainImage)
    ensures q.(name := p.name, description := p.description, price := p.price, stock := p.stock,
               category := p.category, status := p.status, images := p.images, mainImage := p.mainImage) == p
  {
    var copied := p.(
      name := d.name.GetOr(p.name),
      description := d.description.GetOr(p.description),
      price := d.price.GetOr(p.price),
      stock := d.stock.GetOr(p.stock),
      category := (if d.category.Some? then ParseCategory(d.category.value).value else p.category),
      status := (if d.status.Some? then ParseStatus(d.status.value).value else p.status),
      images := (if d.images.Some? then d.images else p.images),
      mainImage := (if d.mainImage.Some? then d.mainImage else p.mainImage));
    if d.stock.Some? && d.stock.value == 0 then copied.(status := OutOfStock) else copied
  }

  /** `update` never re-activates: without a body status the result is
      active only if the product already was. */
  lemma UpdateNeverReactivates(p: Product, d: UpdateProductDto)
    requires ValidUpdate(d) && d.status.None?
    ensures ApplyUpdate(p, d).status == Active ==> p.status == Active
  {
  }

  /** The stock adjustment: rejected when the new stock would be negative;
      otherwise stock becomes `stock + quantity`, a stock of 0 makes the
      product out of stock, a positive stock re-activates an out-of-stock
      product, and no other status or property changes. */
  function AdjustStock(p: Product, quantity: int): (r: Result<Product>)
    ensures r.Err? <==> p.stock + quantity < 0
    ensures r.Err? ==> r.error == NegativeStock
    ensures r.Ok? ==> r.value.stock == p.stock + quantity
    ensures r.Ok? && r.value.stock == 0 ==> r.value.status == OutOfStock
    ensures r.Ok? && r.value.stock > 0 && p.status == OutOfStock ==> r.value.status == Active
    ensures r.Ok? && r.value.stock > 0 && p.status != OutOfStock ==> r.value.status == p.status
    ensures r.Ok? ==> r.value.(stock := p.stock, status := p.status) == p
  {
    var newStock := p.stock + quantity;
    if newStock < 0 then Err(NegativeStock)
    else
      var status := if newStock == 0 then OutOfStock
                    else if p.status == OutOfStock then Active
                    else p.status;
      Ok(p.(stock := newStock, status := status))
  }

  /** The coupling the catalog intends: out of stock exactly when no stock is left. */
  predicate StockStatusAgree(p: Product) {
    p.stock == 0 <==> p.status == OutOfStock
  }

  /** A successful stock adjustment restores the coupling whatever the
      product's state before, and keeps stock non-negative. */
  lemma AdjustStockRestoresAgreement(p: Product, quantity: int)
    requires p.stock >= 0
    ensures AdjustStock(p, quantity).Ok? ==> StockStatusAgree(AdjustStock(p, quantity).value)
    ensures AdjustStock(p, quantity).Ok? ==> AdjustStock(p, quantity).value.stock >= 0
  {
  }

  /** Draining an active product to exactly 0 makes it out of stock, and
      adding stock back returns it to `active` with the added stock. */
  lemma StockRoundTrip(p: Product, k: int)
    requires p.stock >= 0 && k > 0 && p.status == Active
    ensures var down := AdjustStock(p, -p.stock);
            && down.Ok? && down.value.status == OutOfStock
            && AdjustStock(down.value, k).Ok?
            && AdjustStock(down.value, k).value.status == Active
            && AdjustStock(down.value, k).value.stock == k
  {
  }

  /** The coupling is not an invariant of the catalog as written: `create`
      leaves a product created with stock 0 and no status active. */
  lemma CreateCanBreakAgreement(d: CreateProductDto, sellerId: int, now: int)
    requires ValidCreate(d) && d.stock == Some(0) && d.status.None?
    ensures !StockStatusAgree(NewProduct(1, d, sellerId, now))
  {
  }

  // ---------------------------------------------------------------------
  // The service

  class ProductService {
    const table: ProductTable

    constructor (table: ProductTable)
      ensures this.table == table
    {
      this.table := table;
    }

    /** `findAll`: the products passing every filter, newest first. */
    method FindAll(f: ProductFilterDto) returns (r: seq<Product>)
      requires table.Valid()
      ensures Tables.Lists(r, table.rows, ProductId, FilterOf(f), ProductCreated)
    {
      r := Tables.SelectNewestFirst(table.rows, table.nextId, ProductId, FilterOf(f), ProductCreated);
    }

    /** `findOne`: NotFound for an absent id; otherwise the product as read,
        with the view count from before this visit, after which the stored
        view count is one higher and nothing else changed. */
    method FindOne(id: int) returns (r: Result<Product>)
      requires table.Valid()
      modifies table
      ensures table.Valid() && table.nextId == old(table.nextId)
      ensures id !in old(table.rows) ==> r == Err(NotFound(id)) && table.rows == old(table.rows)
      ensures id in old(table.rows) ==>
                && r == Ok(old(table.rows[id]))
                && table.rows == old(table.rows)[id := old(table.rows[id]).(views := old(table.rows[id]).views + 1)]
    {
      if id !in table.rows {
        return Err(NotFound(id));
      }
      var product := table.rows[id];
      table.rows := table.rows[id := product.(views := product.views + 1)];
      r := Ok(product);
    }

    /** `findBySeller`: that seller's products, whatever their status, newest first. */
    method FindBySeller(sellerId: int) returns (r: seq<Product>)
      requires table.Valid()
      ensures Tables.Lists(r, table.rows, ProductId, OfSeller(sellerId), ProductCreated)
    {
      r := Tables.SelectNewestFirst(table.rows, table.nextId, ProductId, OfSeller(sellerId), ProductCreated);
    }

    /** `getSellerStats`: the statistics of the seller's products (the
        ghost `ps` is the list they were computed from; its order does not
        matter to the sums). */
    method GetSellerStats(sellerId: int) returns (s: SellerStats, ghost ps: seq<Product>)
      requires table.Valid()
      ensures Tables.Lists(ps, table.rows, ProductId, OfSeller(sellerId), ProductCreated)
      ensures s == StatsOf(ps)
      ensures s.activeProducts + s.inactiveProducts + s.outOfStock == s.totalProducts
    {
      var found := Tables.SelectNewestFirst(table.rows, table.nextId, ProductId, OfSeller(sellerId), ProductCreated);
      ps := found;
      s := StatsOf(found);
    }

    /** `create`: saves a new row under the next key and returns it. */
    method Create(d: CreateProductDto, sellerId: int, now: int) returns (p: Product)
      requires table.Valid() && ValidCreate(d)
      modifies table
      ensures table.Valid()
      ensures p == NewProduct(old(table.nextId), d, sellerId, now)
      ensures p.id !in old(table.rows)
      ensures table.rows == old(table.rows)[p.id := p] && table.nextId == old(table.nextId) + 1
    {
      p := NewProduct(table.nextId, d, sellerId, now);
      table.rows := table.rows[p.id := p];
      table.nextId := table.nextId + 1;
    }

    /** `update`: NotFound, then Forbidden, with the table unchanged;
        otherwise the product becomes `ApplyUpdate` of itself. */
    method Update(id: int, d: UpdateProductDto, userId: int) returns (r: Result<Product>)
      requires table.Valid() && ValidUpdate(d)
      modifies table
      ensures table.Valid() && table.nextId == old(table.nextId)
      ensures Owned(old(table.rows), id, userId).Err? ==>
                r == Owned(old(table.rows), id, userId) && table.rows == old(table.rows)
      ensures Owned(old(table.rows), id, userId).Ok? ==>
                r == Ok(ApplyUpdate(old(table.rows[id]), d)) && table.rows == old(table.rows)[id := r.value]
    {
      var owned := Owned(table.rows, id, userId);
      if owned.Err? {
        return owned;
      }
      var product := ApplyUpdate(owned.value, d);
      table.rows := table.rows[id := product];
      r := Ok(product);
    }

    /** `changeStatus`: NotFound, then Forbidden; otherwise only the status
        changes, with no regard to stock. */
    method ChangeStatus(id: int, status: ProductStatus, userId: int) returns (r: Result<Product>)
      requires table.Valid()
      modifies table
      ensures table.Valid() && table.nextId == old(table.nextId)
      ensures Owned(old(table.rows), id, userId).Err? ==>
                r == Owned(old(table.rows), id, userId) && table.rows == old(table.rows)
      ensures Owned(old(table.rows), id, userId).Ok? ==>
                r == Ok(old(table.rows[id]).(status := status)) && table.rows == old(table.rows)[id := r.value]
    {
      var owned := Owned(table.rows, id, userId);
      if owned.Err? {
        return owned;
      }
      var product := owned.value.(status := status);
      table.rows := table.rows[id := product];
      r := Ok(product);
    }

    /** `updateStock`: NotFound, then Forbidden, then BadRequest for a
        negative result, each with the table unchanged; otherwise the
        product becomes `AdjustStock` of itself. */
    method UpdateStock(id: int, quantity: int, userId: int) returns (r: Result<Product>)
      requires table.Valid()
      modifies table
      ensures table.Valid() && table.nextId == old(table.nextId)
      ensures Owned(old(table.rows), id, userId).Err? ==>
                r == Owned(old(table.rows), id, userId) && table.rows == old(table.rows)
      ensures Owned(old(table.rows), id, userId).Ok? ==> r == AdjustStock(old(table.rows[id]), quantity)
      ensures r.Err? ==> table.rows == old(table.rows)
      ensures r.Ok? ==> table.rows == old(table.rows)[id := r.value]
    {
      var owned := Owned(table.rows, id, userId);
      if owned.Err? {
        return owned;
      }
      r := AdjustStock(owned.value, quantity);
      if r.Ok? {
        table.rows := table.rows[id := r.value];
      }
    }

    /** `remove`: NotFound, then Forbidden, with the table unchanged;
        otherwise the row is deleted and `true` returned. */
    method Remove(id: int, userId: int) returns (r: Result<bool>)
      requires table.Valid()
      modifies table
      ensures table.Valid() && table.nextId == old(table.nextId)
      ensures Owned(old(table.rows), id, userId).Err? ==>
                r == Err(Owned(old(table.rows), id, userId).error) && table.rows == old(table.rows)
      ensures Owned(old(table.rows), id, userId).Ok? ==>
                r == Ok(true) && table.rows == old(table.rows) - {id}
    {
      var owned := Owned(table.rows, id, userId);
      if owned.Err? {
        return Err(owned.error);
      }
      table.rows := table.rows - {id};
      r := Ok(true);
    }
  }
}
