/** The order service: placing an order against the shared product table,
    the user's order queries, the status change and the user's statistics. */
module Orders {
  import opened Common
  import opened ProductEntity
  import opened OrderEntity
  import opened OrderDto
  import Catalog
  import Tables

  // ---------------------------------------------------------------------
  // Phase 1 of `create`: every line against the unchanged stock

  /** The error of the first line whose product is missing or has less
      stock than the line requests, or `None` when every line passes. */
  function CheckLines(rows: map<int, Product>, lines: seq<CreateOrderItemDto>): (r: Option<Error>)
    requires ValidItems(lines)
  {
    if lines == [] then None
    else
      var pid := lines[0].productId.value;
      var qty := lines[0].quantity.value;
      if pid !in rows then Some(NotFound(pid))
      else if rows[pid].stock < qty then Some(InsufficientStock(rows[pid].name, rows[pid].stock, qty))
      else CheckLines(rows, lines[1..])
  }

  /** Line `l` passes the check: its product exists with at least the
      requested stock (equal stock is enough). */
  predicate LinePasses(rows: map<int, Product>, l: CreateOrderItemDto)
    requires ValidItem(l)
  {
    l.productId.value in rows && rows[l.productId.value].stock >= l.quantity.value
  }

  /** The check passes exactly when every line passes; when it fails, the
      error describes the first failing line (NotFound for a missing
      product, otherwise the product's name, stock and the requested
      quantity) and every earlier line passed. */
  lemma {:induction false} CheckLinesFirstFailure(rows: map<int, Product>, lines: seq<CreateOrderItemDto>)
    requires ValidItems(lines)
    ensures CheckLines(rows, lines).None? <==> forall k :: 0 <= k < |lines| ==> LinePasses(rows, lines[k])
    ensures CheckLines(rows, lines).Some? ==>
              exists k :: 0 <= k < |lines| && !LinePasses(rows, lines[k])
                && (forall j :: 0 <= j < k ==> LinePasses(rows, lines[j]))
                && CheckLines(rows, lines).value == LineError(rows, lines[k])
  {
    if lines != [] {
      CheckLinesFirstFailure(rows, lines[1..]);
      assert forall k :: 1 <= k < |lines| ==> lines[1..][k - 1] == lines[k];
      if LinePasses(rows, lines[0]) && CheckLines(rows, lines).Some? {
        var k :| 0 <= k < |lines[1..]| && !LinePasses(rows, lines[1..][k])
                 && (forall j :: 0 <= j < k ==> LinePasses(rows, lines[1..][j]))
                 && CheckLines(rows, lines[1..]).value == LineError(rows, lines[1..][k]);
        assert forall j :: 1 <= j < k + 1 ==> lines[1..][j - 1] == lines[j];
        assert !LinePasses(rows, lines[k + 1]);
      }
    }
  }

  /** The error a failing line raises. */
  function LineError(rows: map<int, Product>, l: CreateOrderItemDto): Error
    requires ValidItem(l)
  {
    var pid := l.productId.value;
    if pid !in rows then NotFound(pid)
    else InsufficientStock(rows[pid].name, rows[pid].stock, l.quantity.value)
  }

  // ---------------------------------------------------------------------
  // Phase 2 of `create`: one snapshot item and one decrement per line

  /** `decrement({ id }, 'stock', quantity)`: no lower bound, and no effect
      when no row has that id. */
  function Decrement(rows: map<int, Product>, pid: int, qty: int): map<int, Product> {
    if pid in rows then rows[pid := rows[pid].(stock := rows[pid].stock - qty)] else rows
  }

  /** The table after the decrements of `lines`, in order. */
  function Decremented(rows: map<int, Product>, lines: seq<CreateOrderItemDto>): (after: map<int, Product>)
    requires ValidItems(lines)
    ensures after.Keys == rows.Keys
  {
    if lines == [] then rows
    else
      var last := lines[|lines| - 1];
      Decrement(Decremented(rows, lines[..|lines| - 1]), last.productId.value, last.quantity.value)
  }

  /** Decrementing for one more line decrements the table reached so far. */
  lemma DecrementedSnoc(rows: map<int, Product>, lines: seq<CreateOrderItemDto>, i: int)
    requires ValidItems(lines) && 0 <= i < |lines|
    ensures ValidItems(lines[..i]) && ValidItems(lines[..i + 1])
    ensures Decremented(rows, lines[..i + 1])
         == Decrement(Decremented(rows, lines[..i]), lines[i].productId.value, lines[i].quantity.value)
  {
    assert lines[..i + 1][..i] == lines[..i];
  }

  /** The total quantity the lines order of product `pid`. */
  function QtyFor(lines: seq<CreateOrderItemDto>, pid: int): int
    requires ValidItems(lines)
  {
    if lines == [] then 0
    else
      var last := lines[|lines| - 1];
      QtyFor(lines[..|lines| - 1], pid) + (if last.productId.value == pid then last.quantity.value else 0)
  }

  /** After the decrements, the table has the same rows, and each product's
      stock has dropped by exactly the total quantity the lines order of it;
      nothing else in any row changes. */
  lemma {:induction false} DecrementedStock(rows: map<int, Product>, lines: seq<CreateOrderItemDto>)
    requires ValidItems(lines)
    ensures forall pid :: pid in rows ==>
              Decremented(rows, lines)[pid] == rows[pid].(stock := rows[pid].stock - QtyFor(lines, pid))
  {
    if lines != [] {
      DecrementedStock(rows, lines[..|lines| - 1]);
    }
  }

  /** A product no line names is untouched. */
  lemma {:induction false} QtyForUnnamed(lines: seq<CreateOrderItemDto>, pid: int)
    requires ValidItems(lines)
    requires forall k :: 0 <= k < |lines| ==> lines[k].productId.value != pid
    ensures QtyFor(lines, pid) == 0
  {
    if lines != [] {
      QtyForUnnamed(lines[..|lines| - 1], pid);
    }
  }

  /** With pairwise distinct product ids, the total ordered of the product
      of line `k` is that line's quantity. */
  lemma {:induction false} QtyForDistinct(lines: seq<CreateOrderItemDto>, k: int)
    requires ValidItems(lines)
    requires forall i, j :: 0 <= i < j < |lines| ==> lines[i].productId.value != lines[j].productId.value
    requires 0 <= k < |lines|
    ensures QtyFor(lines, lines[k].productId.value) == lines[k].quantity.value
  {
    var front := lines[..|lines| - 1];
    if k == |lines| - 1 {
      QtyForUnnamed(front, lines[k].productId.value);
    } else {
      QtyForDistinct(front, k);
    }
  }

  predicate DistinctProducts(lines: seq<CreateOrderItemDto>)
    requires ValidItems(lines)
  {
    forall i, j :: 0 <= i < j < |lines| ==> lines[i].productId.value != lines[j].productId.value
  }

  /** With pairwise distinct product ids, an order that passes the check
      leaves no product it names with negative stock, and every other
      product as it was. (Distinctness is enough: a line's own check
      `stock >= quantity` covers a negative quantity too.) */
  lemma DistinctOrderKeepsStockNonNegative(rows: map<int, Product>, lines: seq<CreateOrderItemDto>)
    requires ValidItems(lines) && DistinctProducts(lines)
    requires CheckLines(rows, lines).None?
    ensures forall k :: 0 <= k < |lines| ==>
              lines[k].productId.value in rows && Decremented(rows, lines)[lines[k].productId.value].stock >= 0
    ensures forall pid :: pid in rows && (forall k :: 0 <= k < |lines| ==> lines[k].productId.value != pid) ==>
              Decremented(rows, lines)[pid] == rows[pid]
  {
    CheckLinesFirstFailure(rows, lines);
    DecrementedStock(rows, lines);
    forall k | 0 <= k < |lines|
      ensures lines[k].productId.value in rows && Decremented(rows, lines)[lines[k].productId.value].stock >= 0
    {
      assert LinePasses(rows, lines[k]);
      QtyForDistinct(lines, k);
    }
    forall pid | pid in rows && (forall k :: 0 <= k < |lines| ==> lines[k].productId.value != pid)
      ensures Decremented(rows, lines)[pid] == rows[pid]
    {
      QtyForUnnamed(lines, pid);
    }
  }

  /** Two lines for the same product are each checked against the stock
      before the order, so together they can overdraw it: whenever the
      stock covers one line's quantity but not two, the order passes and
      leaves the product with negative stock. */
  lemma DuplicateLinesOverdraw(rows: map<int, Product>, l: CreateOrderItemDto)
    requires ValidItem(l) && l.productId.value in rows
    requires 0 < l.quantity.value <= rows[l.productId.value].stock < 2 * l.quantity.value
    ensures ValidItems([l, l]) && !DistinctProducts([l, l])
    ensures CheckLines(rows, [l, l]).None?
    ensures Decremented(rows, [l, l])[l.productId.value].stock < 0
  {
    var pid := l.productId.value;
    assert [l, l][1..] == [l] && [l][1..] == [];
    assert CheckLines(rows, [l]) == CheckLines(rows, []);
    assert [l, l][..1] == [l] && [l][..0] == [];
    assert QtyFor([l], pid) == l.quantity.value;
    assert QtyFor([l, l], pid) == 2 * l.quantity.value;
    DecrementedStock(rows, [l, l]);
  }

  /** A line with a negative quantity passes the check whenever its product
      exists with non-negative stock, and then raises that stock. */
  lemma NegativeQuantityRaisesStock(rows: map<int, Product>, l: CreateOrderItemDto)
    requires ValidItem(l) && l.quantity.value < 0
    requires l.productId.value in rows && rows[l.productId.value].stock >= 0
    ensures ValidItems([l])
    ensures CheckLines(rows, [l]).None?
    ensures l.productId.value in Decremented(rows, [l])
    ensures Decremented(rows, [l])[l.productId.value].stock > rows[l.productId.value].stock
  {
    assert [l][1..] == [];
    assert [l][..0] == [];
    DecrementedStock(rows, [l]);
  }

  /** The decrement changes only the stock, so an order that takes an
      active product's last units passes the check and leaves it active with
      no stock, still listed by the default `findAll` filter. */
  lemma OrderCanBreakAgreement(rows: map<int, Product>, l: CreateOrderItemDto)
    requires ValidItem(l) && l.productId.value in rows
    requires rows[l.productId.value].status == Active
    requires l.quantity.value == rows[l.productId.value].stock > 0
    ensures ValidItems([l]) && CheckLines(rows, [l]).None?
    ensures l.productId.value in Decremented(rows, [l])
    ensures Decremented(rows, [l])[l.productId.value].stock == 0
    ensures Decremented(rows, [l])[l.productId.value].status == Active
    ensures !Catalog.StockStatusAgree(Decremented(rows, [l])[l.productId.value])
  {
    assert [l][1..] == [];
    assert [l][..0] == [];
    DecrementedStock(rows, [l]);
  }

  /** The item saved for a line of order `orderId`, with item id `itemId`. */
  function Snapshot(l: CreateOrderItemDto, orderId: int, itemId: int): (it: OrderItem)
    requires ValidItem(l)
    ensures it.id == itemId && it.orderId == orderId
    ensures && it.productId == l.productId.value && it.productName == l.productName.value
            && it.price == l.price.value && it.quantity == l.quantity.value
            && it.productImage == l.productImage && it.sellerName == l.sellerName
  {
    OrderItem(itemId, orderId, l.productId.value, l.productName.value, l.price.value,
              l.quantity.value, l.productImage, l.sellerName)
  }

  /** The items saved for `lines`, in order, with consecutive ids from `firstId`. */
  function Snapshots(lines: seq<CreateOrderItemDto>, orderId: int, firstId: int): (items: seq<OrderItem>)
    requires ValidItems(lines)
    ensures |items| == |lines|
    ensures forall k :: 0 <= k < |lines| ==> items[k] == Snapshot(lines[k], orderId, firstId + k)
  {
    if lines == [] then []
    else
      var front := lines[..|lines| - 1];
      assert forall k :: 0 <= k < |front| ==> front[k] == lines[k];
      Snapshots(front, orderId, firstId) + [Snapshot(lines[|lines| - 1], orderId, firstId + |lines| - 1)]
  }

  /** Snapshotting one more line appends its item. */
  lemma SnapshotsSnoc(lines: seq<CreateOrderItemDto>, i: int, orderId: int, firstId: int)
    requires ValidItems(lines) && 0 <= i < |lines|
    ensures ValidItems(lines[..i]) && ValidItems(lines[..i + 1])
    ensures Snapshots(lines[..i + 1], orderId, firstId)
         == Snapshots(lines[..i], orderId, firstId) + [Snapshot(lines[i], orderId, firstId + i)]
  {
    assert lines[..i + 1][..i] == lines[..i];
  }

  /** The saved order header: status `pending`, the caller as owner, the
      amounts and contact fields copied from the body without recomputation. */
  function Header(id: int, userId: int, d: CreateOrderDto, now: int): (o: Order)
    requires ValidOrder(d)
    ensures o.id == id && o.userId == userId && o.status == Pending && o.items == [] && o.createdAt == now
    ensures o.totalAmount == d.totalAmount.value && o.subtotal == d.subtotal.value
    ensures o.shippingCost == d.shippingCost.value
    ensures o.shippingAddress == d.shippingAddress && o.phone == d.phone && o.notes == d.notes
  {
    Order(id, userId, [], d.totalAmount.value, d.shippingCost.value, d.subtotal.value, DefaultOrderStatus,
          d.shippingAddress, d.phone, d.notes, now)
  }

  // ---------------------------------------------------------------------
  // Statistics

  datatype UserStats = UserStats(
    totalOrders: nat,
    totalSpent: int,
    totalItems: int,
    statusCounts: map<OrderStatus, nat>)

  function SumAmounts(os: seq<Order>): int {
    if os == [] then 0 else SumAmounts(os[..|os| - 1]) + os[|os| - 1].totalAmount
  }

  function ItemQuantities(items: seq<OrderItem>): int {
    if items == [] then 0 else ItemQuantities(items[..|items| - 1]) + items[|items| - 1].quantity
  }

  function SumItems(os: seq<Order>): int {
    if os == [] then 0 else SumItems(os[..|os| - 1]) + ItemQuantities(os[|os| - 1].items)
  }

  /** `acc[order.status] = (acc[order.status] || 0) + 1` over the orders:
      a status is a key exactly when some order has it. */
  function Tally(os: seq<Order>): (m: map<OrderStatus, nat>)
    ensures forall st :: st in m <==> exists k :: 0 <= k < |os| && os[k].status == st
  {
    if os == [] then map[]
    else
      var front := os[..|os| - 1];
      var m := Tally(front);
      var st := os[|os| - 1].status;
      assert forall k :: 0 <= k < |front| ==> front[k] == os[k];
      m[st := (if st in m then m[st] else 0) + 1]
  }

  function CountOf(m: map<OrderStatus, nat>, st: OrderStatus): nat {
    if st in m then m[st] else 0
  }

  /** The counts of the five statuses together. */
  function TallyTotal(m: map<OrderStatus, nat>): nat {
    CountOf(m, Pending) + CountOf(m, Processing) + CountOf(m, Shipped)
      + CountOf(m, Delivered) + CountOf(m, Cancelled)
  }

  /** Counting one more order of status `st` adds one to the total. */
  lemma TallyTotalBump(m: map<OrderStatus, nat>, st: OrderStatus)
    ensures TallyTotal(m[st := CountOf(m, st) + 1]) == TallyTotal(m) + 1
  {
    var m' := m[st := CountOf(m, st) + 1];
    match st
    case Pending => assert CountOf(m', Pending) == CountOf(m, Pending) + 1;
    case Processing => assert CountOf(m', Processing) == CountOf(m, Processing) + 1;
    case Shipped => assert CountOf(m', Shipped) == CountOf(m, Shipped) + 1;
    case Delivered => assert CountOf(m', Delivered) == CountOf(m, Delivered) + 1;
    case Cancelled => assert CountOf(m', Cancelled) == CountOf(m, Cancelled) + 1;
  }

  /** The per-status counts add up to the number of orders. */
  lemma {:induction false} TallyTotalIsCount(os: seq<Order>)
    ensures TallyTotal(Tally(os)) == |os|
  {
    if os != [] {
      var front := os[..|os| - 1];
      TallyTotalIsCount(front);
      TallyTotalBump(Tally(front), os[|os| - 1].status);
    }
  }

  /** The statistics `getUserStats` folds out of a user's orders. The total
      spent is in cents; its rendering with two decimals is not modelled. */
  function StatsOf(os: seq<Order>): (s: UserStats)
    ensures s.totalOrders == |os|
    ensures TallyTotal(s.statusCounts) == s.totalOrders
    ensures s.totalSpent == SumAmounts(os) && s.totalItems == SumItems(os)
    ensures forall st :: st in s.statusCounts <==> exists k :: 0 <= k < |os| && os[k].status == st
  {
    TallyTotalIsCount(os);
    UserStats(|os|, SumAmounts(os), SumItems(os), Tally(os))
  }

  function OrderId(o: Order): int { o.id }
  function OrderCreated(o: Order): int { o.createdAt }
  function OfUser(userId: int): Order -> bool {
    (o: Order) => o.userId == userId
  }

  // ---------------------------------------------------------------------
  // The service

  class OrdersService {
    const products: Catalog.ProductTable
    var orders: map<int, Order>
    var nextOrderId: nat
    var nextItemId: nat

    ghost predicate Valid()
      reads this, products
    {
      && products.Valid()
      && nextOrderId >= 1
      && forall id :: id in orders ==> orders[id].id == id && 1 <= id < nextOrderId
    }

    constructor (products: Catalog.ProductTable)
      requires products.Valid()
      ensures Valid() && this.products == products
      ensures orders == map[] && nextOrderId == 1 && nextItemId == 1
    {
      this.products := products;
      orders := map[];
      nextOrderId := 1;
      nextItemId := 1;
    }

    /** The first loop of `create`: the outcome of checking every line
        against the current stock, reading the table only. */
    method CheckStock(lines: seq<CreateOrderItemDto>) returns (e: Option<Error>)
      requires ValidItems(lines)
      ensures e == CheckLines(products.rows, lines)
    {
      var i := 0;
      while i < |lines|
        invariant 0 <= i <= |lines|
        invariant CheckLines(products.rows, lines) == CheckLines(products.rows, lines[i..])
      {
        var pid := lines[i].productId.value;
        var qty := lines[i].quantity.value;
        if pid !in products.rows {
          return Some(NotFound(pid));
        }
        var product := products.rows[pid];
        if product.stock < qty {
          return Some(InsufficientStock(product.name, product.stock, qty));
        }
        assert lines[i..][1..] == lines[i + 1..];
        i := i + 1;
      }
      assert lines[i..] == [];
      e := None;
    }

    /** One step of the second loop of `create`: the snapshot item of
        `line` is added to order `orderId` under the next item id, and the
        line's product stock is decremented. */
    method SaveItem(orderId: int, line: CreateOrderItemDto)
      requires Valid() && ValidItem(line) && orderId in orders
      modifies this, products
      ensures Valid()
      ensures orders == old(orders)[orderId := old(orders[orderId]).(
                items := old(orders[orderId].items) + [Snapshot(line, orderId, old(nextItemId))])]
      ensures products.rows == Decrement(old(products.rows), line.productId.value, line.quantity.value)
      ensures nextItemId == old(nextItemId) + 1
      ensures nextOrderId == old(nextOrderId) && products.nextId == old(products.nextId)
    {
      var item := Snapshot(line, orderId, nextItemId);
      orders := orders[orderId := orders[orderId].(items := orders[orderId].items + [item])];
      nextItemId := nextItemId + 1;
      products.rows := Decrement(products.rows, line.productId.value, line.quantity.value);
    }

    /** The second loop of `create`: for each line in order, one snapshot
        item is added to order `orderId` and the line's product stock is
        decremented. */
    method SaveItems(orderId: int, lines: seq<CreateOrderItemDto>)
      requires Valid() && ValidItems(lines) && orderId in orders
      modifies this, products
      ensures Valid()
      ensures orders == old(orders)[orderId := old(orders[orderId]).(
                items := old(orders[orderId].items) + Snapshots(lines, orderId, old(nextItemId)))]
      ensures products.rows == Decremented(old(products.rows), lines)
      ensures nextItemId == old(nextItemId) + |lines|
      ensures nextOrderId == old(nextOrderId) && products.nextId == old(products.nextId)
    {
      ghost var rows0 := products.rows;
      ghost var order0 := orders[orderId];
      ghost var firstItemId := nextItemId;
      assert lines[..0] == [] && order0.items + [] == order0.items;
      var i := 0;
      while i < |lines|
        invariant 0 <= i <= |lines|
        invariant Valid() && orderId in orders
        invariant ValidItems(lines[..i])
        invariant nextItemId == firstItemId + i
        invariant orders == old(orders)[orderId := order0.(items := order0.items + Snapshots(lines[..i], orderId, firstItemId))]
        invariant products.rows == Decremented(rows0, lines[..i])
        invariant nextOrderId == old(nextOrderId) && products.nextId == old(products.nextId)
      {
        ghost var done := lines[..i];
        ghost var item := Snapshot(lines[i], orderId, nextItemId);
        SnapshotsSnoc(lines, i, orderId, firstItemId);
        DecrementedSnoc(rows0, lines, i);
        assert order0.items + Snapshots(done, orderId, firstItemId) + [item]
            == order0.items + (Snapshots(done, orderId, firstItemId) + [item]);
        SaveItem(orderId, lines[i]);
        i := i + 1;
      }
      assert lines[..i] == lines;
    }

    /** `create`. When some line fails the check, its error is returned and
        nothing changes. Otherwise a `pending` header is saved under the next
        order id, one snapshot item per line is added to it in order, and
        each product's stock drops by what the lines order of it. */
    method Create(userId: int, d: CreateOrderDto, now: int) returns (r: Result<Order>)
      requires Valid() && ValidOrder(d)
      modifies this, products
      ensures Valid()
      ensures CheckLines(old(products.rows), d.items.value).Some? ==>
                && r == Err(CheckLines(old(products.rows), d.items.value).value)
                && products.rows == old(products.rows) && orders == old(orders)
                && nextOrderId == old(nextOrderId) && nextItemId == old(nextItemId)
      ensures CheckLines(old(products.rows), d.items.value).None? ==>
                && r == Ok(Header(old(nextOrderId), userId, d, now).(
                             items := Snapshots(d.items.value, old(nextOrderId), old(nextItemId))))
                && old(nextOrderId) !in old(orders)
                && orders == old(orders)[old(nextOrderId) := r.value]
                && products.rows == Decremented(old(products.rows), d.items.value)
                && nextOrderId == old(nextOrderId) + 1
                && nextItemId == old(nextItemId) + |d.items.value|
      ensures products.nextId == old(products.nextId)
    {
      var lines := d.items.value;
      var e := CheckStock(lines);
      if e.Some? {
        return Err(e.value);
      }
      var orderId := nextOrderId;
      orders := orders[orderId := Header(orderId, userId, d, now)];
      nextOrderId := nextOrderId + 1;
      SaveItems(orderId, lines);
      assert [] + Snapshots(lines, orderId, old(nextItemId)) == Snapshots(lines, orderId, old(nextItemId));
      r := Ok(orders[orderId]);
    }

    /** `findAllByUser`: exactly the user's orders, newest first. */
    method FindAllByUser(userId: int) returns (r: seq<Order>)
      requires Valid()
      ensures Tables.Lists(r, orders, OrderId, OfUser(userId), OrderCreated)
    {
      r := Tables.SelectNewestFirst(orders, nextOrderId, OrderId, OfUser(userId), OrderCreated);
    }

    /** `findOne`: the order only when both its id and its owner match;
        another user's order is NotFound like an absent one. */
    method FindOne(id: int, userId: int) returns (r: Result<Order>)
      requires Valid()
      ensures r.Ok? <==> id in orders && orders[id].userId == userId
      ensures r.Ok? ==> r.value == orders[id]
      ensures r.Err? ==> r.error == NotFound(id)
    {
      if id in orders && orders[id].userId == userId {
        r := Ok(orders[id]);
      } else {
        r := Err(NotFound(id));
      }
    }

    /** `updateStatus`: NotFound for an unknown id; otherwise only that
        order's status changes, whoever owns it. */
    method UpdateStatus(id: int, status: OrderStatus) returns (r: Result<Order>)
      requires Valid()
      modifies this
      ensures Valid()
      ensures nextOrderId == old(nextOrderId) && nextItemId == old(nextItemId)
      ensures id !in old(orders) ==> r == Err(NotFound(id)) && orders == old(orders)
      ensures id in old(orders) ==>
                r == Ok(old(orders[id]).(status := status)) && orders == old(orders)[id := r.value]
    {
      if id !in orders {
        return Err(NotFound(id));
      }
      var order := orders[id].(status := status);
      orders := orders[id := order];
      r := Ok(order);
    }

    /** `getUserStats`: the statistics of the user's orders (the ghost `os`
        lists the orders they were folded from). */
    method GetUserStats(userId: int) returns (s: UserStats, ghost os: seq<Order>)
      requires Valid()
      ensures Tables.Lists(os, orders, OrderId, OfUser(userId), OrderCreated)
      ensures s == StatsOf(os)
      ensures TallyTotal(s.statusCounts) == s.totalOrders
    {
      var found := Tables.SelectNewestFirst(orders, nextOrderId, OrderId, OfUser(userId), OrderCreated);
      os := found;
      s := StatsOf(found);
    }
  }
}
