/**
 * The order endpoint of the back end: creation inside a transaction,
 * status changes, and the bookkeeping of each product's sales count.
 */
module Orders {
  import opened Wrappers
  import opened Text
  import opened OrderRules
  import Seqs

  /** The rows the sales update reads: the order's lines that reference a product. */
  function SalesRows(items: seq<ItemRow>, orderId: int): (r: seq<ItemRow>)
    ensures forall x :: x in r <==> x in items && x.orderId == orderId && x.productId.Some?
    ensures |r| <= |items|
    ensures (forall k :: 0 <= k < |items| ==> items[k].orderId != orderId) ==> r == []
  {
    if items == [] then []
    else
      var last := items[|items| - 1];
      var r := SalesRows(items[..|items| - 1], orderId);
      assert items == items[..|items| - 1] + [last];
      if last.orderId == orderId && last.productId.Some? then r + [last] else r
  }

  lemma {:induction false} SalesRowsAppend(items: seq<ItemRow>, more: seq<ItemRow>, orderId: int)
    ensures SalesRows(items + more, orderId) == SalesRows(items, orderId) + SalesRows(more, orderId)
  {
    if more != [] {
      var m := more[..|more| - 1];
      assert (items + more)[..|items + more| - 1] == items + m;
      var last := more[|more| - 1];
      assert (items + more)[|items + more| - 1] == last;
      SalesRowsAppend(items, m, orderId);
      var tail := if last.orderId == orderId && last.productId.Some? then [last] else [];
      calc {
        SalesRows(items + more, orderId);
        SalesRows(items + m, orderId) + tail;
        SalesRows(items, orderId) + SalesRows(m, orderId) + tail;
        SalesRows(items, orderId) + (SalesRows(m, orderId) + tail);
        SalesRows(items, orderId) + SalesRows(more, orderId);
      }
    } else {
      assert items + more == items;
    }
  }

  /** Total quantity of the rows that reference product `p`. */
  function QuantityOf(rows: seq<ItemRow>, p: int): int {
    if rows == [] then 0
    else
      var last := rows[|rows| - 1];
      QuantityOf(rows[..|rows| - 1], p) + (if last.productId == Some(p) then last.quantity else 0)
  }

  /** One `UPDATE products SET sales_count = sales_count + ?`; a row naming no product changes nothing. */
  function Bump(counts: map<int, int>, row: ItemRow, delta: int): map<int, int> {
    if row.productId.Some? && row.productId.value in counts then
      counts[row.productId.value := counts[row.productId.value] + delta * row.quantity]
    else counts
  }

  /** The sales counts after applying `delta` per unit for each row in turn. */
  function ApplySales(counts: map<int, int>, rows: seq<ItemRow>, delta: int): (r: map<int, int>)
    ensures r.Keys == counts.Keys
  {
    if rows == [] then counts
    else Bump(ApplySales(counts, rows[..|rows| - 1], delta), rows[|rows| - 1], delta)
  }

  /**
   * Each product's count moves by `delta` times the quantity the rows hold
   * for it; the set of products is unchanged.
   */
  lemma {:induction false} ApplySalesEffect(counts: map<int, int>, rows: seq<ItemRow>, delta: int)
    ensures forall p :: p in counts ==> ApplySales(counts, rows, delta)[p] == counts[p] + delta * QuantityOf(rows, p)
  {
    if rows != [] {
      ApplySalesEffect(counts, rows[..|rows| - 1], delta);
      var prev := ApplySales(counts, rows[..|rows| - 1], delta);
      var last := rows[|rows| - 1];
      forall p | p in counts
        ensures ApplySales(counts, rows, delta)[p] == counts[p] + delta * QuantityOf(rows, p)
      {
        if last.productId == Some(p) {
          calc {
            ApplySales(counts, rows, delta)[p];
            prev[p] + delta * last.quantity;
            counts[p] + delta * QuantityOf(rows[..|rows| - 1], p) + delta * last.quantity;
            counts[p] + delta * (QuantityOf(rows[..|rows| - 1], p) + last.quantity);
          }
        }
      }
    }
  }

  /** The `foreach` over the order's lines, one `UPDATE` per line. */
  method RunSalesUpdates(counts: map<int, int>, rows: seq<ItemRow>, delta: int) returns (r: map<int, int>)
    ensures r == ApplySales(counts, rows, delta)
  {
    r := counts;
    var k := 0;
    while k < |rows|
      invariant 0 <= k <= |rows|
      invariant r == ApplySales(counts, rows[..k], delta)
    {
      assert rows[..k + 1][..k] == rows[..k];
      r := Bump(r, rows[k], delta);
      k := k + 1;
    }
    assert rows[..|rows|] == rows;
  }

  /** The rows processed before the update at index `failAt` throws. */
  function Processed(rows: seq<ItemRow>, failAt: Option<nat>): (r: seq<ItemRow>)
    ensures r <= rows
    ensures failAt.None? ==> r == rows
  {
    match failAt
    case None => rows
    case Some(k) => if k < |rows| then rows[..k] else rows
  }

  /**
   * Moving an order from paid to delivered adds its quantities a second
   * time: creation as paid counted them once and the change to delivered
   * counts them again.
   */
  lemma {:induction false} PaidThenDeliveredCountsTwice(counts: map<int, int>, rows: seq<ItemRow>, p: int)
    requires p in counts
    ensures var afterPost := ApplySales(counts, rows, SalesDelta("paid", None));
      ApplySales(afterPost, rows, SalesDelta("delivered", Some("paid")))[p] == counts[p] + 2 * QuantityOf(rows, p)
  {
    var afterPost := ApplySales(counts, rows, 1);
    ApplySalesEffect(counts, rows, 1);
    ApplySalesEffect(afterPost, rows, 1);
  }

  /** A change away from a counted status takes the quantities back. */
  lemma {:induction false} RefundRestoresCounts(counts: map<int, int>, rows: seq<ItemRow>, from: string, to: string)
    requires CountsAsSale(from) && !CountsAsSale(to)
    ensures ApplySales(ApplySales(counts, rows, SalesDelta(from, None)), rows, SalesDelta(to, Some(from))) == counts
  {
    var mid := ApplySales(counts, rows, 1);
    ApplySalesEffect(counts, rows, 1);
    ApplySalesEffect(mid, rows, -1);
    var back := ApplySales(mid, rows, -1);
    assert back.Keys == counts.Keys;
    assert forall p :: p in counts ==> back[p] == counts[p];
  }

  /** The shipping address: `shipping_address`, else `shippingAddress`, else none. */
  function ShippingAddressOf(req: OrderRequest): Option<string>
  {
    if req.shippingAddress.Some? then req.shippingAddress else req.shippingAddressCamel
  }

  /** The shipping cost: `shipping_cost`, else `shippingCost`, else 0. */
  function ShippingCostOf(req: OrderRequest): int
  {
    match req.shippingCost
    case Some(c) => c
    case None => req.shippingCostCamel.GetOr(0)
  }

  /** Index of the order with id `id`; ids are unique, so at most one matches. */
  function FindOrder(orders: seq<OrderRow>, id: int): Option<nat> {
    Seqs.FirstMatch(orders, (o: OrderRow) => o.id == id)
  }

  datatype PostResponse = MissingField(field: string) | CreateFailed | Created(orderId: int)

  datatype PutResponse = MissingIdOrStatus | InvalidStatus | NotFound | Updated

  class OrderStore {
    var orders: seq<OrderRow>
    var items: seq<ItemRow>
    /** The `products` table reduced to what this endpoint touches: id to sales count. */
    var salesCount: map<int, int>
    var nextOrderId: int

    ghost predicate Valid()
      reads this
    {
      nextOrderId >= 1 &&
      (forall i :: 0 <= i < |orders| ==> 1 <= orders[i].id < nextOrderId) &&
      (forall i, j :: 0 <= i < j < |orders| ==> orders[i].id < orders[j].id) &&
      (forall k :: 0 <= k < |items| ==> items[k].orderId < nextOrderId)
    }

    constructor(products: map<int, int>)
      ensures Valid()
      ensures orders == [] && items == [] && salesCount == products
    {
      orders := [];
      items := [];
      salesCount := products;
      nextOrderId := 1;
    }

    /**
     * `updateProductSalesCount`: applies the status change's delta to every
     * product line of the order. An update that throws at index `failAt`
     * ends the loop; the error is swallowed and earlier updates stay.
     */
    method UpdateSalesCount(orderId: int, newStatus: string, oldStatus: Option<string>, failAt: Option<nat>)
      modifies this
      ensures orders == old(orders) && items == old(items) && nextOrderId == old(nextOrderId)
      ensures salesCount == ApplySales(old(salesCount), Processed(SalesRows(items, orderId), failAt),
                                       SalesDelta(newStatus, oldStatus))
    {
      var rows := SalesRows(items, orderId);
      salesCount := RunSalesUpdates(salesCount, Processed(rows, failAt), SalesDelta(newStatus, oldStatus));
    }

    /** Inserts the submitted lines of order `orderId`; the line at `failAt` throws and stops the loop. */
    method InsertItems(orderId: int, inputs: seq<ItemInput>, failAt: Option<nat>) returns (ok: bool)
      requires Valid() && orderId < nextOrderId
      modifies this
      ensures Valid()
      ensures orders == old(orders) && salesCount == old(salesCount) && nextOrderId == old(nextOrderId)
      ensures ok <==> failAt.None? || failAt.value >= |inputs|
      ensures ok ==> items == old(items) + ItemRows(orderId, inputs, salesCount.Keys)
    {
      var k := 0;
      while k < |inputs|
        invariant 0 <= k <= |inputs|
        invariant failAt.Some? ==> k <= failAt.value
        invariant orders == old(orders) && salesCount == old(salesCount) && nextOrderId == old(nextOrderId)
        invariant Valid()
        invariant items == old(items) + ItemRows(orderId, inputs[..k], salesCount.Keys)
      {
        if failAt == Some(k) {
          return false;
        }
        items := items + [ItemRowFor(orderId, inputs[k], salesCount.Keys)];
        k := k + 1;
      }
      assert inputs[..k] == inputs;
      return true;
    }

    /**
     * The transaction of a POST: insert the order and its lines; a failure
     * rolls all of it back. When the order is created as paid or delivered,
     * its quantities count as sold.
     */
    method Create(req: OrderRequest, fault: InsertFault, salesFailAt: Option<nat>) returns (resp: PostResponse)
      requires Valid() && Complete(req)
      modifies this
      ensures Valid()
      ensures !resp.MissingField?
      ensures !resp.Created? ==> orders == old(orders) && items == old(items) && salesCount == old(salesCount)
      ensures resp.CreateFailed? <==>
        fault == OrderInsertFails || (fault.ItemInsertFails? && fault.index < |req.items.value|)
      ensures resp.Created? ==>
        var status := NormaliseStatus(req.status);
        var newItems := ItemRows(resp.orderId, req.items.value, old(salesCount).Keys);
        resp.orderId == old(nextOrderId) &&
        orders == old(orders) + [OrderRow(resp.orderId, req.userId.value, req.userName.value, req.userPhone.value,
                                          req.totalAmount.value, status, ShippingAddressOf(req), ShippingCostOf(req))] &&
        items == old(items) + newItems &&
        salesCount == (if CountsAsSale(status)
                       then ApplySales(old(salesCount), Processed(SalesRows(newItems, resp.orderId), salesFailAt), 1)
                       else old(salesCount))
    {
      var status := NormaliseStatus(req.status);
      var created := InsertOrder(req, status, fault);
      if created.None? {
        return CreateFailed;
      }
      if CountsAsSale(status) {
        UpdateSalesCount(created.value, status, None, salesFailAt);
      }
      return Created(created.value);
    }

    /** The inserts inside the transaction: the order row, then its lines; a failure rolls both back. */
    method InsertOrder(req: OrderRequest, status: string, fault: InsertFault) returns (created: Option<int>)
      requires Valid() && Complete(req)
      modifies this
      ensures Valid() && salesCount == old(salesCount)
      ensures created.None? <==>
        fault == OrderInsertFails || (fault.ItemInsertFails? && fault.index < |req.items.value|)
      ensures created.None? ==> orders == old(orders) && items == old(items)
      ensures created.Some? ==>
        var newItems := ItemRows(created.value, req.items.value, old(salesCount).Keys);
        created.value == old(nextOrderId) &&
        orders == old(orders) + [OrderRow(created.value, req.userId.value, req.userName.value, req.userPhone.value,
                                          req.totalAmount.value, status, ShippingAddressOf(req), ShippingCostOf(req))] &&
        items == old(items) + newItems &&
        SalesRows(items, created.value) == SalesRows(newItems, created.value)
    {
      // beginTransaction: the snapshot a rollback restores
      var savedOrders, savedItems := orders, items;
      assert SalesRows(savedItems, nextOrderId) == [];
      if fault == OrderInsertFails {
        return None;
      }
      var orderId := nextOrderId;
      orders := orders + [OrderRow(orderId, req.userId.value, req.userName.value, req.userPhone.value,
                                   req.totalAmount.value, status, ShippingAddressOf(req), ShippingCostOf(req))];
      nextOrderId := nextOrderId + 1;
      var ok := InsertItems(orderId, req.items.value, if fault.ItemInsertFails? then Some(fault.index) else None);
      if !ok {
        orders, items := savedOrders, savedItems;
        return None;
      }
      var newItems := ItemRows(orderId, req.items.value, salesCount.Keys);
      SalesRowsAppend(savedItems, newItems, orderId);
      return Some(orderId);
    }

    /** POST: the first required field that is not set is reported; otherwise the order is created. */
    method Post(req: OrderRequest, fault: InsertFault, salesFailAt: Option<nat>) returns (resp: PostResponse)
      requires Valid()
      modifies this
      ensures Valid()
      ensures resp.MissingField? <==> FirstUnset(req, RequiredOrderFields).Some?
      ensures resp.MissingField? ==>
        resp.field == FirstUnset(req, RequiredOrderFields).value &&
        orders == old(orders) && items == old(items) && salesCount == old(salesCount)
      ensures !resp.MissingField? ==> Complete(req)
      ensures !resp.Created? ==> orders == old(orders) && items == old(items) && salesCount == old(salesCount)
      ensures resp.CreateFailed? <==>
        !resp.MissingField? &&
        (fault == OrderInsertFails || (fault.ItemInsertFails? && fault.index < |req.items.value|))
      ensures resp.Created? ==>
        var status := NormaliseStatus(req.status);
        var newItems := ItemRows(resp.orderId, req.items.value, old(salesCount).Keys);
        resp.orderId == old(nextOrderId) &&
        orders == old(orders) + [OrderRow(resp.orderId, req.userId.value, req.userName.value, req.userPhone.value,
                                          req.totalAmount.value, status, ShippingAddressOf(req), ShippingCostOf(req))] &&
        items == old(items) + newItems &&
        salesCount == (if CountsAsSale(status)
                       then ApplySales(old(salesCount), Processed(SalesRows(newItems, resp.orderId), salesFailAt), 1)
                       else old(salesCount))
    {
      var unset := CheckRequired(req, RequiredOrderFields);
      if unset.Some? {
        return MissingField(unset.value);
      }
      RequiredPresent(req);
      resp := Create(req, fault, salesFailAt);
    }

    /**
     * PUT: change an order's status. Only a row whose status actually
     * changes counts as updated; the sales counts then move by the change's
     * delta.
     */
    method Put(orderId: Option<int>, status: Option<string>, salesFailAt: Option<nat>) returns (resp: PutResponse)
      requires Valid()
      modifies this
      ensures Valid()
      ensures items == old(items) && nextOrderId == old(nextOrderId)
      ensures resp == MissingIdOrStatus <==> orderId.None? || orderId.value == 0 || status.None? || PhpFalsy(status.value)
      ensures resp == InvalidStatus <==> resp != MissingIdOrStatus && !ValidStatus(status.value)
      ensures resp != Updated ==> orders == old(orders) && salesCount == old(salesCount)
      ensures resp == NotFound <==>
        resp != MissingIdOrStatus && resp != InvalidStatus &&
        (FindOrder(old(orders), orderId.value).None? ||
         old(orders)[FindOrder(old(orders), orderId.value).value].status == status.value)
      ensures resp == Updated ==>
        var i := FindOrder(old(orders), orderId.value).value;
        orders == old(orders)[i := old(orders)[i].(status := status.value)] &&
        salesCount == ApplySales(old(salesCount), Processed(SalesRows(items, orderId.value), salesFailAt),
                                 SalesDelta(status.value, Some(old(orders)[i].status)))
    {
      if orderId.None? || orderId.value == 0 || status.None? || PhpFalsy(status.value) {
        return MissingIdOrStatus;
      }
      if !ValidStatus(status.value) {
        return InvalidStatus;
      }
      var found := FindOrder(orders, orderId.value);
      if found.None? || orders[found.value].status == status.value {
        // rowCount() counts changed rows only
        return NotFound;
      }
      var i := found.value;
      var oldStatus := orders[i].status;
      orders := orders[i := orders[i].(status := status.value)];
      UpdateSalesCount(orderId.value, status.value, Some(oldStatus), salesFailAt);
      return Updated;
    }
  }
}
