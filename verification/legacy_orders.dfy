/**
 * The older order endpoint: the same validated, transactional creation as
 * the back end's, without shipping fields or sales counts, and a plain
 * status change.
 */
module LegacyOrders {
  import opened Wrappers
  import opened Text
  import opened OrderRules
  import Seqs

  /** A row of the older `orders` table, which has no shipping columns. */
  datatype LegacyOrderRow = LegacyOrderRow(
    id: int,
    userId: string,
    userName: string,
    userPhone: string,
    totalAmount: int,
    status: string)

  /** Index of the order with id `id`; ids are unique, so at most one matches. */
  function FindLegacyOrder(orders: seq<LegacyOrderRow>, id: int): Option<nat> {
    Seqs.FirstMatch(orders, (o: LegacyOrderRow) => o.id == id)
  }

  datatype PostResponse = MissingField(field: string) | CreateFailed | Created(orderId: int)

  datatype PutResponse = MissingIdOrStatus | InvalidStatus | NotFound | Updated

  class LegacyOrderStore {
    var orders: seq<LegacyOrderRow>
    var items: seq<ItemRow>
    /** Ids of the rows of `products`. */
    var products: set<int>
    var nextOrderId: int

    ghost predicate Valid()
      reads this
    {
      nextOrderId >= 1 &&
      (forall i :: 0 <= i < |orders| ==> 1 <= orders[i].id < nextOrderId) &&
      (forall i, j :: 0 <= i < j < |orders| ==> orders[i].id < orders[j].id) &&
      (forall k :: 0 <= k < |items| ==> items[k].orderId < nextOrderId)
    }

    constructor(productIds: set<int>)
      ensures Valid()
      ensures orders == [] && items == [] && products == productIds
    {
      orders := [];
      items := [];
      products := productIds;
      nextOrderId := 1;
    }

    /** Inserts the submitted lines of order `orderId`; the line at `failAt` throws and stops the loop. */
    method InsertItems(orderId: int, inputs: seq<ItemInput>, failAt: Option<nat>) returns (ok: bool)
      requires Valid() && orderId < nextOrderId
      modifies this
      ensures Valid()
      ensures orders == old(orders) && products == old(products) && nextOrderId == old(nextOrderId)
      ensures ok <==> failAt.None? || failAt.value >= |inputs|
      ensures ok ==> items == old(items) + ItemRows(orderId, inputs, products)
    {
      var k := 0;
      while k < |inputs|
        invariant 0 <= k <= |inputs|
        invariant failAt.Some? ==> k <= failAt.value
        invariant orders == old(orders) && products == old(products) && nextOrderId == old(nextOrderId)
        invariant Valid()
        invariant items == old(items) + ItemRows(orderId, inputs[..k], products)
      {
        if failAt == Some(k) {
          return false;
        }
        items := items + [ItemRowFor(orderId, inputs[k], products)];
        k := k + 1;
      }
      assert inputs[..k] == inputs;
      return true;
    }

    /**
     * POST: the first required field that is not set is reported; otherwise
     * the order and its lines are inserted in one transaction, and any
     * failure rolls the whole order back.
     */
    method Post(req: OrderRequest, fault: InsertFault) returns (resp: PostResponse)
      requires Valid()
      modifies this
      ensures Valid()
      ensures products == old(products)
      ensures resp.MissingField? <==> FirstUnset(req, RequiredOrderFields).Some?
      ensures resp.MissingField? ==> resp.field == FirstUnset(req, RequiredOrderFields).value
      ensures !resp.Created? ==> orders == old(orders) && items == old(items)
      ensures !resp.MissingField? ==> Complete(req)
      ensures resp.CreateFailed? <==>
        !resp.MissingField? &&
        (fault == OrderInsertFails || (fault.ItemInsertFails? && fault.index < |req.items.value|))
      ensures resp.Created? ==>
        resp.orderId == old(nextOrderId) &&
        orders == old(orders) + [LegacyOrderRow(resp.orderId, req.userId.value, req.userName.value, req.userPhone.value,
                                                req.totalAmount.value, NormaliseStatus(req.status))] &&
        items == old(items) + ItemRows(resp.orderId, req.items.value, products)
    {
      var unset := CheckRequired(req, RequiredOrderFields);
      if unset.Some? {
        return MissingField(unset.value);
      }
      RequiredPresent(req);
      var status := NormaliseStatus(req.status);
      // beginTransaction: the snapshot a rollback restores
      var savedOrders, savedItems := orders, items;
      if fault == OrderInsertFails {
        return CreateFailed;
      }
      var orderId := nextOrderId;
      orders := orders + [LegacyOrderRow(orderId, req.userId.value, req.userName.value, req.userPhone.value,
                                         req.totalAmount.value, status)];
      nextOrderId := nextOrderId + 1;
      var ok := InsertItems(orderId, req.items.value, if fault.ItemInsertFails? then Some(fault.index) else None);
      if !ok {
        orders, items := savedOrders, savedItems;
        return CreateFailed;
      }
      return Created(orderId);
    }

    /** PUT: change an order's status; only a row whose status actually changes counts as updated. */
    method Put(orderId: Option<int>, status: Option<string>) returns (resp: PutResponse)
      requires Valid()
      modifies this
      ensures Valid()
      ensures items == old(items) && products == old(products) && nextOrderId == old(nextOrderId)
      ensures resp == MissingIdOrStatus <==> orderId.None? || orderId.value == 0 || status.None? || PhpFalsy(status.value)
      ensures resp == InvalidStatus <==> resp != MissingIdOrStatus && !ValidStatus(status.value)
      ensures resp != Updated ==> orders == old(orders)
      ensures resp == NotFound <==>
        resp != MissingIdOrStatus && resp != InvalidStatus &&
        (FindLegacyOrder(old(orders), orderId.value).None? ||
         old(orders)[FindLegacyOrder(old(orders), orderId.value).value].status == status.value)
      ensures resp == Updated ==>
        var i := FindLegacyOrder(old(orders), orderId.value).value;
        orders == old(orders)[i := old(orders)[i].(status := status.value)]
    {
      if orderId.None? || orderId.value == 0 || status.None? || PhpFalsy(status.value) {
        return MissingIdOrStatus;
      }
      if !ValidStatus(status.value) {
        return InvalidStatus;
      }
      var found := FindLegacyOrder(orders, orderId.value);
      if found.None? || orders[found.value].status == status.value {
        // rowCount() counts changed rows only
        return NotFound;
      }
      var i := found.value;
      orders := orders[i := orders[i].(status := status.value)];
      return Updated;
    }
  }
}
