/**
 * Rules shared by both order endpoints: the status vocabulary, how a
 * requested status is normalised, which statuses count as a sale, and how
 * a cart line becomes an `order_items` row.
 */
module OrderRules {
  import opened Wrappers
  import opened Text

  const Statuses: seq<string> := ["pending", "paid", "delivered"]

  predicate ValidStatus(s: string) { s == "pending" || s == "paid" || s == "delivered" }

  /** A status under which the order's items count as sold. */
  predicate CountsAsSale(s: string) { s == "paid" || s == "delivered" }

  /** The requested status when it is one of the three, otherwise (or when absent) "pending". */
  function NormaliseStatus(requested: Option<string>): (s: string)
    ensures ValidStatus(s)
    ensures requested.Some? && ValidStatus(requested.value) ==> s == requested.value
    ensures requested.None? || !ValidStatus(requested.value) ==> s == "pending"
  {
    var status := requested.GetOr("pending");
    if ValidStatus(status) then status else "pending"
  }

  /**
   * The change applied to each product's sales count when an order moves
   * from `oldStatus` to `newStatus`: +1 per unit when the new status counts
   * as a sale, -1 when only the old one did, 0 otherwise.
   */
  function SalesDelta(newStatus: string, oldStatus: Option<string>): (d: int)
    ensures d == 1 <==> CountsAsSale(newStatus)
    ensures d == -1 <==> oldStatus.Some? && CountsAsSale(oldStatus.value) && !CountsAsSale(newStatus)
    ensures -1 <= d <= 1
  {
    var shouldIncrement := CountsAsSale(newStatus);
    var shouldDecrement := oldStatus.Some? && !PhpFalsy(oldStatus.value) && CountsAsSale(oldStatus.value) && !shouldIncrement;
    if shouldIncrement then 1 else if shouldDecrement then -1 else 0
  }

  /** A row of `order_items`; `productId` is None when the product is unknown. */
  datatype ItemRow = ItemRow(
    orderId: int,
    productId: Option<int>,
    productName: string,
    productImage: Option<string>,
    quantity: int,
    price: int,
    subtotal: int)

  /** The `id` of a submitted line: absent, a JSON number, or a string. */
  datatype ItemId = NoId | NumberId(n: int) | TextId(s: string)

  /** A submitted order line. */
  datatype ItemInput = ItemInput(
    id: ItemId,
    name: string,
    price: int,
    offerPrice: Option<int>,
    quantity: int,
    image: Option<string>)

  predicate AllDigits(s: string) { forall k :: 0 <= k < |s| ==> IsDigit(s[k]) }

  /** The integer a numeric id denotes; non-numeric ids denote none. */
  function NumericId(id: ItemId): Option<int> {
    match id
    case NoId => None
    case NumberId(n) => Some(n)
    case TextId(s) => if s != "" && AllDigits(s) then Some(DigitsValue(s)) else None
  }

  /** The stored product reference: the numeric id, kept only when it names an existing product. */
  function StoredProductId(id: ItemId, products: set<int>): (r: Option<int>)
    ensures r.Some? <==> NumericId(id).Some? && NumericId(id).value in products && NumericId(id).value != 0
    ensures r.Some? ==> r == NumericId(id)
  {
    match NumericId(id)
    case Some(pid) => if pid in products && pid != 0 then Some(pid) else None
    case None => None
  }

  /** An image longer than 500 bytes (a data URI, say) is stored as null. */
  function StoredImage(image: Option<string>): (r: Option<string>)
    ensures r.Some? ==> r == image && Utf8Length(r.value) <= 500
    ensures r.None? <==> image.None? || Utf8Length(image.value) > 500
  {
    match image
    case Some(img) => if !PhpFalsy(img) && Utf8Length(img) > 500 then None else image
    case None => None
  }

  /** The unit price charged: the offer price when one is given, else the list price. */
  function UnitPrice(item: ItemInput): int {
    match item.offerPrice
    case Some(p) => p
    case None => item.price
  }

  /** The `order_items` row stored for one submitted line. */
  function ItemRowFor(orderId: int, item: ItemInput, products: set<int>): (row: ItemRow)
    ensures row.orderId == orderId && row.productName == item.name && row.quantity == item.quantity
    ensures row.price == (if item.offerPrice.Some? then item.offerPrice.value else item.price)
    ensures row.subtotal == row.price * item.quantity
    ensures row.productImage == StoredImage(item.image)
    ensures row.productId == StoredProductId(item.id, products)
  {
    var price := UnitPrice(item);
    ItemRow(orderId, StoredProductId(item.id, products), item.name, StoredImage(item.image),
            item.quantity, price, price * item.quantity)
  }

  /** The `order_items` rows stored for the submitted lines, in order. */
  function ItemRows(orderId: int, inputs: seq<ItemInput>, products: set<int>): (r: seq<ItemRow>)
    ensures |r| == |inputs|
    ensures forall k :: 0 <= k < |inputs| ==> r[k] == ItemRowFor(orderId, inputs[k], products)
  {
    seq(|inputs|, k requires 0 <= k < |inputs| => ItemRowFor(orderId, inputs[k], products))
  }

  /** A row of `orders`. */
  datatype OrderRow = OrderRow(
    id: int,
    userId: string,
    userName: string,
    userPhone: string,
    totalAmount: int,
    status: string,
    shippingAddress: Option<string>,
    shippingCost: int)

  /** The fields of an order POST; `None` stands for a field that is not set. */
  datatype OrderRequest = OrderRequest(
    userId: Option<string>,
    userName: Option<string>,
    userPhone: Option<string>,
    items: Option<seq<ItemInput>>,
    totalAmount: Option<int>,
    status: Option<string>,
    shippingAddress: Option<string>,
    shippingAddressCamel: Option<string>,
    shippingCost: Option<int>,
    shippingCostCamel: Option<int>)

  const RequiredOrderFields: seq<string> := ["user_id", "user_name", "user_phone", "items", "total_amount"]

  predicate IsSet(req: OrderRequest, field: string) {
    match field
    case "user_id" => req.userId.Some?
    case "user_name" => req.userName.Some?
    case "user_phone" => req.userPhone.Some?
    case "items" => req.items.Some?
    case "total_amount" => req.totalAmount.Some?
    case _ => true
  }

  /** The first required field that is not set. */
  function FirstUnset(req: OrderRequest, fields: seq<string>): (r: Option<string>)
    ensures r.None? <==> forall k :: 0 <= k < |fields| ==> IsSet(req, fields[k])
    ensures r.Some? ==>
      exists k :: 0 <= k < |fields| && fields[k] == r.value && !IsSet(req, fields[k]) &&
        forall j :: 0 <= j < k ==> IsSet(req, fields[j])
  {
    if fields == [] then None
    else if !IsSet(req, fields[0]) then Some(fields[0])
    else
      var r := FirstUnset(req, fields[1..]);
      assert forall k :: 1 <= k < |fields| ==> fields[k] == fields[1..][k - 1];
      r
  }

  lemma {:induction false} FirstUnsetIsFirst(req: OrderRequest, fields: seq<string>, k: int)
    requires 0 <= k < |fields| && !IsSet(req, fields[k])
    requires forall j :: 0 <= j < k ==> IsSet(req, fields[j])
    ensures FirstUnset(req, fields) == Some(fields[k])
  {
    if k > 0 {
      FirstUnsetIsFirst(req, fields[1..], k - 1);
    }
  }

  /** The required-field loop of a POST: stops at the first field that is not set. */
  method CheckRequired(req: OrderRequest, fields: seq<string>) returns (unset: Option<string>)
    ensures unset == FirstUnset(req, fields)
  {
    var k := 0;
    while k < |fields|
      invariant 0 <= k <= |fields|
      invariant forall j :: 0 <= j < k ==> IsSet(req, fields[j])
    {
      if !IsSet(req, fields[k]) {
        FirstUnsetIsFirst(req, fields, k);
        return Some(fields[k]);
      }
      k := k + 1;
    }
    return None;
  }

  /** Every required field is set. */
  predicate Complete(req: OrderRequest) {
    req.userId.Some? && req.userName.Some? && req.userPhone.Some? && req.items.Some? && req.totalAmount.Some?
  }

  /** When no required field is unset, every one of them is present. */
  lemma {:induction false} RequiredPresent(req: OrderRequest)
    requires FirstUnset(req, RequiredOrderFields).None?
    ensures Complete(req)
  {
    assert IsSet(req, RequiredOrderFields[0]) && IsSet(req, RequiredOrderFields[1]) &&
           IsSet(req, RequiredOrderFields[2]) && IsSet(req, RequiredOrderFields[3]) &&
           IsSet(req, RequiredOrderFields[4]);
  }

  /** Where an order POST fails inside its transaction, if it does. */
  datatype InsertFault = NoInsertFault | OrderInsertFails | ItemInsertFails(index: nat)
}
