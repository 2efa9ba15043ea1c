/**
 * Product reviews: one review per user and product, allowed only after a
 * paid or delivered purchase of that product, listed newest first.
 */
module Reviews {
  import opened Wrappers
  import opened Text
  import opened Seqs
  import opened OrderRules

  datatype Review = Review(
    id: int,
    productId: int,
    userId: string,
    userName: string,
    rating: int,
    comment: string,
    createdAt: int,
    updatedAt: int)

  /** A line of `order_items` joined with its order, as the purchase check reads it. */
  predicate PurchaseRow(o: OrderRow, row: ItemRow, userId: string, productId: int) {
    row.orderId == o.id && o.userId == userId && row.productId == Some(productId) && CountsAsSale(o.status)
  }

  /** The user bought the product in an order that is paid or delivered. */
  predicate HasPurchased(orders: seq<OrderRow>, items: seq<ItemRow>, userId: string, productId: int) {
    exists i, k :: 0 <= i < |orders| && 0 <= k < |items| && PurchaseRow(orders[i], items[k], userId, productId)
  }

  /** Orders that `row` joins with under the purchase conditions. */
  function JoinCount(orders: seq<OrderRow>, row: ItemRow, userId: string, productId: int): (n: nat)
    ensures n > 0 <==> exists i :: 0 <= i < |orders| && PurchaseRow(orders[i], row, userId, productId)
  {
    if orders == [] then 0
    else
      var n := JoinCount(orders[..|orders| - 1], row, userId, productId);
      assert forall i :: 0 <= i < |orders| - 1 ==> orders[..|orders| - 1][i] == orders[i];
      n + (if PurchaseRow(orders[|orders| - 1], row, userId, productId) then 1 else 0)
  }

  /** The purchase query's `COUNT(*)`: rows of the join of orders and their lines. */
  function PurchaseCount(orders: seq<OrderRow>, items: seq<ItemRow>, userId: string, productId: int): nat {
    if items == [] then 0
    else PurchaseCount(orders, items[..|items| - 1], userId, productId) +
         JoinCount(orders, items[|items| - 1], userId, productId)
  }

  /** The count is positive exactly when a qualifying purchase exists. */
  lemma {:induction false} PurchaseCountPositive(orders: seq<OrderRow>, items: seq<ItemRow>, userId: string, productId: int)
    ensures PurchaseCount(orders, items, userId, productId) > 0 <==> HasPurchased(orders, items, userId, productId)
  {
    if items != [] {
      var prefix := items[..|items| - 1];
      PurchaseCountPositive(orders, prefix, userId, productId);
      if HasPurchased(orders, items, userId, productId) {
        var i, k :| 0 <= i < |orders| && 0 <= k < |items| && PurchaseRow(orders[i], items[k], userId, productId);
        if k < |items| - 1 {
          assert prefix[k] == items[k];
        }
      }
      if HasPurchased(orders, prefix, userId, productId) {
        var i, k :| 0 <= i < |orders| && 0 <= k < |prefix| && PurchaseRow(orders[i], prefix[k], userId, productId);
        assert items[k] == prefix[k];
      }
    }
  }

  /** `canReview`: a user is given and has a qualifying purchase. */
  function CanReview(orders: seq<OrderRow>, items: seq<ItemRow>, userId: Option<string>, productId: int): (r: bool)
    ensures r <==> userId.Some? && !PhpFalsy(userId.value) && HasPurchased(orders, items, userId.value, productId)
  {
    PurchaseCountPositive(orders, items, userId.GetOr(""), productId);
    userId.Some? && !PhpFalsy(userId.value) && PurchaseCount(orders, items, userId.value, productId) > 0
  }

  predicate ForProduct(productId: int, r: Review) { r.productId == productId }

  predicate CreatedNoLater(a: Review, b: Review) { a.createdAt <= b.createdAt }

  predicate NewestFirst(rs: seq<Review>) {
    forall i, j :: 0 <= i < j < |rs| ==> rs[i].createdAt >= rs[j].createdAt
  }

  /** A product's reviews, newest first. */
  function ProductReviews(reviews: seq<Review>, productId: int): (r: seq<Review>)
    ensures forall x :: x in r <==> x in reviews && x.productId == productId
    ensures Ordered(reviews, CreatedNoLater) ==> NewestFirst(r)
  {
    var oldestFirst := Filter(reviews, x => ForProduct(productId, x));
    var r := Reverse(oldestFirst);
    assert forall x :: x in r <==> x in oldestFirst by {
      forall x | x in oldestFirst ensures x in r {
        var k :| 0 <= k < |oldestFirst| && oldestFirst[k] == x;
        assert r[|oldestFirst| - 1 - k] == x;
      }
    }
    assert Ordered(reviews, CreatedNoLater) ==> NewestFirst(r) by {
      if Ordered(reviews, CreatedNoLater) {
        FilterOrdered(reviews, x => ForProduct(productId, x), CreatedNoLater);
      }
    }
    r
  }

  /** The review `userId` wrote for `productId`, if any. */
  function ReviewBy(reviews: seq<Review>, userId: string, productId: int): (r: Option<nat>)
    ensures r.None? <==> forall i :: 0 <= i < |reviews| ==> !(reviews[i].userId == userId && reviews[i].productId == productId)
    ensures r.Some? ==> r.value < |reviews| && reviews[r.value].userId == userId && reviews[r.value].productId == productId
  {
    if reviews == [] then None
    else if reviews[|reviews| - 1].userId == userId && reviews[|reviews| - 1].productId == productId then Some(|reviews| - 1)
    else ReviewBy(reviews[..|reviews| - 1], userId, productId)
  }

  /** The rating as submitted: a JSON number or string, written here as its decimal text. */
  function RatingValue(raw: string): (r: Option<int>)
    ensures r.Some? <==> raw != "" && forall k :: 0 <= k < |raw| ==> IsDigit(raw[k])
  {
    if raw != "" && forall k :: 0 <= k < |raw| ==> IsDigit(raw[k]) then Some(DigitsValue(raw)) else None
  }

  /** A rating is accepted when it is numeric and within 1..5. */
  predicate ValidRating(raw: string) {
    RatingValue(raw).Some? && 1 <= RatingValue(raw).value <= 5
  }

  datatype ReviewRequest = ReviewRequest(
    productId: Option<int>,
    userId: Option<string>,
    userName: Option<string>,
    rating: Option<string>,
    comment: Option<string>)

  /** A missing field or a falsy value. */
  predicate Blank(field: Option<string>) { field.None? || PhpFalsy(field.value) }

  predicate HasRequiredFields(req: ReviewRequest) {
    req.productId.Some? && req.productId.value != 0 && !Blank(req.userId) && !Blank(req.userName) && !Blank(req.rating)
  }

  datatype GetResponse = MissingProduct | Listed(reviews: seq<Review>, canReview: bool)

  datatype PostResponse = MissingFields | InvalidRating | NotPurchased | Saved(review: Review)

  class ReviewStore {
    var reviews: seq<Review>
    var nextId: int
    /** Time of the latest write, in seconds. */
    var clock: int

    ghost predicate Valid()
      reads this
    {
      nextId >= 1 &&
      (forall i :: 0 <= i < |reviews| ==> 1 <= reviews[i].id < nextId && reviews[i].createdAt <= clock) &&
      (forall i, j :: 0 <= i < j < |reviews| ==> reviews[i].id < reviews[j].id) &&
      (forall i, j :: 0 <= i < j < |reviews| ==>
        !(reviews[i].userId == reviews[j].userId && reviews[i].productId == reviews[j].productId)) &&
      Ordered(reviews, CreatedNoLater)
    }

    constructor(now: int)
      ensures Valid() && reviews == [] && clock == now
    {
      reviews := [];
      nextId := 1;
      clock := now;
    }

    /** GET: a product's reviews newest first, and whether the given user may review it. */
    method Get(productId: Option<int>, userId: Option<string>, orders: seq<OrderRow>, items: seq<ItemRow>)
      returns (resp: GetResponse)
      requires Valid()
      ensures resp == MissingProduct <==> productId.None? || productId.value == 0
      ensures resp.Listed? ==>
        resp.reviews == ProductReviews(reviews, productId.value) && NewestFirst(resp.reviews) &&
        (resp.canReview <==> userId.Some? && !PhpFalsy(userId.value) &&
                             HasPurchased(orders, items, userId.value, productId.value))
    {
      if productId.None? || productId.value == 0 {
        return MissingProduct;
      }
      resp := Listed(ProductReviews(reviews, productId.value), CanReview(orders, items, userId, productId.value));
    }

    /** Updates the user's review of the product in place, or inserts one when there is none. */
    method Upsert(userId: string, productId: int, userName: string, rating: int, comment: string, now: int)
      returns (review: Review)
      requires Valid() && now >= clock
      modifies this
      ensures Valid()
      ensures review.rating == rating && review.comment == comment && review.updatedAt == now
      ensures review.userId == userId && review.productId == productId
      ensures ReviewBy(reviews, userId, productId).Some? &&
        reviews[ReviewBy(reviews, userId, productId).value] == review
      ensures ReviewBy(old(reviews), userId, productId).Some? ==>
        var i := ReviewBy(old(reviews), userId, productId).value;
        review == old(reviews)[i].(rating := rating, comment := comment, updatedAt := now) &&
        reviews == old(reviews)[i := review]
      ensures ReviewBy(old(reviews), userId, productId).None? ==>
        review == Review(old(nextId), productId, userId, userName, rating, comment, now, now) &&
        reviews == old(reviews) + [review]
    {
      var existing := ReviewBy(reviews, userId, productId);
      if existing.Some? {
        review := Revise(existing.value, rating, comment, now);
      } else {
        review := Add(userId, productId, userName, rating, comment, now);
      }
    }

    /** The `UPDATE` branch: the review at `i` gets the new rating, comment and update time. */
    method Revise(i: nat, rating: int, comment: string, now: int) returns (review: Review)
      requires Valid() && now >= clock && i < |reviews|
      modifies this
      ensures Valid() && nextId == old(nextId)
      ensures review == old(reviews)[i].(rating := rating, comment := comment, updatedAt := now)
      ensures reviews == old(reviews)[i := review]
      ensures ReviewBy(reviews, review.userId, review.productId) == Some(i)
    {
      review := reviews[i].(rating := rating, comment := comment, updatedAt := now);
      reviews := reviews[i := review];
      clock := now;
      ReviewByUnique(reviews, review.userId, review.productId, i);
    }

    /** The `INSERT` branch: a new review with the next id, created and updated now. */
    method Add(userId: string, productId: int, userName: string, rating: int, comment: string, now: int)
      returns (review: Review)
      requires Valid() && now >= clock && ReviewBy(reviews, userId, productId).None?
      modifies this
      ensures Valid()
      ensures review == Review(old(nextId), productId, userId, userName, rating, comment, now, now)
      ensures reviews == old(reviews) + [review]
      ensures ReviewBy(reviews, userId, productId) == Some(|reviews| - 1)
    {
      review := Review(nextId, productId, userId, userName, rating, comment, now, now);
      reviews := reviews + [review];
      nextId := nextId + 1;
      clock := now;
    }

    /**
     * POST: validate, require a purchase, then update or insert the user's
     * review of the product. The comment is stored trimmed.
     */
    method Post(req: ReviewRequest, orders: seq<OrderRow>, items: seq<ItemRow>, now: int) returns (resp: PostResponse)
      requires Valid() && now >= clock
      modifies this
      ensures Valid()
      ensures resp == MissingFields <==> !HasRequiredFields(req)
      ensures resp == InvalidRating <==> HasRequiredFields(req) && !ValidRating(req.rating.value)
      ensures resp == NotPurchased <==>
        HasRequiredFields(req) && ValidRating(req.rating.value) &&
        !HasPurchased(orders, items, req.userId.value, req.productId.value)
      ensures !resp.Saved? ==> reviews == old(reviews)
      ensures resp.Saved? ==>
        HasRequiredFields(req) && HasPurchased(orders, items, req.userId.value, req.productId.value) &&
        resp.review.rating == RatingValue(req.rating.value).value && 1 <= resp.review.rating <= 5 &&
        resp.review.comment == PhpTrim(req.comment.GetOr("")) &&
        resp.review.userId == req.userId.value && resp.review.productId == req.productId.value &&
        resp.review.updatedAt == now &&
        ReviewBy(reviews, req.userId.value, req.productId.value).Some? &&
        reviews[ReviewBy(reviews, req.userId.value, req.productId.value).value] == resp.review &&
        (ReviewBy(old(reviews), req.userId.value, req.productId.value).Some? ==>
          reviews == old(reviews)[ReviewBy(old(reviews), req.userId.value, req.productId.value).value := resp.review]) &&
        (ReviewBy(old(reviews), req.userId.value, req.productId.value).None? ==>
          reviews == old(reviews) + [resp.review] && resp.review.userName == req.userName.value)
    {
      if !HasRequiredFields(req) {
        return MissingFields;
      }
      if !ValidRating(req.rating.value) {
        return InvalidRating;
      }
      if !CanReview(orders, items, req.userId, req.productId.value) {
        return NotPurchased;
      }
      var review := Upsert(req.userId.value, req.productId.value, req.userName.value,
                           RatingValue(req.rating.value).value, PhpTrim(req.comment.GetOr("")), now);
      return Saved(review);
    }
  }

  /** With at most one review per pair, the lookup finds that one. */
  lemma {:induction false} ReviewByUnique(reviews: seq<Review>, userId: string, productId: int, i: nat)
    requires i < |reviews| && reviews[i].userId == userId && reviews[i].productId == productId
    requires forall a, b :: 0 <= a < b < |reviews| ==>
      !(reviews[a].userId == reviews[b].userId && reviews[a].productId == reviews[b].productId)
    ensures ReviewBy(reviews, userId, productId) == Some(i)
  {
  }
}
