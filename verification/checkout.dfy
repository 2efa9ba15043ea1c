/**
 * The two cart pages: quantity buttons, the checkout guards and the order
 * each page submits, the newer page's shipping quote and favourite
 * hearts, and the older page's order message.
 */
module Checkout {
  import opened Wrappers
  import opened Text
  import opened Seqs
  import opened Domain
  import opened Cart
  import CartProvider
  import ClientServices
  import opened FavoriteIds

  function ItemIs(id: string): CartItem -> bool {
    (i: CartItem) => i.Id() == id
  }

  /**
   * `handleQuantityChange` on both pages: the first line with `id` gains
   * `delta` units while that leaves it positive and is removed otherwise;
   * an unknown id changes nothing.
   */
  function QuantityChanged(cart: seq<CartItem>, id: string, delta: int): seq<CartItem> {
    match FirstMatch(cart, ItemIs(id))
    case None => cart
    case Some(k) =>
      if cart[k].quantity + delta > 0 then AddToCart(cart, cart[k].product, delta)
      else RemoveFromCart(cart, id)
  }

  lemma {:induction false} UnknownIdChangesNothing(cart: seq<CartItem>, id: string, delta: int)
    requires !HasId(cart, id)
    ensures QuantityChanged(cart, id, delta) == cart
  {
    assert forall j :: 0 <= j < |cart| ==> !ItemIs(id)(cart[j]);
  }

  /** While the quantity stays positive only that line changes, and the total moves by `delta` units. */
  lemma {:induction false} QuantityRaised(cart: seq<CartItem>, id: string, delta: int, k: int)
    requires UniqueIds(cart) && 0 <= k < |cart| && cart[k].Id() == id
    requires cart[k].quantity + delta > 0
    ensures var r := QuantityChanged(cart, id, delta);
      |r| == |cart| && r[k] == cart[k].(quantity := cart[k].quantity + delta) &&
      (forall j :: 0 <= j < |cart| && j != k ==> r[j] == cart[j]) &&
      CartTotal(r) == CartTotal(cart) + UnitPrice(cart[k].product) * delta
  {
    FirstMatchAt(cart, ItemIs(id), k);
    assert HasId(cart, cart[k].product.id);
    AddQuantityTotal(cart, id, delta, k);
  }

  /** Otherwise the line leaves the cart and the other lines keep their order. */
  lemma {:induction false} QuantityDropped(cart: seq<CartItem>, id: string, delta: int, k: int)
    requires UniqueIds(cart) && 0 <= k < |cart| && cart[k].Id() == id
    requires cart[k].quantity + delta <= 0
    ensures var r := QuantityChanged(cart, id, delta);
      !HasId(r, id) && IsSubsequence(r, cart) &&
      forall x :: x in r <==> x in cart && x.Id() != id
  {
    FirstMatchAt(cart, ItemIs(id), k);
  }

  /** `handleQuantityChange` acting through the cart provider. */
  method ChangeQuantity(provider: CartProvider.CartProvider, id: string, delta: int)
    requires provider.Valid()
    modifies provider
    ensures provider.Valid() && provider.auth == old(provider.auth)
    ensures provider.cart == QuantityChanged(old(provider.cart), id, delta)
  {
    var k := FirstMatch(provider.cart, ItemIs(id));
    if k.Some? {
      if provider.cart[k.value].quantity + delta > 0 {
        provider.AddToCart(provider.cart[k.value].product, delta);
      } else {
        provider.RemoveFromCart(id);
      }
    }
  }

  // ---------------------------------------------------------------------
  // The newer cart page (frontend/pages/Cart.tsx)
  // ---------------------------------------------------------------------

  /** What the customer pays: the cart plus the quoted shipping. */
  function GrandTotal(cart: seq<CartItem>, shippingCost: int): int {
    CartTotal(cart) + shippingCost
  }

  /** An order as submitted, with the delivery details the page adds. */
  datatype Placement = Placement(order: Order, shippingAddress: string, shippingCost: int)

  datatype CheckoutResult =
    | NeedsLogin
    | NothingToOrder
    | MissingAddress
    | MissingPhone
    | InvalidPhone
    | Placed(placement: Placement)

  /**
   * `handleCheckout`'s guards in order (a user, a non-empty cart, an
   * address, a phone, ten digits in it) and the order it submits;
   * `stamp` is `Date.now()` and `now` the ISO date.
   */
  function Attempt(user: Option<User>, cart: seq<CartItem>, address: string, phone: string,
                   shippingCost: int, stamp: nat, now: string): (r: CheckoutResult)
    ensures r.NeedsLogin? <==> user.None?
    ensures r.NothingToOrder? <==> user.Some? && cart == []
    ensures r.MissingAddress? <==> user.Some? && cart != [] && JsTrim(address) == ""
    ensures r.MissingPhone? <==> user.Some? && cart != [] && JsTrim(address) != "" && JsTrim(phone) == ""
    ensures r.InvalidPhone? <==> (user.Some? && cart != [] && JsTrim(address) != "" && JsTrim(phone) != "" &&
      |Digits(JsTrim(phone))| < 10)
    ensures r.Placed? <==> user.Some? && cart != [] && JsTrim(address) != "" && |Digits(JsTrim(phone))| >= 10
    ensures r.Placed? ==> (
      var o := r.placement.order;
      o.id == NatToString(stamp) && o.userId == user.value.id && o.userName == user.value.name &&
      o.userPhone == JsTrim(phone) && o.items == cart && o.totalAmount == GrandTotal(cart, shippingCost) &&
      o.status == "paid" && o.date == now &&
      r.placement.shippingAddress == JsTrim(address) && r.placement.shippingCost == shippingCost)
  {
    if user.None? then NeedsLogin
    else if cart == [] then NothingToOrder
    else if JsTrim(address) == "" then MissingAddress
    else if JsTrim(phone) == "" then MissingPhone
    else if |Digits(JsTrim(phone))| < 10 then InvalidPhone
    else
      var u := user.value;
      Placed(Placement(
        Order(NatToString(stamp), u.id, u.name, JsTrim(phone), cart, GrandTotal(cart, shippingCost), "paid", now),
        JsTrim(address), shippingCost))
  }

  /**
   * The checkout flow: the order is submitted, and only when the request
   * succeeds (`created`) is the cart cleared; a guard that fails changes
   * nothing.
   */
  method Checkout(provider: CartProvider.CartProvider, address: string, phone: string, shippingCost: int,
                  stamp: nat, now: string, created: bool) returns (r: CheckoutResult)
    requires provider.Valid()
    modifies provider
    ensures r == Attempt(old(provider.auth.user), old(provider.cart), address, phone, shippingCost, stamp, now)
    ensures provider.Valid() && provider.auth == old(provider.auth)
    ensures provider.cart == if r.Placed? && created then [] else old(provider.cart)
  {
    r := Attempt(provider.auth.user, provider.cart, address, phone, shippingCost, stamp, now);
    if r.Placed? && created {
      provider.ClearCart();
    }
  }

  /** What the debounced address watcher does. */
  datatype ShippingStep = Calculate | Reset | Wait

  /** Five characters after trimming ask for a quote, fewer clear it, none leave it. */
  function ShippingStepFor(address: string): (r: ShippingStep)
    ensures r == Calculate <==> Utf16Length(JsTrim(address)) >= 5
    ensures r == Reset <==> 0 < Utf16Length(JsTrim(address)) < 5
    ensures r == Wait <==> JsTrim(address) == ""
  {
    var n := Utf16Length(JsTrim(address));
    if n >= 5 then Calculate else if n > 0 then Reset else Wait
  }

  /** The shipping service's answer; distance and duration may be missing. */
  datatype ShippingReply = ShippingReply(cost: int, distance: Option<real>, duration: Option<real>)

  /** The newer cart page's own state. */
  class CartPage {
    var favorites: set<string>
    var shippingCost: int
    var distance: Option<real>
    var duration: Option<real>

    constructor()
      ensures favorites == {} && shippingCost == 0 && distance.None? && duration.None?
    {
      favorites := {};
      shippingCost := 0;
      distance := None;
      duration := None;
    }

    /** The favourites loaded for the signed-in user. */
    method FavoritesLoaded(ids: seq<string>)
      modifies this
      ensures favorites == set i | i in ids
      ensures shippingCost == old(shippingCost) && distance == old(distance) && duration == old(duration)
    {
      favorites := set i | i in ids;
    }

    /**
     * The address watcher after its pause: a long enough address asks for a
     * quote (`reply` is None when the request fails, which keeps the
     * previous figures), a short one clears the quote, an empty one waits.
     */
    method AddressSettled(address: string, reply: Option<ShippingReply>) returns (requested: bool)
      modifies this
      ensures requested <==> ShippingStepFor(address) == Calculate
      ensures favorites == old(favorites)
      ensures ShippingStepFor(address) == Reset ==> shippingCost == 0 && distance.None? && duration.None?
      ensures requested && reply.Some? ==>
        shippingCost == reply.value.cost && distance == reply.value.distance && duration == reply.value.duration
      ensures ShippingStepFor(address) == Wait || (requested && reply.None?) ==>
        shippingCost == old(shippingCost) && distance == old(distance) && duration == old(duration)
    {
      var trimmed := JsTrim(address);
      requested := false;
      if Utf16Length(trimmed) >= 5 {
        requested := true;
        if reply.Some? {
          shippingCost := reply.value.cost;
          distance := reply.value.distance;
          duration := reply.value.duration;
        }
      } else if Utf16Length(trimmed) > 0 {
        shippingCost := 0;
        distance := None;
        duration := None;
      }
    }

    /**
     * `handleToggleFavorite`: without a signed-in user nothing is sent;
     * otherwise the service is asked to add or remove, and the heart flips
     * only when that succeeds.
     */
    method ToggleFavorite(userId: Option<string>, productId: string, succeeded: bool)
      returns (call: Option<ClientServices.FavoriteCall>)
      modifies this
      ensures userId.None? || userId.value == "" ==> call.None? && favorites == old(favorites)
      ensures userId.Some? && userId.value != "" ==>
        call == Some(ClientServices.ToggleCall(productId in old(favorites))) &&
        favorites == if succeeded then Toggled(old(favorites), productId) else old(favorites)
      ensures shippingCost == old(shippingCost) && distance == old(distance) && duration == old(duration)
    {
      call := None;
      if userId.Some? && userId.value != "" {
        var isFavorited := productId in favorites;
        call := Some(ClientServices.ToggleCall(isFavorited));
        if succeeded {
          var next := favorites;
          if isFavorited {
            next := next - {productId};
          } else {
            next := next + {productId};
          }
          favorites := next;
        }
      }
    }
  }

  // ---------------------------------------------------------------------
  // The older cart page (pages/Cart.tsx)
  // ---------------------------------------------------------------------

  const StoreName := "Charan Aquarium"

  /** The address box starts with the signed-in user's address, or empty. */
  function InitialAddress(user: Option<User>): (r: string)
    ensures user.None? ==> r == ""
    ensures user.Some? ==> r == user.value.address
  {
    if user.Some? then user.value.address else ""
  }

  /** One line of the order message, numbered from 1. */
  function ItemLine(i: nat, item: CartItem): string {
    NatToString(i + 1) + ". " + item.product.name + " x " + IntToString(item.quantity) +
    " = ₹" + IntToString(LineTotal(item))
  }

  function ItemLines(cart: seq<CartItem>): (lines: seq<string>)
    ensures |lines| == |cart|
    ensures forall k :: 0 <= k < |cart| ==> lines[k] == ItemLine(k, cart[k])
  {
    seq(|cart|, k requires 0 <= k < |cart| => ItemLine(k, cart[k]))
  }

  /** The address the message gives: the one entered, or collection from the store. */
  function DeliveryNote(address: string): string {
    if address == "" then "Pick up from store" else address
  }

  /** The greeting, the customer's name and phone, and the heading of the product list. */
  function MessageHead(user: User): string {
    "Hello *" + StoreName + "*, I want to place an order:%0A%0A" +
    "*Customer:* " + user.name + "%0A" +
    "*Phone:* " + user.phone + "%0A%0A" +
    "*Products:*%0A"
  }

  function TotalLine(cart: seq<CartItem>): string {
    "*Total Amount:* ₹" + IntToString(CartTotal(cart)) + "%0A"
  }

  function AddressLine(address: string): (line: string)
    ensures address == "" ==> line == "*Address:* Pick up from store%0A"
  {
    "*Address:* " + DeliveryNote(address) + "%0A"
  }

  const Closing := "%0APlease confirm my order."

  /** The total, the address and the closing request. */
  function MessageTail(cart: seq<CartItem>, address: string): string {
    TotalLine(cart) + AddressLine(address) + Closing
  }

  /** The order message, with `%0A` for each line break. */
  function OrderMessage(user: User, cart: seq<CartItem>, address: string): string {
    MessageHead(user) + (Join(ItemLines(cart), "%0A") + "%0A%0A") + MessageTail(cart, address)
  }

  /** Every cart line appears in the message, with its number, name, quantity and line total. */
  lemma {:induction false} MessageListsEveryItem(user: User, cart: seq<CartItem>, address: string, k: int)
    requires 0 <= k < |cart|
    ensures Contains(OrderMessage(user, cart, address), ItemLine(k, cart[k]))
  {
    var list := Join(ItemLines(cart), "%0A");
    JoinContainsParts(ItemLines(cart), "%0A", k);
    ContainsHalves(list, "%0A%0A");
    ContainsInfix(MessageHead(user), list + "%0A%0A", MessageTail(cart, address));
    ContainsTransitive(OrderMessage(user, cart, address), list + "%0A%0A", list);
    ContainsTransitive(OrderMessage(user, cart, address), list, ItemLine(k, cart[k]));
  }

  /** The message states the cart total, and an empty address asks to pick up from the store. */
  lemma {:induction false} MessageStatesTotalAndAddress(user: User, cart: seq<CartItem>, address: string)
    ensures Contains(OrderMessage(user, cart, address), TotalLine(cart))
    ensures Contains(OrderMessage(user, cart, address), AddressLine(address))
    ensures address == "" ==> Contains(OrderMessage(user, cart, address), "*Address:* Pick up from store%0A")
  {
    var msg := OrderMessage(user, cart, address);
    var lines := TotalLine(cart) + AddressLine(address);
    ContainsHalves(MessageHead(user) + (Join(ItemLines(cart), "%0A") + "%0A%0A"), MessageTail(cart, address));
    ContainsHalves(lines, Closing);
    ContainsTransitive(msg, MessageTail(cart, address), lines);
    ContainsHalves(TotalLine(cart), AddressLine(address));
    ContainsTransitive(msg, lines, TotalLine(cart));
    ContainsTransitive(msg, lines, AddressLine(address));
  }

  datatype LegacyResult = LoginFirst | EmptyCart | Sent(order: Order, message: string)

  /** The older `handleCheckout`: a user and a non-empty cart, then a pending order at the cart total and its message. */
  function LegacyAttempt(user: Option<User>, cart: seq<CartItem>, address: string, stamp: nat, now: string)
    : (r: LegacyResult)
    ensures r.LoginFirst? <==> user.None?
    ensures r.EmptyCart? <==> user.Some? && cart == []
    ensures r.Sent? ==> (
      r.order.id == NatToString(stamp) && r.order.userId == user.value.id &&
      r.order.userName == user.value.name && r.order.userPhone == user.value.phone &&
      r.order.items == cart && r.order.totalAmount == CartTotal(cart) &&
      r.order.status == "pending" && r.order.date == now &&
      r.message == OrderMessage(user.value, cart, address))
  {
    if user.None? then LoginFirst
    else if cart == [] then EmptyCart
    else
      var u := user.value;
      Sent(Order(NatToString(stamp), u.id, u.name, u.phone, cart, CartTotal(cart), "pending", now),
        OrderMessage(u, cart, address))
  }

  /** The older checkout flow: the cart is cleared once the order has been created. */
  method LegacyCheckout(provider: CartProvider.CartProvider, address: string, stamp: nat, now: string, created: bool)
    returns (r: LegacyResult)
    requires provider.Valid()
    modifies provider
    ensures r == LegacyAttempt(old(provider.auth.user), old(provider.cart), address, stamp, now)
    ensures provider.Valid() && provider.auth == old(provider.auth)
    ensures provider.cart == if r.Sent? && created then [] else old(provider.cart)
  {
    r := LegacyAttempt(provider.auth.user, provider.cart, address, stamp, now);
    if r.Sent? && created {
      provider.ClearCart();
    }
  }
}
