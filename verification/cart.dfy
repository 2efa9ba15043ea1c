/**
 * The shopping cart and the authentication state of the storefront
 * client, as pure operations that each return the next value.
 */
module Cart {
  import opened Wrappers
  import opened Seqs
  import opened Domain

  /** No two lines of the cart share a product id. */
  predicate UniqueIds(cart: seq<CartItem>) {
    forall i, j :: 0 <= i < j < |cart| ==> cart[i].Id() != cart[j].Id()
  }

  predicate HasId(cart: seq<CartItem>, id: string) {
    exists k :: 0 <= k < |cart| && cart[k].Id() == id
  }

  /** The line with `id` gains `qty` units; every other line is kept. */
  function AddQuantity(cart: seq<CartItem>, id: string, qty: int): (r: seq<CartItem>)
    ensures |r| == |cart|
    ensures forall k :: 0 <= k < |cart| ==>
      r[k] == if cart[k].Id() == id then cart[k].(quantity := cart[k].quantity + qty) else cart[k]
  {
    if cart == [] then []
    else
      var head := if cart[0].Id() == id then cart[0].(quantity := cart[0].quantity + qty) else cart[0];
      [head] + AddQuantity(cart[1..], id, qty)
  }

  /**
   * `addToCart`: a product already in the cart gains `qty` units in place;
   * a new one is appended with quantity `qty`.
   */
  function AddToCart(cart: seq<CartItem>, product: Product, qty: int): seq<CartItem> {
    if HasId(cart, product.id) then AddQuantity(cart, product.id, qty)
    else cart + [CartItem(product, qty)]
  }

  /** The line with `id` after `addToCart`: the existing line with more units, or a new last line. */
  lemma {:induction false} AddToCartEffect(cart: seq<CartItem>, product: Product, qty: int)
    ensures var r := AddToCart(cart, product, qty);
      (HasId(cart, product.id) ==>
        |r| == |cart| &&
        (forall k :: 0 <= k < |cart| && cart[k].Id() != product.id ==> r[k] == cart[k]) &&
        (forall k :: 0 <= k < |cart| && cart[k].Id() == product.id ==>
          r[k].product == cart[k].product && r[k].quantity == cart[k].quantity + qty)) &&
      (!HasId(cart, product.id) ==> |r| == |cart| + 1 && r[..|cart|] == cart && r[|cart|] == CartItem(product, qty))
  {
    var r := AddToCart(cart, product, qty);
    if !HasId(cart, product.id) {
      assert r[..|cart|] == cart;
    }
  }

  /** `addToCart` keeps the ids of the cart unique. */
  lemma {:induction false} AddToCartKeepsIdsUnique(cart: seq<CartItem>, product: Product, qty: int)
    requires UniqueIds(cart)
    ensures UniqueIds(AddToCart(cart, product, qty))
  {
    var r := AddToCart(cart, product, qty);
    if HasId(cart, product.id) {
      assert forall k :: 0 <= k < |cart| ==> r[k].Id() == cart[k].Id();
    } else {
      assert forall k :: 0 <= k < |cart| ==> r[k] == cart[k];
    }
  }

  predicate NotId(id: string, item: CartItem) { item.Id() != id }

  /** `removeFromCart`: the lines with `id` are dropped and the others keep their order. */
  function RemoveFromCart(cart: seq<CartItem>, id: string): (r: seq<CartItem>)
    ensures forall x :: x in r <==> x in cart && x.Id() != id
    ensures !HasId(r, id)
    ensures IsSubsequence(r, cart)
  {
    FilterIsSubsequence(cart, x => NotId(id, x));
    Filter(cart, x => NotId(id, x))
  }

  /** Removing a product undoes adding it, whether or not it was already in the cart. */
  lemma {:induction false} RemoveAfterAdd(cart: seq<CartItem>, product: Product, qty: int)
    ensures RemoveFromCart(AddToCart(cart, product, qty), product.id) == RemoveFromCart(cart, product.id)
  {
    var f := (x: CartItem) => NotId(product.id, x);
    if HasId(cart, product.id) {
      RemoveAfterAddQuantity(cart, product.id, qty);
    } else {
      FilterAppend(cart, [CartItem(product, qty)], f);
      assert Filter([CartItem(product, qty)], f) == [];
    }
  }

  lemma {:induction false} RemoveAfterAddQuantity(cart: seq<CartItem>, id: string, qty: int)
    ensures Filter(AddQuantity(cart, id, qty), x => NotId(id, x)) == Filter(cart, x => NotId(id, x))
  {
    if cart != [] {
      RemoveAfterAddQuantity(cart[1..], id, qty);
      assert AddQuantity(cart, id, qty)[1..] == AddQuantity(cart[1..], id, qty);
    }
  }

  /** The price charged per unit: the offer price unless it is missing or 0. */
  function UnitPrice(p: Product): (price: int)
    ensures p.offerPrice.Some? && p.offerPrice.value != 0 ==> price == p.offerPrice.value
    ensures p.offerPrice.None? || p.offerPrice.value == 0 ==> price == p.price
  {
    match p.offerPrice
    case Some(o) => if o != 0 then o else p.price
    case None => p.price
  }

  /** What one line costs. */
  function LineTotal(item: CartItem): int { UnitPrice(item.product) * item.quantity }

  /** `cartTotal`: the sum of unit price times quantity over the lines. */
  function CartTotal(cart: seq<CartItem>): int {
    if cart == [] then 0 else LineTotal(cart[0]) + CartTotal(cart[1..])
  }

  lemma {:induction false} CartTotalAppend(a: seq<CartItem>, b: seq<CartItem>)
    ensures CartTotal(a + b) == CartTotal(a) + CartTotal(b)
  {
    if a == [] {
      assert a + b == b;
    } else {
      CartTotalAppend(a[1..], b);
      assert (a + b)[1..] == a[1..] + b;
    }
  }

  /** Adding `qty` units raises the total by `qty` times the unit price of that line. */
  lemma {:induction false} AddToCartTotal(cart: seq<CartItem>, product: Product, qty: int)
    requires UniqueIds(cart)
    ensures !HasId(cart, product.id) ==>
      CartTotal(AddToCart(cart, product, qty)) == CartTotal(cart) + UnitPrice(product) * qty
    ensures forall k :: 0 <= k < |cart| && cart[k].Id() == product.id ==>
      CartTotal(AddToCart(cart, product, qty)) == CartTotal(cart) + UnitPrice(cart[k].product) * qty
  {
    if !HasId(cart, product.id) {
      CartTotalAppend(cart, [CartItem(product, qty)]);
      assert CartTotal([CartItem(product, qty)]) == UnitPrice(product) * qty by {
        assert [CartItem(product, qty)][..0] == [];
      }
    }
    forall k | 0 <= k < |cart| && cart[k].Id() == product.id
      ensures CartTotal(AddToCart(cart, product, qty)) == CartTotal(cart) + UnitPrice(cart[k].product) * qty
    {
      AddQuantityTotal(cart, product.id, qty, k);
    }
  }

  lemma {:induction false} AddQuantityTotal(cart: seq<CartItem>, id: string, qty: int, k: int)
    requires UniqueIds(cart) && 0 <= k < |cart| && cart[k].Id() == id
    ensures CartTotal(AddQuantity(cart, id, qty)) == CartTotal(cart) + UnitPrice(cart[k].product) * qty
  {
    var r := AddQuantity(cart, id, qty);
    assert r[1..] == AddQuantity(cart[1..], id, qty);
    if k == 0 {
      assert r[1..] == cart[1..] by {
        forall j | 0 <= j < |cart| - 1 ensures r[1..][j] == cart[1..][j] {
          assert cart[j + 1].Id() != id;
        }
      }
      assert LineTotal(r[0]) == LineTotal(cart[0]) + UnitPrice(cart[0].product) * qty;
    } else {
      AddQuantityTotal(cart[1..], id, qty, k - 1);
    }
  }

  /** The signed-out state. */
  const SignedOut: AuthState := AuthState(None, false)

  /** The authentication flag is set exactly when there is a user. */
  predicate Consistent(auth: AuthState) { auth.isAuthenticated <==> auth.user.Some? }

  /** `login`: the user becomes the authenticated user. */
  function Login(user: User): (auth: AuthState)
    ensures Consistent(auth) && auth.user == Some(user)
  {
    AuthState(Some(user), true)
  }

  /** `logout`: no user and not authenticated, whoever was signed in. */
  function Logout(auth: AuthState): (r: AuthState)
    ensures Consistent(r) && r.user.None?
  {
    SignedOut
  }
}
