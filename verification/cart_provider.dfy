/**
 * The newer storefront's cart provider: the cart is restored from browser
 * storage, replaced by each operation, and written back by an effect that
 * runs after every change.
 */
module CartProvider {
  import opened Wrappers
  import opened Domain
  import opened Cart

  class CartProvider {
    var cart: seq<CartItem>
    /** The `charan_cart` storage entry; `None` when the key is absent. */
    var storage: Option<seq<CartItem>>
    var auth: AuthState

    /** After every render the saved cart equals the cart. */
    ghost predicate Valid()
      reads this
    {
      storage == Some(cart)
    }

    /**
     * Mount: the cart starts from the stored entry (absent or unreadable
     * counts as empty), and the save effect then writes it back.
     */
    constructor(stored: Option<seq<CartItem>>, currentUser: Option<User>)
      ensures Valid()
      ensures cart == (if stored.Some? then stored.value else [])
      ensures auth == (if currentUser.Some? then Cart.Login(currentUser.value) else SignedOut)
    {
      cart := if stored.Some? then stored.value else [];
      auth := if currentUser.Some? then Cart.Login(currentUser.value) else SignedOut;
      storage := Some(cart);
    }

    /** The save effect that follows every change of the cart. */
    method SaveEffect()
      modifies this
      ensures Valid() && cart == old(cart) && auth == old(auth)
    {
      storage := Some(cart);
    }

    method AddToCart(product: Product, qty: int)
      requires Valid()
      modifies this
      ensures Valid() && auth == old(auth)
      ensures cart == Cart.AddToCart(old(cart), product, qty)
      ensures UniqueIds(old(cart)) ==> UniqueIds(cart)
    {
      cart := Cart.AddToCart(cart, product, qty);
      SaveEffect();
      if UniqueIds(old(cart)) {
        AddToCartKeepsIdsUnique(old(cart), product, qty);
      }
    }

    method RemoveFromCart(id: string)
      requires Valid()
      modifies this
      ensures Valid() && auth == old(auth)
      ensures cart == Cart.RemoveFromCart(old(cart), id)
    {
      cart := Cart.RemoveFromCart(cart, id);
      SaveEffect();
    }

    /**
     * `clearCart`: empties the cart and removes the storage key; the save
     * effect then runs for the new empty cart and stores it.
     */
    method ClearCart()
      requires Valid()
      modifies this
      ensures Valid() && auth == old(auth)
      ensures cart == [] && storage == Some([])
    {
      cart := [];
      storage := None;
      SaveEffect();
    }

    method Login(user: User)
      modifies this
      ensures auth == Cart.Login(user) && cart == old(cart) && storage == old(storage)
    {
      auth := Cart.Login(user);
    }

    /** `logout` signs out and keeps the cart. */
    method Logout()
      modifies this
      ensures auth == SignedOut && cart == old(cart) && storage == old(storage)
    {
      auth := SignedOut;
    }
  }
}
