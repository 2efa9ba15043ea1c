/**
 * The browser-only services of the first storefront: users, products and
 * orders kept as JSON arrays under localStorage keys, read into memory,
 * changed with `push`, index assignment or a field write, and written
 * back. The three arrays and the signed-in user are the fields of one
 * store object; an absent key reads as the empty list, as `getStorage`
 * returns its default then.
 */
module LocalStore {
  import opened Wrappers
  import opened Seqs
  import opened Domain

  /** The one-time code every phone number accepts. */
  const DemoOtp := "1234"

  /** The phone number that signs in as an administrator. */
  const AdminPhone := "6302382280"

  /** The five accounts seeded on first load. */
  const DefaultUsers: seq<User> := [
    User("1", "Admin User", "6302382280", Admin, "Tata Nagar, Tirupati - 517501", Some("admin"), Some("admin123")),
    User("2", "Rajesh Kumar", "9876543210", Customer, "SV Nagar, Tirupati", Some("rajesh"), Some("rajesh123")),
    User("3", "Priya Sharma", "9876543211", Customer, "TP Area, Tirupati", Some("priya"), Some("priya123")),
    User("4", "Amit Patel", "9876543212", Customer, "Renigunta Road, Tirupati", Some("amit"), Some("amit123")),
    User("5", "Sneha Reddy", "9876543213", Customer, "Alipiri, Tirupati", Some("sneha"), Some("sneha123"))]

  /** A copy of the user without its password, as stored for the session. */
  function WithoutPassword(u: User): (r: User)
    ensures r.password.None? && r == u.(password := r.password)
  {
    u.(password := None)
  }

  function Credentials(username: string, password: string): User -> bool {
    (u: User) => u.username == Some(username) && u.password == Some(password)
  }

  function PhoneIs(phone: string): User -> bool {
    (u: User) => u.phone == phone
  }

  function UserIdIs(id: string): User -> bool {
    (u: User) => u.id == id
  }

  function ProductIdIs(id: string): Product -> bool {
    (p: Product) => p.id == id
  }

  function ProductIdIsNot(id: string): Product -> bool {
    (p: Product) => p.id != id
  }

  function OrderIdIs(id: string): Order -> bool {
    (o: Order) => o.id == id
  }

  function OrderOf(userId: string): Order -> bool {
    (o: Order) => o.userId == userId
  }

  /** The account a one-time-code sign-in creates for an unknown phone; `stamp` is `Date.now()` in decimal. */
  function GuestUser(phone: string, stamp: string): (r: User)
    ensures r.role == Admin <==> phone == AdminPhone
    ensures r.phone == phone && r.id == stamp && r.password.None?
  {
    User(stamp, "Guest User", phone, if phone == AdminPhone then Admin else Customer, "", None, None)
  }

  /** The user list and the signed-in user after a correct code for `phone`. */
  function OtpSignIn(users: seq<User>, phone: string, stamp: string): (r: (seq<User>, User))
    ensures r.1.phone == phone && r.1.password.None?
    ensures FirstMatch(users, PhoneIs(phone)).Some? ==>
      r.0 == users && r.1 == WithoutPassword(users[FirstMatch(users, PhoneIs(phone)).value])
    ensures FirstMatch(users, PhoneIs(phone)).None? ==>
      r.0 == users + [GuestUser(phone, stamp)] && r.1 == GuestUser(phone, stamp)
  {
    match FirstMatch(users, PhoneIs(phone))
    case Some(i) => (users, WithoutPassword(users[i]))
    case None => (users + [GuestUser(phone, stamp)], GuestUser(phone, stamp))
  }

  /** A second sign-in with the same phone finds the account the first one created or reused. */
  lemma {:induction false} OtpSignInIdempotent(users: seq<User>, phone: string, stamp: string, later: string)
    ensures var first := OtpSignIn(users, phone, stamp);
      var second := OtpSignIn(first.0, phone, later);
      second.0 == first.0 && second.1 == first.1
  {
    var first := OtpSignIn(users, phone, stamp);
    if FirstMatch(users, PhoneIs(phone)).None? {
      var n := |users|;
      assert PhoneIs(phone)(first.0[n]);
      FirstMatchAt(first.0, PhoneIs(phone), n);
    }
  }

  /** Updating the element at `i` with one carrying the same key leaves the first match where it was. */
  lemma {:induction false} FirstMatchAfterReplace<T>(s: seq<T>, f: T -> bool, i: nat, x: T)
    requires FirstMatch(s, f) == Some(i) && f(x)
    ensures FirstMatch(s[i := x], f) == Some(i)
  {
    FirstMatchAt(s[i := x], f, i);
  }

  /** `find`/`findIndex`: a scan from the front that stops at the first match. */
  method FindFirst<T>(s: seq<T>, f: T -> bool) returns (r: Option<nat>)
    ensures r == FirstMatch(s, f)
  {
    var i := 0;
    while i < |s|
      invariant 0 <= i <= |s|
      invariant forall j :: 0 <= j < i ==> !f(s[j])
    {
      if f(s[i]) {
        FirstMatchAt(s, f, i);
        return Some(i);
      }
      i := i + 1;
    }
    return None;
  }

  class Store {
    var users: seq<User>
    var products: seq<Product>
    var orders: seq<Order>
    /** The `charan_current_user` entry. */
    var currentUser: Option<User>
    /** The catalogue shipped with the application, seeded into an empty product list. */
    const initialProducts: seq<Product>

    constructor(users: seq<User>, products: seq<Product>, orders: seq<Order>, currentUser: Option<User>,
                initialProducts: seq<Product>)
      ensures this.users == users && this.products == products && this.orders == orders
      ensures this.currentUser == currentUser && this.initialProducts == initialProducts
    {
      this.users := users;
      this.products := products;
      this.orders := orders;
      this.currentUser := currentUser;
      this.initialProducts := initialProducts;
    }

    /** Seeds the default accounts unless some user is already stored. */
    method InitializeUsers() returns (r: seq<User>)
      modifies this
      ensures old(users) != [] ==> users == old(users) && r == old(users)
      ensures old(users) == [] ==> users == DefaultUsers && r == DefaultUsers
      ensures products == old(products) && orders == old(orders) && currentUser == old(currentUser)
    {
      if |users| > 0 {
        return users;
      }
      users := DefaultUsers;
      r := DefaultUsers;
    }

    /** Signs in the first user with both the given username and password; no match rejects. */
    method Login(username: string, password: string) returns (r: Option<User>)
      modifies this
      ensures r.Some? <==> exists i :: 0 <= i < |users| && Credentials(username, password)(users[i])
      ensures r.Some? ==>
        r.value == WithoutPassword(users[FirstMatch(users, Credentials(username, password)).value]) &&
        currentUser == r
      ensures r.None? ==> currentUser == old(currentUser)
      ensures users == old(users) && products == old(products) && orders == old(orders)
    {
      var i := FindFirst(users, Credentials(username, password));
      if i.None? {
        assert forall k :: 0 <= k < |users| ==> !Credentials(username, password)(users[k]);
        return None;
      }
      r := Some(WithoutPassword(users[i.value]));
      currentUser := r;
      assert Credentials(username, password)(users[i.value]);
    }

    /** Signs in by phone with a one-time code, creating a guest account for a new number. */
    method VerifyOtp(phone: string, otp: string, stamp: string) returns (r: Option<User>)
      modifies this
      ensures otp != DemoOtp ==> r.None? && users == old(users) && currentUser == old(currentUser)
      ensures otp == DemoOtp ==>
        var after := OtpSignIn(old(users), phone, stamp);
        users == after.0 && r == Some(after.1) && currentUser == r
      ensures products == old(products) && orders == old(orders)
    {
      if otp != DemoOtp {
        return None;
      }
      var i := FindFirst(users, PhoneIs(phone));
      var user: User;
      if i.None? {
        user := GuestUser(phone, stamp);
        users := users + [user];
      } else {
        user := WithoutPassword(users[i.value]);
      }
      r := Some(user);
      currentUser := r;
    }

    function CurrentUser(): Option<User>
      reads this
    {
      currentUser
    }

    method Logout()
      modifies this
      ensures currentUser.None?
      ensures users == old(users) && products == old(products) && orders == old(orders)
    {
      currentUser := None;
    }

    /** Replaces the stored user with the same id and signs it in; an unknown id changes nothing. */
    method UpdateProfile(user: User) returns (r: User)
      modifies this
      ensures r == user
      ensures FirstMatch(old(users), UserIdIs(user.id)).Some? ==>
        users == old(users)[FirstMatch(old(users), UserIdIs(user.id)).value := user] && currentUser == Some(user)
      ensures FirstMatch(old(users), UserIdIs(user.id)).None? ==>
        users == old(users) && currentUser == old(currentUser)
      ensures products == old(products) && orders == old(orders)
    {
      var i := FindFirst(users, UserIdIs(user.id));
      if i.Some? {
        users := users[i.value := user];
        currentUser := Some(user);
      }
      r := user;
    }

    /** The stored products, seeding the shipped catalogue into an empty list. */
    method GetAllProducts() returns (r: seq<Product>)
      modifies this
      ensures old(products) == [] ==> products == initialProducts && r == initialProducts
      ensures old(products) != [] ==> products == old(products) && r == old(products)
      ensures users == old(users) && orders == old(orders) && currentUser == old(currentUser)
    {
      if |products| == 0 {
        products := initialProducts;
      }
      r := products;
    }

    /** Appends the product under a fresh id, `Date.now()` in decimal. */
    method AddProduct(product: Product, stamp: string) returns (r: Product)
      modifies this
      ensures r == product.(id := stamp)
      ensures products == old(products) + [r]
      ensures users == old(users) && orders == old(orders) && currentUser == old(currentUser)
    {
      r := product.(id := stamp);
      products := products + [r];
    }

    /** Replaces the first product with the same id; with none, fails and changes nothing. */
    method UpdateProduct(product: Product) returns (found: bool)
      modifies this
      ensures found <==> exists k :: 0 <= k < |old(products)| && old(products)[k].id == product.id
      ensures found ==> products == old(products)[FirstMatch(old(products), ProductIdIs(product.id)).value := product]
      ensures !found ==> products == old(products)
      ensures users == old(users) && orders == old(orders) && currentUser == old(currentUser)
    {
      var i := FindFirst(products, ProductIdIs(product.id));
      if i.None? {
        assert forall k :: 0 <= k < |products| ==> !ProductIdIs(product.id)(products[k]);
        return false;
      }
      assert ProductIdIs(product.id)(products[i.value]);
      products := products[i.value := product];
      found := true;
    }

    /** Removes every product with the id, keeping the others in order. */
    method DeleteProduct(id: string)
      modifies this
      ensures products == Filter(old(products), ProductIdIsNot(id))
      ensures forall p :: p in products <==> p in old(products) && p.id != id
      ensures users == old(users) && orders == old(orders) && currentUser == old(currentUser)
    {
      products := Filter(products, ProductIdIsNot(id));
    }

    method CreateOrder(order: Order) returns (r: Order)
      modifies this
      ensures r == order && orders == old(orders) + [order]
      ensures users == old(users) && products == old(products) && currentUser == old(currentUser)
    {
      orders := orders + [order];
      r := order;
    }

    function UserOrders(userId: string): (r: seq<Order>)
      reads this
      ensures forall o :: o in r <==> o in orders && o.userId == userId
      ensures IsSubsequence(r, orders)
      ensures forall o :: multiset(r)[o] == if o.userId == userId then multiset(orders)[o] else 0
    {
      FilterIsSubsequence(orders, OrderOf(userId));
      FilterMultiset(orders, OrderOf(userId));
      Filter(orders, OrderOf(userId))
    }

    /** Sets the status of the first order with the id; with none, nothing changes. */
    method UpdateStatus(orderId: string, status: string)
      modifies this
      ensures |orders| == |old(orders)|
      ensures FirstMatch(old(orders), OrderIdIs(orderId)).Some? ==>
        var i := FirstMatch(old(orders), OrderIdIs(orderId)).value;
        orders == old(orders)[i := old(orders)[i].(status := status)]
      ensures FirstMatch(old(orders), OrderIdIs(orderId)).None? ==> orders == old(orders)
      ensures users == old(users) && products == old(products) && currentUser == old(currentUser)
    {
      var i := FindFirst(orders, OrderIdIs(orderId));
      if i.Some? {
        orders := orders[i.value := orders[i.value].(status := status)];
      }
    }
  }

  /** After a status update, the first order with that id carries the new status and every other order is as before. */
  lemma {:induction false} StatusUpdateTouchesOne(orders: seq<Order>, orderId: string, status: string)
    requires FirstMatch(orders, OrderIdIs(orderId)).Some?
    ensures var i := FirstMatch(orders, OrderIdIs(orderId)).value;
      var after := orders[i := orders[i].(status := status)];
      FirstMatch(after, OrderIdIs(orderId)) == Some(i) && after[i].status == status &&
      forall k :: 0 <= k < |orders| && k != i ==> after[k] == orders[k]
  {
    var i := FirstMatch(orders, OrderIdIs(orderId)).value;
    FirstMatchAfterReplace(orders, OrderIdIs(orderId), i, orders[i].(status := status));
  }

  /** Deleting a product id leaves no product with that id, and deleting it again changes nothing. */
  lemma {:induction false} DeleteIsFinal(products: seq<Product>, id: string)
    ensures forall k :: 0 <= k < |Filter(products, ProductIdIsNot(id))| ==> Filter(products, ProductIdIsNot(id))[k].id != id
    ensures Filter(Filter(products, ProductIdIsNot(id)), ProductIdIsNot(id)) == Filter(products, ProductIdIsNot(id))
  {
    FilterAll(Filter(products, ProductIdIsNot(id)), ProductIdIsNot(id));
  }
}
