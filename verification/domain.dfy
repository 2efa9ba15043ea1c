/**
 * The shapes shared by the storefront client: products, cart lines,
 * users, orders, the authentication state and chat messages.
 */
module Domain {
  import opened Wrappers

  datatype Role = Admin | Customer

  datatype Product = Product(
    id: string,
    name: string,
    scientificName: Option<string>,
    category: string,
    price: int,
    offerPrice: Option<int>,
    stock: int,
    origin: string,
    description: Option<string>,
    image: string,
    isNew: Option<bool>,
    /** Present only on rows served by the back end's product listing. */
    salesCount: Option<int>)

  /** A product together with the number of units in the cart. */
  datatype CartItem = CartItem(product: Product, quantity: int) {
    function Id(): string { product.id }
  }

  datatype User = User(
    id: string,
    name: string,
    phone: string,
    role: Role,
    address: string,
    username: Option<string>,
    password: Option<string>)

  datatype Order = Order(
    id: string,
    userId: string,
    userName: string,
    userPhone: string,
    items: seq<CartItem>,
    totalAmount: int,
    status: string,
    date: string)

  datatype AuthState = AuthState(user: Option<User>, isAuthenticated: bool)

  /** A chat message as the client sees it; `timestamp` is in milliseconds. */
  datatype Message = Message(
    id: string,
    conversationId: string,
    senderId: string,
    senderName: string,
    senderRole: Role,
    message: string,
    timestamp: int,
    read: bool)
}
