/**
 * The storefront's HTTP service layer as far as it has rules of its own:
 * the order normaliser that turns a back-end order record into the
 * client's `Order`, the defaults `orderService.create` sends and applies,
 * the favourite toggle, favourite ids as strings and the shipping-cost
 * default. The responses are JSON values; JavaScript's `??`, `||`,
 * `String()`, `Number()` and `Boolean()` are written out over them.
 */
module ClientServices {
  import opened Wrappers
  import opened Text
  import opened Domain

  /**
   * The fields the client reads, under their JSON names: `IsNewSnake` is
   * IsNewSnake, `IsNew` is IsNew, `UserIdSnake` is UserIdSnake, `ItemsJson`
   * is ItemsJson, and so on. An object's other fields are never read
   * and are not modelled.
   */
  datatype Key =
    | Id | Quantity | Price | OfferPrice | Name | ProductName | Image | ProductImage
    | Category | ScientificName | Stock | Origin | Description | IsNewSnake | IsNew
    | UserIdSnake | UserId | UserNameSnake | UserName | UserPhoneSnake | UserPhone
    | Items | ItemsJson | TotalAmountSnake | TotalAmount | Status | Date | CreatedAt | UpdatedAt

  /** A JSON value as parsed by the browser; numbers are whole. */
  datatype Json =
    | JNull
    | JBool(b: bool)
    | JNum(n: int)
    | JStr(s: string)
    | JArr(elems: seq<Json>)
    | JObj(fields: map<Key, Json>)

  /** Property access `v.key`: an object's own field; anything else has none of the keys read here. */
  function Prop(v: Json, key: Key): (r: Option<Json>)
    ensures r.Some? <==> v.JObj? && key in v.fields
  {
    if v.JObj? && key in v.fields then Some(v.fields[key]) else None
  }

  /** `null` and `undefined` (an absent field). */
  predicate Nullish(v: Option<Json>) {
    v.None? || v.value == JNull
  }

  /** JavaScript truthiness. */
  predicate Truthy(v: Json) {
    match v
    case JNull => false
    case JBool(b) => b
    case JNum(n) => n != 0
    case JStr(s) => s != ""
    case JArr(_) => true
    case JObj(_) => true
  }

  /** `v.k0 ?? v.k1 ?? …` without the final default. */
  function Coalesce(v: Json, keys: seq<Key>): (r: Option<Json>)
    ensures r.Some? ==> r.value != JNull
  {
    if keys == [] then None
    else if !Nullish(Prop(v, keys[0])) then Prop(v, keys[0])
    else Coalesce(v, keys[1..])
  }

  /** The chain yields the first field that is neither null nor undefined, and nothing when all are. */
  lemma {:induction false} CoalesceIsFirst(v: Json, keys: seq<Key>)
    ensures Coalesce(v, keys).None? <==> forall k :: 0 <= k < |keys| ==> Nullish(Prop(v, keys[k]))
    ensures Coalesce(v, keys).Some? ==> exists k :: (0 <= k < |keys| && Prop(v, keys[k]) == Coalesce(v, keys) &&
      forall j :: 0 <= j < k ==> Nullish(Prop(v, keys[j])))
  {
    if keys != [] && Nullish(Prop(v, keys[0])) {
      CoalesceIsFirst(v, keys[1..]);
      var r := Coalesce(v, keys);
      if r.Some? {
        var k :| 0 <= k < |keys[1..]| && Prop(v, keys[1..][k]) == r &&
          forall j :: 0 <= j < k ==> Nullish(Prop(v, keys[1..][j]));
        assert forall j :: 0 <= j < k + 1 ==> Nullish(Prop(v, keys[j]));
      }
    } else if keys != [] {
      assert Prop(v, keys[0]) == Coalesce(v, keys);
    }
  }

  /** `String(v)`. */
  function ToStr(v: Json): (r: string)
    ensures v.JStr? ==> r == v.s
    ensures v.JNum? ==> r == IntToString(v.n)
  {
    match v
    case JNull => "null"
    case JBool(b) => if b then "true" else "false"
    case JNum(n) => IntToString(n)
    case JStr(s) => s
    case JArr(a) => Join(seq(|a|, i requires 0 <= i < |a| => if a[i] == JNull then "" else ToStr(a[i])), ",")
    case JObj(_) => "[object Object]"
  }

  /**
   * `Number(v)`, or None where JavaScript yields NaN. Strings are read as
   * unsigned decimal digits after trimming; an empty string is 0.
   */
  function ToNumber(v: Json): (r: Option<int>)
    ensures v.JNum? ==> r == Some(v.n)
    ensures v == JNull || v == JBool(false) ==> r == Some(0)
    ensures v == JBool(true) ==> r == Some(1)
  {
    match v
    case JNull => Some(0)
    case JBool(b) => Some(if b then 1 else 0)
    case JNum(n) => Some(n)
    case JStr(s) =>
      var t := JsTrim(s);
      if t == "" then Some(0)
      else if forall k :: 0 <= k < |t| ==> IsDigit(t[k]) then Some(DigitsValue(t))
      else None
    case JArr(a) => if a == [] then Some(0) else None
    case JObj(_) => None
  }

  /** The decimal notation of a natural number reads back as that number. */
  lemma {:induction false} NumberOfDecimal(n: nat)
    ensures ToNumber(JStr(NatToString(n))) == Some(n)
  {
    var s := NatToString(n);
    assert s[0] !in JsSpace by { assert IsDigit(s[0]); }
    assert s[|s| - 1] !in JsSpace by { assert IsDigit(s[|s| - 1]); }
    assert JsTrim(s) == s;
    NatToStringRoundTrip(n);
  }

  /** A text field read with `??` defaults: a string stays as it is, other values are rendered. */
  function TextOr(v: Json, keys: seq<Key>, default: string): (r: string)
    ensures Coalesce(v, keys).None? ==> r == default
    ensures (Coalesce(v, keys).Some? && Coalesce(v, keys).value.JStr?) ==> r == Coalesce(v, keys).value.s
  {
    match Coalesce(v, keys)
    case None => default
    case Some(x) => ToStr(x)
  }

  /** The outcome of evaluating the normaliser: a value, a thrown TypeError, or a NaN in a numeric field. */
  datatype Normal<T> = Ok(value: T) | Throws | NaN

  /** `Number(v.k0 ?? … ?? 0)`. */
  function NumberOr0(v: Json, keys: seq<Key>): (r: Option<int>)
    ensures Coalesce(v, keys).None? ==> r == Some(0)
    ensures (Coalesce(v, keys).Some? && Coalesce(v, keys).value.JNum?) ==> r == Some(Coalesce(v, keys).value.n)
  {
    match Coalesce(v, keys)
    case None => Some(0)
    case Some(x) => ToNumber(x)
  }

  /** One order line as the normaliser maps it; reading a field of `null` throws. */
  function NormalizeItem(it: Json): (r: Normal<CartItem>)
    ensures r == Throws <==> it == JNull
    ensures r.Ok? ==> (
      var p := r.value.product;
      p.id == (if Nullish(Prop(it, Id)) then "" else ToStr(Prop(it, Id).value)) &&
      Some(r.value.quantity) == NumberOr0(it, [Quantity]) &&
      Some(p.price) == NumberOr0(it, [Price]) &&
      Some(p.stock) == NumberOr0(it, [Stock]) &&
      (p.offerPrice.None? <==> Prop(it, OfferPrice).None?) &&
      p.name == TextOr(it, [Name, ProductName], "") &&
      p.image == TextOr(it, [Image, ProductImage], "") &&
      p.isNew == Some(Coalesce(it, [IsNewSnake, IsNew]).Some? && Truthy(Coalesce(it, [IsNewSnake, IsNew]).value)) &&
      p.salesCount.None?)
  {
    if it == JNull then Throws
    else
      var quantity := NumberOr0(it, [Quantity]);
      var price := NumberOr0(it, [Price]);
      var stock := NumberOr0(it, [Stock]);
      var offer := match Prop(it, OfferPrice)
        case None => Some(None)
        case Some(x) => if ToNumber(x).Some? then Some(Some(ToNumber(x).value)) else None;
      if quantity.None? || price.None? || stock.None? || offer.None? then NaN
      else
        var isNew := match Coalesce(it, [IsNewSnake, IsNew])
          case None => false
          case Some(x) => Truthy(x);
        Ok(CartItem(
          Product(
            id := if Nullish(Prop(it, Id)) then "" else ToStr(Prop(it, Id).value),
            name := TextOr(it, [Name, ProductName], ""),
            scientificName := Some(TextOr(it, [ScientificName], "")),
            category := TextOr(it, [Category], ""),
            price := price.value,
            offerPrice := offer.value,
            stock := stock.value,
            origin := TextOr(it, [Origin], ""),
            description := Some(TextOr(it, [Description], "")),
            image := TextOr(it, [Image, ProductImage], ""),
            isNew := Some(isNew),
            salesCount := None),
          quantity.value))
  }

  /** `items.map(normalizeItem)`: the first line that throws ends the map; a NaN does not. */
  function NormalizeItems(items: seq<Json>): (r: Normal<seq<CartItem>>)
    ensures r == Throws <==> JNull in items
    ensures r.Ok? ==> (|r.value| == |items| &&
      forall k :: 0 <= k < |items| ==> NormalizeItem(items[k]) == Ok(r.value[k]))
  {
    if items == [] then Ok([])
    else
      var head := NormalizeItem(items[0]);
      var rest := NormalizeItems(items[1..]);
      if head == Throws || rest == Throws then Throws
      else if head == NaN || rest == NaN then NaN
      else Ok([head.value] + rest.value)
  }

  /**
   * The list the normaliser maps: `items` when it is an array, else
   * `items_json` when that is, else `items || []`; a truthy non-array has
   * no `map` and throws, and so does reading `items` of a null order.
   */
  function ItemsSource(raw: Json): (r: Normal<seq<Json>>)
    ensures (Prop(raw, Items).Some? && Prop(raw, Items).value.JArr?) ==> r == Ok(Prop(raw, Items).value.elems)
    ensures (!(Prop(raw, Items).Some? && Prop(raw, Items).value.JArr?) &&
      Prop(raw, ItemsJson).Some? && Prop(raw, ItemsJson).value.JArr?) ==> r == Ok(Prop(raw, ItemsJson).value.elems)
    ensures r.Ok? ==> r.value == [] || Prop(raw, Items) == Some(JArr(r.value)) || Prop(raw, ItemsJson) == Some(JArr(r.value))
    ensures r == Throws <==> (raw == JNull || (Prop(raw, Items).Some? && Truthy(Prop(raw, Items).value) &&
      !Prop(raw, Items).value.JArr? && !(Prop(raw, ItemsJson).Some? && Prop(raw, ItemsJson).value.JArr?)))
  {
    if raw == JNull then Throws
    else match (Prop(raw, Items), Prop(raw, ItemsJson))
    case (Some(JArr(a)), _) => Ok(a)
    case (_, Some(JArr(a))) => Ok(a)
    case (Some(x), _) => if Truthy(x) then Throws else Ok([])
    case (None, _) => Ok([])
  }

  /** `normalizeOrder(raw)` with `now` standing for `new Date().toISOString()`. */
  function NormalizeOrder(raw: Json, now: string): (r: Normal<Order>)
    ensures r == Throws <==> ItemsSource(raw) == Throws || (ItemsSource(raw).Ok? && JNull in ItemsSource(raw).value)
    ensures raw == JNull ==> r == Throws
    ensures r.Ok? ==>
      NormalizeItems(ItemsSource(raw).value) == Ok(r.value.items) &&
      r.value.userId == (match Coalesce(raw, [UserIdSnake, UserId]) case None => "" case Some(x) => ToStr(x)) &&
      r.value.userName == TextOr(raw, [UserNameSnake, UserName], "") &&
      r.value.userPhone == TextOr(raw, [UserPhoneSnake, UserPhone], "") &&
      Some(r.value.totalAmount) == NumberOr0(raw, [TotalAmountSnake, TotalAmount]) &&
      r.value.status == TextOr(raw, [Status], "pending") &&
      r.value.date == TextOr(raw, [Date, CreatedAt, UpdatedAt], now)
  {
    match ItemsSource(raw)
    case Throws => Throws
    case NaN => NaN
    case Ok(elems) =>
      match NormalizeItems(elems)
      case Throws => Throws
      case NaN => NaN
      case Ok(items) =>
        var total := NumberOr0(raw, [TotalAmountSnake, TotalAmount]);
        if total.None? then NaN
        else Ok(Order(
          id := if Nullish(Prop(raw, Id)) then "" else ToStr(Prop(raw, Id).value),
          userId := ToStr(Coalesce(raw, [UserIdSnake, UserId]).GetOr(JStr(""))),
          userName := TextOr(raw, [UserNameSnake, UserName], ""),
          userPhone := TextOr(raw, [UserPhoneSnake, UserPhone], ""),
          items := items,
          totalAmount := total.value,
          status := TextOr(raw, [Status], "pending"),
          date := TextOr(raw, [Date, CreatedAt, UpdatedAt], now)))
  }

  // ---------------------------------------------------------------------
  // The client's own order shape, serialised and read back
  // ---------------------------------------------------------------------

  /** A line the normaliser reproduces exactly: every optional it defaults is present, and it carries no sales count. */
  predicate Complete(item: CartItem) {
    item.product.scientificName.Some? && item.product.description.Some? &&
    item.product.isNew.Some? && item.product.salesCount.None?
  }

  /** `JSON.stringify` of a complete cart line in the client's camelCase shape; an absent offer price is left out. */
  function EncodeItem(item: CartItem): Json
    requires Complete(item)
  {
    var p := item.product;
    var m := map[
      Id := JStr(p.id), Quantity := JNum(item.quantity), Price := JNum(p.price),
      Name := JStr(p.name), Image := JStr(p.image), Category := JStr(p.category),
      ScientificName := JStr(p.scientificName.value), Stock := JNum(p.stock), Origin := JStr(p.origin),
      Description := JStr(p.description.value), IsNew := JBool(p.isNew.value)];
    JObj(if p.offerPrice.Some? then m[OfferPrice := JNum(p.offerPrice.value)] else m)
  }

  /** `JSON.stringify` of an order in the client's camelCase shape. */
  function EncodeOrder(o: Order): Json
    requires forall k :: 0 <= k < |o.items| ==> Complete(o.items[k])
  {
    JObj(map[
      Id := JStr(o.id), UserId := JStr(o.userId), UserName := JStr(o.userName),
      UserPhone := JStr(o.userPhone), Items := JArr(seq(|o.items|, k requires 0 <= k < |o.items| => EncodeItem(o.items[k]))),
      TotalAmount := JNum(o.totalAmount), Status := JStr(o.status), Date := JStr(o.date)])
  }

  lemma {:induction false} NormalizeEncodedItem(item: CartItem)
    requires Complete(item)
    ensures NormalizeItem(EncodeItem(item)) == Ok(item)
  {
    EncodedItemFields(item);
    var n := NormalizeItem(EncodeItem(item));
    assert n.Ok?;
    assert n.value.quantity == item.quantity;
    assert n.value.product == item.product;
  }

  lemma {:induction false} EncodedItemFields(item: CartItem)
    requires Complete(item)
    ensures var v := EncodeItem(item); var p := item.product;
      Prop(v, Id) == Some(JStr(p.id)) &&
      NumberOr0(v, [Quantity]) == Some(item.quantity) &&
      NumberOr0(v, [Price]) == Some(p.price) &&
      NumberOr0(v, [Stock]) == Some(p.stock) &&
      Prop(v, OfferPrice) == (if p.offerPrice.Some? then Some(JNum(p.offerPrice.value)) else None) &&
      TextOr(v, [Name, ProductName], "") == p.name &&
      TextOr(v, [Image, ProductImage], "") == p.image &&
      TextOr(v, [Category], "") == p.category &&
      TextOr(v, [Origin], "") == p.origin &&
      TextOr(v, [ScientificName], "") == p.scientificName.value &&
      TextOr(v, [Description], "") == p.description.value &&
      Coalesce(v, [IsNewSnake, IsNew]) == Some(JBool(p.isNew.value))
  {
    EncodedItemNumbers(item);
    EncodedItemTexts(item);
    EncodedItemHasNoSnakeCase(item);
  }

  lemma {:induction false} EncodedItemNumbers(item: CartItem)
    requires Complete(item)
    ensures var v := EncodeItem(item); var p := item.product;
      NumberOr0(v, [Quantity]) == Some(item.quantity) &&
      NumberOr0(v, [Price]) == Some(p.price) &&
      NumberOr0(v, [Stock]) == Some(p.stock) &&
      Prop(v, OfferPrice) == (if p.offerPrice.Some? then Some(JNum(p.offerPrice.value)) else None)
  {
  }

  lemma {:induction false} EncodedItemTexts(item: CartItem)
    requires Complete(item)
    ensures var v := EncodeItem(item); var p := item.product;
      TextOr(v, [Category], "") == p.category &&
      TextOr(v, [Origin], "") == p.origin &&
      TextOr(v, [ScientificName], "") == p.scientificName.value &&
      TextOr(v, [Description], "") == p.description.value
  {
  }

  /** The client's own shape carries none of the back end's snake_case fields. */
  lemma {:induction false} EncodedItemHasNoSnakeCase(item: CartItem)
    requires Complete(item)
    ensures var v := EncodeItem(item); var p := item.product;
      Prop(v, Id) == Some(JStr(p.id)) &&
      TextOr(v, [Name, ProductName], "") == p.name &&
      TextOr(v, [Image, ProductImage], "") == p.image &&
      Coalesce(v, [IsNewSnake, IsNew]) == Some(JBool(p.isNew.value))
  {
  }

  /**
   * Normalising an order the client itself serialised gives back that
   * order, so the normaliser is idempotent on its own output.
   */
  lemma {:induction false} NormalizeEncodedOrder(o: Order, now: string)
    requires forall k :: 0 <= k < |o.items| ==> Complete(o.items[k])
    ensures NormalizeOrder(EncodeOrder(o), now) == Ok(o)
  {
    EncodedOrderItems(o);
    EncodedOrderFields(o, now);
  }

  lemma {:induction false} EncodedOrderItems(o: Order)
    requires forall k :: 0 <= k < |o.items| ==> Complete(o.items[k])
    ensures ItemsSource(EncodeOrder(o)).Ok?
    ensures NormalizeItems(ItemsSource(EncodeOrder(o)).value) == Ok(o.items)
  {
    var elems := seq(|o.items|, k requires 0 <= k < |o.items| => EncodeItem(o.items[k]));
    assert ItemsSource(EncodeOrder(o)) == Ok(elems);
    forall k | 0 <= k < |o.items| ensures NormalizeItem(elems[k]) == Ok(o.items[k]) {
      NormalizeEncodedItem(o.items[k]);
    }
    EncodedItemsNormalize(o.items, elems);
  }

  lemma {:induction false} EncodedOrderFields(o: Order, now: string)
    requires forall k :: 0 <= k < |o.items| ==> Complete(o.items[k])
    ensures var raw := EncodeOrder(o);
      Prop(raw, Id) == Some(JStr(o.id)) &&
      Coalesce(raw, [UserIdSnake, UserId]) == Some(JStr(o.userId)) &&
      TextOr(raw, [UserNameSnake, UserName], "") == o.userName &&
      TextOr(raw, [UserPhoneSnake, UserPhone], "") == o.userPhone &&
      NumberOr0(raw, [TotalAmountSnake, TotalAmount]) == Some(o.totalAmount) &&
      TextOr(raw, [Status], "pending") == o.status &&
      TextOr(raw, [Date, CreatedAt, UpdatedAt], now) == o.date
  {
    EncodedOrderUser(o);
    EncodedOrderRest(o, now);
  }

  lemma {:induction false} EncodedOrderUser(o: Order)
    requires forall k :: 0 <= k < |o.items| ==> Complete(o.items[k])
    ensures var raw := EncodeOrder(o);
      Coalesce(raw, [UserIdSnake, UserId]) == Some(JStr(o.userId)) &&
      TextOr(raw, [UserNameSnake, UserName], "") == o.userName &&
      TextOr(raw, [UserPhoneSnake, UserPhone], "") == o.userPhone
  {
    var raw := EncodeOrder(o);
    assert Coalesce(raw, [UserIdSnake, UserId]) == Coalesce(raw, [UserId]) by {
      assert Prop(raw, UserIdSnake) == None;
      assert [UserIdSnake, UserId][1..] == [UserId];
    }
    assert Coalesce(raw, [UserNameSnake, UserName]) == Coalesce(raw, [UserName]) by {
      assert Prop(raw, UserNameSnake) == None;
      assert [UserNameSnake, UserName][1..] == [UserName];
    }
    assert Coalesce(raw, [UserPhoneSnake, UserPhone]) == Coalesce(raw, [UserPhone]) by {
      assert Prop(raw, UserPhoneSnake) == None;
      assert [UserPhoneSnake, UserPhone][1..] == [UserPhone];
    }
  }

  lemma {:induction false} EncodedOrderRest(o: Order, now: string)
    requires forall k :: 0 <= k < |o.items| ==> Complete(o.items[k])
    ensures var raw := EncodeOrder(o);
      Prop(raw, Id) == Some(JStr(o.id)) &&
      NumberOr0(raw, [TotalAmountSnake, TotalAmount]) == Some(o.totalAmount) &&
      TextOr(raw, [Status], "pending") == o.status &&
      TextOr(raw, [Date, CreatedAt, UpdatedAt], now) == o.date
  {
    var raw := EncodeOrder(o);
    assert Coalesce(raw, [TotalAmountSnake, TotalAmount]) == Coalesce(raw, [TotalAmount]) by {
      assert Prop(raw, TotalAmountSnake) == None;
      assert [TotalAmountSnake, TotalAmount][1..] == [TotalAmount];
    }
  }

  lemma {:induction false} EncodedItemsNormalize(items: seq<CartItem>, elems: seq<Json>)
    requires |elems| == |items|
    requires forall k :: 0 <= k < |items| ==> NormalizeItem(elems[k]) == Ok(items[k])
    ensures NormalizeItems(elems) == Ok(items)
  {
    if items != [] {
      EncodedItemsNormalize(items[1..], elems[1..]);
      assert NormalizeItem(elems[0]) == Ok(items[0]);
      assert [items[0]] + items[1..] == items;
    }
  }

  // ---------------------------------------------------------------------
  // orderService.create
  // ---------------------------------------------------------------------

  /** The body `orderService.create` posts: snake_case fields, with an empty status sent as 'pending'. */
  datatype CreatePayload = CreatePayload(
    userId: string, userName: string, userPhone: string,
    items: seq<CartItem>, totalAmount: int, status: string)

  function CreatePayloadOf(o: Order): (r: CreatePayload)
    ensures r.status == (if o.status == "" then "pending" else o.status)
    ensures r.userId == o.userId && r.userName == o.userName && r.userPhone == o.userPhone
    ensures r.items == o.items && r.totalAmount == o.totalAmount
  {
    CreatePayload(o.userId, o.userName, o.userPhone, o.items, o.totalAmount,
      if o.status == "" then "pending" else o.status)
  }

  /** `{...order, id: data.order_id?.toString?.() || order.id}`. */
  function CreatedOrder(o: Order, orderId: Option<Json>): (r: Order)
    ensures r == o.(id := r.id)
    ensures r.id == o.id <==> Nullish(orderId) || ToStr(orderId.value) == "" || ToStr(orderId.value) == o.id
  {
    var sent := if Nullish(orderId) then "" else ToStr(orderId.value);
    o.(id := if sent == "" then o.id else sent)
  }

  /** A numeric order id from the back end becomes the order's id in decimal, whatever the client's id was. */
  lemma {:induction false} CreatedOrderTakesServerId(o: Order, orderId: nat)
    ensures CreatedOrder(o, Some(JNum(orderId))).id == NatToString(orderId)
    ensures ToNumber(JStr(CreatedOrder(o, Some(JNum(orderId))).id)) == Some(orderId)
  {
    assert ToStr(JNum(orderId)) == NatToString(orderId);
    assert CreatedOrder(o, Some(JNum(orderId))).id == NatToString(orderId);
    NumberOfDecimal(orderId);
  }

  // ---------------------------------------------------------------------
  // favoriteService and shippingService
  // ---------------------------------------------------------------------

  datatype FavoriteCall = RemoveFavorite | AddFavorite

  /** `toggleFavorite`: remove when the product is shown as a favourite, add otherwise. */
  function ToggleCall(isFavorited: bool): (r: FavoriteCall)
    ensures r == RemoveFavorite <==> isFavorited
  {
    if isFavorited then RemoveFavorite else AddFavorite
  }

  /** The user's favourite pairs after the back end serves the call (an insert or a delete of the pair). */
  function ServedCall(call: FavoriteCall, pairs: set<(string, int)>, pair: (string, int)): set<(string, int)> {
    match call
    case AddFavorite => pairs + {pair}
    case RemoveFavorite => pairs - {pair}
  }

  /** When the client's flag agrees with the server, a toggle flips the pair's membership and nothing else. */
  lemma {:induction false} ToggleFlips(isFavorited: bool, pairs: set<(string, int)>, pair: (string, int))
    requires isFavorited <==> pair in pairs
    ensures var after := ServedCall(ToggleCall(isFavorited), pairs, pair);
      (pair in after <==> !isFavorited) && after - {pair} == pairs - {pair}
  {
  }

  /** `(data.favorites || []).map(id => String(id))`; a truthy non-array has no `map` and throws. */
  function FavoriteIdStrings(favorites: Option<Json>): (r: Normal<seq<string>>)
    ensures (favorites.Some? && favorites.value.JArr?) ==>
      r.Ok? && |r.value| == |favorites.value.elems| &&
      forall k :: 0 <= k < |r.value| ==> r.value[k] == ToStr(favorites.value.elems[k])
    ensures (favorites.None? || !Truthy(favorites.value)) ==> r == Ok([])
    ensures r == Throws <==> favorites.Some? && Truthy(favorites.value) && !favorites.value.JArr?
  {
    if favorites.Some? && favorites.value.JArr? then
      var a := favorites.value.elems;
      Ok(seq(|a|, k requires 0 <= k < |a| => ToStr(a[k])))
    else if favorites.Some? && Truthy(favorites.value) then Throws
    else Ok([])
  }

  /** Distinct numeric product ids, as the back end lists them, stay distinct as strings. */
  lemma {:induction false} FavoriteIdsStayDistinct(ids: seq<nat>)
    requires forall i, j :: 0 <= i < j < |ids| ==> ids[i] != ids[j]
    ensures var r := FavoriteIdStrings(Some(JArr(seq(|ids|, k requires 0 <= k < |ids| => JNum(ids[k])))));
      r.Ok? && |r.value| == |ids| &&
      (forall k :: 0 <= k < |ids| ==> r.value[k] == NatToString(ids[k])) &&
      forall i, j :: 0 <= i < j < |ids| ==> r.value[i] != r.value[j]
  {
    var r := FavoriteIdStrings(Some(JArr(seq(|ids|, k requires 0 <= k < |ids| => JNum(ids[k])))));
    forall i, j | 0 <= i < j < |ids| ensures r.value[i] != r.value[j] {
      if r.value[i] == r.value[j] {
        NatToStringInjective(ids[i], ids[j]);
      }
    }
  }

  /** `data.shippingCost || 0`: the quoted cost unless it is falsy. */
  function ShippingCostShown(shippingCost: Option<Json>): (r: Json)
    ensures shippingCost.Some? && Truthy(shippingCost.value) ==> r == shippingCost.value
    ensures !(shippingCost.Some? && Truthy(shippingCost.value)) ==> r == JNum(0)
  {
    if shippingCost.Some? && Truthy(shippingCost.value) then shippingCost.value else JNum(0)
  }

  /** A numeric quote is shown as that number; a missing one as 0. */
  lemma {:induction false} ShippingCostNumeric(cost: Option<int>)
    ensures ToNumber(ShippingCostShown(if cost.Some? then Some(JNum(cost.value)) else None)) == Some(cost.GetOr(0))
  {
  }

  // ---------------------------------------------------------------------
  // authService.register
  // ---------------------------------------------------------------------

  datatype RegisterPayload = RegisterPayload(username: string, password: string, name: string, phone: string, address: string)

  /** The register body: an omitted name is 'New User', an omitted phone or address is ''. */
  function RegisterPayloadOf(username: string, password: string, name: Option<string>, phone: Option<string>, address: Option<string>)
    : (r: RegisterPayload)
    ensures r.name == (if name.Some? then name.value else "New User")
    ensures r.phone == phone.GetOr("") && r.address == address.GetOr("")
    ensures r.username == username && r.password == password
  {
    RegisterPayload(username, password, name.GetOr("New User"), phone.GetOr(""), address.GetOr(""))
  }
}
