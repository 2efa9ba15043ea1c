/**
 * The product lists the pages show: the storefront's category and name
 * filter with its bestseller ranking, the older storefront's filter, and
 * the admin page's product filter, product form, order-status buttons and
 * new-order counter.
 */
module Catalogue {
  import opened Wrappers
  import opened Text
  import opened Seqs
  import opened Sorting
  import opened Domain

  /** The category selected by the `cat` query parameter; missing or empty selects 'All'. */
  function ActiveCategory(cat: Option<string>): (r: string)
    ensures r != ""
    ensures cat.Some? && cat.value != "" ==> r == cat.value
    ensures cat.None? || cat.value == "" ==> r == "All"
  {
    if cat.Some? && cat.value != "" then cat.value else "All"
  }

  /** A missing sales count counts as zero. */
  function Sales(p: Product): int {
    p.salesCount.GetOr(0)
  }

  // ---------------------------------------------------------------------
  // The storefront (frontend/pages/Shop.tsx)
  // ---------------------------------------------------------------------

  /** The category test: 'All' takes everything, 'Bestsellers' takes products that sold, others match the category. */
  predicate InCategory(active: string, p: Product) {
    if active == "All" then true
    else if active == "Bestsellers" then Sales(p) > 0
    else p.category == active
  }

  function ShopMatches(active: string, term: string): Product -> bool {
    (p: Product) => InCategory(active, p) && Mentions(p.name, term)
  }

  /** `a` may be listed before `b` among bestsellers. */
  predicate SalesFirst(a: Product, b: Product) {
    Sales(a) >= Sales(b)
  }

  function SalesIs(v: int): Product -> bool {
    (p: Product) => Sales(p) == v
  }

  /** The products shown: filtered, and ranked by sales when 'Bestsellers' is active. */
  function ShopListing(products: seq<Product>, active: string, term: string): seq<Product> {
    var shown := Filter(products, ShopMatches(active, term));
    if active == "Bestsellers" then SortBy(shown, SalesFirst) else shown
  }

  lemma {:induction false} SalesFirstIsPreorder()
    ensures Total(SalesFirst) && Transitive(SalesFirst)
  {
  }

  /** A product is listed iff it passes the category test and its name mentions the term. */
  lemma {:induction false} ShopListingSelects(products: seq<Product>, active: string, term: string)
    ensures var r := ShopListing(products, active, term);
      |r| <= |products| &&
      forall p :: p in r <==> p in products && InCategory(active, p) && Mentions(p.name, term)
  {
    var shown := Filter(products, ShopMatches(active, term));
    var r := ShopListing(products, active, term);
    assert multiset(r) == multiset(shown);
    forall p
      ensures p in r <==> p in shown
    {
      assert p in r <==> p in multiset(r);
      assert p in shown <==> p in multiset(shown);
    }
  }

  /** Outside 'Bestsellers' the listing keeps the products' own order. */
  lemma {:induction false} ShopListingKeepsOrder(products: seq<Product>, active: string, term: string)
    requires active != "Bestsellers"
    ensures IsSubsequence(ShopListing(products, active, term), products)
  {
    FilterIsSubsequence(products, ShopMatches(active, term));
  }

  /** Every product of a ranked list sold no more than its first. */
  lemma {:induction false} RankedBelowFirst(t: seq<Product>, k: int)
    requires Sorted(t, SalesFirst) && 0 <= k < |t|
    ensures Sales(t[k]) <= Sales(t[0])
  {
    if k > 0 {
      assert SalesFirst(t[0], t[k]);
    }
  }

  /** A product that outsold the head of a ranked list goes first and is the only one of its sales figure. */
  lemma {:induction false} InsertAtFrontKeepsTies(x: Product, t: seq<Product>, v: int)
    requires Sorted(t, SalesFirst) && t != [] && Sales(t[0]) < Sales(x)
    ensures Filter([x] + t, SalesIs(v)) == Filter(t, SalesIs(v)) + Filter([x], SalesIs(v))
  {
    FilterAppend([x], t, SalesIs(v));
    if Sales(x) == v {
      var tied := Filter(t, SalesIs(v));
      if tied != [] {
        assert tied[0] in t;
        var k :| 0 <= k < |t| && t[k] == tied[0];
        RankedBelowFirst(t, k);
      }
    } else {
      assert Filter([x], SalesIs(v)) == [];
    }
  }

  lemma {:induction false} ConsKeepsTies(h: Product, tail: seq<Product>, rest: seq<Product>, extra: seq<Product>, v: int)
    requires Filter(rest, SalesIs(v)) == Filter(tail, SalesIs(v)) + extra
    ensures Filter([h] + rest, SalesIs(v)) == Filter([h] + tail, SalesIs(v)) + extra
  {
    FilterAppend([h], rest, SalesIs(v));
    FilterAppend([h], tail, SalesIs(v));
  }

  /** Inserting into a ranked list keeps the order among equal sales and puts the new product last among them. */
  lemma {:induction false} InsertKeepsTies(x: Product, t: seq<Product>, v: int)
    requires Sorted(t, SalesFirst)
    ensures Filter(Insert(x, t, SalesFirst), SalesIs(v)) == Filter(t, SalesIs(v)) + Filter([x], SalesIs(v))
  {
    if t == [] {
      assert Insert(x, t, SalesFirst) == [x];
    } else if SalesFirst(t[0], x) {
      var rest := Insert(x, t[1..], SalesFirst);
      InsertKeepsTies(x, t[1..], v);
      assert Insert(x, t, SalesFirst) == [t[0]] + rest;
      ConsKeepsTies(t[0], t[1..], rest, Filter([x], SalesIs(v)), v);
      assert [t[0]] + t[1..] == t;
    } else {
      assert Insert(x, t, SalesFirst) == [x] + t;
      InsertAtFrontKeepsTies(x, t, v);
    }
  }

  /** The ranking is stable: products with equal sales keep their relative order. */
  lemma {:induction false} SortKeepsTies(s: seq<Product>, v: int)
    ensures Filter(SortBy(s, SalesFirst), SalesIs(v)) == Filter(s, SalesIs(v))
  {
    if s != [] {
      var init, last := s[..|s| - 1], s[|s| - 1];
      assert s == init + [last];
      FilterAppend(init, [last], SalesIs(v));
      SortKeepsTies(init, v);
      SalesFirstIsPreorder();
      SortBySorted(init, SalesFirst);
      InsertKeepsTies(last, SortBy(init, SalesFirst), v);
    }
  }

  /**
   * Under 'Bestsellers' every listed product has sold, the list runs from
   * most to fewest sales, and products with equal sales keep the order
   * the filter gave them.
   */
  lemma {:induction false} BestsellersRanked(products: seq<Product>, term: string)
    ensures var r := ShopListing(products, "Bestsellers", term);
      Sorted(r, SalesFirst) &&
      (forall k :: 0 <= k < |r| ==> Sales(r[k]) > 0) &&
      forall v :: Filter(r, SalesIs(v)) == Filter(Filter(products, ShopMatches("Bestsellers", term)), SalesIs(v))
  {
    var r := ShopListing(products, "Bestsellers", term);
    SalesFirstIsPreorder();
    SortBySorted(Filter(products, ShopMatches("Bestsellers", term)), SalesFirst);
    ShopListingSelects(products, "Bestsellers", term);
    forall k | 0 <= k < |r|
      ensures Sales(r[k]) > 0
    {
      assert r[k] in r;
    }
    forall v
      ensures Filter(r, SalesIs(v)) == Filter(Filter(products, ShopMatches("Bestsellers", term)), SalesIs(v))
    {
      SortKeepsTies(Filter(products, ShopMatches("Bestsellers", term)), v);
    }
  }

  /** 'All' with an empty search shows every product in its own order. */
  lemma {:induction false} EverythingByDefault(products: seq<Product>)
    ensures ShopListing(products, ActiveCategory(None), "") == products
  {
    forall k | 0 <= k < |products|
      ensures ShopMatches("All", "")(products[k])
    {
      EmptyTermMentioned(products[k].name);
    }
    FilterAll(products, ShopMatches("All", ""));
  }

  // ---------------------------------------------------------------------
  // The older storefront (pages/Shop.tsx)
  // ---------------------------------------------------------------------

  function LegacyMatches(active: string, term: string): Product -> bool {
    (p: Product) => (active == "All" || p.category == active) && Mentions(p.name, term)
  }

  function LegacyShopListing(products: seq<Product>, active: string, term: string): (r: seq<Product>)
    ensures forall p :: p in r <==> p in products && (active == "All" || p.category == active) && Mentions(p.name, term)
  {
    Filter(products, LegacyMatches(active, term))
  }

  /** The older listing is an order-preserving selection of the products. */
  lemma {:induction false} LegacyListingKeepsOrder(products: seq<Product>, active: string, term: string)
    ensures IsSubsequence(LegacyShopListing(products, active, term), products)
  {
    FilterIsSubsequence(products, LegacyMatches(active, term));
  }

  /** The two storefronts list the same products except under 'Bestsellers'. */
  lemma {:induction false} LegacyAgreesOutsideBestsellers(products: seq<Product>, active: string, term: string)
    requires active != "Bestsellers"
    ensures LegacyShopListing(products, active, term) == ShopListing(products, active, term)
  {
    FilterCongruent(products, LegacyMatches(active, term), ShopMatches(active, term));
  }

  // ---------------------------------------------------------------------
  // The admin page's product manager (pages/Admin.tsx)
  // ---------------------------------------------------------------------

  /** Name or description mentions the term, and the category filter is 'all' or the product's category. */
  function AdminMatches(term: string, filter: string): Product -> bool {
    (p: Product) =>
      (Mentions(p.name, term) || (p.description.Some? && Mentions(p.description.value, term))) &&
      (filter == "all" || p.category == filter)
  }

  function AdminListing(products: seq<Product>, term: string, filter: string): (r: seq<Product>)
    ensures |r| <= |products|
    ensures forall p :: p in r <==> (p in products &&
      (Mentions(p.name, term) || (p.description.Some? && Mentions(p.description.value, term))) &&
      (filter == "all" || p.category == filter))
  {
    Filter(products, AdminMatches(term, filter))
  }

  /** The admin list keeps the products' order, and with no search and 'all' it is the whole catalogue. */
  lemma {:induction false} AdminListingOrder(products: seq<Product>, term: string, filter: string)
    ensures IsSubsequence(AdminListing(products, term, filter), products)
    ensures term == "" && filter == "all" ==> AdminListing(products, term, filter) == products
  {
    FilterIsSubsequence(products, AdminMatches(term, filter));
    if term == "" && filter == "all" {
      forall k | 0 <= k < |products|
        ensures AdminMatches(term, filter)(products[k])
      {
        EmptyTermMentioned(products[k].name);
      }
      FilterAll(products, AdminMatches(term, filter));
    }
  }

  /**
   * The product form. Numbers typed into it go through `Number`, so
   * `price` is None when the input is not a number; `stock` is None only
   * when the field was never set.
   */
  datatype ProductForm = ProductForm(
    name: string,
    scientificName: Option<string>,
    category: string,
    price: Option<int>,
    offerPrice: Option<int>,
    stock: Option<int>,
    origin: string,
    description: Option<string>,
    image: string,
    isNew: Option<bool>)

  /** The form after a reset. */
  const EmptyForm := ProductForm("", Some(""), "Freshwater", Some(0), None, Some(0), "", Some(""), "", Some(false))

  /** `handleEdit`: the form filled from a product. */
  function FormOf(p: Product): (f: ProductForm)
    ensures f.name == p.name && f.price == Some(p.price) && f.stock == Some(p.stock)
    ensures f.scientificName == Some(p.scientificName.GetOr(""))
    ensures f.isNew == Some(p.isNew.GetOr(false))
  {
    ProductForm(p.name, Some(p.scientificName.GetOr("")), p.category, Some(p.price), p.offerPrice,
      Some(p.stock), p.origin, p.description, p.image, Some(p.isNew.GetOr(false)))
  }

  datatype Submission = MissingFields | Update(product: Product) | Add(form: ProductForm)

  /** `handleSubmit`: the guard, then an update merging the form over the edited product or an addition. */
  function Submit(editing: Option<Product>, form: ProductForm): (r: Submission)
    ensures r.MissingFields? <==>
      form.name == "" || form.price.None? || form.price.value == 0 || form.stock.None?
    ensures r.Update? <==> !r.MissingFields? && editing.Some?
    ensures r.Add? ==> r.form == form
    ensures r.Update? ==> (
      r.product.id == editing.value.id && r.product.salesCount == editing.value.salesCount &&
      r.product.name == form.name && r.product.scientificName == form.scientificName &&
      r.product.category == form.category && r.product.price == form.price.value &&
      r.product.offerPrice == form.offerPrice && r.product.stock == form.stock.value &&
      r.product.origin == form.origin && r.product.description == form.description &&
      r.product.image == form.image && r.product.isNew == form.isNew)
  {
    if form.name == "" || form.price.None? || form.price.value == 0 || form.stock.None? then MissingFields
    else if editing.Some? then
      Update(editing.value.(name := form.name, scientificName := form.scientificName,
        category := form.category, price := form.price.value, offerPrice := form.offerPrice,
        stock := form.stock.value, origin := form.origin, description := form.description,
        image := form.image, isNew := form.isNew))
    else Add(form)
  }

  /** The reset form cannot be submitted: its name is empty and its price is 0. */
  lemma {:induction false} EmptyFormRejected(editing: Option<Product>)
    ensures Submit(editing, EmptyForm) == MissingFields
  {
  }

  /** Saving an edit without changing anything gives back the same product. */
  lemma {:induction false} UnchangedEditIsIdentity(p: Product)
    requires p.name != "" && p.price != 0
    requires p.scientificName.Some? && p.isNew.Some?
    ensures Submit(Some(p), FormOf(p)) == Update(p)
  {
  }

  /** The one status change the admin is offered for an order in the given status. */
  function NextStatus(status: string): (r: Option<string>)
    ensures status == "pending" <==> r == Some("paid")
    ensures status == "paid" <==> r == Some("delivered")
    ensures r.None? <==> status != "pending" && status != "paid"
  {
    if status == "pending" then Some("paid")
    else if status == "paid" then Some("delivered")
    else None
  }

  function Stage(status: string): int {
    if status == "pending" then 0 else if status == "paid" then 1 else 2
  }

  /** Every offered change moves an order one stage forward, so an order can be advanced at most twice. */
  lemma {:induction false} StatusOnlyAdvances(status: string)
    ensures NextStatus(status).Some? ==> Stage(NextStatus(status).value) == Stage(status) + 1
    ensures NextStatus(status).Some? && NextStatus(NextStatus(status).value).Some? ==>
      NextStatus(NextStatus(NextStatus(status).value).value).None?
  {
  }

  /** The order manager's banner of orders that arrived since the previous load. */
  class OrderCounter {
    /** The number of orders seen at the previous load. */
    var lastCount: nat
    /** The number the banner shows; 0 hides it. */
    var newOrders: nat

    constructor()
      ensures lastCount == 0 && newOrders == 0
    {
      lastCount := 0;
      newOrders := 0;
    }

    /** `loadOrders`: the growth since the previous load replaces the banner's number, and the count is always recorded. */
    method Load(count: nat)
      modifies this
      ensures lastCount == count
      ensures count > old(lastCount) ==> newOrders == count - old(lastCount)
      ensures count <= old(lastCount) ==> newOrders == old(newOrders)
    {
      if count > lastCount {
        newOrders := count - lastCount;
      }
      lastCount := count;
    }

    /** The banner's dismiss button. */
    method Dismiss()
      modifies this
      ensures newOrders == 0 && lastCount == old(lastCount)
    {
      newOrders := 0;
    }
  }

  /** The first load reports every order as new, and a reload with no new orders keeps the banner. */
  method FirstLoadReportsAll(count: nat) returns (shown: nat, again: nat)
    ensures count > 0 ==> shown == count
    ensures again == shown
  {
    var counter := new OrderCounter();
    counter.Load(count);
    shown := counter.newOrders;
    counter.Load(count);
    again := counter.newOrders;
  }
}
