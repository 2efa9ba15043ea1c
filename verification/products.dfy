/**
 * The product endpoint: listing (all, by category, or bestsellers), the
 * transformation of a stored row into the shape the front end reads,
 * creation, whitelist-driven partial update and deletion.
 */
module Products {
  import opened Wrappers
  import opened Text
  import opened Seqs
  import opened Sorting

  /** A column value as PDO returns it. */
  datatype Value = Null | Text(s: string) | Number(n: int)

  /** A row of `products`: its id, its creation time and its other columns by name. */
  datatype ProductRow = ProductRow(id: int, createdAt: int, columns: map<string, Value>)

  function Column(row: ProductRow, name: string): Value {
    if name in row.columns then row.columns[name] else Null
  }

  /** PHP truthiness of a column value. */
  predicate Truthy(v: Value) {
    match v
    case Null => false
    case Text(s) => !PhpFalsy(s)
    case Number(n) => n != 0
  }

  /** The value of the leading run of decimal digits. */
  function LeadingDigits(s: string): (r: string)
    ensures r <= s
    ensures forall k :: 0 <= k < |r| ==> IsDigit(r[k])
    ensures |r| < |s| ==> !IsDigit(s[|r|])
  {
    if s == [] || !IsDigit(s[0]) then []
    else [s[0]] + LeadingDigits(s[1..])
  }

  /** PHP's `(int)` cast of a column value (digits only; see the README). */
  function AsInt(v: Value): int {
    match v
    case Null => 0
    case Text(s) => DigitsValue(LeadingDigits(s))
    case Number(n) => n
  }

  /** PHP's string conversion of a column value. */
  function AsText(v: Value): string {
    match v
    case Null => ""
    case Text(s) => s
    case Number(n) => IntToString(n)
  }

  /** `column ?? default` for a string column. */
  function TextOr(row: ProductRow, name: string, default: string): (r: string)
    ensures Column(row, name).Null? ==> r == default
    ensures Column(row, name).Text? ==> r == Column(row, name).s
  {
    if Column(row, name).Null? then default else AsText(Column(row, name))
  }

  /** An optional integer column: absent or null gives none. */
  function OptionalInt(row: ProductRow, name: string): (r: Option<int>)
    ensures r.None? <==> Column(row, name).Null?
  {
    if Column(row, name).Null? then None else Some(AsInt(Column(row, name)))
  }

  /** A product in the shape the front end reads. */
  datatype ProductView = ProductView(
    id: string,
    name: string,
    scientificName: Option<string>,
    category: string,
    price: int,
    offerPrice: Option<int>,
    stock: int,
    origin: string,
    description: string,
    image: string,
    isNew: bool,
    averageRating: Option<int>,
    reviewCount: int,
    salesCount: int)

  /**
   * The row transform: the id becomes a string, a falsy offer price becomes
   * null, a missing average rating stays null, and missing review and sales
   * counts become 0.
   */
  function Transform(row: ProductRow): (v: ProductView)
    ensures row.id >= 0 ==> (forall k :: 0 <= k < |v.id| ==> IsDigit(v.id[k])) && DigitsValue(v.id) == row.id
    ensures v.offerPrice.None? <==> !Truthy(Column(row, "offer_price"))
    ensures v.averageRating.None? <==> Column(row, "average_rating").Null?
    ensures Column(row, "review_count").Null? ==> v.reviewCount == 0
    ensures Column(row, "sales_count").Null? ==> v.salesCount == 0
    ensures v.isNew <==> Truthy(Column(row, "is_new"))
    ensures v.scientificName.None? <==> Column(row, "scientific_name").Null?
  {
    assert row.id >= 0 ==> DigitsValue(NatToString(row.id)) == row.id by {
      if row.id >= 0 { NatToStringRoundTrip(row.id); }
    }
    ProductView(
      IntToString(row.id),
      AsText(Column(row, "name")),
      if Column(row, "scientific_name").Null? then None else Some(AsText(Column(row, "scientific_name"))),
      AsText(Column(row, "category")),
      AsInt(Column(row, "price")),
      if Truthy(Column(row, "offer_price")) then Some(AsInt(Column(row, "offer_price"))) else None,
      AsInt(Column(row, "stock")),
      TextOr(row, "origin", ""),
      TextOr(row, "description", ""),
      TextOr(row, "image", ""),
      Truthy(Column(row, "is_new")),
      OptionalInt(row, "average_rating"),
      OptionalInt(row, "review_count").GetOr(0),
      OptionalInt(row, "sales_count").GetOr(0))
  }

  /** `ORDER BY created_at DESC`. */
  predicate NewerFirst(a: ProductRow, b: ProductRow) { a.createdAt >= b.createdAt }

  /** `ORDER BY sales_count DESC, created_at DESC`. */
  predicate BestsellerFirst(a: ProductRow, b: ProductRow) {
    var sa, sb := AsInt(Column(a, "sales_count")), AsInt(Column(b, "sales_count"));
    sa > sb || (sa == sb && a.createdAt >= b.createdAt)
  }

  predicate HasSales(row: ProductRow) { AsInt(Column(row, "sales_count")) > 0 }

  predicate InCategory(category: string, row: ProductRow) { AsText(Column(row, "category")) == category }

  lemma {:induction false} RankingsArePreorders()
    ensures Total(NewerFirst) && Transitive(NewerFirst)
    ensures Total(BestsellerFirst) && Transitive(BestsellerFirst)
  {
  }

  /** The first `n` elements, or all when there are fewer. */
  function Take<T>(s: seq<T>, n: nat): (r: seq<T>)
    ensures |r| == if |s| < n then |s| else n
    ensures r <= s
  {
    if |s| <= n then s else s[..n]
  }

  datatype ProductQuery = ProductQuery(category: Option<string>, bestsellers: Option<string>, limit: Option<int>)

  /** The row limit of the bestseller query: the given limit, or 10 when none (or 0) is given. */
  function BestsellerLimit(limit: Option<int>): (n: int)
    ensures limit.None? || limit.value == 0 ==> n == 10
    ensures limit.Some? && limit.value != 0 ==> n == limit.value
  {
    if limit.None? || limit.value == 0 then 10 else limit.value
  }

  /**
   * The rows a GET selects, before the transform; none when the bestseller
   * query is given a negative limit, which MySQL rejects.
   */
  function Selection(rows: seq<ProductRow>, q: ProductQuery): Option<seq<ProductRow>> {
    if q.bestsellers == Some("1") then
      var n := BestsellerLimit(q.limit);
      if n < 0 then None
      else Some(Take(SortBy(Filter(rows, HasSales), BestsellerFirst), n))
    else if q.category.Some? && !PhpFalsy(q.category.value) then
      Some(SortBy(Filter(rows, r => InCategory(q.category.value, r)), NewerFirst))
    else Some(SortBy(rows, NewerFirst))
  }

  /**
   * The bestseller query lists as many products with sales as its limit
   * allows (all of them when there are fewer), each drawn from the table,
   * the best-selling first.
   */
  lemma {:induction false} BestsellerSelection(rows: seq<ProductRow>, q: ProductQuery)
    requires q.bestsellers == Some("1") && BestsellerLimit(q.limit) >= 0
    ensures var s := Selection(rows, q).value;
      var withSales := Filter(rows, HasSales);
      |s| == (if |withSales| < BestsellerLimit(q.limit) then |withSales| else BestsellerLimit(q.limit)) &&
      (forall k :: 0 <= k < |s| ==> HasSales(s[k]) && s[k] in rows) &&
      Sorted(s, BestsellerFirst)
  {
    var sales := Filter(rows, HasSales);
    var sorted := SortBy(sales, BestsellerFirst);
    RankingsArePreorders();
    SortBySorted(sales, BestsellerFirst);
    var s := Selection(rows, q).value;
    forall k | 0 <= k < |s| ensures HasSales(s[k]) && s[k] in rows {
      assert s[k] == sorted[k];
      assert sorted[k] in multiset(sales);
    }
  }

  /**
   * No product with sales that the bestseller query leaves out ranks above
   * one it lists: every copy it omits comes after every row it keeps.
   */
  lemma {:induction false} BestsellersAreTheTop(rows: seq<ProductRow>, q: ProductQuery, x: ProductRow, k: int)
    requires q.bestsellers == Some("1") && BestsellerLimit(q.limit) >= 0
    requires HasSales(x) && multiset(Selection(rows, q).value)[x] < multiset(rows)[x]
    requires 0 <= k < |Selection(rows, q).value|
    ensures BestsellerFirst(Selection(rows, q).value[k], x)
  {
    var sales := Filter(rows, HasSales);
    var sorted := SortBy(sales, BestsellerFirst);
    var s := Selection(rows, q).value;
    RankingsArePreorders();
    SortBySorted(sales, BestsellerFirst);
    FilterMultiset(rows, HasSales);
    assert s == sorted[..|s|];
    OmittedComesAfter(sorted, |s|, x, k, BestsellerFirst);
  }

  /**
   * With a category and no bestseller flag, the products of that category
   * are listed, each copy once, newest first.
   */
  lemma {:induction false} CategorySelection(rows: seq<ProductRow>, q: ProductQuery)
    requires q.bestsellers != Some("1") && q.category.Some? && !PhpFalsy(q.category.value)
    ensures var s := Selection(rows, q).value;
      (forall x :: multiset(s)[x] == if InCategory(q.category.value, x) then multiset(rows)[x] else 0) &&
      Sorted(s, NewerFirst)
  {
    var c := q.category.value;
    var inCategory := Filter(rows, r => InCategory(c, r));
    RankingsArePreorders();
    SortBySorted(inCategory, NewerFirst);
    FilterMultiset(rows, r => InCategory(c, r));
  }

  /** Without the bestseller flag or a category, every product is listed, each copy once, newest first. */
  lemma {:induction false} PlainSelection(rows: seq<ProductRow>, q: ProductQuery)
    requires q.bestsellers != Some("1") && (q.category.None? || PhpFalsy(q.category.value))
    ensures multiset(Selection(rows, q).value) == multiset(rows) && Sorted(Selection(rows, q).value, NewerFirst)
  {
    RankingsArePreorders();
    SortBySorted(rows, NewerFirst);
  }

  /** A key that is set: present and not null. */
  predicate IsSet(data: map<string, Value>, field: string) { field in data && !data[field].Null? }

  const RequiredFields: seq<string> := ["name", "category", "price", "stock"]

  const AllowedFields: seq<string> :=
    ["name", "scientific_name", "category", "price", "offer_price", "stock", "origin", "description", "image", "is_new"]

  /** The first of `fields` that is not set. */
  function FirstUnset(data: map<string, Value>, fields: seq<string>): Option<string> {
    match FirstMatch(fields, Unset(data))
    case None => None
    case Some(k) => Some(fields[k])
  }

  function Unset(data: map<string, Value>): string -> bool {
    (f: string) => !IsSet(data, f)
  }

  /** The columns a POST inserts; `is_new` defaults to 0 and the others to null. */
  function InsertedColumns(data: map<string, Value>): (cols: map<string, Value>)
    ensures cols.Keys == set f | f in AllowedFields
    ensures forall f :: f in AllowedFields && f != "is_new" ==> cols[f] == (if f in data then data[f] else Null)
    ensures cols["is_new"] == (if IsSet(data, "is_new") then data["is_new"] else Number(0))
  {
    map f | f in AllowedFields ::
      if f == "is_new" then (if IsSet(data, "is_new") then data["is_new"] else Number(0))
      else if f in data then data[f] else Null
  }

  /** The columns a PUT sets: the allowed fields present in the body, in allowed-list order. */
  function SetList(data: map<string, Value>): (fields: seq<string>)
    ensures forall f :: f in fields <==> f in AllowedFields && IsSet(data, f)
  {
    Filter(AllowedFields, f => IsSet(data, f))
  }

  /** The row with `updates` written over its columns. */
  function Updated(row: ProductRow, fields: seq<string>, data: map<string, Value>): (r: ProductRow)
    requires forall f :: f in fields ==> f in data
    ensures r.id == row.id && r.createdAt == row.createdAt
    ensures forall f :: f in fields ==> Column(r, f) == data[f]
    ensures forall f :: f !in fields ==> Column(r, f) == Column(row, f)
  {
    row.(columns := row.columns + map f | f in fields :: data[f])
  }

  /** Whether writing the fields changes the row (MySQL counts only changed rows). */
  predicate Changes(row: ProductRow, fields: seq<string>, data: map<string, Value>)
    requires forall f :: f in fields ==> f in data
  {
    exists k :: 0 <= k < |fields| && Column(row, fields[k]) != data[fields[k]]
  }

  /** Index of the row with id `id`; ids are unique, so at most one matches. */
  function FindProduct(rows: seq<ProductRow>, id: int): Option<nat> {
    FirstMatch(rows, (p: ProductRow) => p.id == id)
  }

  predicate HasId(id: int, row: ProductRow) { row.id == id }

  datatype GetResponse = QueryFailed | Listed(products: seq<ProductView>)

  datatype PostResponse = MissingField(field: string) | Created(id: int)

  datatype PutResponse = PutMissingId | NoFields | PutNotFound | Changed

  datatype DeleteResponse = DeleteMissingId | DeleteNotFound | Deleted

  /** The `foreach` over the fetched rows that replaces each by its transform. */
  method TransformAll(rows: seq<ProductRow>) returns (views: seq<ProductView>)
    ensures |views| == |rows|
    ensures forall k :: 0 <= k < |rows| ==> views[k] == Transform(rows[k])
  {
    views := [];
    var k := 0;
    while k < |rows|
      invariant 0 <= k <= |rows| && |views| == k
      invariant forall j :: 0 <= j < k ==> views[j] == Transform(rows[j])
    {
      views := views + [Transform(rows[k])];
      k := k + 1;
    }
  }

  /** The loop that builds the SET list and its parameters. */
  method BuildSetList(allowed: seq<string>, data: map<string, Value>) returns (fields: seq<string>, params: seq<Value>)
    ensures fields == Filter(allowed, f => IsSet(data, f))
    ensures |params| == |fields| && forall k :: 0 <= k < |fields| ==> fields[k] in data && params[k] == data[fields[k]]
  {
    fields, params := [], [];
    var k := 0;
    while k < |allowed|
      invariant 0 <= k <= |allowed|
      invariant fields == Filter(allowed[..k], f => IsSet(data, f))
      invariant |params| == |fields| && forall j :: 0 <= j < |fields| ==> fields[j] in data && params[j] == data[fields[j]]
    {
      var f := allowed[k];
      assert allowed[..k + 1] == allowed[..k] + [f];
      FilterAppend(allowed[..k], [f], g => IsSet(data, g));
      if IsSet(data, f) {
        fields, params := fields + [f], params + [data[f]];
      }
      k := k + 1;
    }
    assert allowed[..k] == allowed;
  }

  class ProductStore {
    var rows: seq<ProductRow>
    var nextId: int
    /** Time of the latest insert, in seconds. */
    var clock: int

    ghost predicate Valid()
      reads this
    {
      nextId >= 1 &&
      (forall i :: 0 <= i < |rows| ==> 1 <= rows[i].id < nextId) &&
      (forall i, j :: 0 <= i < j < |rows| ==> rows[i].id < rows[j].id)
    }

    constructor(now: int)
      ensures Valid() && rows == [] && clock == now
    {
      rows := [];
      nextId := 1;
      clock := now;
    }

    /** GET: the selected rows, transformed. */
    method Get(q: ProductQuery) returns (resp: GetResponse)
      requires Valid()
      ensures resp.QueryFailed? <==> Selection(rows, q).None?
      ensures resp.Listed? ==>
        |resp.products| == |Selection(rows, q).value| &&
        forall k :: 0 <= k < |resp.products| ==> resp.products[k] == Transform(Selection(rows, q).value[k])
    {
      var selected := Selection(rows, q);
      if selected.None? {
        return QueryFailed;
      }
      var views := TransformAll(selected.value);
      return Listed(views);
    }

    /** POST: the first required field that is not set is reported; otherwise a row is inserted. */
    method Post(data: map<string, Value>, now: int) returns (resp: PostResponse)
      requires Valid() && now >= clock
      modifies this
      ensures Valid()
      ensures resp.MissingField? <==> FirstUnset(data, RequiredFields).Some?
      ensures resp.MissingField? ==> resp.field == FirstUnset(data, RequiredFields).value && rows == old(rows)
      ensures resp.Created? ==>
        resp.id == old(nextId) && rows == old(rows) + [ProductRow(resp.id, now, InsertedColumns(data))]
    {
      var k := 0;
      while k < |RequiredFields|
        invariant 0 <= k <= |RequiredFields|
        invariant forall j :: 0 <= j < k ==> IsSet(data, RequiredFields[j])
      {
        if !IsSet(data, RequiredFields[k]) {
          FirstMatchAt(RequiredFields, Unset(data), k);
          return MissingField(RequiredFields[k]);
        }
        k := k + 1;
      }
      var id := nextId;
      rows := rows + [ProductRow(id, now, InsertedColumns(data))];
      nextId := nextId + 1;
      clock := now;
      return Created(id);
    }

    /** The UPDATE itself: only a row that exists and changes counts. */
    method ApplyUpdate(id: int, fields: seq<string>, data: map<string, Value>) returns (changed: bool)
      requires Valid() && forall f :: f in fields ==> f in data
      modifies this
      ensures Valid()
      ensures nextId == old(nextId) && clock == old(clock)
      ensures !changed <==> FindProduct(old(rows), id).None? || !Changes(old(rows)[FindProduct(old(rows), id).value], fields, data)
      ensures !changed ==> rows == old(rows)
      ensures changed ==>
        var i := FindProduct(old(rows), id).value;
        rows == old(rows)[i := Updated(old(rows)[i], fields, data)]
    {
      var found := FindProduct(rows, id);
      if found.None? || !Changes(rows[found.value], fields, data) {
        return false;
      }
      var i := found.value;
      rows := rows[i := Updated(rows[i], fields, data)];
      return true;
    }

    /**
     * PUT: sets exactly the allowed fields present in the body. No such
     * field is a bad request; a row that does not change counts as not found.
     */
    method Put(bodyId: Option<int>, queryId: Option<int>, data: map<string, Value>) returns (resp: PutResponse)
      requires Valid()
      modifies this
      ensures Valid()
      ensures nextId == old(nextId) && clock == old(clock)
      ensures var id := if bodyId.Some? then bodyId else queryId;
        (resp == PutMissingId <==> id.None? || id.value == 0) &&
        (resp == NoFields <==> resp != PutMissingId && SetList(data) == []) &&
        (resp != Changed ==> rows == old(rows)) &&
        (resp == PutNotFound <==>
          resp != PutMissingId && resp != NoFields &&
          (FindProduct(old(rows), id.value).None? ||
           !Changes(old(rows)[FindProduct(old(rows), id.value).value], SetList(data), data))) &&
        (resp == Changed ==>
          var i := FindProduct(old(rows), id.value).value;
          rows == old(rows)[i := Updated(old(rows)[i], SetList(data), data)])
    {
      var id := if bodyId.Some? then bodyId else queryId;
      if id.None? || id.value == 0 {
        return PutMissingId;
      }
      var fields, params := BuildSetList(AllowedFields, data);
      assert fields == SetList(data);
      if fields == [] {
        return NoFields;
      }
      var changed := ApplyUpdate(id.value, fields, data);
      resp := if changed then Changed else PutNotFound;
    }

    /** DELETE: removes the product; an id that names none is reported. */
    method Delete(id: Option<int>) returns (resp: DeleteResponse)
      requires Valid()
      modifies this
      ensures Valid()
      ensures nextId == old(nextId) && clock == old(clock)
      ensures resp == DeleteMissingId <==> id.None? || id.value == 0
      ensures resp == DeleteNotFound <==> id.Some? && id.value != 0 && FindProduct(old(rows), id.value).None?
      ensures resp != Deleted ==> rows == old(rows)
      ensures resp == Deleted ==>
        rows == Filter(old(rows), r => !HasId(id.value, r)) &&
        forall i :: 0 <= i < |rows| ==> rows[i].id != id.value
    {
      if id.None? || id.value == 0 {
        return DeleteMissingId;
      }
      if FindProduct(rows, id.value).None? {
        return DeleteNotFound;
      }
      var kept := Filter(rows, r => !HasId(id.value, r));
      FilterOrdered(rows, r => !HasId(id.value, r), IdBefore);
      rows := kept;
      return Deleted;
    }
  }

  predicate IdBefore(a: ProductRow, b: ProductRow) { a.id < b.id }


  /** Every selected row is a row of the table. */
  lemma {:induction false} SelectionFromTable(rows: seq<ProductRow>, q: ProductQuery, k: int)
    requires Selection(rows, q).Some? && 0 <= k < |Selection(rows, q).value|
    ensures Selection(rows, q).value[k] in rows
  {
    var s := Selection(rows, q).value;
    if q.bestsellers == Some("1") {
      var sorted := SortBy(Filter(rows, HasSales), BestsellerFirst);
      assert s[k] == sorted[k];
      assert sorted[k] in multiset(Filter(rows, HasSales));
    } else if q.category.Some? && !PhpFalsy(q.category.value) {
      assert s[k] in multiset(Filter(rows, r => InCategory(q.category.value, r)));
    } else {
      assert s[k] in multiset(rows);
    }
  }
}
