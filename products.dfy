/**
 * The product routes (routes/productRoutes.js): the public and admin listings with their
 * filters and pagination, lookup by id, the two create routes, update, deletion and the
 * active-status toggle. Request bodies are multipart forms, so every field arrives as text;
 * `JSON.parse`, `parseFloat`, `parseInt` and `new Date(text)` are parameters (`Parsers`),
 * and so is the `$text` search of the name/description text index. The cloud image upload
 * of each file is an input (`Upload`).
 */
module ProductRoutes {
  import opened Wrappers
  import Json
  import JsString
  import Collections
  import UserModel
  import ProductModel

  type Product = ProductModel.Product

  /** A parsed multipart body: field name to text. */
  type Form = map<string, string>

  function Field(body: Form, k: string): Option<string> {
    if k in body then Some(body[k]) else None
  }

  /** JavaScript truthiness of a form field that may be undefined. */
  predicate Truthy(v: Option<string>) {
    v.Some? && v.value != ""
  }

  /** `v || ''` */
  function OrEmpty(v: Option<string>): string {
    if Truthy(v) then v.value else ""
  }

  function Min(a: int, b: int): int {
    if a <= b then a else b
  }

  function Abs(a: int): nat {
    if a < 0 then -a else a
  }

  // ---------------------------------------------------------------------------------------
  // Listings
  // ---------------------------------------------------------------------------------------

  /** The `query` object handed to `find` and `countDocuments`; `None` is an absent key. */
  datatype Query = Query(isActive: Option<bool>, category: Option<string>, search: Option<string>,
                         isFeatured: Option<bool>, inStock: Option<bool>)

  /** The query-string parameters of the listings, `page` and `limit` as numbers. */
  datatype ListParams = ListParams(page: Option<int>, limit: Option<int>, search: Option<string>,
                                   featured: Option<string>, inStock: Option<string>, category: Option<string>)

  /** A flag filter: present only when the parameter is defined, true iff it is "true". */
  function Flag(v: Option<string>): (r: Option<bool>)
    ensures r.Some? <==> v.Some?
    ensures r.Some? ==> (r.value <==> v.value == "true")
  {
    if v.Some? then Some(v.value == "true") else None
  }

  /** The query of the public listings: `/` (no category) and the two category routes. */
  function PublicQuery(category: Option<string>, p: ListParams): Query {
    Query(Some(true),
          if category.Some? then Some(JsString.ToLower(category.value)) else None,
          if Truthy(p.search) then p.search else None,
          Flag(p.featured), Flag(p.inStock))
  }

  /** The query of `/admin/all`: no `isActive` key, and a category filter only for a truthy
      category other than "all". */
  function AdminQuery(p: ListParams): Query {
    Query(None,
          if Truthy(p.category) && p.category.value != "all" then Some(JsString.ToLower(p.category.value)) else None,
          if Truthy(p.search) then p.search else None,
          None, None)
  }

  /** The public query built key by key, as the handlers assign them. */
  method BuildPublicQuery(category: Option<string>, p: ListParams) returns (q: Query)
    ensures q == PublicQuery(category, p)
    ensures q.isActive == Some(true)
  {
    q := Query(Some(true), None, None, None, None);
    if category.Some? {
      q := q.(category := Some(JsString.ToLower(category.value)));
    }
    if Truthy(p.search) {
      q := q.(search := p.search);
    }
    if p.featured.Some? {
      q := q.(isFeatured := Some(p.featured.value == "true"));
    }
    if p.inStock.Some? {
      q := q.(inStock := Some(p.inStock.value == "true"));
    }
  }

  /** The admin query built key by key, starting from the empty object. */
  method BuildAdminQuery(p: ListParams) returns (q: Query)
    ensures q == AdminQuery(p)
    ensures q.isActive.None?
  {
    q := Query(None, None, None, None, None);
    if Truthy(p.category) && p.category.value != "all" {
      q := q.(category := Some(JsString.ToLower(p.category.value)));
    }
    if Truthy(p.search) {
      q := q.(search := p.search);
    }
  }

  /** A document matches a query when it agrees with every key present. */
  predicate Matches(q: Query, textMatch: (string, Product) -> bool, x: Product) {
    && (q.isActive.Some? ==> x.isActive == q.isActive.value)
    && (q.category.Some? ==> x.category == q.category.value)
    && (q.search.Some? ==> textMatch(q.search.value, x))
    && (q.isFeatured.Some? ==> x.isFeatured == q.isFeatured.value)
    && (q.inStock.Some? ==> x.inStock == q.inStock.value)
  }

  function Matcher(q: Query, textMatch: (string, Product) -> bool): Product -> bool {
    x => Matches(q, textMatch, x)
  }

  function CreatedAt(p: Product): int {
    p.createdAt
  }

  /** Every matching document, newest first. */
  function Matching(store: seq<Product>, q: Query, textMatch: (string, Product) -> bool): (r: seq<Product>)
    ensures |r| == Collections.CountWhere(store, Matcher(q, textMatch))
    ensures forall x :: x in r <==> x in store && Matches(q, textMatch, x)
    ensures Collections.NewestFirst(r, CreatedAt)
  {
    var selected := Collections.Filter(store, Matcher(q, textMatch));
    var r := Collections.SortNewestFirst(selected, CreatedAt);
    Collections.CountFilter(store, Matcher(q, textMatch));
    Collections.SameElements(r, selected);
    r
  }

  /** `skip(skip)` then `limit(take)` on a cursor. */
  function Window<T>(s: seq<T>, skip: nat, take: nat): (r: seq<T>)
    ensures |r| == if skip >= |s| then 0 else Min(take, |s| - skip)
    ensures forall i :: 0 <= i < |r| ==> skip + i < |s| && r[i] == s[skip + i]
  {
    if skip >= |s| then [] else
      var rest := s[skip..];
      if take < |rest| then rest[..take] else rest
  }

  /** `Math.ceil` */
  function Ceil(x: real): (c: int)
    ensures c as real - 1.0 < x <= c as real
  {
    -((-x).Floor)
  }

  /** The `pagination` object; `pages` is `None` where `Math.ceil(total / 0)` is not a finite
      number (Infinity or NaN, both sent as `null`). */
  datatype Pagination = Pagination(current: int, pages: Option<int>, total: nat)

  datatype ListOutcome = ListThrew | Listed(data: seq<Product>, pagination: Pagination)

  function ListStatus(r: ListOutcome): int {
    if r.ListThrew? then 500 else 200
  }

  /** `find(query).sort({ createdAt: -1 }).limit(limit).skip((page - 1) * limit)` and
      `countDocuments(query)`. A negative skip is refused by the database and surfaces as
      500; a zero limit means no limit, and a negative one takes its absolute value. */
  function Listing(store: seq<Product>, q: Query, page: int, limit: int,
                   textMatch: (string, Product) -> bool): (r: ListOutcome)
    ensures r.ListThrew? <==> (page - 1) * limit < 0
    ensures r.Listed? ==> r.pagination.total == Collections.CountWhere(store, Matcher(q, textMatch))
    ensures r.Listed? ==> r.pagination.current == page
    ensures r.Listed? ==> forall i :: 0 <= i < |r.data| ==> r.data[i] in store && Matches(q, textMatch, r.data[i])
    ensures r.Listed? ==> Collections.NewestFirst(r.data, CreatedAt)
    ensures r.Listed? ==> (r.pagination.pages.None? <==> limit == 0)
    ensures r.Listed? && limit != 0 ==>
      (r.pagination.pages.value - 1) as real < r.pagination.total as real / limit as real <= r.pagination.pages.value as real
    ensures r.Listed? && limit != 0 ==> |r.data| <= Abs(limit)
    ensures r.Listed? ==> r.data == Window(Matching(store, q, textMatch), (page - 1) * limit,
                                           if limit == 0 then r.pagination.total else Abs(limit))
  {
    var skip := (page - 1) * limit;
    if skip < 0 then ListThrew
    else
      var matching := Matching(store, q, textMatch);
      var total := Collections.CountWhere(store, Matcher(q, textMatch));
      var take := if limit == 0 then total else Abs(limit);
      var data := Window(matching, skip, take);
      assert forall i :: 0 <= i < |data| ==> data[i] in matching;
      Listed(data, Pagination(page, if limit == 0 then None else Some(Ceil(total as real / limit as real)), total))
  }

  /** `GET /`: the active products, 50 to a page by default. */
  function GetProducts(store: seq<Product>, p: ListParams, textMatch: (string, Product) -> bool): (r: ListOutcome)
    ensures r.Listed? ==> forall i :: 0 <= i < |r.data| ==> r.data[i].isActive
    ensures p.page.None? && p.limit.None? ==> r.Listed? && |r.data| <= 50
  {
    Listing(store, PublicQuery(None, p), p.page.GetOr(1), p.limit.GetOr(50), textMatch)
  }

  /** `GET /:category` and `GET /category/:category` (the same handler twice): the active
      products of the lower-cased category, 10 to a page by default. */
  function GetByCategory(store: seq<Product>, category: string, p: ListParams,
                         textMatch: (string, Product) -> bool): (r: ListOutcome)
    ensures r.Listed? ==> forall i :: 0 <= i < |r.data| ==>
      r.data[i].isActive && r.data[i].category == JsString.ToLower(category)
    ensures p.page.None? && p.limit.None? ==> r.Listed? && |r.data| <= 10
  {
    Listing(store, PublicQuery(Some(category), p), p.page.GetOr(1), p.limit.GetOr(10), textMatch)
  }

  /** `GET /admin/all`: active and inactive products alike, 10 to a page by default. */
  function GetAdminProducts(store: seq<Product>, p: ListParams, textMatch: (string, Product) -> bool): (r: ListOutcome)
    ensures r.Listed? && Truthy(p.category) && p.category.value != "all" ==>
      forall i :: 0 <= i < |r.data| ==> r.data[i].category == JsString.ToLower(p.category.value)
    ensures p.page.None? && p.limit.None? ==> r.Listed? && |r.data| <= 10
  {
    Listing(store, AdminQuery(p), p.page.GetOr(1), p.limit.GetOr(10), textMatch)
  }

  /** The flag filters of the public listings: a defined `featured` or `inStock` parameter keeps
      exactly the products whose flag equals (parameter == "true"). */
  lemma PublicFlagsFilter(store: seq<Product>, category: Option<string>, p: ListParams,
                          page: int, limit: int, textMatch: (string, Product) -> bool)
    ensures var r := Listing(store, PublicQuery(category, p), page, limit, textMatch);
      r.Listed? ==> forall i :: 0 <= i < |r.data| ==>
        && r.data[i].isActive
        && (p.featured.Some? ==> (r.data[i].isFeatured <==> p.featured.value == "true"))
        && (p.inStock.Some? ==> (r.data[i].inStock <==> p.inStock.value == "true"))
        && (Truthy(p.search) ==> textMatch(p.search.value, r.data[i]))
  {
  }

  /** Every active product of the store, and only those, is counted by a public listing
      without filters. */
  lemma PublicTotalCountsActive(store: seq<Product>, p: ListParams, page: int, limit: int,
                                textMatch: (string, Product) -> bool)
    requires !Truthy(p.search) && p.featured.None? && p.inStock.None?
    ensures var r := Listing(store, PublicQuery(None, p), page, limit, textMatch);
      r.Listed? ==> r.pagination.total == Collections.CountWhere(store, IsActive)
  {
    SameCount(store, Matcher(PublicQuery(None, p), textMatch), IsActive);
  }

  predicate IsActive(x: Product) {
    x.isActive
  }

  predicate Always(x: Product) {
    true
  }

  lemma {:induction false} SameCount(s: seq<Product>, f: Product -> bool, g: Product -> bool)
    requires forall x :: f(x) == g(x)
    ensures Collections.CountWhere(s, f) == Collections.CountWhere(s, g)
  {
    if s != [] {
      SameCount(s[1..], f, g);
    }
  }

  lemma {:induction false} CountAlways(s: seq<Product>)
    ensures Collections.CountWhere(s, Always) == |s|
  {
    if s != [] {
      CountAlways(s[1..]);
    }
  }

  /** Without a search and with the category absent or "all", the admin listing counts every
      product, inactive ones included. */
  lemma AdminTotalCountsAll(store: seq<Product>, p: ListParams, page: int, limit: int,
                            textMatch: (string, Product) -> bool)
    requires !Truthy(p.search) && (!Truthy(p.category) || p.category.value == "all")
    ensures var r := Listing(store, AdminQuery(p), page, limit, textMatch);
      r.Listed? ==> r.pagination.total == |store|
  {
    SameCount(store, Matcher(AdminQuery(p), textMatch), Always);
    CountAlways(store);
  }

  /** The category path is compared lower-cased, so its case never matters. */
  lemma CategoryIgnoresCase(store: seq<Product>, category: string, p: ListParams,
                            textMatch: (string, Product) -> bool)
    ensures GetByCategory(store, category, p, textMatch) == GetByCategory(store, JsString.ToLower(category), p, textMatch)
  {
    JsString.ToLowerIdempotent(category);
  }

  /** With a positive limit and a page from 1 on, a page holds products exactly when its number
      is at most `pages`, and it is full unless it is the last one. */
  lemma PageIsNonEmptyIff(store: seq<Product>, q: Query, page: int, limit: int,
                          textMatch: (string, Product) -> bool)
    requires limit > 0 && page >= 1
    ensures var r := Listing(store, q, page, limit, textMatch);
      && r.Listed?
      && (|r.data| > 0 <==> page <= r.pagination.pages.value)
      && (page < r.pagination.pages.value ==> |r.data| == limit)
  {
    var r := Listing(store, q, page, limit, textMatch);
    var m := Matching(store, q, textMatch);
    var skip := (page - 1) * limit;
    assert r.Listed? && |m| == r.pagination.total;
    assert r.data == Window(m, skip, limit);
    PageArithmetic(page, limit, r.pagination.total, r.pagination.pages.value);
  }

  lemma MulStrict(a: real, b: real, c: real)
    requires c > 0.0
    ensures a < b <==> a * c < b * c
  {
    if a < b {
      assert (b - a) * c > 0.0;
    } else {
      assert (a - b) * c >= 0.0;
    }
  }

  lemma MulLe(a: real, b: real, c: real)
    requires a <= b && c >= 0.0
    ensures a * c <= b * c
  {
    assert (b - a) * c >= 0.0;
  }

  lemma MulMono(a: int, b: int, c: nat)
    requires a <= b
    ensures a * c <= b * c
  {
    assert (b - a) * c >= 0;
  }

  lemma BetweenTimes(q: real, x: real, p: real, l: real)
    requires l > 0.0 && q < x <= p
    ensures q * l < x * l <= p * l
  {
    MulStrict(q, x, l);
    MulLe(x, p, l);
  }

  /** `pages` as `Math.ceil(total / limit)` brackets the total between whole pages. */
  lemma CeilBounds(limit: int, total: nat, pages: int)
    requires limit > 0
    requires (pages - 1) as real < total as real / limit as real <= pages as real
    ensures (pages - 1) * limit < total <= pages * limit
  {
    BelowQuotient(pages - 1, total, limit);
    AboveQuotient(pages, total, limit);
  }

  lemma BelowQuotient(a: int, t: int, l: int)
    requires l > 0 && a as real < t as real / l as real
    ensures a * l < t
  {
    var x := t as real / l as real;
    assert x * l as real == t as real;
    MulStrict(a as real, x, l as real);
    CastMul(a, l);
  }

  lemma AboveQuotient(a: int, t: int, l: int)
    requires l > 0 && t as real / l as real <= a as real
    ensures t <= a * l
  {
    var x := t as real / l as real;
    assert x * l as real == t as real;
    MulLe(x, a as real, l as real);
    CastMul(a, l);
  }

  lemma CastMul(a: int, b: int)
    ensures (a * b) as real == a as real * b as real
  {
  }

  /** Page `page` starts before the end exactly when `page <= ceil(total / limit)`, and every
      page before the last one is full. */
  lemma PageArithmetic(page: int, limit: int, total: nat, pages: int)
    requires limit > 0 && page >= 1
    requires (pages - 1) as real < total as real / limit as real <= pages as real
    ensures (page - 1) * limit < total <==> page <= pages
    ensures page < pages ==> (page - 1) * limit + limit < total
  {
    CeilBounds(limit, total, pages);
    if page <= pages {
      MulMono(page - 1, pages - 1, limit);
    } else {
      MulMono(pages, page - 1, limit);
    }
    if page < pages {
      MulMono(page, pages - 1, limit);
      assert (page - 1) * limit + limit == page * limit;
    }
  }

  // ---------------------------------------------------------------------------------------
  // Lookup and deletion
  // ---------------------------------------------------------------------------------------

  datatype LookupOutcome = LookupThrew | LookupNotFound | Found(product: Product)

  function LookupStatus(r: LookupOutcome): int {
    match r
    case LookupThrew => 500
    case LookupNotFound => 404
    case Found(_) => 200
  }

  /** `GET /single/:id`: by id alone, so inactive products are found too; an id that does not
      cast (`None`) throws. */
  function GetSingle(store: seq<Product>, id: Option<ProductModel.ProductId>): (r: LookupOutcome)
    ensures r.LookupThrew? <==> id.None?
    ensures r.LookupNotFound? <==> id.Some? && !ProductModel.IdTaken(store, id.value)
    ensures r.Found? ==> r.product in store && r.product.id == id.value
  {
    if id.None? then LookupThrew
    else
      var i := ProductModel.IndexOfId(store, id.value);
      if i.None? then LookupNotFound else Found(store[i.value])
  }

  /** With unique ids, the lookup of a stored product's id finds that product. */
  lemma ProductIndex(store: seq<Product>, i: nat)
    requires i < |store| && ProductModel.UniqueIds(store)
    ensures ProductModel.IndexOfId(store, store[i].id) == Some(i)
  {
    var j := ProductModel.IndexOfId(store, store[i].id);
    assert ProductModel.IdTaken(store, store[i].id);
    assert j.value == i;
  }

  datatype DeleteOutcome = DeleteThrew | DeleteNotFound | Deleted

  function DeleteStatus(r: DeleteOutcome): int {
    match r
    case DeleteThrew => 500
    case DeleteNotFound => 404
    case Deleted => 200
  }

  /** `DELETE /delete/:id`: 404 for an unknown id, otherwise that document is removed. */
  function DeleteProduct(store: seq<Product>, id: Option<ProductModel.ProductId>)
    : (r: (DeleteOutcome, seq<Product>))
    ensures !r.0.Deleted? ==> r.1 == store
    ensures r.0.DeleteThrew? <==> id.None?
    ensures r.0.Deleted? <==> id.Some? && ProductModel.IdTaken(store, id.value)
    ensures r.0.Deleted? ==>
      && ProductModel.IndexOfId(store, id.value).Some?
      && r.1 == Collections.RemoveAt(store, ProductModel.IndexOfId(store, id.value).value)
  {
    if id.None? then (DeleteThrew, store)
    else
      var i := ProductModel.IndexOfId(store, id.value);
      if i.None? then (DeleteNotFound, store)
      else (Deleted, Collections.RemoveAt(store, i.value))
  }

  /** Deleting a stored product removes it and keeps every other one. */
  lemma DeleteRemovesOnly(store: seq<Product>, i: nat)
    requires i < |store| && ProductModel.UniqueIds(store)
    ensures var r := DeleteProduct(store, Some(store[i].id));
      && r.0.Deleted?
      && !ProductModel.IdTaken(r.1, store[i].id)
      && multiset(r.1) + multiset{store[i]} == multiset(store)
  {
    ProductIndex(store, i);
    var r := DeleteProduct(store, Some(store[i].id));
    assert r.1 == store[..i] + store[i + 1..];
    assert store == store[..i] + [store[i]] + store[i + 1..];
    forall j | 0 <= j < |r.1| ensures r.1[j].id != store[i].id {
      if j < i {
        assert r.1[j] == store[j];
      } else {
        assert r.1[j] == store[j + 1];
      }
    }
  }

  // ---------------------------------------------------------------------------------------
  // Images
  // ---------------------------------------------------------------------------------------

  /** The cloud upload of one file: it rejects, or resolves with a `secure_url`. */
  datatype Upload = UploadThrew | UploadedTo(url: string)

  /** The URLs of a run of uploads, in upload order; `None` when one of them rejects. */
  function Urls(uploads: seq<Upload>): (r: Option<seq<string>>)
    ensures r.Some? <==> forall i :: 0 <= i < |uploads| ==> uploads[i].UploadedTo?
    ensures r.Some? ==> |r.value| == |uploads|
    ensures r.Some? ==> forall i :: 0 <= i < |uploads| ==> r.value[i] == uploads[i].url
  {
    if forall i :: 0 <= i < |uploads| ==> uploads[i].UploadedTo? then
      Some(seq(|uploads|, i requires 0 <= i < |uploads| => uploads[i].url))
    else None
  }

  /** The upload loop: each file is uploaded in turn and its URL pushed; the first rejection
      leaves the loop. */
  method CollectUrls(uploads: seq<Upload>) returns (r: Option<seq<string>>)
    ensures r == Urls(uploads)
  {
    var urls: seq<string> := [];
    var i := 0;
    while i < |uploads|
      invariant 0 <= i <= |uploads|
      invariant |urls| == i
      invariant forall j :: 0 <= j < i ==> uploads[j].UploadedTo? && urls[j] == uploads[j].url
    {
      if uploads[i].UploadThrew? {
        return None;
      }
      urls := urls + [uploads[i].url];
      i := i + 1;
    }
    assert Urls(uploads).Some? && Urls(uploads).value == urls;
    return Some(urls);
  }

  /** The image merge of the update route: the existing images, then the new ones. */
  function MergedImages(existing: seq<string>, added: seq<string>): (r: seq<string>)
    ensures r == existing + added
  {
    if |existing| > 0 then existing + added else added
  }

  // ---------------------------------------------------------------------------------------
  // Creation
  // ---------------------------------------------------------------------------------------

  /** The text conversions the handlers call. */
  datatype Parsers = Parsers(json: string -> Option<Json.Value>, float: string -> ProductModel.Number,
                             integer: string -> ProductModel.Number, date: string -> ProductModel.Number)

  const Placeholder: string := "https://via.placeholder.com/400x300?text=No+Image"

  /** `v ? JSON.parse(v) : fallback` inside a `try` whose `catch` also yields the fallback. */
  function ParseOr(v: Option<string>, fallback: Json.Value, json: string -> Option<Json.Value>): Json.Value {
    if !Truthy(v) then fallback else json(v.value).GetOr(fallback)
  }

  /** A field that yields its fallback: falsy, or text that is not JSON. */
  predicate Unparsed(v: Option<string>, json: string -> Option<Json.Value>) {
    !Truthy(v) || json(v.value).None?
  }

  /** `req.user.userId`: the token payload's `userId` when it is a string; every string is
      taken to cast to an `ObjectId`. */
  function UserIdOf(payload: Json.Value): Option<UserModel.UserId> {
    var u := Json.Get(payload, "userId");
    if u.Some? && u.value.Str? then Some(u.value.s) else None
  }

  /** The two create routes: `POST /` parses `colorVariants`, `POST /create` never does. */
  datatype CreateRoute = BasePath | CreatePath

  /** The `productData` literal, before the category-specific fields. */
  function BaseData(route: CreateRoute, body: Form, category: string, imageUrl: string, images: seq<string>,
                    createdBy: Option<UserModel.UserId>, ps: Parsers): ProductModel.ProductDraft {
    var price := Field(body, "price");
    var original := Field(body, "originalPrice");
    var discount := Field(body, "discount");
    var stock := Field(body, "stockQuantity");
    ProductModel.ProductDraft(
      Field(body, "name"), Field(body, "description"),
      if price.Some? then ps.float(price.value) else ProductModel.NaN,
      if Truthy(original) then Some(ps.float(original.value)) else None,
      if Truthy(discount) then ps.float(discount.value) else ProductModel.Finite(0.0),
      JsString.ToLower(category), OrEmpty(Field(body, "subcategory")), imageUrl, images,
      if Truthy(stock) then ps.integer(stock.value) else ProductModel.Finite(0.0),
      ParseOr(Field(body, "tags"), Json.Arr([]), ps.json),
      ParseOr(Field(body, "specifications"), Json.Obj(map[]), ps.json),
      if route == BasePath then ParseOr(Field(body, "colorVariants"), Json.Obj(map[]), ps.json) else Json.Obj(map[]),
      None, None, None, None, None, createdBy)
  }

  /** The fields added for the categories "news", "printing" and "localmarket". */
  function CategoryFields(d: ProductModel.ProductDraft, body: Form, ps: Parsers, now: nat): ProductModel.ProductDraft {
    var newsDate := Field(body, "newsDate");
    var d1 := if d.category == "news" then
                d.(newsContent := Some(OrEmpty(Field(body, "newsContent"))),
                   newsDate := Some(if Truthy(newsDate) then ps.date(newsDate.value) else ProductModel.Finite(now as real)),
                   newsAuthor := Some(OrEmpty(Field(body, "newsAuthor"))))
              else d;
    var d2 := if d.category == "printing" then
                d1.(printingOptions := Some(ParseOr(Field(body, "printingOptions"), Json.Obj(map[]), ps.json)))
              else d1;
    if d.category == "localmarket" then
      d2.(businessInfo := Some(ParseOr(Field(body, "businessInfo"), Json.Obj(map[]), ps.json)))
    else d2
  }

  /** The category-specific assignments touch only the five category fields. */
  lemma CategoryFieldsKeep(d: ProductModel.ProductDraft, body: Form, ps: Parsers, now: nat)
    ensures var e := CategoryFields(d, body, ps, now);
      && e.name == d.name && e.description == d.description && e.price == d.price
      && e.originalPrice == d.originalPrice && e.discount == d.discount && e.category == d.category
      && e.subcategory == d.subcategory && e.image == d.image && e.images == d.images
      && e.stockQuantity == d.stockQuantity && e.tags == d.tags && e.specifications == d.specifications
      && e.colorVariants == d.colorVariants && e.createdBy == d.createdBy
  {
  }

  /** Each category field is set for its own category and left as it was otherwise. */
  lemma CategoryFieldsSet(d: ProductModel.ProductDraft, body: Form, ps: Parsers, now: nat)
    ensures var e := CategoryFields(d, body, ps, now);
      && e.newsContent == (if d.category == "news" then Some(OrEmpty(Field(body, "newsContent"))) else d.newsContent)
      && e.newsAuthor == (if d.category == "news" then Some(OrEmpty(Field(body, "newsAuthor"))) else d.newsAuthor)
      && (d.category != "news" ==> e.newsDate == d.newsDate)
      && (d.category == "news" && !Truthy(Field(body, "newsDate")) ==> e.newsDate == Some(ProductModel.Finite(now as real)))
      && e.printingOptions == (if d.category == "printing"
                               then Some(ParseOr(Field(body, "printingOptions"), Json.Obj(map[]), ps.json))
                               else d.printingOptions)
      && e.businessInfo == (if d.category == "localmarket"
                            then Some(ParseOr(Field(body, "businessInfo"), Json.Obj(map[]), ps.json))
                            else d.businessInfo)
  {
  }

  /** The whole `productData`; `None` stands for the `TypeError` of lower-casing an absent
      category. */
  function DraftFor(route: CreateRoute, body: Form, imageUrl: string, images: seq<string>,
                    createdBy: Option<UserModel.UserId>, ps: Parsers, now: nat): Option<ProductModel.ProductDraft> {
    var category := Field(body, "category");
    if category.None? then None
    else Some(CategoryFields(BaseData(route, body, category.value, imageUrl, images, createdBy, ps), body, ps, now))
  }

  /** `productData` built as the handlers build it: the literal, then one category's extra
      fields assigned onto it. */
  method BuildDraft(route: CreateRoute, body: Form, imageUrl: string, images: seq<string>,
                    createdBy: Option<UserModel.UserId>, ps: Parsers, now: nat)
    returns (d: Option<ProductModel.ProductDraft>)
    ensures d == DraftFor(route, body, imageUrl, images, createdBy, ps, now)
    ensures d.None? <==> "category" !in body
  {
    var category := Field(body, "category");
    if category.None? {
      return None;
    }
    var data := BaseData(route, body, category.value, imageUrl, images, createdBy, ps);
    var lowered := JsString.ToLower(category.value);
    if lowered == "news" {
      data := data.(newsContent := Some(OrEmpty(Field(body, "newsContent"))));
      var newsDate := Field(body, "newsDate");
      data := data.(newsDate := Some(if Truthy(newsDate) then ps.date(newsDate.value) else ProductModel.Finite(now as real)));
      data := data.(newsAuthor := Some(OrEmpty(Field(body, "newsAuthor"))));
    }
    if lowered == "printing" {
      data := data.(printingOptions := Some(ParseOr(Field(body, "printingOptions"), Json.Obj(map[]), ps.json)));
    }
    if lowered == "localmarket" {
      data := data.(businessInfo := Some(ParseOr(Field(body, "businessInfo"), Json.Obj(map[]), ps.json)));
    }
    d := Some(data);
  }

  datatype CreateOutcome = CreateThrew | Created(product: Product)

  function CreateStatus(r: CreateOutcome): int {
    if r.CreateThrew? then 500 else 201
  }

  /** `new Product(productData).save()` after the uploads: the document is appended with a
      fresh id, or nothing changes and the handler answers 500. */
  function CreateWith(route: CreateRoute, store: seq<Product>, body: Form, imageUrl: string, images: seq<string>,
                      payload: Json.Value, ps: Parsers, now: nat): (r: (CreateOutcome, seq<Product>))
    ensures !r.0.Created? ==> r.1 == store
    ensures "category" !in body || UserIdOf(payload).None? ==> r.0.CreateThrew?
    ensures r.0.Created? ==> r.1 == store + [r.0.product] && !ProductModel.IdTaken(store, r.0.product.id)
    ensures r.0.Created? ==> ProductModel.ValidProduct(r.0.product) && r.0.product.isActive && !r.0.product.isFeatured
    ensures r.0.Created? ==> Json.Get(payload, "userId") == Some(Json.Str(r.0.product.createdBy))
    ensures r.0.Created? ==> "name" in body && r.0.product.name == JsString.Trim(body["name"])
    ensures r.0.Created? ==> "category" in body && r.0.product.category == JsString.ToLower(body["category"])
    ensures r.0.Created? ==> r.0.product.image == imageUrl && r.0.product.images == images
  {
    var d := DraftFor(route, body, imageUrl, images, UserIdOf(payload), ps, now);
    if d.None? then (CreateThrew, store)
    else
      var p := ProductModel.NewProduct(ProductModel.NextId(store), d.value, now);
      if p.None? then (CreateThrew, store) else (Created(p.value), store + [p.value])
  }

  /** The draft `CreateWith` saves, when the category is present. */
  function DraftOf(route: CreateRoute, body: Form, imageUrl: string, images: seq<string>,
                   payload: Json.Value, ps: Parsers, now: nat): ProductModel.ProductDraft
    requires "category" in body
  {
    DraftFor(route, body, imageUrl, images, UserIdOf(payload), ps, now).value
  }

  /** A created product is the draft as `NewProduct` casts and checks it. */
  lemma CreatedFrom(route: CreateRoute, store: seq<Product>, body: Form, imageUrl: string, images: seq<string>,
                    payload: Json.Value, ps: Parsers, now: nat)
    requires CreateWith(route, store, body, imageUrl, images, payload, ps, now).0.Created?
    ensures "category" in body
    ensures ProductModel.NewProduct(ProductModel.NextId(store), DraftOf(route, body, imageUrl, images, payload, ps, now), now)
      == Some(CreateWith(route, store, body, imageUrl, images, payload, ps, now).0.product)
  {
  }

  /** The defaults of a created product for the fields the form leaves out or garbles: an
      empty subcategory, no discount, no stock, no tags, no specifications, and no colour
      variants (always none on `/create`). */
  lemma CreatedDefaults(route: CreateRoute, store: seq<Product>, body: Form, imageUrl: string, images: seq<string>,
                        payload: Json.Value, ps: Parsers, now: nat)
    requires CreateWith(route, store, body, imageUrl, images, payload, ps, now).0.Created?
    ensures var p := CreateWith(route, store, body, imageUrl, images, payload, ps, now).0.product;
      && p.subcategory == OrEmpty(Field(body, "subcategory"))
      && (!Truthy(Field(body, "discount")) ==> p.discount == 0.0)
      && (!Truthy(Field(body, "stockQuantity")) ==> p.stockQuantity == 0.0)
      && (Unparsed(Field(body, "tags"), ps.json) ==> p.tags == [])
      && (Unparsed(Field(body, "specifications"), ps.json) ==> p.specifications == map[])
      && (route == CreatePath || Unparsed(Field(body, "colorVariants"), ps.json) ==> p.colorVariants == Json.Obj(map[]))
  {
    CreatedFrom(route, store, body, imageUrl, images, payload, ps, now);
    var b := BaseData(route, body, body["category"], imageUrl, images, UserIdOf(payload), ps);
    var d := DraftOf(route, body, imageUrl, images, payload, ps, now);
    assert d == CategoryFields(b, body, ps, now);
    CategoryFieldsKeep(b, body, ps, now);
    if Unparsed(Field(body, "tags"), ps.json) {
      assert d.tags == Json.Arr([]);
    }
    if Unparsed(Field(body, "specifications"), ps.json) {
      assert d.specifications == Json.Obj(map[]);
    }
  }

  /** The category-specific fields: the news fields only for "news" (the date defaulting to
      the request time), the printing options only for "printing" and the business details only
      for "localmarket"; otherwise, or when their text does not parse, the schema defaults. */
  lemma CategoryFieldsOnlyForCategory(route: CreateRoute, store: seq<Product>, body: Form, imageUrl: string,
                                      images: seq<string>, payload: Json.Value, ps: Parsers, now: nat)
    requires CreateWith(route, store, body, imageUrl, images, payload, ps, now).0.Created?
    ensures var p := CreateWith(route, store, body, imageUrl, images, payload, ps, now).0.product;
      && (p.category != "news" ==> p.newsContent == "" && p.newsDate.None? && p.newsAuthor == "")
      && (p.category == "news" ==>
            p.newsContent == OrEmpty(Field(body, "newsContent")) && p.newsAuthor == OrEmpty(Field(body, "newsAuthor")))
      && (p.category == "news" && !Truthy(Field(body, "newsDate")) ==> p.newsDate == Some(now as real))
      && (p.category != "printing" || Unparsed(Field(body, "printingOptions"), ps.json) ==>
            p.printingOptions == ProductModel.DefaultPrintingOptions)
      && (p.category != "localmarket" || Unparsed(Field(body, "businessInfo"), ps.json) ==>
            p.businessInfo == ProductModel.DefaultBusinessInfo)
  {
    CreatedFrom(route, store, body, imageUrl, images, payload, ps, now);
    DraftCategoryFields(route, body, imageUrl, images, payload, ps, now, ProductModel.NextId(store),
                        CreateWith(route, store, body, imageUrl, images, payload, ps, now).0.product);
  }

  /** `CategoryFieldsOnlyForCategory` for the product `NewProduct` makes of the draft. */
  lemma DraftCategoryFields(route: CreateRoute, body: Form, imageUrl: string, images: seq<string>,
                            payload: Json.Value, ps: Parsers, now: nat, id: ProductModel.ProductId, p: Product)
    requires "category" in body
    requires ProductModel.NewProduct(id, DraftOf(route, body, imageUrl, images, payload, ps, now), now) == Some(p)
    ensures && (p.category != "news" ==> p.newsContent == "" && p.newsDate.None? && p.newsAuthor == "")
      && (p.category == "news" ==>
            p.newsContent == OrEmpty(Field(body, "newsContent")) && p.newsAuthor == OrEmpty(Field(body, "newsAuthor")))
      && (p.category == "news" && !Truthy(Field(body, "newsDate")) ==> p.newsDate == Some(now as real))
      && (p.category != "printing" || Unparsed(Field(body, "printingOptions"), ps.json) ==>
            p.printingOptions == ProductModel.DefaultPrintingOptions)
      && (p.category != "localmarket" || Unparsed(Field(body, "businessInfo"), ps.json) ==>
            p.businessInfo == ProductModel.DefaultBusinessInfo)
  {
    var b := BaseData(route, body, body["category"], imageUrl, images, UserIdOf(payload), ps);
    var d := DraftOf(route, body, imageUrl, images, payload, ps, now);
    assert d == CategoryFields(b, body, ps, now);
    CategoryFieldsKeep(b, body, ps, now);
    CategoryFieldsSet(b, body, ps, now);
    if d.category == "printing" && Unparsed(Field(body, "printingOptions"), ps.json) {
      assert d.printingOptions == Some(Json.Obj(map[]));
    }
    if d.category == "localmarket" && Unparsed(Field(body, "businessInfo"), ps.json) {
      assert d.businessInfo == Some(Json.Obj(map[]));
    }
  }

  /** `POST /`: an optional main image and up to ten more; any rejected upload answers 500, and
      without a main image the placeholder URL is stored. */
  function CreateAtBase(store: seq<Product>, body: Form, main: Option<Upload>, extra: seq<Upload>,
                        payload: Json.Value, ps: Parsers, now: nat): (r: (CreateOutcome, seq<Product>))
    ensures main == Some(UploadThrew) || Urls(extra).None? ==> r == (CreateThrew, store)
    ensures r.0.Created? ==> r.0.product.image == (if main.Some? then main.value.url else Placeholder)
    ensures r.0.Created? ==> Urls(extra) == Some(r.0.product.images)
  {
    if main == Some(UploadThrew) then (CreateThrew, store)
    else
      var urls := Urls(extra);
      if urls.None? then (CreateThrew, store)
      else CreateWith(BasePath, store, body, if main.Some? then main.value.url else Placeholder, urls.value, payload, ps, now)
  }

  /** `POST /create`: one optional image, no additional images, and `colorVariants` always `{}`. */
  function CreateSingle(store: seq<Product>, body: Form, file: Option<Upload>,
                        payload: Json.Value, ps: Parsers, now: nat): (r: (CreateOutcome, seq<Product>))
    ensures file == Some(UploadThrew) ==> r == (CreateThrew, store)
    ensures r.0.Created? ==> r.0.product.image == (if file.Some? then file.value.url else Placeholder)
    ensures r.0.Created? ==> r.0.product.images == [] && r.0.product.colorVariants == Json.Obj(map[])
  {
    if file == Some(UploadThrew) then (CreateThrew, store)
    else
      var url := if file.Some? then file.value.url else Placeholder;
      var r := CreateWith(CreatePath, store, body, url, [], payload, ps, now);
      if r.0.Created? then
        CreatedDefaults(CreatePath, store, body, url, [], payload, ps, now);
        r
      else r
  }

  /** A token payload without a string `userId` never creates a product: `createdBy` is
      required, and the payload's `id` field is not read. */
  lemma CreationNeedsUserId(route: CreateRoute, store: seq<Product>, body: Form, imageUrl: string,
                            images: seq<string>, payload: Json.Value, ps: Parsers, now: nat)
    requires Json.Get(payload, "userId").None?
    ensures CreateWith(route, store, body, imageUrl, images, payload, ps, now) == (CreateThrew, store)
  {
  }

  /** Creation keeps the ids unique. */
  lemma CreateKeepsIdsUnique(route: CreateRoute, store: seq<Product>, body: Form, imageUrl: string,
                             images: seq<string>, payload: Json.Value, ps: Parsers, now: nat)
    requires ProductModel.UniqueIds(store)
    ensures ProductModel.UniqueIds(CreateWith(route, store, body, imageUrl, images, payload, ps, now).1)
  {
    var r := CreateWith(route, store, body, imageUrl, images, payload, ps, now);
    if r.0.Created? {
      ProductModel.AppendFreshKeepsIdsUnique(store, r.0.product);
    }
  }

  // ---------------------------------------------------------------------------------------
  // Update
  // ---------------------------------------------------------------------------------------

  /** The fields the update route decodes with a bare `JSON.parse`. */
  const JsonFields: seq<string> := ["tags", "specifications", "colorVariants", "printingOptions", "businessInfo"]

  /** What the update writes for one of the five decoded fields: nothing when the field is
      absent (`Some(None)`), the decoded value of a truthy string (`None` when `JSON.parse`
      throws), and the empty string as it is, since only truthy strings are parsed. */
  function FieldUpdate(v: Option<string>, json: string -> Option<Json.Value>): (r: Option<Option<Json.Value>>)
    ensures v.None? <==> r == Some(None)
    ensures v == Some("") ==> r == Some(Some(Json.Str("")))
    ensures r.None? <==> Truthy(v) && json(v.value).None?
    ensures Truthy(v) && r.Some? ==> r == Some(json(v.value))
  {
    if v.None? then Some(None)
    else if v.value == "" then Some(Some(Json.Str("")))
    else if json(v.value).None? then None
    else Some(json(v.value))
  }

  /** Some field named in `JsonFields` is truthy but not JSON. */
  predicate MalformedJson(body: Form, json: string -> Option<Json.Value>) {
    exists k :: k in JsonFields && FieldUpdate(Field(body, k), json).None?
  }

  /** `req.user.userId` cast to an `ObjectId` for `updatedBy`: absent or null unsets it, a
      string is kept, anything else fails the cast (`None`). */
  function UpdaterOf(payload: Json.Value): Option<Option<UserModel.UserId>> {
    var u := Json.Get(payload, "userId");
    if u.None? || u.value.Null? then Some(None)
    else if u.value.Str? then Some(Some(u.value.s))
    else None
  }

  /** What `updateData.updatedBy = req.user.userId` writes through `findByIdAndUpdate`: an
      undefined key is dropped from the update, so the stored updater is kept. */
  datatype UpdaterWrite = KeepUpdater | SetUpdater(id: Option<UserModel.UserId>)

  /** `req.user.userId` as an update key: absent keeps `updatedBy`, null unsets it, a string
      sets it, and any other value fails the `ObjectId` cast (`None`). */
  function UpdaterWriteOf(payload: Json.Value): (r: Option<UpdaterWrite>)
    ensures Json.Get(payload, "userId").None? <==> r == Some(KeepUpdater)
    ensures Json.Get(payload, "userId") == Some(Json.Null) <==> r == Some(SetUpdater(None))
    ensures forall u :: Json.Get(payload, "userId") == Some(Json.Str(u)) <==> r == Some(SetUpdater(Some(u)))
    ensures r.None? <==> UpdaterOf(payload).None?
  {
    var u := Json.Get(payload, "userId");
    if u.None? then Some(KeepUpdater)
    else if u.value.Null? then Some(SetUpdater(None))
    else if u.value.Str? then Some(SetUpdater(Some(u.value.s)))
    else None
  }

  /** The updater after the write: kept, or the value written. */
  function Written(current: Option<UserModel.UserId>, w: UpdaterWrite): Option<UserModel.UserId> {
    if w.KeepUpdater? then current else w.id
  }

  /** What the update writes for each of the five decoded fields. */
  datatype Decoded = Decoded(tags: Option<Json.Value>, specifications: Option<Json.Value>,
                             colorVariants: Option<Json.Value>, printingOptions: Option<Json.Value>,
                             businessInfo: Option<Json.Value>)

  /** The five `JSON.parse` steps in source order; `None` when one of them throws. */
  function DecodeFields(body: Form, json: string -> Option<Json.Value>): (r: Option<Decoded>)
    ensures r.None? <==> MalformedJson(body, json)
    ensures r.Some? ==>
      && Some(r.value.tags) == FieldUpdate(Field(body, "tags"), json)
      && Some(r.value.specifications) == FieldUpdate(Field(body, "specifications"), json)
      && Some(r.value.colorVariants) == FieldUpdate(Field(body, "colorVariants"), json)
      && Some(r.value.printingOptions) == FieldUpdate(Field(body, "printingOptions"), json)
      && Some(r.value.businessInfo) == FieldUpdate(Field(body, "businessInfo"), json)
  {
    var tags := FieldUpdate(Field(body, "tags"), json);
    var specs := FieldUpdate(Field(body, "specifications"), json);
    var colors := FieldUpdate(Field(body, "colorVariants"), json);
    var printing := FieldUpdate(Field(body, "printingOptions"), json);
    var business := FieldUpdate(Field(body, "businessInfo"), json);
    if tags.None? || specs.None? || colors.None? || printing.None? || business.None? then
      assert MalformedJson(body, json) by {
        if tags.None? { assert JsonFields[0] == "tags"; }
        else if specs.None? { assert JsonFields[1] == "specifications"; }
        else if colors.None? { assert JsonFields[2] == "colorVariants"; }
        else if printing.None? { assert JsonFields[3] == "printingOptions"; }
        else { assert JsonFields[4] == "businessInfo"; }
      }
      None
    else
      assert !MalformedJson(body, json);
      Some(Decoded(tags.value, specs.value, colors.value, printing.value, business.value))
  }

  /** The `tags` after the update: kept when not written, else the written value cast. */
  function TagsWrite(current: seq<string>, v: Option<Json.Value>): (r: Option<seq<string>>)
    ensures v.None? ==> r == Some(current)
    ensures v == Some(Json.Str("")) ==> r == Some([""])
  {
    ProductModel.EmptyStringTag();
    if v.None? then Some(current) else ProductModel.CastTags(v.value)
  }

  /** The written values cast to their schema types, under the model's cast rule: a value not
      already of the path's type fails the update (`None`). A field not written keeps its
      value, and `colorVariants`, an untyped path, takes whatever is written. */
  function CastFields(p: Product, d: Decoded): (r: Option<Product>)
    ensures r.Some? ==> r.value.(tags := p.tags, specifications := p.specifications, colorVariants := p.colorVariants,
                                 printingOptions := p.printingOptions, businessInfo := p.businessInfo) == p
    ensures r.Some? ==> Some(r.value.tags) == TagsWrite(p.tags, d.tags)
    ensures r.Some? ==> r.value.colorVariants == d.colorVariants.GetOr(p.colorVariants)
    ensures r.Some? && d.specifications.None? ==> r.value.specifications == p.specifications
    ensures r.Some? && d.printingOptions.None? ==> r.value.printingOptions == p.printingOptions
    ensures r.Some? && d.businessInfo.None? ==> r.value.businessInfo == p.businessInfo
    ensures (|| d.specifications == Some(Json.Str("")) || d.printingOptions == Some(Json.Str(""))
             || d.businessInfo == Some(Json.Str(""))) ==> r.None?
  {
    var t := TagsWrite(p.tags, d.tags);
    var s := if d.specifications.None? then Some(p.specifications) else ProductModel.CastStringMap(d.specifications.value);
    var po := if d.printingOptions.None? then Some(p.printingOptions) else ProductModel.CastPrinting(d.printingOptions);
    var bi := if d.businessInfo.None? then Some(p.businessInfo) else ProductModel.CastBusiness(d.businessInfo);
    if t.None? || s.None? || po.None? || bi.None? then None
    else Some(p.(tags := t.value, specifications := s.value, colorVariants := d.colorVariants.GetOr(p.colorVariants),
                 printingOptions := po.value, businessInfo := bi.value))
  }

  /** The five decoded fields set on the product: the parse steps, then the casts. */
  function SetJsonFields(p: Product, body: Form, json: string -> Option<Json.Value>): (r: Option<Product>)
    ensures MalformedJson(body, json) ==> r.None?
    ensures r.Some? ==> r.value.(tags := p.tags, specifications := p.specifications, colorVariants := p.colorVariants,
                                 printingOptions := p.printingOptions, businessInfo := p.businessInfo) == p
    ensures r.Some? && Field(body, "tags").None? ==> r.value.tags == p.tags
    ensures r.Some? && Field(body, "specifications").None? ==> r.value.specifications == p.specifications
    ensures r.Some? && Field(body, "colorVariants").None? ==> r.value.colorVariants == p.colorVariants
    ensures r.Some? && Field(body, "printingOptions").None? ==> r.value.printingOptions == p.printingOptions
    ensures r.Some? && Field(body, "businessInfo").None? ==> r.value.businessInfo == p.businessInfo
  {
    var d := DecodeFields(body, json);
    if d.None? then None else CastFields(p, d.value)
  }

  /** An empty `tags` field is written as it is and cast to `[""]`. */
  lemma EmptyTagsWritten(p: Product, body: Form, json: string -> Option<Json.Value>)
    requires Field(body, "tags") == Some("")
    ensures var r := SetJsonFields(p, body, json);
      r.Some? ==> r.value.tags == [""]
  {
    var d := DecodeFields(body, json);
    if d.Some? {
      EmptyTagsDecoded(body, json);
      assert SetJsonFields(p, body, json) == CastFields(p, d.value);
    }
  }

  lemma EmptyTagsDecoded(body: Form, json: string -> Option<Json.Value>)
    requires Field(body, "tags") == Some("") && DecodeFields(body, json).Some?
    ensures DecodeFields(body, json).value.tags == Some(Json.Str(""))
  {
  }

  /** `colorVariants` is an untyped path: an empty field is stored as the empty string, and a
      truthy one as whatever `JSON.parse` gives. */
  lemma ColorVariantsWritten(p: Product, body: Form, json: string -> Option<Json.Value>)
    ensures var r := SetJsonFields(p, body, json);
      && (r.Some? && Field(body, "colorVariants") == Some("") ==> r.value.colorVariants == Json.Str(""))
      && (r.Some? && Truthy(Field(body, "colorVariants")) ==> Some(r.value.colorVariants) == json(body["colorVariants"]))
  {
    var d := DecodeFields(body, json);
    if d.Some? {
      assert Some(d.value.colorVariants) == FieldUpdate(Field(body, "colorVariants"), json);
    }
  }

  /** Under the model's cast rule an empty string is not a map or an object, so an empty
      specifications, printing options or business info field fails the update. */
  lemma EmptyObjectFieldsRefused(p: Product, body: Form, json: string -> Option<Json.Value>)
    requires || Field(body, "specifications") == Some("") || Field(body, "printingOptions") == Some("")
             || Field(body, "businessInfo") == Some("")
    ensures SetJsonFields(p, body, json).None?
  {
    var d := DecodeFields(body, json);
    if d.Some? {
      assert d.value.specifications == Some(Json.Str("")) || d.value.printingOptions == Some(Json.Str(""))
             || d.value.businessInfo == Some(Json.Str(""));
    }
  }

  datatype UpdateOutcome = UpdateThrew | UpdateNotFound | Updated(product: Product)

  function UpdateStatus(r: UpdateOutcome): int {
    match r
    case UpdateThrew => 500
    case UpdateNotFound => 404
    case Updated(_) => 200
  }

  /** The `image` the update writes: the upload's URL, else the body's own `image` field, else
      none, which leaves the stored one. */
  function ImageWrite(body: Form, main: Option<Upload>): Option<string>
    requires main != Some(UploadThrew)
  {
    if main.Some? then Some(main.value.url) else Field(body, "image")
  }

  /** The `images` the update writes: the merge when files were added, else the body's own
      `images` field cast to a one-element array, else none, which leaves the stored ones. */
  function ImagesWrite(existing: seq<string>, body: Form, urls: seq<string>): Option<seq<string>> {
    if |urls| > 0 then Some(MergedImages(existing, urls))
    else if "images" in body then Some([body["images"]])
    else None
  }

  /** The stored product with the written image and images in place. */
  function ImagesApplied(p: Product, body: Form, main: Option<Upload>, urls: seq<string>): Product
    requires main != Some(UploadThrew)
  {
    var image := ImageWrite(body, main);
    var images := ImagesWrite(p.images, body, urls);
    var withImage := if image.Some? then p.(image := image.value) else p;
    if images.Some? then withImage.(images := images.value) else withImage
  }

  /** The product after a successful update: the written image (the required validator refuses
      an empty one), the written images, decoded fields, `updatedBy` and the `updatedAt`
      timestamp. */
  function UpdatedProduct(p: Product, body: Form, main: Option<Upload>, urls: seq<string>,
                          updater: UpdaterWrite, json: string -> Option<Json.Value>, now: nat)
    : (r: Option<Product>)
    requires main != Some(UploadThrew)
    ensures MalformedJson(body, json) ==> r.None?
    ensures ImageWrite(body, main) == Some("") ==> r.None?
    ensures r.Some? ==>
      && r.value.image == (if main.Some? then main.value.url else if "image" in body then body["image"] else p.image)
      && (main.Some? || "image" in body ==> r.value.image != "")
      && r.value.images == (if |urls| > 0 then p.images + urls else if "images" in body then [body["images"]] else p.images)
      && r.value.updatedAt == now
      && (updater.KeepUpdater? ==> r.value.updatedBy == p.updatedBy)
      && (updater.SetUpdater? ==> r.value.updatedBy == updater.id)
      && r.value.(image := p.image, images := p.images, tags := p.tags, specifications := p.specifications,
                  colorVariants := p.colorVariants, printingOptions := p.printingOptions,
                  businessInfo := p.businessInfo, updatedBy := p.updatedBy, updatedAt := p.updatedAt) == p
  {
    if ImageWrite(body, main) == Some("") then None
    else
      var decoded := SetJsonFields(ImagesApplied(p, body, main, urls), body, json);
      if decoded.None? then None else Some(decoded.value.(updatedBy := Written(p.updatedBy, updater), updatedAt := now))
  }

  /** Falsy decoded fields are written, not skipped: an empty `tags` or `colorVariants` field
      reaches the product, and an empty map or nested-object field, which the model's cast rule
      refuses, fails the update. */
  lemma UpdateWritesEmptyFields(p: Product, body: Form, main: Option<Upload>, urls: seq<string>,
                                updater: UpdaterWrite, json: string -> Option<Json.Value>, now: nat)
    requires main != Some(UploadThrew)
    ensures var r := UpdatedProduct(p, body, main, urls, updater, json, now);
      && (r.Some? && Field(body, "tags") == Some("") ==> r.value.tags == [""])
      && (r.Some? && Field(body, "colorVariants") == Some("") ==> r.value.colorVariants == Json.Str(""))
      && ((|| Field(body, "specifications") == Some("") || Field(body, "printingOptions") == Some("")
           || Field(body, "businessInfo") == Some("")) ==> r.None?)
  {
    if ImageWrite(body, main) != Some("") {
      var base := ImagesApplied(p, body, main, urls);
      if Field(body, "tags") == Some("") {
        EmptyTagsWritten(base, body, json);
      }
      ColorVariantsWritten(base, body, json);
      if || Field(body, "specifications") == Some("") || Field(body, "printingOptions") == Some("")
         || Field(body, "businessInfo") == Some("") {
        EmptyObjectFieldsRefused(base, body, json);
      }
    }
  }

  /** `PUT /update/:id`. The other form fields the route also sets are not part of this model. */
  function UpdateProduct(store: seq<Product>, id: Option<ProductModel.ProductId>, body: Form, main: Option<Upload>,
                         extra: seq<Upload>, payload: Json.Value, json: string -> Option<Json.Value>, now: nat)
    : (r: (UpdateOutcome, seq<Product>))
    ensures !r.0.Updated? ==> r.1 == store
    ensures r.0.UpdateNotFound? <==> id.Some? && !ProductModel.IdTaken(store, id.value)
    ensures id.Some? && ProductModel.IdTaken(store, id.value) && MalformedJson(body, json) ==> r.0.UpdateThrew?
    ensures id.Some? && ProductModel.IdTaken(store, id.value) && UpdaterWriteOf(payload).None? ==> r.0.UpdateThrew?
    ensures r.0.Updated? ==>
      id.Some? && ProductModel.IndexOfId(store, id.value).Some? && Urls(extra).Some? && main != Some(UploadThrew)
    ensures r.0.Updated? ==>
      var i := ProductModel.IndexOfId(store, id.value).value;
      var old_ := store[i];
      var p := r.0.product;
      && r.1 == store[i := p]
      && p.image == (if main.Some? then main.value.url else if "image" in body then body["image"] else old_.image)
      && p.images == (if |extra| > 0 then old_.images + Urls(extra).value
                      else if "images" in body then [body["images"]] else old_.images)
      && p.updatedAt == now
      && (Json.Get(payload, "userId").None? ==> p.updatedBy == old_.updatedBy)
      && (Json.Get(payload, "userId") == Some(Json.Null) ==> p.updatedBy.None?)
      && (forall u :: Json.Get(payload, "userId") == Some(Json.Str(u)) ==> p.updatedBy == Some(u))
      && p.(image := old_.image, images := old_.images, tags := old_.tags, specifications := old_.specifications,
            colorVariants := old_.colorVariants, printingOptions := old_.printingOptions,
            businessInfo := old_.businessInfo, updatedBy := old_.updatedBy, updatedAt := old_.updatedAt) == old_
  {
    if id.None? then (UpdateThrew, store)
    else
      var i := ProductModel.IndexOfId(store, id.value);
      if i.None? then (UpdateNotFound, store)
      else
        var urls := Urls(extra);
        var updater := UpdaterWriteOf(payload);
        if main == Some(UploadThrew) || urls.None? || updater.None? then
          (UpdateThrew, store)
        else
          var p := UpdatedProduct(store[i.value], body, main, urls.value, updater.value, json, now);
          if p.None? then (UpdateThrew, store) else (Updated(p.value), store[i.value := p.value])
  }

  /** An admin token without `userId` updates the product and keeps its stored updater. */
  lemma UpdateWithoutUserIdKeepsUpdater(store: seq<Product>, id: ProductModel.ProductId, body: Form,
                                        main: Option<Upload>, extra: seq<Upload>,
                                        json: string -> Option<Json.Value>, now: nat)
    requires UpdateProduct(store, Some(id), body, main, extra, Json.Obj(map["role" := Json.Str("admin")]), json, now).0.Updated?
    ensures var r := UpdateProduct(store, Some(id), body, main, extra, Json.Obj(map["role" := Json.Str("admin")]), json, now);
      r.0.product.updatedBy == store[ProductModel.IndexOfId(store, id).value].updatedBy
  {
    assert Json.Get(Json.Obj(map["role" := Json.Str("admin")]), "userId").None?;
  }

  // ---------------------------------------------------------------------------------------
  // Status toggle
  // ---------------------------------------------------------------------------------------

  datatype ToggleOutcome = ToggleThrew | ToggleNotFound | Toggled(product: Product)

  function ToggleStatusCode(r: ToggleOutcome): int {
    match r
    case ToggleThrew => 500
    case ToggleNotFound => 404
    case Toggled(_) => 200
  }

  /** `PATCH /toggle-status/:id`: `isActive` negated, `updatedBy` set, and `save` (which
      validates the whole document and stamps `updatedAt`). */
  function ToggleProductStatus(store: seq<Product>, id: Option<ProductModel.ProductId>, payload: Json.Value, now: nat)
    : (r: (ToggleOutcome, seq<Product>))
    ensures !r.0.Toggled? ==> r.1 == store
    ensures r.0.ToggleNotFound? <==> id.Some? && !ProductModel.IdTaken(store, id.value)
    ensures r.0.Toggled? ==> id.Some? && ProductModel.IndexOfId(store, id.value).Some?
    ensures r.0.Toggled? ==>
      var i := ProductModel.IndexOfId(store, id.value).value;
      var p := r.0.product;
      && r.1 == store[i := p]
      && p.isActive == !store[i].isActive
      && UpdaterOf(payload) == Some(p.updatedBy) && p.updatedAt == now
      && p.(isActive := store[i].isActive, updatedBy := store[i].updatedBy, updatedAt := store[i].updatedAt) == store[i]
  {
    if id.None? then (ToggleThrew, store)
    else
      var i := ProductModel.IndexOfId(store, id.value);
      if i.None? then (ToggleNotFound, store)
      else
        var updater := UpdaterOf(payload);
        var old_ := store[i.value];
        if updater.None? then (ToggleThrew, store)
        else
          var p := old_.(isActive := !old_.isActive, updatedBy := updater.value, updatedAt := now);
          if !ProductModel.ValidProduct(p) then (ToggleThrew, store)
          else (Toggled(p), store[i.value := p])
  }

  /** Two toggles restore `isActive`: afterwards the product differs from the original only in
      `updatedBy` and `updatedAt`. */
  lemma ToggleTwiceRestores(store: seq<Product>, id: ProductModel.ProductId, payload: Json.Value, t1: nat, t2: nat)
    requires ToggleProductStatus(store, Some(id), payload, t1).0.Toggled?
    ensures var first := ToggleProductStatus(store, Some(id), payload, t1);
      var second := ToggleProductStatus(first.1, Some(id), payload, t2);
      var i := ProductModel.IndexOfId(store, id).value;
      && second.0.Toggled?
      && second.0.product.isActive == store[i].isActive
      && second.1 == store[i := store[i].(updatedBy := first.0.product.updatedBy, updatedAt := t2)]
  {
    var first := ToggleProductStatus(store, Some(id), payload, t1);
    var i := ProductModel.IndexOfId(store, id).value;
    var s1 := first.1;
    FirstIndexKept(store, i, first.0.product);
    assert ProductModel.IndexOfId(s1, id) == Some(i);
    assert ProductModel.ValidProduct(s1[i].(isActive := !s1[i].isActive, updatedBy := first.0.product.updatedBy, updatedAt := t2));
  }

  /** Replacing the first product with some id by one with the same id keeps it the first. */
  lemma FirstIndexKept(store: seq<Product>, i: nat, p: Product)
    requires i < |store| && ProductModel.IndexOfId(store, store[i].id) == Some(i) && p.id == store[i].id
    ensures ProductModel.IndexOfId(store[i := p], p.id) == Some(i)
  {
    IndexIsFirst(store, p.id);
    IndexAt(store[i := p], p.id, i);
  }

  /** No element before the one `IndexOfId` returns has that id. */
  lemma {:induction false} IndexIsFirst(store: seq<Product>, id: ProductModel.ProductId)
    ensures ProductModel.IndexOfId(store, id).Some? ==>
      forall j :: 0 <= j < ProductModel.IndexOfId(store, id).value ==> store[j].id != id
  {
    if store != [] && store[0].id != id {
      IndexIsFirst(store[1..], id);
      assert forall j :: 1 <= j < |store| ==> store[j] == store[1..][j - 1];
    }
  }

  /** The first element with an id is the one `IndexOfId` returns. */
  lemma {:induction false} IndexAt(store: seq<Product>, id: ProductModel.ProductId, i: nat)
    requires i < |store| && store[i].id == id
    requires forall j :: 0 <= j < i ==> store[j].id != id
    ensures ProductModel.IndexOfId(store, id) == Some(i)
  {
    if i > 0 {
      assert forall j :: 1 <= j < |store| ==> store[j] == store[1..][j - 1];
      IndexAt(store[1..], id, i - 1);
    }
  }

  // ---------------------------------------------------------------------------------------
  // The collection object
  // ---------------------------------------------------------------------------------------

  /** The product collection, changed in place by the state-changing routes. */
  class ProductCatalog {
    var products: seq<Product>

    constructor()
      ensures products == []
    {
      products := [];
    }

    /** The save step shared by both create routes. */
    method Save(route: CreateRoute, body: Form, imageUrl: string, images: seq<string>,
                payload: Json.Value, ps: Parsers, now: nat) returns (r: CreateOutcome)
      modifies this
      ensures (r, products) == CreateWith(route, old(products), body, imageUrl, images, payload, ps, now)
    {
      var draft := BuildDraft(route, body, imageUrl, images, UserIdOf(payload), ps, now);
      if draft.None? {
        return CreateThrew;
      }
      var p := ProductModel.NewProduct(ProductModel.NextId(products), draft.value, now);
      if p.None? {
        return CreateThrew;
      }
      products := products + [p.value];
      r := Created(p.value);
    }

    /** `POST /`: the main image, the loop over the additional images, then the save. */
    method Create(body: Form, main: Option<Upload>, extra: seq<Upload>, payload: Json.Value, ps: Parsers, now: nat)
      returns (r: CreateOutcome)
      modifies this
      ensures (r, products) == CreateAtBase(old(products), body, main, extra, payload, ps, now)
    {
      var imageUrl := Placeholder;
      if main.Some? {
        if main.value.UploadThrew? {
          return CreateThrew;
        }
        imageUrl := main.value.url;
      }
      var images := CollectUrls(extra);
      if images.None? {
        return CreateThrew;
      }
      r := Save(BasePath, body, imageUrl, images.value, payload, ps, now);
    }

    /** `POST /create`: the one image, then the save. */
    method CreateWithImage(body: Form, file: Option<Upload>, payload: Json.Value, ps: Parsers, now: nat)
      returns (r: CreateOutcome)
      modifies this
      ensures (r, products) == CreateSingle(old(products), body, file, payload, ps, now)
    {
      var imageUrl := Placeholder;
      if file.Some? {
        if file.value.UploadThrew? {
          return CreateThrew;
        }
        imageUrl := file.value.url;
      }
      r := Save(CreatePath, body, imageUrl, [], payload, ps, now);
    }

    /** `PUT /update/:id`: the uploads, the merge, the decoded fields, then the write. */
    method Update(id: Option<ProductModel.ProductId>, body: Form, main: Option<Upload>, extra: seq<Upload>,
                  payload: Json.Value, json: string -> Option<Json.Value>, now: nat) returns (r: UpdateOutcome)
      modifies this
      ensures (r, products) == UpdateProduct(old(products), id, body, main, extra, payload, json, now)
    {
      if id.None? {
        return UpdateThrew;
      }
      var i := ProductModel.IndexOfId(products, id.value);
      if i.None? {
        return UpdateNotFound;
      }
      if main == Some(UploadThrew) {
        return UpdateThrew;
      }
      var urls := CollectUrls(extra);
      var updater := UpdaterWriteOf(payload);
      if urls.None? || updater.None? {
        return UpdateThrew;
      }
      var p := UpdatedProduct(products[i.value], body, main, urls.value, updater.value, json, now);
      if p.None? {
        return UpdateThrew;
      }
      products := products[i.value := p.value];
      r := Updated(p.value);
    }

    /** `PATCH /toggle-status/:id`: the flag flipped and `updatedBy` assigned on the loaded
        document, then `save`. */
    method Toggle(id: Option<ProductModel.ProductId>, payload: Json.Value, now: nat) returns (r: ToggleOutcome)
      modifies this
      ensures (r, products) == ToggleProductStatus(old(products), id, payload, now)
    {
      if id.None? {
        return ToggleThrew;
      }
      var i := ProductModel.IndexOfId(products, id.value);
      if i.None? {
        return ToggleNotFound;
      }
      var updater := UpdaterOf(payload);
      if updater.None? {
        return ToggleThrew;
      }
      var p := products[i.value];
      p := p.(isActive := !p.isActive);
      p := p.(updatedBy := updater.value);
      p := p.(updatedAt := now);
      if !ProductModel.ValidProduct(p) {
        return ToggleThrew;
      }
      products := products[i.value := p];
      r := Toggled(p);
    }

    /** `DELETE /delete/:id` */
    method Delete(id: Option<ProductModel.ProductId>) returns (r: DeleteOutcome)
      modifies this
      ensures (r, products) == DeleteProduct(old(products), id)
    {
      if id.None? {
        return DeleteThrew;
      }
      var i := ProductModel.IndexOfId(products, id.value);
      if i.None? {
        return DeleteNotFound;
      }
      products := Collections.RemoveAt(products, i.value);
      r := Deleted;
    }
  }
}
