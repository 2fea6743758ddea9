/**
 * The Product schema (models/Product.js): required fields, the bounds on price,
 * discount and rating, the defaults, the casts the create routes depend on, and
 * the `discountedPrice` virtual, over exact reals.
 */
module ProductModel {
  import opened Wrappers
  import Json
  import JsString
  import UserModel

  type ProductId = nat

  /** A JavaScript number produced by `parseFloat`, `parseInt` or `new Date(...)`:
      NaN when the text did not parse. */
  datatype Number = NaN | Finite(value: real)

  datatype PrintingOptions = PrintingOptions(paperType: string, size: string, color: string, quantity: real)

  datatype BusinessInfo = BusinessInfo(businessName: string, address: string, phone: string, email: string)

  const DefaultPrintingOptions := PrintingOptions("", "", "", 1.0)
  const DefaultBusinessInfo := BusinessInfo("", "", "", "")

  datatype Product = Product(
    id: ProductId,
    name: string,
    description: string,
    price: real,
    originalPrice: Option<real>,
    discount: real,
    category: string,
    subcategory: string,
    image: string,
    images: seq<string>,
    inStock: bool,
    stockQuantity: real,
    tags: seq<string>,
    specifications: map<string, string>,
    colorVariants: Json.Value,
    rating: real,
    reviewCount: int,
    isActive: bool,
    isFeatured: bool,
    newsContent: string,
    newsDate: Option<real>,
    newsAuthor: string,
    printingOptions: PrintingOptions,
    businessInfo: BusinessInfo,
    createdBy: UserModel.UserId,
    updatedBy: Option<UserModel.UserId>,
    createdAt: nat,
    updatedAt: nat)

  /** The validators: the required strings are non-empty, `price >= 0`,
      `0 <= discount <= 100` and `0 <= rating <= 5`. */
  predicate ValidProduct(p: Product) {
    && p.name != "" && p.description != "" && p.category != "" && p.image != "" && p.createdBy != ""
    && p.price >= 0.0
    && 0.0 <= p.discount <= 100.0
    && 0.0 <= p.rating <= 5.0
  }

  /** The `discountedPrice` virtual. */
  function DiscountedPrice(p: Product): real {
    if p.discount > 0.0 then p.price - (p.price * p.discount / 100.0) else p.price
  }

  /** Within the schema bounds the discounted price lies between 0 and the price, and it is the
      price scaled by the fraction not discounted. */
  lemma DiscountedPriceBounds(p: Product)
    requires p.price >= 0.0 && 0.0 <= p.discount <= 100.0
    ensures 0.0 <= DiscountedPrice(p) <= p.price
    ensures DiscountedPrice(p) == p.price * (100.0 - p.discount) / 100.0
  {
    assert p.price * p.discount / 100.0 <= p.price * 100.0 / 100.0;
  }

  /** The `productData` object the create routes pass to `new Product(...)`. `None` is an
      undefined field; `NaN` a number that did not parse. */
  datatype ProductDraft = ProductDraft(
    name: Option<string>,
    description: Option<string>,
    price: Number,
    originalPrice: Option<Number>,
    discount: Number,
    category: string,
    subcategory: string,
    image: string,
    images: seq<string>,
    stockQuantity: Number,
    tags: Json.Value,
    specifications: Json.Value,
    colorVariants: Json.Value,
    newsContent: Option<string>,
    newsDate: Option<Number>,
    newsAuthor: Option<string>,
    printingOptions: Option<Json.Value>,
    businessInfo: Option<Json.Value>,
    createdBy: Option<UserModel.UserId>)

  /** A `[String]` path with `trim`: an array of strings, each trimmed; a lone string is
      first wrapped into an array of one. */
  function CastTags(v: Json.Value): (r: Option<seq<string>>)
    ensures r.Some? <==> v.Str? || (v.Arr? && forall i :: 0 <= i < |v.elems| ==> v.elems[i].Str?)
    ensures v.Str? ==> r == Some([JsString.Trim(v.s)])
    ensures r.Some? && v.Arr? ==>
      |r.value| == |v.elems| && forall i :: 0 <= i < |r.value| ==> r.value[i] == JsString.Trim(v.elems[i].s)
  {
    if v.Str? then Some([JsString.Trim(v.s)])
    else if v.Arr? && forall i :: 0 <= i < |v.elems| ==> v.elems[i].Str? then
      Some(seq(|v.elems|, i requires 0 <= i < |v.elems| => JsString.Trim(v.elems[i].s)))
    else None
  }

  /** The empty string casts to the one-element array `[""]`. */
  lemma EmptyStringTag()
    ensures CastTags(Json.Str("")) == Some([""])
  {
    assert JsString.Trim("") == "";
  }

  /** A `Map` of String: an object whose every value is a string. */
  function CastStringMap(v: Json.Value): (r: Option<map<string, string>>)
    ensures r.Some? <==> v.Obj? && forall k :: k in v.fields ==> v.fields[k].Str?
    ensures r.Some? ==> r.value.Keys == v.fields.Keys && forall k :: k in r.value ==> v.fields[k] == Json.Str(r.value[k])
  {
    if v.Obj? && forall k :: k in v.fields ==> v.fields[k].Str? then
      Some(map k | k in v.fields :: v.fields[k].s)
    else None
  }

  /** A nested String path: absent gives the default, a string is kept, anything else fails the cast. */
  function CastSubString(v: Json.Value, k: string, default: string): Option<string> {
    var f := Json.Get(v, k);
    if f.None? then Some(default) else if f.value.Str? then Some(f.value.s) else None
  }

  /** The nested `printingOptions` object, each sub-path defaulted. */
  function CastPrinting(v: Option<Json.Value>): (r: Option<PrintingOptions>)
    ensures v.None? ==> r == Some(DefaultPrintingOptions)
    ensures v == Some(Json.Obj(map[])) ==> r == Some(DefaultPrintingOptions)
  {
    if v.None? then Some(DefaultPrintingOptions)
    else if !v.value.Obj? then None
    else
      var o := v.value;
      var paper := CastSubString(o, "paperType", "");
      var size := CastSubString(o, "size", "");
      var color := CastSubString(o, "color", "");
      var q := Json.Get(o, "quantity");
      var quantity := if q.None? then Some(1.0) else if q.value.Num? then Some(q.value.n) else None;
      if paper.None? || size.None? || color.None? || quantity.None? then None
      else Some(PrintingOptions(paper.value, size.value, color.value, quantity.value))
  }

  /** The nested `businessInfo` object, each sub-path defaulted. */
  function CastBusiness(v: Option<Json.Value>): (r: Option<BusinessInfo>)
    ensures v.None? ==> r == Some(DefaultBusinessInfo)
    ensures v == Some(Json.Obj(map[])) ==> r == Some(DefaultBusinessInfo)
  {
    if v.None? then Some(DefaultBusinessInfo)
    else if !v.value.Obj? then None
    else
      var o := v.value;
      var name := CastSubString(o, "businessName", "");
      var address := CastSubString(o, "address", "");
      var phone := CastSubString(o, "phone", "");
      var email := CastSubString(o, "email", "");
      if name.None? || address.None? || phone.None? || email.None? then None
      else Some(BusinessInfo(name.value, address.value, phone.value, email.value))
  }

  function NumberOr(n: Option<Number>, default: Option<real>): Option<Option<real>> {
    if n.None? then Some(default) else if n.value.NaN? then None else Some(Some(n.value.value))
  }

  /** `new Product(draft).save()` up to the insert: casts, defaults for everything the draft
      leaves out (`isActive` true, `isFeatured` false, `inStock` true, `rating` 0, the nested
      objects' sub-paths), `name` trimmed, and the validators. */
  function NewProduct(id: ProductId, d: ProductDraft, now: nat): (r: Option<Product>)
    ensures r.Some? <==>
      && d.name.Some? && JsString.Trim(d.name.value) != ""
      && d.description.Some? && d.description.value != ""
      && d.createdBy.Some? && d.createdBy.value != ""
      && d.category != "" && d.image != ""
      && d.price.Finite? && d.price.value >= 0.0
      && d.discount.Finite? && 0.0 <= d.discount.value <= 100.0
      && d.stockQuantity.Finite?
      && CastTags(d.tags).Some? && CastStringMap(d.specifications).Some?
      && CastPrinting(d.printingOptions).Some? && CastBusiness(d.businessInfo).Some?
      && NumberOr(d.originalPrice, None).Some? && NumberOr(d.newsDate, None).Some?
    ensures r.Some? ==> ValidProduct(r.value) && r.value.id == id
    ensures r.Some? ==> r.value.isActive && !r.value.isFeatured && r.value.inStock
    ensures r.Some? ==> r.value.rating == 0.0 && r.value.reviewCount == 0 && r.value.updatedBy.None?
    ensures r.Some? ==> r.value.category == d.category && r.value.image == d.image && r.value.images == d.images
    ensures r.Some? ==> r.value.subcategory == d.subcategory && r.value.colorVariants == d.colorVariants
    ensures r.Some? ==> d.price == Finite(r.value.price) && d.discount == Finite(r.value.discount)
    ensures r.Some? ==> r.value.createdAt == now && r.value.updatedAt == now
    ensures r.Some? ==> d.stockQuantity == Finite(r.value.stockQuantity) && Some(r.value.tags) == CastTags(d.tags)
    ensures r.Some? ==> Some(r.value.specifications) == CastStringMap(d.specifications)
    ensures r.Some? ==> r.value.newsContent == d.newsContent.GetOr("") && r.value.newsAuthor == d.newsAuthor.GetOr("")
    ensures r.Some? ==> Some(r.value.newsDate) == NumberOr(d.newsDate, None)
    ensures r.Some? ==> Some(r.value.printingOptions) == CastPrinting(d.printingOptions)
    ensures r.Some? ==> Some(r.value.businessInfo) == CastBusiness(d.businessInfo)
    ensures r.Some? ==> d.createdBy == Some(r.value.createdBy) && d.name.Some? && r.value.name == JsString.Trim(d.name.value)
    ensures d.createdBy.None? || d.price.NaN? || d.discount.NaN? ==> r.None?
  {
    var tags := CastTags(d.tags);
    var specs := CastStringMap(d.specifications);
    var printing := CastPrinting(d.printingOptions);
    var business := CastBusiness(d.businessInfo);
    var original := NumberOr(d.originalPrice, None);
    var newsDate := NumberOr(d.newsDate, None);
    if d.name.None? || d.description.None? || d.createdBy.None? || d.price.NaN? || d.discount.NaN?
       || d.stockQuantity.NaN? || tags.None? || specs.None? || printing.None? || business.None?
       || original.None? || newsDate.None?
    then None
    else
      var p := Product(id, JsString.Trim(d.name.value), d.description.value, d.price.value,
                       original.value, d.discount.value, d.category, d.subcategory, d.image, d.images,
                       true, d.stockQuantity.value, tags.value, specs.value, d.colorVariants,
                       0.0, 0, true, false, d.newsContent.GetOr(""), newsDate.value,
                       d.newsAuthor.GetOr(""), printing.value, business.value, d.createdBy.value,
                       None, now, now);
      if ValidProduct(p) then Some(p) else None
  }

  predicate UniqueIds(store: seq<Product>) {
    forall i, j :: 0 <= i < j < |store| ==> store[i].id != store[j].id
  }

  predicate IdTaken(store: seq<Product>, id: ProductId) {
    exists i :: 0 <= i < |store| && store[i].id == id
  }

  /** Appending a document whose `_id` is not taken keeps the ids unique. */
  lemma AppendFreshKeepsIdsUnique(store: seq<Product>, p: Product)
    requires UniqueIds(store) && !IdTaken(store, p.id)
    ensures UniqueIds(store + [p])
  {
    var s := store + [p];
    forall i, j | 0 <= i < j < |s| ensures s[i].id != s[j].id {
      assert s[i] == store[i];
      if j < |store| {
        assert s[j] == store[j];
      }
    }
  }

  /** The largest `_id` in the collection, 0 when it is empty; `FileModel.MaxId` over products. */
  function MaxId(store: seq<Product>): (m: nat)
    ensures forall i :: 0 <= i < |store| ==> store[i].id <= m
  {
    if store == [] then 0
    else
      var m := MaxId(store[1..]);
      assert forall j :: 1 <= j < |store| ==> store[j] == store[1..][j - 1];
      if store[0].id > m then store[0].id else m
  }

  /** The `_id` a new document receives: one that no stored document has; `FileModel.NextId`
      over products. */
  function NextId(store: seq<Product>): (r: ProductId)
    ensures !IdTaken(store, r)
  {
    MaxId(store) + 1
  }

  /** Position of the document with this `_id` (`findById`); `FileModel.IndexOfId` over
      products. */
  function IndexOfId(store: seq<Product>, id: ProductId): (r: Option<nat>)
    ensures r.Some? ==> r.value < |store| && store[r.value].id == id
    ensures r.None? <==> !IdTaken(store, id)
  {
    if store == [] then None
    else if store[0].id == id then Some(0)
    else
      var r := IndexOfId(store[1..], id);
      assert forall j :: 1 <= j < |store| ==> store[j] == store[1..][j - 1];
      if r.Some? then Some(r.value + 1) else None
  }
}
