/** The unified product routes (backend/routes/productRoutes.js): the response
    normaliser with its derived discount price, create-time validation and
    defaults, update-only-if-supplied, the delete-image thumbnail adjustment, and
    the filtered, sorted, paginated listing. The collection is a class whose
    methods are the state-changing handlers; the documents they build are given by
    pure functions, and the properties are proved about those. */
module ProductRoutes {
  import opened Wrappers
  import opened FormFields
  import opened Gallery
  import opened ProductSchema
  import opened Ordering
  import opened ObjectIds
  import opened Lists

  /** `Number(x)` for the thumbnail index: not sent, not a number (NaN), or a number. */
  datatype NumInput = Absent | NotANumber | Num(n: int)

  /** The object `normalizeProduct` returns. */
  datatype ProductView = ProductView(
    id: string,
    brand: string,
    name: string,
    category: seq<string>,
    productType: seq<string>,
    price: real,
    discountPercentage: real,
    discountPrice: real,
    images: seq<Image>,
    thumbnailIndex: int,
    hoverImageUrl: Option<string>,
    texts: map<TextField, string>,
    createdAt: int,
    updatedAt: int)

  /** `price - price * d / 100`; `d` is not clamped. */
  function DiscountPrice(price: real, d: real): real {
    price - price * d / 100.0
  }

  /** With a percentage in [0, 100] and a non-negative price, the discounted price
      lies between 0 and the price. */
  lemma DiscountPriceBounds(price: real, d: real)
    requires 0.0 <= price && 0.0 <= d <= 100.0
    ensures 0.0 <= DiscountPrice(price, d) <= price
  {
    assert price * d <= price * 100.0;
    assert 0.0 <= price * d;
  }

  /** For a non-zero price the discounted price equals the price exactly when there is no discount. */
  lemma DiscountPriceUnchangedIff(price: real, d: real)
    requires price != 0.0
    ensures DiscountPrice(price, d) == price <==> d == 0.0
  {
    if DiscountPrice(price, d) == price {
      assert price * d == 0.0;
    }
  }

  /** The percentage is not clamped: above 100 the discounted price turns negative. */
  lemma DiscountAboveHundredIsNegative(price: real, d: real)
    requires price > 0.0 && d > 100.0
    ensures DiscountPrice(price, d) < 0.0
  {
    assert price * d > price * 100.0;
  }

  lemma ScenarioQuarterOff()
    ensures DiscountPrice(1000.0, 25.0) == 750.0
  {
  }

  /** `normalizeProduct(p)`. */
  function NormalizeProduct(p: Product): (v: ProductView)
    ensures v.id == p.id && v.brand == p.brand && v.name == p.name && v.price == p.price
    ensures v.category == p.category && v.productType == p.productType
    ensures v.images == p.images && v.thumbnailIndex == p.thumbnailIndex
    ensures v.createdAt == p.createdAt && v.updatedAt == p.updatedAt
    // a missing percentage counts as 0, so the price is undiscounted
    ensures p.discountPercentage.None? ==> v.discountPercentage == 0.0 && v.discountPrice == p.price
    ensures p.discountPercentage.Some? ==> v.discountPercentage == p.discountPercentage.value
    ensures v.discountPrice == DiscountPrice(p.price, v.discountPercentage)
    // the hover image is the second image's url, or null
    ensures |p.images| < 2 ==> v.hoverImageUrl.None?
    ensures |p.images| >= 2 && p.images[1].url != "" ==> v.hoverImageUrl == Some(p.images[1].url)
    ensures |p.images| >= 2 && p.images[1].url == "" ==> v.hoverImageUrl.None?
    // every descriptive field is present, "" when the document lacks it
    ensures v.texts.Keys == TextFields
    ensures forall f :: f in TextFields ==> v.texts[f] == TextOf(p.texts, f)
  {
    var d := p.discountPercentage.GetOr(0.0);
    ProductView(
      p.id, p.brand, p.name, p.category, p.productType, p.price,
      d, DiscountPrice(p.price, d),
      p.images, p.thumbnailIndex,
      if |p.images| >= 2 && p.images[1].url != "" then Some(p.images[1].url) else None,
      map f | f in TextFields :: TextOf(p.texts, f),
      p.createdAt, p.updatedAt)
  }

  // ------------------------------------------------------------------ create

  /** A create request: the list fields as a parsed body, the scalar fields as sent
      (`None` when absent), and the uploaded images as the media host reports them. */
  datatype CreateRequest = CreateRequest(
    body: Body,
    brand: Option<string>,
    name: Option<string>,
    price: Option<real>,
    thumbnailIndex: NumInput,
    discountPercentage: Option<real>,
    texts: map<TextField, string>,
    files: seq<Image>)

  /** The document `new Product({...})` builds from a request that passed the guards. */
  function NewDocument(req: CreateRequest, id: string, now: int): Product {
    var types := NormalizeField(req.body, "productType");
    Product(
      id,
      req.brand.GetOr(""),
      req.name.GetOr(""),
      NormalizeField(req.body, "category"),
      req.price.GetOr(0.0),
      req.files,
      if req.thumbnailIndex.Num? then req.thumbnailIndex.n else DefaultThumbnailIndex,
      if types == [] then DefaultProductType else types,
      Some(req.discountPercentage.GetOr(DefaultDiscountPercentage)),
      TextDefaults(req.texts),
      now, now)
  }

  /** The POST handler's decision: 400 for an empty category list, then 400 for
      no uploaded image, then 500 when the schema's validators reject the save. */
  function CreateOutcome(req: CreateRequest, id: string, now: int): (r: Result<Product>)
    ensures NormalizeField(req.body, "category") == [] ==> r == Err(BadRequest("Category is required"))
    ensures NormalizeField(req.body, "category") != [] && req.files == [] ==>
      r == Err(BadRequest("At least one product image is required"))
    ensures r.Ok? <==>
      NormalizeField(req.body, "category") != [] && req.files != [] && req.price.Some? && Accepts(NewDocument(req, id, now))
    ensures r.Ok? ==>
      && r.value.id == id
      && Accepts(r.value)
      && r.value.category == NormalizeField(req.body, "category") && r.value.category != []
      && r.value.images == req.files
      && r.value.price == req.price.value
      && (NormalizeField(req.body, "productType") == [] ==> r.value.productType == ["regular"])
      && (NormalizeField(req.body, "productType") != [] ==> r.value.productType == NormalizeField(req.body, "productType"))
      && (!req.thumbnailIndex.Num? ==> r.value.thumbnailIndex == 0)
      && (req.discountPercentage.None? ==> r.value.discountPercentage == Some(0.0))
      && r.value.texts.Keys == TextFields
      && (forall f :: f in TextFields && f !in req.texts ==> r.value.texts[f] == "")
    ensures r.Err? && NormalizeField(req.body, "category") != [] && req.files != [] ==> r == Err(ServerError)
  {
    if NormalizeField(req.body, "category") == [] then Err(BadRequest("Category is required"))
    else if req.files == [] then Err(BadRequest("At least one product image is required"))
    else
      var p := NewDocument(req, id, now);
      if req.price.Some? && Accepts(p) then Ok(p) else Err(ServerError)
  }

  // ------------------------------------------------------------------ update

  /** An update request; every scalar is `None` when not sent. */
  datatype UpdateRequest = UpdateRequest(
    body: Body,
    brand: Option<string>,
    name: Option<string>,
    price: Option<real>,
    discountPercentage: Option<real>,
    texts: map<TextField, string>,
    files: seq<Image>,
    thumbnailIndex: NumInput,
    deleteImagePublicId: Option<string>)

  /** `if (deleteImagePublicId)`: sent and not the empty string. */
  predicate DeletesImage(req: UpdateRequest) {
    req.deleteImagePublicId.Some? && req.deleteImagePublicId.value != ""
  }

  /** The gallery after image replacement, the thumbnail assignment and the deletion. */
  function UpdatedGallery(p: Product, req: UpdateRequest): (g: Gallery)
    ensures !DeletesImage(req) ==>
      g.images == (if req.files != [] then req.files else p.images)
    ensures !DeletesImage(req) ==>
      g.thumbnailIndex == (if req.thumbnailIndex.Num? then req.thumbnailIndex.n else p.thumbnailIndex)
  {
    var images := if req.files != [] then req.files else p.images;
    var thumb := if req.thumbnailIndex.Num? then req.thumbnailIndex.n else p.thumbnailIndex;
    if DeletesImage(req) then DeleteImage(Gallery(images, thumb), req.deleteImagePublicId.value)
    else Gallery(images, thumb)
  }

  /** The document after the handler's assignments, before it is saved. */
  function Applied(p: Product, req: UpdateRequest, now: int): (q: Product)
    ensures q.id == p.id && q.createdAt == p.createdAt && q.updatedAt == now
    // a scalar is overwritten only when it is supplied
    ensures q.brand == req.brand.GetOr(p.brand) && q.name == req.name.GetOr(p.name)
    ensures q.price == req.price.GetOr(p.price)
    ensures req.discountPercentage.None? ==> q.discountPercentage == p.discountPercentage
    ensures req.discountPercentage.Some? ==> q.discountPercentage == req.discountPercentage
    ensures forall f :: f in req.texts ==> f in q.texts && q.texts[f] == req.texts[f]
    ensures forall f :: f in p.texts && f !in req.texts ==> f in q.texts && q.texts[f] == p.texts[f]
    ensures forall f :: f in q.texts ==> f in p.texts || f in req.texts
    // category and productType are replaced only by a non-empty normalised list
    ensures NormalizeField(req.body, "category") == [] ==> q.category == p.category
    ensures NormalizeField(req.body, "category") != [] ==> q.category == NormalizeField(req.body, "category")
    ensures NormalizeField(req.body, "productType") == [] ==> q.productType == p.productType
    ensures NormalizeField(req.body, "productType") != [] ==> q.productType == NormalizeField(req.body, "productType")
    ensures Gallery(q.images, q.thumbnailIndex) == UpdatedGallery(p, req)
  {
    var category := NormalizeField(req.body, "category");
    var types := NormalizeField(req.body, "productType");
    var g := UpdatedGallery(p, req);
    p.(
      brand := req.brand.GetOr(p.brand),
      name := req.name.GetOr(p.name),
      price := req.price.GetOr(p.price),
      discountPercentage := if req.discountPercentage.Some? then req.discountPercentage else p.discountPercentage,
      category := if category != [] then category else p.category,
      productType := if types != [] then types else p.productType,
      texts := p.texts + req.texts,
      images := g.images,
      thumbnailIndex := g.thumbnailIndex,
      updatedAt := now)
  }

  /** The PUT handler's outcome: the assigned document if it saves, 500 otherwise
      (a NaN thumbnail index fails the Number cast). */
  function Updated(p: Product, req: UpdateRequest, now: int): (r: Result<Product>)
    ensures req.thumbnailIndex.NotANumber? ==> r == Err(ServerError)
    ensures r.Ok? <==> !req.thumbnailIndex.NotANumber? && Accepts(Applied(p, req, now))
    ensures r.Ok? ==> r.value == Applied(p, req, now) && Accepts(r.value)
    ensures r.Err? ==> r == Err(ServerError)
  {
    var q := Applied(p, req, now);
    if req.thumbnailIndex.NotANumber? || !Accepts(q) then Err(ServerError) else Ok(q)
  }

  /** An update request that supplies nothing invalid. */
  predicate WellFormedUpdate(req: UpdateRequest) {
    && !req.thumbnailIndex.NotANumber?
    && (req.brand.None? || req.brand.value != "")
    && (req.name.None? || req.name.value != "")
    && (forall t :: t in NormalizeField(req.body, "productType") ==> t in ProductTypeTags)
    && ImagesComplete(req.files)
  }

  /** Updating a valid document with a well-formed request always saves. */
  lemma WellFormedUpdateSaved(p: Product, req: UpdateRequest, now: int)
    requires Accepts(p) && WellFormedUpdate(req)
    ensures Updated(p, req, now).Ok?
  {
    var images := if req.files != [] then req.files else p.images;
    var thumb := if req.thumbnailIndex.Num? then req.thumbnailIndex.n else p.thumbnailIndex;
    if DeletesImage(req) {
      DeleteKeepsComplete(Gallery(images, thumb), req.deleteImagePublicId.value);
    }
    assert ImagesComplete(UpdatedGallery(p, req).images);
  }

  /** Choosing a new image set and deleting nothing keeps the requested thumbnail
      (the handler does not re-clamp it). */
  lemma ReplacedImagesKeepRequestedThumbnail(p: Product, req: UpdateRequest, now: int)
    requires req.files != [] && req.thumbnailIndex.Num? && !DeletesImage(req)
    requires Updated(p, req, now).Ok?
    ensures Updated(p, req, now).value.images == req.files
    ensures Updated(p, req, now).value.thumbnailIndex == req.thumbnailIndex.n
  {
  }

  // ------------------------------------------------------------------ listing

  /** The query string; `None` for a parameter not given. */
  datatype ListQuery = ListQuery(
    category: Option<string>,
    brand: Option<string>,
    productType: Option<string>,
    minPrice: Option<real>,
    maxPrice: Option<real>,   // None: the default, Infinity
    sort: Option<string>,
    page: Option<int>,
    limit: Option<int>)

  datatype Listing = Listing(total: nat, page: int, limit: int, products: seq<ProductView>)

  const DefaultPage: int := 1
  const DefaultLimit: int := 12

  /** The Mongo filter: price in [minPrice, maxPrice]; a non-empty category, brand or
      productType parameter must match (an array field matches when it contains the value). */
  predicate InPriceRange(q: ListQuery, price: real) {
    q.minPrice.GetOr(0.0) <= price && (q.maxPrice.None? || price <= q.maxPrice.value)
  }

  predicate Matches(q: ListQuery, p: Product) {
    && InPriceRange(q, p.price)
    && (q.category.None? || q.category.value == "" || q.category.value in p.category)
    && (q.brand.None? || q.brand.value == "" || p.brand == q.brand.value)
    && (q.productType.None? || q.productType.value == "" || q.productType.value in p.productType)
  }

  function Filter(q: ListQuery, docs: seq<Product>): (r: seq<Product>)
    ensures |r| <= |docs|
    ensures forall i :: 0 <= i < |r| ==> Matches(q, r[i])
    ensures multiset(r) <= multiset(docs)
    ensures forall i :: 0 <= i < |docs| && Matches(q, docs[i]) ==> docs[i] in r
    decreases |docs|
  {
    if docs == [] then []
    else
      var rest := Filter(q, docs[1..]);
      FilterCons(q, docs, rest);
      if Matches(q, docs[0]) then [docs[0]] + rest else rest
  }

  /** Filtering the tail and then deciding on the head filters the whole list. */
  lemma FilterCons(q: ListQuery, docs: seq<Product>, rest: seq<Product>)
    requires docs != []
    requires |rest| <= |docs| - 1
    requires forall i :: 0 <= i < |rest| ==> Matches(q, rest[i])
    requires multiset(rest) <= multiset(docs[1..])
    requires forall i :: 0 <= i < |docs| - 1 && Matches(q, docs[1..][i]) ==> docs[1..][i] in rest
    ensures var r := if Matches(q, docs[0]) then [docs[0]] + rest else rest;
      && |r| <= |docs|
      && (forall i :: 0 <= i < |r| ==> Matches(q, r[i]))
      && multiset(r) <= multiset(docs)
      && (forall i :: 0 <= i < |docs| && Matches(q, docs[i]) ==> docs[i] in r)
  {
    assert docs == [docs[0]] + docs[1..];
    assert forall i :: 1 <= i < |docs| ==> docs[i] == docs[1..][i - 1];
  }

  function Key(p: Product): SortKey {
    SortKey(p.price, p.brand, p.createdAt)
  }

  predicate Sorted(mode: SortMode, s: seq<Product>) {
    forall i, j :: 0 <= i < j < |s| ==> Le(mode, Key(s[i]), Key(s[j]))
  }

  lemma ConsSorted(mode: SortMode, x: Product, s: seq<Product>)
    requires Sorted(mode, s)
    requires forall j :: 0 <= j < |s| ==> Le(mode, Key(x), Key(s[j]))
    ensures Sorted(mode, [x] + s)
  {
    var r := [x] + s;
    forall i, j | 0 <= i < j < |r| ensures Le(mode, Key(r[i]), Key(r[j])) {
      if i > 0 {
        assert r[i] == s[i - 1] && r[j] == s[j - 1];
      } else {
        assert r[j] == s[j - 1];
      }
    }
  }

  /** Insert `x` before the first element it may precede. */
  function Insert(mode: SortMode, x: Product, s: seq<Product>): (r: seq<Product>)
    requires Sorted(mode, s)
    ensures Sorted(mode, r)
    ensures multiset(r) == multiset(s) + multiset{x}
    decreases |s|
  {
    if s == [] then [x]
    else if Le(mode, Key(x), Key(s[0])) then
      HeadPrecedes(mode, x, s);
      ConsSorted(mode, x, s);
      [x] + s
    else
      var rest := Insert(mode, x, s[1..]);
      assert s == [s[0]] + s[1..];
      HeadPrecedesInserted(mode, x, s, rest);
      ConsSorted(mode, s[0], rest);
      [s[0]] + rest
  }

  /** A record that may precede the head of a sorted list may precede all of it. */
  lemma HeadPrecedes(mode: SortMode, x: Product, s: seq<Product>)
    requires s != [] && Sorted(mode, s) && Le(mode, Key(x), Key(s[0]))
    ensures forall j :: 0 <= j < |s| ==> Le(mode, Key(x), Key(s[j]))
  {
    forall j | 0 <= j < |s| ensures Le(mode, Key(x), Key(s[j])) {
      if j > 0 { LeTrans(mode, Key(x), Key(s[0]), Key(s[j])); }
    }
  }

  /** The head of a sorted list may precede its tail with a later record inserted. */
  lemma HeadPrecedesInserted(mode: SortMode, x: Product, s: seq<Product>, rest: seq<Product>)
    requires s != [] && Sorted(mode, s) && !Le(mode, Key(x), Key(s[0]))
    requires multiset(rest) == multiset(s[1..]) + multiset{x}
    ensures forall j :: 0 <= j < |rest| ==> Le(mode, Key(s[0]), Key(rest[j]))
  {
    forall j | 0 <= j < |rest| ensures Le(mode, Key(s[0]), Key(rest[j])) {
      assert rest[j] in multiset(rest);
      if rest[j] == x {
        LeTotal(mode, Key(x), Key(s[0]));
      } else {
        assert rest[j] in multiset(s[1..]);
        var k :| 0 <= k < |s[1..]| && s[1..][k] == rest[j];
        assert s[k + 1] == rest[j];
      }
    }
  }

  /** The order the query's sort produces (Mongo's tie order is not specified;
      this one keeps ties in collection order). */
  function SortProducts(mode: SortMode, s: seq<Product>): (r: seq<Product>)
    ensures Sorted(mode, r)
    ensures multiset(r) == multiset(s)
    decreases |s|
  {
    if s == [] then []
    else
      assert s == [s[0]] + s[1..];
      Insert(mode, s[0], SortProducts(mode, s[1..]))
  }

  /** The listing sorts by the named mode; any other value means newest first. */
  function ListingMode(q: ListQuery): (m: SortMode)
    ensures q.sort.None? ==> m == Latest
  {
    match ParseSort(q.sort.GetOr("latest"))
    case Some(m) => m
    case None => Latest
  }

  /** `.skip(skip).limit(n)`: a limit of 0 means no limit, a negative one counts as its absolute value. */
  function SkipLimit(s: seq<Product>, skip: nat, n: int): (r: seq<Product>)
    ensures n > 0 ==> |r| <= n
    ensures n < 0 ==> |r| <= -n
    ensures skip >= |s| ==> r == []
    ensures skip < |s| ==> skip + |r| <= |s| && r == s[skip..skip + |r|]
    ensures skip < |s| && n == 0 ==> r == s[skip..]
    ensures skip < |s| && n > 0 && skip + n <= |s| ==> |r| == n
  {
    if skip >= |s| then []
    else
      var rest := s[skip..];
      var m := if n == 0 then |rest| else if n < 0 then -n else n;
      if m < |rest| then rest[..m] else rest
  }

  function Views(s: seq<Product>): (r: seq<ProductView>)
    ensures |r| == |s| && forall i :: 0 <= i < |s| ==> r[i] == NormalizeProduct(s[i])
  {
    seq(|s|, i requires 0 <= i < |s| => NormalizeProduct(s[i]))
  }

  /** Sorting and paging keep only documents that passed the filter. */
  lemma PageMatches(q: ListQuery, docs: seq<Product>, skip: nat, limit: int, shown: seq<Product>)
    requires shown == SkipLimit(SortProducts(ListingMode(q), Filter(q, docs)), skip, limit)
    ensures forall i :: 0 <= i < |shown| ==> Matches(q, shown[i])
  {
    var matching := Filter(q, docs);
    var sorted := SortProducts(ListingMode(q), matching);
    forall i | 0 <= i < |shown| ensures Matches(q, shown[i]) {
      assert shown[i] == sorted[skip + i];
      assert shown[i] in multiset(sorted);
      assert shown[i] in multiset(matching);
      var k :| 0 <= k < |matching| && matching[k] == shown[i];
    }
  }

  /** `(page - 1) * limit`. */
  function SkipOf(q: ListQuery): int {
    (q.page.GetOr(DefaultPage) - 1) * q.limit.GetOr(DefaultLimit)
  }

  /** `GET /`: the matching products, sorted, from `SkipOf(q)` on; a negative
      skip is refused by the database (500). */
  function ListProducts(docs: seq<Product>, q: ListQuery): (r: Result<Listing>)
    ensures SkipOf(q) < 0 <==> r == Err(ServerError)
    ensures r.Ok? ==> r.value.total == |Filter(q, docs)|
    ensures r.Ok? ==> r.value.page == q.page.GetOr(DefaultPage) && r.value.limit == q.limit.GetOr(DefaultLimit)
    ensures r.Ok? ==> forall i :: 0 <= i < |r.value.products| ==> InPriceRange(q, r.value.products[i].price)
    ensures r.Ok? && r.value.limit > 0 ==> |r.value.products| <= r.value.limit
    ensures r.Ok? ==>
      (SkipOf(q) >= 0 &&
       r.value.products == Views(SkipLimit(SortProducts(ListingMode(q), Filter(q, docs)), SkipOf(q), r.value.limit)))
  {
    var page := q.page.GetOr(DefaultPage);
    var limit := q.limit.GetOr(DefaultLimit);
    var skip := SkipOf(q);
    if skip < 0 then Err(ServerError)
    else
      var shown := SkipLimit(SortProducts(ListingMode(q), Filter(q, docs)), skip, limit);
      var views := Views(shown);
      PageMatches(q, docs, skip, limit, shown);
      assert forall i :: 0 <= i < |views| ==> views[i].price == shown[i].price;
      Ok(Listing(|Filter(q, docs)|, page, limit, views))
  }

  // ------------------------------------------------------------------ the collection

  /** Position of the document with this id, or -1 (`findById`). */
  function FindProduct(docs: seq<Product>, id: string): (k: int)
    ensures -1 <= k < |docs|
    ensures k >= 0 ==> docs[k].id == id
    ensures k == -1 ==> forall i :: 0 <= i < |docs| ==> docs[i].id != id
    decreases |docs|
  {
    if docs == [] then -1
    else if docs[0].id == id then 0
    else
      var k := FindProduct(docs[1..], id);
      if k == -1 then -1 else k + 1
  }

  predicate DistinctIds(docs: seq<Product>) {
    forall i, j :: 0 <= i < j < |docs| ==> docs[i].id != docs[j].id
  }

  /** The PUT handler's assignments to the loaded document, one field at a time. */
  method AssignFields(p0: Product, req: UpdateRequest, now: int) returns (p: Product)
    ensures p == Applied(p0, req, now)
  {
    p := p0;
    p := p.(brand := req.brand.GetOr(p.brand));
    p := p.(name := req.name.GetOr(p.name));
    p := p.(price := req.price.GetOr(p.price));
    p := p.(discountPercentage := if req.discountPercentage.Some? then req.discountPercentage else p.discountPercentage);
    var nextCategory := NormalizeField(req.body, "category");
    p := p.(category := if nextCategory != [] then nextCategory else p.category);
    var nextType := NormalizeField(req.body, "productType");
    p := p.(productType := if nextType != [] then nextType else p.productType);
    p := p.(texts := p.texts + req.texts);
    p := p.(images := if req.files != [] then req.files else p.images);
    p := p.(thumbnailIndex := if req.thumbnailIndex.Num? then req.thumbnailIndex.n else p.thumbnailIndex);
    if DeletesImage(req) {
      var g := DeleteImage(Gallery(p.images, p.thumbnailIndex), req.deleteImagePublicId.value);
      p := p.(images := g.images, thumbnailIndex := g.thumbnailIndex);
    }
    p := p.(updatedAt := now);
  }

  /** Replacing a document by one with the same id keeps the ids distinct. */
  lemma ReplaceKeepsDistinct(docs: seq<Product>, k: nat, p: Product)
    requires DistinctIds(docs) && k < |docs| && p.id == docs[k].id
    ensures DistinctIds(docs[k := p])
  {
  }

  /** Ids are unique canonical ObjectIds and every stored document passed the schema's validators. */
  predicate StoredDocs(docs: seq<Product>) {
    && DistinctIds(docs)
    && (forall i :: 0 <= i < |docs| ==> Accepts(docs[i]))
    && (forall i :: 0 <= i < |docs| ==> IsCanonicalId(docs[i].id))
  }

  /** Removing one document keeps a valid collection valid. */
  lemma StoredDocsSplice(docs: seq<Product>, k: nat)
    requires k < |docs| && StoredDocs(docs)
    ensures StoredDocs(docs[..k] + docs[k + 1..])
  {
    var r := Splice(docs, k);
    assert forall i :: 0 <= i < |r| ==> r[i] == docs[if i < k then i else i + 1];
  }

  class ProductStore {
    var docs: seq<Product>

    ghost predicate Valid()
      reads this
    {
      StoredDocs(docs)
    }

    constructor ()
      ensures Valid() && docs == []
    {
      docs := [];
    }

    /** `POST /`; `id` and `now` are the generated ObjectId and the clock. */
    method Create(req: CreateRequest, id: string, now: int) returns (r: Result<ProductView>)
      requires Valid()
      requires IsCanonicalId(id) && FindProduct(docs, id) == -1
      modifies this
      ensures Valid()
      ensures CreateOutcome(req, id, now).Ok? ==>
        docs == old(docs) + [CreateOutcome(req, id, now).value]
        && r == Ok(NormalizeProduct(CreateOutcome(req, id, now).value))
      ensures CreateOutcome(req, id, now).Err? ==>
        docs == old(docs) && r == Err(CreateOutcome(req, id, now).error)
    {
      var outcome := CreateOutcome(req, id, now);
      if outcome.Err? {
        r := Err(outcome.error);
        return;
      }
      docs := docs + [outcome.value];
      r := Ok(NormalizeProduct(outcome.value));
    }

    /** `GET /:id`; an id that does not cast makes `findById` throw, and one that
        does is looked up as its cast. */
    method Get(id: string) returns (r: Result<ProductView>)
      requires Valid()
      ensures !IsObjectId(id) ==> r == Err(ServerError)
      ensures IsObjectId(id) && FindProduct(docs, Cast(id)) == -1 ==> r == Err(NotFound("Product not found"))
      ensures FindProduct(docs, Cast(id)) >= 0 ==> r.Ok? && r.value.id == Cast(id)
      ensures FindProduct(docs, Cast(id)) >= 0 ==> r == Ok(NormalizeProduct(docs[FindProduct(docs, Cast(id))]))
    {
      if !IsObjectId(id) {
        return Err(ServerError);
      }
      var k := FindProduct(docs, Cast(id));
      if k == -1 {
        r := Err(NotFound("Product not found"));
      } else {
        r := Ok(NormalizeProduct(docs[k]));
      }
    }

    /** `PUT /:id`: assigns the supplied fields one by one, replaces the images,
        sets the thumbnail, deletes the requested image, then saves. */
    method Update(id: string, req: UpdateRequest, now: int) returns (r: Result<ProductView>)
      requires Valid()
      modifies this
      ensures Valid()
      ensures !IsObjectId(id) ==> docs == old(docs) && r == Err(ServerError)
      ensures IsObjectId(id) && FindProduct(old(docs), Cast(id)) == -1 ==> docs == old(docs) && r == Err(NotFound("Product not found"))
      ensures var k := FindProduct(old(docs), Cast(id));
        k >= 0 ==>
          match Updated(old(docs)[k], req, now)
          case Ok(q) => docs == old(docs)[k := q] && r == Ok(NormalizeProduct(q))
          case Err(e) => docs == old(docs) && r == Err(e)
    {
      if !IsObjectId(id) {
        return Err(ServerError);
      }
      var k := FindProduct(docs, Cast(id));
      if k == -1 {
        return Err(NotFound("Product not found"));
      }
      var p := AssignFields(docs[k], req, now);
      if req.thumbnailIndex.NotANumber? || !Accepts(p) {
        return Err(ServerError);
      }
      ReplaceKeepsDistinct(docs, k, p);
      docs := docs[k := p];
      r := Ok(NormalizeProduct(p));
    }

    /** `DELETE /:id` (the media host's image removal is not modelled). */
    method Delete(id: string) returns (r: Result<string>)
      requires Valid()
      modifies this
      ensures Valid()
      ensures !IsObjectId(id) ==> docs == old(docs) && r == Err(ServerError)
      ensures IsObjectId(id) && FindProduct(old(docs), Cast(id)) == -1 ==> docs == old(docs) && r == Err(NotFound("Product not found"))
      ensures var k := FindProduct(old(docs), Cast(id));
        k >= 0 ==> docs == old(docs)[..k] + old(docs)[k + 1..] && r == Ok("Deleted product and images successfully")
    {
      if !IsObjectId(id) {
        return Err(ServerError);
      }
      var k := FindProduct(docs, Cast(id));
      if k == -1 {
        return Err(NotFound("Product not found"));
      }
      StoredDocsSplice(docs, k);
      docs := docs[..k] + docs[k + 1..];
      r := Ok("Deleted product and images successfully");
    }
  }
}
