/** The legacy product routes (backend/routes/addProducts.js): `normalizeCategory`,
    create with its two 400 guards, and the two PUT branches — a JSON body that only
    re-aims the thumbnail and deletes an image, and a form body that also replaces
    fields, images and the hover image, with the raw `category` field overwriting
    the normalised one. */
module AddProducts {
  import opened Wrappers
  import opened JsText
  import opened FormFields
  import opened Gallery
  import opened ProductRoutes
  import opened ObjectIds
  import opened Lists

  /** A legacy product record as the route reads and writes it. */
  datatype AddDoc = AddDoc(
    id: string,
    brand: string,
    name: string,
    category: seq<string>,
    price: real,
    images: seq<Image>,
    thumbnailIndex: int,
    hoverImageUrl: string,
    hoverImagePublicId: string)

  /** What the validators accept at save: non-empty brand and name, complete images
      and a hover image with both a url and a public id. */
  predicate AddAccepts(d: AddDoc) {
    && d.brand != ""
    && d.name != ""
    && ImagesComplete(d.images)
    && d.hoverImageUrl != ""
    && d.hoverImagePublicId != ""
  }

  /** `normalizeCategory(body)`: `normalizeField` for the field "category". */
  function NormalizeCategory(body: Body): (r: seq<string>)
    ensures forall i :: 0 <= i < |r| ==> r[i] != [] && Trimmed(r[i])
    ensures Get(body, "category[]").Arr? ==>
      r == TrimNonEmpty(Get(body, "category[]").items)
    ensures Get(body, "category[]").Nullish? && Get(body, "category").Str? ==>
      r == CommaList(Get(body, "category").s)
    ensures Get(body, "category[]").Nullish? && Get(body, "category").Nullish? ==> r == []
  {
    var raw := if Get(body, "category[]").Nullish? then Get(body, "category") else Get(body, "category[]");
    ListOf(raw)
  }

  /** It agrees with the unified route's normaliser on every body. */
  lemma NormalizeCategoryIsNormalizeField(body: Body)
    ensures NormalizeCategory(body) == NormalizeField(body, "category")
  {
    assert "category" + "[]" == "category[]";
  }

  // ------------------------------------------------------------------ create

  datatype AddCreateRequest = AddCreateRequest(
    multipart: bool,          // false when the body is not a form, so `req.files` is unset
    body: Body,
    brand: Option<string>,
    name: Option<string>,
    price: Option<real>,
    thumbnailIndex: NumInput,
    images: seq<Image>,       // empty when no `images` file was uploaded
    hoverImage: Option<Image>)

  /** `Number(thumbnailIndex) || 0`: NaN (including a missing value) and 0 give 0. */
  function ThumbnailOrZero(t: NumInput): (n: int)
    ensures t.Num? ==> n == t.n
    ensures !t.Num? ==> n == 0
  {
    if t.Num? then t.n else 0
  }

  function NewAddDoc(req: AddCreateRequest, id: string): AddDoc
    requires req.hoverImage.Some?
  {
    AddDoc(id, req.brand.GetOr(""), req.name.GetOr(""), NormalizeCategory(req.body), req.price.GetOr(0.0),
           req.images, ThumbnailOrZero(req.thumbnailIndex),
           req.hoverImage.value.url, req.hoverImage.value.publicId)
  }

  /** The POST handler's outcome. */
  function CreateAdd(req: AddCreateRequest, id: string): (r: Result<AddDoc>)
    ensures NormalizeCategory(req.body) == [] ==> r == Err(BadRequest("Category is required"))
    // without a form `req.files.images` throws, which the handler answers with 500
    ensures NormalizeCategory(req.body) != [] && !req.multipart ==> r == Err(ServerError)
    ensures NormalizeCategory(req.body) != [] && req.multipart && (req.images == [] || req.hoverImage.None?) ==>
      r == Err(BadRequest("Product images and hover image are required"))
    ensures r.Ok? ==>
      && req.multipart
      && AddAccepts(r.value) && r.value.id == id
      && r.value.category == NormalizeCategory(req.body) && r.value.category != []
      && r.value.images == req.images && r.value.images != []
      && r.value.thumbnailIndex == ThumbnailOrZero(req.thumbnailIndex)
      && req.hoverImage == Some(Image(r.value.hoverImageUrl, r.value.hoverImagePublicId))
      && req.price == Some(r.value.price)
    ensures r.Err? && NormalizeCategory(req.body) != [] && req.images != [] && req.hoverImage.Some? ==>
      r == Err(ServerError)
    // every request that passes the guards with valid fields is saved
    ensures (&& NormalizeCategory(req.body) != [] && req.multipart && req.images != [] && req.hoverImage.Some?
             && req.brand.Some? && req.brand.value != "" && req.name.Some? && req.name.value != ""
             && req.price.Some? && ImagesComplete(req.images)
             && req.hoverImage.value.url != "" && req.hoverImage.value.publicId != "") ==> r.Ok?
  {
    if NormalizeCategory(req.body) == [] then Err(BadRequest("Category is required"))
    else if !req.multipart then Err(ServerError)
    else if req.images == [] || req.hoverImage.None? then
      Err(BadRequest("Product images and hover image are required"))
    else
      var d := NewAddDoc(req, id);
      if req.price.Some? && AddAccepts(d) then Ok(d) else Err(ServerError)
  }

  // ------------------------------------------------------------------ update

  /** The thumbnail assignment followed by the image deletion, shared by both branches. */
  function ThumbAndDelete(g: Gallery, thumbnailIndex: NumInput, deleteImagePublicId: Option<string>): (r: Gallery)
    ensures deleteImagePublicId.None? || deleteImagePublicId.value == "" ==>
      r == Gallery(g.images, if thumbnailIndex.Num? then thumbnailIndex.n else g.thumbnailIndex)
  {
    var h := Gallery(g.images, if thumbnailIndex.Num? then thumbnailIndex.n else g.thumbnailIndex);
    if deleteImagePublicId.Some? && deleteImagePublicId.value != "" then DeleteImage(h, deleteImagePublicId.value)
    else h
  }

  lemma ThumbAndDeleteKeepsComplete(g: Gallery, thumbnailIndex: NumInput, deleteImagePublicId: Option<string>)
    ensures ImagesComplete(g.images) ==> ImagesComplete(ThumbAndDelete(g, thumbnailIndex, deleteImagePublicId).images)
  {
    if ImagesComplete(g.images) && deleteImagePublicId.Some? && deleteImagePublicId.value != "" {
      DeleteKeepsComplete(Gallery(g.images, if thumbnailIndex.Num? then thumbnailIndex.n else g.thumbnailIndex),
                          deleteImagePublicId.value);
    }
  }

  /** The JSON branch: only the thumbnail and the image list may change. */
  function UpdatedJson(d: AddDoc, thumbnailIndex: NumInput, deleteImagePublicId: Option<string>): (r: Result<AddDoc>)
    ensures thumbnailIndex.NotANumber? ==> r == Err(ServerError)
    ensures r.Ok? ==>
      && r.value.id == d.id && r.value.brand == d.brand && r.value.name == d.name
      && r.value.category == d.category && r.value.price == d.price
      && r.value.hoverImageUrl == d.hoverImageUrl && r.value.hoverImagePublicId == d.hoverImagePublicId
      && AddAccepts(r.value)
    ensures r.Ok? ==>
      Gallery(r.value.images, r.value.thumbnailIndex) ==
      ThumbAndDelete(Gallery(d.images, d.thumbnailIndex), thumbnailIndex, deleteImagePublicId)
    // a valid record with a numeric (or no) thumbnail always saves
    ensures AddAccepts(d) && !thumbnailIndex.NotANumber? ==> r.Ok?
  {
    var g := ThumbAndDelete(Gallery(d.images, d.thumbnailIndex), thumbnailIndex, deleteImagePublicId);
    ThumbAndDeleteKeepsComplete(Gallery(d.images, d.thumbnailIndex), thumbnailIndex, deleteImagePublicId);
    var e := d.(images := g.images, thumbnailIndex := g.thumbnailIndex);
    if thumbnailIndex.NotANumber? || !AddAccepts(e) then Err(ServerError) else Ok(e)
  }

  /** A form update; the raw `category` field is read from `body`. */
  datatype AddUpdateForm = AddUpdateForm(
    body: Body,
    brand: Option<string>,
    name: Option<string>,
    price: Option<real>,
    images: seq<Image>,       // empty when no `images` file was uploaded
    thumbnailIndex: NumInput,
    deleteImagePublicId: Option<string>,
    hoverImage: Option<Image>)

  /** The category after the form branch: the non-empty normalised list, then
      overwritten by the raw field whenever it is supplied (a string is stored as a
      one-element list, an array as is); `None` when the raw value cannot be cast. */
  function FormCategory(old_category: seq<string>, req: AddUpdateForm): (r: Option<seq<string>>)
    ensures Get(req.body, "category").Nullish? && NormalizeCategory(req.body) == [] ==> r == Some(old_category)
    ensures Get(req.body, "category").Nullish? && NormalizeCategory(req.body) != [] ==>
      r == Some(NormalizeCategory(req.body))
    ensures Get(req.body, "category").Str? ==> r == Some([Get(req.body, "category").s])
    ensures Get(req.body, "category").Arr? ==> r == Some(Get(req.body, "category").items)
    ensures Get(req.body, "category").Other? ==> r.None?
  {
    var next := NormalizeCategory(req.body);
    var c := if next != [] then next else old_category;
    match Get(req.body, "category")
    case Nullish => Some(c)
    case Str(s) => Some([s])
    case Arr(xs) => Some(xs)
    case Other => None
  }

  /** The form branch's outcome. */
  function UpdatedForm(d: AddDoc, req: AddUpdateForm): (r: Result<AddDoc>)
    ensures req.thumbnailIndex.NotANumber? || Get(req.body, "category").Other? ==> r == Err(ServerError)
    ensures r.Ok? ==> AddAccepts(r.value) && r.value.id == d.id
    ensures r.Ok? ==> r.value.brand == req.brand.GetOr(d.brand) && r.value.name == req.name.GetOr(d.name)
    ensures r.Ok? ==> r.value.price == req.price.GetOr(d.price)
    ensures r.Ok? ==> Some(r.value.category) == FormCategory(d.category, req)
    // uploaded images replace the whole list before the thumbnail and deletion steps
    ensures r.Ok? ==>
      Gallery(r.value.images, r.value.thumbnailIndex) ==
      ThumbAndDelete(Gallery(if req.images != [] then req.images else d.images, d.thumbnailIndex),
                     req.thumbnailIndex, req.deleteImagePublicId)
    // the hover image changes only when a new one is uploaded
    ensures r.Ok? && req.hoverImage.None? ==>
      r.value.hoverImageUrl == d.hoverImageUrl && r.value.hoverImagePublicId == d.hoverImagePublicId
    ensures r.Ok? && req.hoverImage.Some? ==>
      Image(r.value.hoverImageUrl, r.value.hoverImagePublicId) == req.hoverImage.value
  {
    var category := FormCategory(d.category, req);
    var g := ThumbAndDelete(Gallery(if req.images != [] then req.images else d.images, d.thumbnailIndex),
                            req.thumbnailIndex, req.deleteImagePublicId);
    if category.None? || req.thumbnailIndex.NotANumber? then Err(ServerError)
    else
      var e := d.(
        brand := req.brand.GetOr(d.brand),
        name := req.name.GetOr(d.name),
        price := req.price.GetOr(d.price),
        category := category.value,
        images := g.images,
        thumbnailIndex := g.thumbnailIndex,
        hoverImageUrl := if req.hoverImage.Some? then req.hoverImage.value.url else d.hoverImageUrl,
        hoverImagePublicId := if req.hoverImage.Some? then req.hoverImage.value.publicId else d.hoverImagePublicId);
      if AddAccepts(e) then Ok(e) else Err(ServerError)
  }

  /** The overwrite quirk: a plain `category` field "skin,face" is first normalised to
      two tags and then stored as the one string it was sent as. */
  lemma CategoryOverwriteQuirk(d: AddDoc, req: AddUpdateForm)
    requires req.body == map["category" := Str("skin,face")]
    ensures NormalizeCategory(req.body) == ["skin", "face"]
    ensures FormCategory(d.category, req) == Some(["skin,face"])
  {
    assert Get(req.body, "category[]") == Nullish;
    var parts := ["skin", "face"];
    assert Join(parts, ',') == "skin,face";
    CommaListOfJoin(parts);
  }

  // ------------------------------------------------------------------ the collection

  function FindAdd(docs: seq<AddDoc>, id: string): (k: int)
    ensures -1 <= k < |docs|
    ensures k >= 0 ==> docs[k].id == id
    ensures k == -1 ==> forall i :: 0 <= i < |docs| ==> docs[i].id != id
    decreases |docs|
  {
    if docs == [] then -1
    else if docs[0].id == id then 0
    else
      var k := FindAdd(docs[1..], id);
      if k == -1 then -1 else k + 1
  }

  /** Ids are unique canonical ObjectIds and every stored record passed the validators. */
  predicate StoredAdds(docs: seq<AddDoc>) {
    && (forall i, j :: 0 <= i < j < |docs| ==> docs[i].id != docs[j].id)
    && (forall i :: 0 <= i < |docs| ==> AddAccepts(docs[i]))
    && (forall i :: 0 <= i < |docs| ==> IsCanonicalId(docs[i].id))
  }

  /** Removing one record keeps a valid collection valid. */
  lemma StoredAddsSplice(docs: seq<AddDoc>, k: nat)
    requires k < |docs| && StoredAdds(docs)
    ensures StoredAdds(docs[..k] + docs[k + 1..])
  {
    var r := Splice(docs, k);
    assert forall i :: 0 <= i < |r| ==> r[i] == docs[if i < k then i else i + 1];
  }

  class AddProductStore {
    var docs: seq<AddDoc>

    ghost predicate Valid()
      reads this
    {
      StoredAdds(docs)
    }

    constructor ()
      ensures Valid() && docs == []
    {
      docs := [];
    }

    /** `POST /`; `id` is the generated ObjectId. */
    method Create(req: AddCreateRequest, id: string) returns (r: Result<AddDoc>)
      requires Valid() && IsCanonicalId(id) && FindAdd(docs, id) == -1
      modifies this
      ensures Valid()
      ensures r == CreateAdd(req, id)
      ensures r.Ok? ==> docs == old(docs) + [r.value]
      ensures r.Err? ==> docs == old(docs)
    {
      r := CreateAdd(req, id);
      if r.Ok? {
        docs := docs + [r.value];
      }
    }

    /** `PUT /:id` with a JSON body. */
    method UpdateJson(id: string, thumbnailIndex: NumInput, deleteImagePublicId: Option<string>)
      returns (r: Result<AddDoc>)
      requires Valid()
      modifies this
      ensures Valid()
      ensures !IsObjectId(id) ==> r == Err(ServerError) && docs == old(docs)
      ensures IsObjectId(id) && FindAdd(old(docs), Cast(id)) == -1 ==> r == Err(NotFound("Product not found")) && docs == old(docs)
      ensures var k := FindAdd(old(docs), Cast(id));
        k >= 0 ==>
          r == UpdatedJson(old(docs)[k], thumbnailIndex, deleteImagePublicId)
          && (r.Ok? ==> docs == old(docs)[k := r.value])
          && (r.Err? ==> docs == old(docs))
    {
      if !IsObjectId(id) {
        return Err(ServerError);
      }
      var k := FindAdd(docs, Cast(id));
      if k == -1 {
        return Err(NotFound("Product not found"));
      }
      r := UpdatedJson(docs[k], thumbnailIndex, deleteImagePublicId);
      if r.Ok? {
        docs := docs[k := r.value];
      }
    }

    /** `PUT /:id` with a form body. */
    method UpdateForm(id: string, req: AddUpdateForm) returns (r: Result<AddDoc>)
      requires Valid()
      modifies this
      ensures Valid()
      ensures !IsObjectId(id) ==> r == Err(ServerError) && docs == old(docs)
      ensures IsObjectId(id) && FindAdd(old(docs), Cast(id)) == -1 ==> r == Err(NotFound("Product not found")) && docs == old(docs)
      ensures var k := FindAdd(old(docs), Cast(id));
        k >= 0 ==>
          r == UpdatedForm(old(docs)[k], req)
          && (r.Ok? ==> docs == old(docs)[k := r.value])
          && (r.Err? ==> docs == old(docs))
    {
      if !IsObjectId(id) {
        return Err(ServerError);
      }
      var k := FindAdd(docs, Cast(id));
      if k == -1 {
        return Err(NotFound("Product not found"));
      }
      r := UpdatedForm(docs[k], req);
      if r.Ok? {
        docs := docs[k := r.value];
      }
    }

    /** `DELETE /:id`. */
    method Delete(id: string) returns (r: Result<string>)
      requires Valid()
      modifies this
      ensures Valid()
      ensures !IsObjectId(id) ==> r == Err(ServerError) && docs == old(docs)
      ensures IsObjectId(id) && FindAdd(old(docs), Cast(id)) == -1 ==> r == Err(NotFound("Product not found")) && docs == old(docs)
      ensures var k := FindAdd(old(docs), Cast(id));
        k >= 0 ==> r == Ok("Deleted product and images successfully") && docs == old(docs)[..k] + old(docs)[k + 1..]
    {
      if !IsObjectId(id) {
        return Err(ServerError);
      }
      var k := FindAdd(docs, Cast(id));
      if k == -1 {
        return Err(NotFound("Product not found"));
      }
      StoredAddsSplice(docs, k);
      docs := docs[..k] + docs[k + 1..];
      r := Ok("Deleted product and images successfully");
    }
  }
}
