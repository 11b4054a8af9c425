/** The unified `Product` document (backend/models/ProductSchema.js): required
    fields, defaults, the `productType` enumeration, and what the schema's
    validators accept when a document is saved. */
module ProductSchema {
  import opened Wrappers
  import opened Gallery

  /** The free-text fields, each defaulting to "". */
  datatype TextField =
    Description | FeaturesDetails | Ingredients | ActiveIngredients | Directions | Benefits | RecommendedUses

  const TextFields: set<TextField> :=
    {Description, FeaturesDetails, Ingredients, ActiveIngredients, Directions, Benefits, RecommendedUses}

  /** The `productType` enumeration. */
  const ProductTypeTags: set<string> := {"regular", "new", "discount", "top"}
  const DefaultProductType: seq<string> := ["regular"]
  const DefaultThumbnailIndex: int := 0
  const DefaultDiscountPercentage: real := 0.0

  /** A stored product. `discountPercentage` is `None` when the stored value is null;
      `texts` holds the descriptive fields the document has. */
  datatype Product = Product(
    id: string,
    brand: string,
    name: string,
    category: seq<string>,
    price: real,
    images: seq<Image>,
    thumbnailIndex: int,
    productType: seq<string>,
    discountPercentage: Option<real>,
    texts: map<TextField, string>,
    createdAt: int,
    updatedAt: int)

  /** A descriptive field, or the schema default "" when the document lacks it. */
  function TextOf(texts: map<TextField, string>, f: TextField): string {
    if f in texts then texts[f] else ""
  }

  /** The descriptive fields of a new document: the supplied ones, "" for the rest. */
  function TextDefaults(given: map<TextField, string>): (t: map<TextField, string>)
    ensures t.Keys == TextFields
    ensures forall f :: f in TextFields && f !in given ==> t[f] == ""
    ensures forall f :: f in TextFields && f in given ==> t[f] == given[f]
  {
    map f | f in TextFields :: TextOf(given, f)
  }

  /** What the validators accept at save: a non-empty brand and name (Mongoose's `required`
      rejects the empty string), images that carry both a url and a public id, and
      productType tags drawn from the enumeration. The schema puts no bound on
      discountPercentage or thumbnailIndex. */
  predicate Accepts(p: Product) {
    && p.brand != ""
    && p.name != ""
    && ImagesComplete(p.images)
    && (forall t :: t in p.productType ==> t in ProductTypeTags)
  }

  lemma DefaultTypeAccepted()
    ensures forall t :: t in DefaultProductType ==> t in ProductTypeTags
  {
  }
}
