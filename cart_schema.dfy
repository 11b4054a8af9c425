/** The `Cart` document (backend/models/Cart.js): one per user, each line a
    product reference and a quantity of at least 1 (default 1). The product
    reference points at the TopProduct collection, so populating a cart resolves
    only top products. */
module CartSchema {
  import opened Wrappers

  /** An ObjectId, compared through its string form. */
  type Id = string

  datatype Line = Line(productId: Id, quantity: int)

  const DefaultQuantity: int := 1
  const MinQuantity: int := 1

  /** What the line validator accepts at save: every quantity at least `MinQuantity`. */
  predicate ValidItems(items: seq<Line>) {
    forall i :: 0 <= i < |items| ==> items[i].quantity >= MinQuantity
  }

  /** A populated line: the referenced product, or null when the reference does not resolve. */
  datatype HydratedLine = HydratedLine(product: Option<Id>, quantity: int)

  /** The cart as the routes answer with it. */
  datatype CartView = CartView(userId: Id, items: seq<HydratedLine>)

  /** `populate("items.productId")` against the TopProduct ids `top`. */
  function Hydrate(items: seq<Line>, top: set<Id>): (r: seq<HydratedLine>)
    ensures |r| == |items|
    ensures forall i :: 0 <= i < |items| ==> r[i].quantity == items[i].quantity
    ensures forall i :: 0 <= i < |items| ==> (r[i].product.Some? <==> items[i].productId in top)
    ensures forall i :: 0 <= i < |items| && r[i].product.Some? ==> r[i].product.value == items[i].productId
  {
    seq(|items|, i requires 0 <= i < |items| =>
      HydratedLine(if items[i].productId in top then Some(items[i].productId) else None, items[i].quantity))
  }

  /** A line whose product lives only in the NewProduct collection comes back with a null product. */
  lemma NewOnlyProductHydratesToNull(items: seq<Line>, top: set<Id>, i: nat)
    requires i < |items| && items[i].productId !in top
    ensures Hydrate(items, top)[i] == HydratedLine(None, items[i].quantity)
  {
  }
}
