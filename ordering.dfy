/** The listing sort modes shared by backend/routes/productRoutes.js and
    backend/routes/products.js, each as a total preorder on a product's sort key. */
module Ordering {
  import opened Wrappers
  import opened JsText

  datatype SortMode = PriceLowHigh | PriceHighLow | Latest | BrandAZ | BrandZA

  /** The `sort` query parameter; any other text names no mode. */
  function ParseSort(s: string): (m: Option<SortMode>)
    ensures m == Some(Latest) <==> s == "latest"
    ensures m.None? <==> s !in {"priceLowHigh", "priceHighLow", "latest", "brandAZ", "brandZA"}
  {
    if s == "priceLowHigh" then Some(PriceLowHigh)
    else if s == "priceHighLow" then Some(PriceHighLow)
    else if s == "latest" then Some(Latest)
    else if s == "brandAZ" then Some(BrandAZ)
    else if s == "brandZA" then Some(BrandZA)
    else None
  }

  /** The fields the comparators look at; `createdAt` as a timestamp. */
  datatype SortKey = SortKey(price: real, brand: string, createdAt: int)

  /** `a` may come before `b`: price ascending or descending, newest first,
      brand A to Z or Z to A. */
  predicate Le(mode: SortMode, a: SortKey, b: SortKey) {
    match mode
    case PriceLowHigh => a.price <= b.price
    case PriceHighLow => a.price >= b.price
    case Latest => a.createdAt >= b.createdAt
    case BrandAZ => StrLe(a.brand, b.brand)
    case BrandZA => StrLe(b.brand, a.brand)
  }

  lemma LeTotal(mode: SortMode, a: SortKey, b: SortKey)
    ensures Le(mode, a, b) || Le(mode, b, a)
  {
    StrLeTotal(a.brand, b.brand);
  }

  lemma LeTrans(mode: SortMode, a: SortKey, b: SortKey, c: SortKey)
    requires Le(mode, a, b) && Le(mode, b, c)
    ensures Le(mode, a, c)
  {
    match mode
    case BrandAZ => StrLeTrans(a.brand, b.brand, c.brand);
    case BrandZA => StrLeTrans(c.brand, b.brand, a.brand);
    case _ =>
  }

  lemma LeRefl(mode: SortMode, a: SortKey)
    ensures Le(mode, a, a)
  {
    LeTotal(mode, a, a);
  }
}
