/** The legacy catalogue over four collections (backend/routes/products.js):
    the category and brand unions, the concatenated, sorted and sliced product
    listing, and the details lookup that takes the first hit in Top, Discount,
    New, Add order. */
module Catalogue {
  import opened Wrappers
  import opened Gallery
  import opened Ordering
  import opened ObjectIds

  /** A record of any of the four legacy collections; the fields a collection's
      schema lacks are `None`. A string `category` is held as a one-element list. */
  datatype LegacyDoc = LegacyDoc(
    id: string,
    name: string,
    brand: string,
    category: seq<string>,
    price: real,
    discprice: Option<real>,
    images: Option<seq<Image>>,
    thumbnailIndex: Option<int>,
    hoverImageUrl: Option<string>,
    kind: Option<string>,
    createdAt: int,
    description: Option<string>,
    features: Option<string>,
    benefits: Option<string>)

  /** The four collections, in lookup order. */
  datatype Collections = Collections(top: seq<LegacyDoc>, discount: seq<LegacyDoc>,
                                     newP: seq<LegacyDoc>, add: seq<LegacyDoc>)

  // ------------------------------------------------------------------ dedup union

  predicate DistinctStrings(s: seq<string>) {
    forall i, j :: 0 <= i < j < |s| ==> s[i] != s[j]
  }

  /** The position of the first occurrence of `x`. */
  function FirstIndex(s: seq<string>, x: string): (k: nat)
    requires x in s
    ensures k < |s| && s[k] == x && x !in s[..k]
    decreases |s|
  {
    if s[0] == x then 0
    else
      var k := FirstIndex(s[1..], x);
      assert s[..k + 1] == [s[0]] + s[1..][..k];
      k + 1
  }

  lemma {:induction false} FirstIndexOfPrefix(s: seq<string>, n: nat, x: string)
    requires n <= |s| && x in s[..n]
    ensures FirstIndex(s, x) == FirstIndex(s[..n], x)
  {
    var k := FirstIndex(s[..n], x);
    assert s[k] == x;
  }

  /** `[...new Set(s)]`: the distinct values of `s` in order of first occurrence. */
  function Dedup(s: seq<string>): (r: seq<string>)
    ensures DistinctStrings(r)
    ensures forall x :: x in r <==> x in s
    ensures forall i, j :: 0 <= i < j < |r| ==> FirstIndex(s, r[i]) < FirstIndex(s, r[j])
    decreases |s|
  {
    if s == [] then []
    else
      var init := s[..|s| - 1];
      var x := s[|s| - 1];
      assert s == init + [x];
      var r := Dedup(init);
      (forall y | y in r ensures FirstIndex(s, y) == FirstIndex(init, y) < |s| - 1 {
         FirstIndexOfPrefix(s, |s| - 1, y);
       }
       if x in r then r
       else
         assert FirstIndex(s, x) == |s| - 1;
         r + [x])
  }

  /** On a list without repeats the union changes nothing. */
  lemma {:induction false} DedupOfDistinct(s: seq<string>)
    requires DistinctStrings(s)
    ensures Dedup(s) == s
    decreases |s|
  {
    if s != [] {
      var init := s[..|s| - 1];
      assert s == init + [s[|s| - 1]];
      DedupOfDistinct(init);
      assert s[|s| - 1] !in init;
    }
  }

  /** Applying the union twice is applying it once. */
  lemma DedupIdempotent(s: seq<string>)
    ensures Dedup(Dedup(s)) == Dedup(s)
  {
    DedupOfDistinct(Dedup(s));
  }

  /** Every category of every record, collection by collection, record by record. */
  function CategoryValues(docs: seq<LegacyDoc>): (r: seq<string>)
    ensures forall x :: x in r <==> exists i :: 0 <= i < |docs| && x in docs[i].category
    decreases |docs|
  {
    if docs == [] then []
    else
      var rest := CategoryValues(docs[1..]);
      assert forall i :: 1 <= i < |docs| ==> docs[i] == docs[1..][i - 1];
      (forall x | x in rest ensures exists i :: 0 <= i < |docs| && x in docs[i].category {
         var i :| 0 <= i < |docs[1..]| && x in docs[1..][i].category;
         assert x in docs[i + 1].category;
       }
       docs[0].category + rest)
  }

  lemma {:induction false} CategoryValuesConcat(a: seq<LegacyDoc>, b: seq<LegacyDoc>)
    ensures CategoryValues(a + b) == CategoryValues(a) + CategoryValues(b)
    decreases |a|
  {
    if a != [] {
      assert (a + b)[0] == a[0] && (a + b)[1..] == a[1..] + b;
      CategoryValuesConcat(a[1..], b);
      assert CategoryValues(a + b) == a[0].category + CategoryValues(a[1..] + b);
    } else {
      assert a + b == b;
    }
  }

  function BrandValues(docs: seq<LegacyDoc>): (r: seq<string>)
    ensures |r| == |docs| && forall i :: 0 <= i < |docs| ==> r[i] == docs[i].brand
    ensures forall x :: x in r <==> exists i :: 0 <= i < |docs| && docs[i].brand == x
  {
    var r := seq(|docs|, i requires 0 <= i < |docs| => docs[i].brand);
    assert forall i :: 0 <= i < |docs| ==> r[i] == docs[i].brand;
    r
  }

  /** `Model.distinct(field)`; the store's order is not specified, the model takes
      first-occurrence order. */
  function Distinct(values: seq<string>): (r: seq<string>)
    ensures DistinctStrings(r) && forall x :: x in r <==> x in values
  {
    Dedup(values)
  }

  function AllDocs(c: Collections): seq<LegacyDoc> {
    c.top + c.discount + c.newP + c.add
  }

  /** The first of the union's four parts that holds `x`: 0 for the first, 3 when
      only the last does. */
  function PartOf(x: string, t: seq<string>, d: seq<string>, n: seq<string>): (k: nat)
    ensures k <= 3
  {
    if x in t then 0 else if x in d then 1 else if x in n then 2 else 3
  }

  /** The first occurrence of `x` falls before a cut exactly when `x` occurs before it. */
  lemma FirstIndexBeforeCut(s: seq<string>, m: nat, x: string)
    requires x in s && m <= |s|
    ensures FirstIndex(s, x) < m <==> x in s[..m]
  {
    var k := FirstIndex(s, x);
    if k < m {
      assert s[..m][k] == x;
    }
  }

  /** `[...new Set([...t, ...d, ...n, ...a])]` lists the values first found in `t`,
      then those first found in `d`, then `n`, then `a`. */
  lemma {:induction false} DedupGroupsParts(t: seq<string>, d: seq<string>, n: seq<string>, a: seq<string>)
    ensures var r := Dedup(t + d + n + a);
      forall i, j :: 0 <= i < j < |r| ==> PartOf(r[i], t, d, n) <= PartOf(r[j], t, d, n)
  {
    var r := Dedup(t + d + n + a);
    forall i, j | 0 <= i < j < |r| ensures PartOf(r[i], t, d, n) <= PartOf(r[j], t, d, n) {
      PartOfFollowsFirstIndex(t, d, n, a, r[i], r[j]);
    }
  }

  /** A value found earlier in the joined parts is in the same part or an earlier one. */
  lemma PartOfFollowsFirstIndex(t: seq<string>, d: seq<string>, n: seq<string>, a: seq<string>, x: string, y: string)
    requires x in t + d + n + a && y in t + d + n + a
    requires FirstIndex(t + d + n + a, x) < FirstIndex(t + d + n + a, y)
    ensures PartOf(x, t, d, n) <= PartOf(y, t, d, n)
  {
    var s := t + d + n + a;
    assert s[..|t|] == t;
    assert s[..|t| + |d|] == t + d;
    assert s[..|t| + |d| + |n|] == t + d + n;
    FirstIndexBeforeCut(s, |t|, x);
    FirstIndexBeforeCut(s, |t|, y);
    FirstIndexBeforeCut(s, |t| + |d|, x);
    FirstIndexBeforeCut(s, |t| + |d|, y);
    FirstIndexBeforeCut(s, |t| + |d| + |n|, x);
    FirstIndexBeforeCut(s, |t| + |d| + |n|, y);
  }

  /** Parts with the same members give a value the same part. */
  lemma PartOfSameMembers(x: string, t: seq<string>, d: seq<string>, n: seq<string>,
                          t0: seq<string>, d0: seq<string>, n0: seq<string>)
    requires (x in t <==> x in t0) && (x in d <==> x in d0) && (x in n <==> x in n0)
    ensures PartOf(x, t, d, n) == PartOf(x, t0, d0, n0)
  {
  }

  /** `GET /all/categories`. */
  function Categories(c: Collections): (r: seq<string>)
    ensures DistinctStrings(r)
    ensures forall x :: x in r <==>
      exists i :: 0 <= i < |AllDocs(c)| && x in AllDocs(c)[i].category
  {
    var parts := Distinct(CategoryValues(c.top)) + Distinct(CategoryValues(c.discount))
               + Distinct(CategoryValues(c.newP)) + Distinct(CategoryValues(c.add));
    CategoryValuesConcat(c.top, c.discount);
    CategoryValuesConcat(c.top + c.discount, c.newP);
    CategoryValuesConcat(c.top + c.discount + c.newP, c.add);
    assert forall x :: x in parts <==> x in CategoryValues(AllDocs(c));
    Dedup(parts)
  }

  /** `GET /all/brands`: the brands of Top, Discount and New, joined with the
      *categories* of the Add collection. */
  function Brands(c: Collections): (r: seq<string>)
    ensures DistinctStrings(r)
    ensures forall x :: x in r <==>
      (|| (exists i :: 0 <= i < |c.top| && c.top[i].brand == x)
       || (exists i :: 0 <= i < |c.discount| && c.discount[i].brand == x)
       || (exists i :: 0 <= i < |c.newP| && c.newP[i].brand == x)
       || (exists i :: 0 <= i < |c.add| && x in c.add[i].category))
  {
    var t := Distinct(BrandValues(c.top));
    var d := Distinct(BrandValues(c.discount));
    var n := Distinct(BrandValues(c.newP));
    var a := Distinct(CategoryValues(c.add));
    assert forall x :: x in t + d + n + a <==> x in t || x in d || x in n || x in a;
    Dedup(t + d + n + a)
  }

  /** The categories are listed Top's first, then those new in Discount, then New,
      then Add. */
  lemma CategoriesGrouped(c: Collections)
    ensures var r := Categories(c);
      forall i, j :: 0 <= i < j < |r| ==>
        PartOf(r[i], CategoryValues(c.top), CategoryValues(c.discount), CategoryValues(c.newP))
        <= PartOf(r[j], CategoryValues(c.top), CategoryValues(c.discount), CategoryValues(c.newP))
  {
    var t, d := Distinct(CategoryValues(c.top)), Distinct(CategoryValues(c.discount));
    var n, a := Distinct(CategoryValues(c.newP)), Distinct(CategoryValues(c.add));
    var r := Categories(c);
    assert r == Dedup(t + d + n + a);
    DedupGroupsParts(t, d, n, a);
    forall i, j | 0 <= i < j < |r|
      ensures PartOf(r[i], CategoryValues(c.top), CategoryValues(c.discount), CategoryValues(c.newP))
           <= PartOf(r[j], CategoryValues(c.top), CategoryValues(c.discount), CategoryValues(c.newP))
    {
      PartOfSameMembers(r[i], t, d, n, CategoryValues(c.top), CategoryValues(c.discount), CategoryValues(c.newP));
      PartOfSameMembers(r[j], t, d, n, CategoryValues(c.top), CategoryValues(c.discount), CategoryValues(c.newP));
    }
  }

  /** The brands are listed Top's first, then those new in Discount, then New, then
      the Add categories. */
  lemma BrandsGrouped(c: Collections)
    ensures var r := Brands(c);
      forall i, j :: 0 <= i < j < |r| ==>
        PartOf(r[i], BrandValues(c.top), BrandValues(c.discount), BrandValues(c.newP))
        <= PartOf(r[j], BrandValues(c.top), BrandValues(c.discount), BrandValues(c.newP))
  {
    var t, d := Distinct(BrandValues(c.top)), Distinct(BrandValues(c.discount));
    var n, a := Distinct(BrandValues(c.newP)), Distinct(CategoryValues(c.add));
    var r := Brands(c);
    assert r == Dedup(t + d + n + a);
    DedupGroupsParts(t, d, n, a);
    forall i, j | 0 <= i < j < |r|
      ensures PartOf(r[i], BrandValues(c.top), BrandValues(c.discount), BrandValues(c.newP))
           <= PartOf(r[j], BrandValues(c.top), BrandValues(c.discount), BrandValues(c.newP))
    {
      PartOfSameMembers(r[i], t, d, n, BrandValues(c.top), BrandValues(c.discount), BrandValues(c.newP));
      PartOfSameMembers(r[j], t, d, n, BrandValues(c.top), BrandValues(c.discount), BrandValues(c.newP));
    }
  }

  /** The brand of an Add record is listed only when some other collection has it
      as a brand or some Add record has it as a category; every Add category is
      listed as a brand. */
  lemma AddBrandsReplacedByCategories(c: Collections, k: nat)
    requires k < |c.add|
    ensures forall x :: x in c.add[k].category ==> x in Brands(c)
    ensures (&& (forall i :: 0 <= i < |c.top| ==> c.top[i].brand != c.add[k].brand)
             && (forall i :: 0 <= i < |c.discount| ==> c.discount[i].brand != c.add[k].brand)
             && (forall i :: 0 <= i < |c.newP| ==> c.newP[i].brand != c.add[k].brand)
             && (forall i :: 0 <= i < |c.add| ==> c.add[k].brand !in c.add[i].category))
            ==> c.add[k].brand !in Brands(c)
  {
  }

  // ------------------------------------------------------------------ listing

  /** The source-type tags added to each listed record. */
  const TopTag := "Top Product"
  const DiscountTag := "Discount Product"
  const NewTag := "New Product"
  const AddTag := "Add Product"

  /** `{ ...p._doc, type: tag }`. */
  datatype Listed = Listed(doc: LegacyDoc, tag: string)

  /** The query of `GET /all/products`; an empty category or brand is no filter,
      `maxPrice` `None` is `Infinity`. */
  datatype CatalogueQuery = CatalogueQuery(
    category: string,
    brand: string,
    sort: string,
    minPrice: real,
    maxPrice: Option<real>,
    page: int,
    limit: int)

  function DefaultCatalogueQuery(): CatalogueQuery {
    CatalogueQuery("", "", "latest", 0.0, None, 1, 12)
  }

  predicate Matches(q: CatalogueQuery, d: LegacyDoc) {
    && q.minPrice <= d.price
    && (q.maxPrice.None? || d.price <= q.maxPrice.value)
    && (q.category == "" || q.category in d.category)
    && (q.brand == "" || d.brand == q.brand)
  }

  /** `(await Model.find(filter)).map(p => ({ ...p._doc, type: tag }))`. */
  function FindTagged(q: CatalogueQuery, docs: seq<LegacyDoc>, tag: string): (r: seq<Listed>)
    ensures |r| <= |docs|
    ensures forall i :: 0 <= i < |r| ==> r[i].tag == tag && Matches(q, r[i].doc) && r[i].doc in docs
    ensures forall i :: 0 <= i < |docs| && Matches(q, docs[i]) ==> Listed(docs[i], tag) in r
    decreases |docs|
  {
    if docs == [] then []
    else
      var rest := FindTagged(q, docs[1..], tag);
      assert forall i :: 1 <= i < |docs| ==> docs[i] == docs[1..][i - 1];
      (if Matches(q, docs[0]) then [Listed(docs[0], tag)] else []) + rest
  }

  /** `[...top, ...discount, ...newP, ...addP]`. */
  function Concatenated(q: CatalogueQuery, c: Collections): (r: seq<Listed>)
    ensures forall i :: 0 <= i < |r| ==> Matches(q, r[i].doc)
    ensures forall i :: 0 <= i < |r| ==> r[i].tag in {TopTag, DiscountTag, NewTag, AddTag}
    ensures forall i :: 0 <= i < |r| && r[i].tag == TopTag ==> r[i].doc in c.top
    ensures forall i :: 0 <= i < |c.top| && Matches(q, c.top[i]) ==> Listed(c.top[i], TopTag) in r
    ensures forall i :: 0 <= i < |c.add| && Matches(q, c.add[i]) ==> Listed(c.add[i], AddTag) in r
  {
    var t := FindTagged(q, c.top, TopTag);
    var d := FindTagged(q, c.discount, DiscountTag);
    var n := FindTagged(q, c.newP, NewTag);
    var a := FindTagged(q, c.add, AddTag);
    var r := t + d + n + a;
    forall i | 0 <= i < |r|
      ensures Matches(q, r[i].doc) && r[i].tag in {TopTag, DiscountTag, NewTag, AddTag}
      ensures r[i].tag == TopTag ==> r[i].doc in c.top
    {
      if i < |t| {
        assert r[i] == t[i];
      } else if i < |t| + |d| {
        assert r[i] == d[i - |t|];
      } else if i < |t| + |d| + |n| {
        assert r[i] == n[i - |t| - |d|];
      } else {
        assert r[i] == a[i - |t| - |d| - |n|];
      }
    }
    assert forall x :: x in t ==> x in r;
    assert forall x :: x in a ==> x in r;
    r
  }

  /** Records tagged as Top come first, then Discount, New and Add. */
  lemma ConcatenatedInCollectionOrder(q: CatalogueQuery, c: Collections, i: nat, j: nat)
    requires i < j < |Concatenated(q, c)|
    requires Concatenated(q, c)[j].tag == TopTag
    ensures Concatenated(q, c)[i].tag == TopTag
  {
    var t := FindTagged(q, c.top, TopTag);
    var d := FindTagged(q, c.discount, DiscountTag);
    var n := FindTagged(q, c.newP, NewTag);
    var a := FindTagged(q, c.add, AddTag);
    assert Concatenated(q, c) == t + d + n + a;
  }

  function KeyOf(l: Listed): SortKey {
    SortKey(l.doc.price, l.doc.brand, l.doc.createdAt)
  }

  predicate SortedBy(mode: SortMode, s: seq<Listed>) {
    forall i, j :: 0 <= i < j < |s| ==> Le(mode, KeyOf(s[i]), KeyOf(s[j]))
  }

  /** Sorted except at `j`, among the first `n`. */
  predicate SortedBut(mode: SortMode, s: seq<Listed>, n: nat, j: nat)
    requires n <= |s|
  {
    forall p, q :: 0 <= p < q < n && p != j && q != j ==> Le(mode, KeyOf(s[p]), KeyOf(s[q]))
  }

  /** The element at `j` may precede everything after it among the first `n`. */
  predicate PrecedesRest(mode: SortMode, s: seq<Listed>, n: nat, j: nat)
    requires j < n <= |s|
  {
    forall q :: j < q < n ==> Le(mode, KeyOf(s[j]), KeyOf(s[q]))
  }

  /** One swap of the insertion step keeps its invariant. */
  lemma SwapStep(mode: SortMode, s: seq<Listed>, n: nat, j: nat)
    requires 0 < j < n <= |s|
    requires SortedBut(mode, s, n, j) && PrecedesRest(mode, s, n, j)
    requires !Le(mode, KeyOf(s[j - 1]), KeyOf(s[j]))
    ensures SortedBut(mode, s[j - 1 := s[j]][j := s[j - 1]], n, j - 1)
    ensures PrecedesRest(mode, s[j - 1 := s[j]][j := s[j - 1]], n, j - 1)
  {
    LeTotal(mode, KeyOf(s[j - 1]), KeyOf(s[j]));
  }

  /** When the element at `j` may follow its left neighbour, the prefix is sorted. */
  lemma InsertDone(mode: SortMode, s: seq<Listed>, n: nat, j: nat)
    requires j < n <= |s|
    requires SortedBut(mode, s, n, j) && PrecedesRest(mode, s, n, j)
    requires j > 0 ==> Le(mode, KeyOf(s[j - 1]), KeyOf(s[j]))
    ensures SortedBy(mode, s[..n])
  {
    forall p, q | 0 <= p < q < n ensures Le(mode, KeyOf(s[p]), KeyOf(s[q])) {
      if q == j && p < j - 1 {
        LeTrans(mode, KeyOf(s[p]), KeyOf(s[j - 1]), KeyOf(s[j]));
      }
    }
  }

  /** The next element starts its insertion with the prefix before it sorted. */
  lemma StartInsert(mode: SortMode, s: seq<Listed>, i: nat)
    requires i < |s| && SortedBy(mode, s[..i])
    ensures SortedBut(mode, s, i + 1, i) && PrecedesRest(mode, s, i + 1, i)
  {
    forall p, q | 0 <= p < q < i + 1 && p != i && q != i ensures Le(mode, KeyOf(s[p]), KeyOf(s[q])) {
      assert s[p] == s[..i][p] && s[q] == s[..i][q];
    }
  }

  /** Swapping two neighbours keeps the elements. */
  lemma SwapKeepsMultiset(s: seq<Listed>, j: nat)
    requires 0 < j < |s|
    ensures multiset(s[j - 1 := s[j]][j := s[j - 1]]) == multiset(s)
  {
  }

  /** `products.sort(cmp)` for a known mode, in place (an insertion sort). */
  method SortInPlace(mode: SortMode, a: array<Listed>)
    modifies a
    ensures SortedBy(mode, a[..])
    ensures multiset(a[..]) == multiset(old(a[..]))
  {
    var i := 0;
    while i < a.Length
      invariant 0 <= i <= a.Length
      invariant SortedBy(mode, a[..i])
      invariant multiset(a[..]) == multiset(old(a[..]))
    {
      Insert(mode, a, i);
      i := i + 1;
    }
    assert a[..] == a[..a.Length];
  }

  /** Moves `a[i]` left into place, so the first `i + 1` elements are sorted. */
  method Insert(mode: SortMode, a: array<Listed>, i: nat)
    requires i < a.Length && SortedBy(mode, a[..i])
    modifies a
    ensures SortedBy(mode, a[..i + 1])
    ensures multiset(a[..]) == multiset(old(a[..]))
  {
    StartInsert(mode, a[..], i);
    var j := i;
    while j > 0 && !Le(mode, KeyOf(a[j - 1]), KeyOf(a[j]))
      invariant 0 <= j <= i
      invariant SortedBut(mode, a[..], i + 1, j) && PrecedesRest(mode, a[..], i + 1, j)
      invariant multiset(a[..]) == multiset(old(a[..]))
      decreases j
    {
      ghost var before := a[..];
      SwapStep(mode, before, i + 1, j);
      SwapKeepsMultiset(before, j);
      a[j - 1], a[j] := a[j], a[j - 1];
      assert a[..] == before[j - 1 := before[j]][j := before[j - 1]];
      j := j - 1;
    }
    InsertDone(mode, a[..], i + 1, j);
    assert a[..i + 1] == a[..][..i + 1];
  }

  /** `Array.prototype.slice(start, end)`: negative bounds count from the end. */
  function JsSlice<T>(s: seq<T>, start: int, end: int): (r: seq<T>)
    ensures |r| <= |s|
    ensures 0 <= start <= end ==> r == s[Clip(start, |s|)..Clip(end, |s|)]
  {
    var from := if start < 0 then Clip(|s| + start, |s|) else Clip(start, |s|);
    var to := if end < 0 then Clip(|s| + end, |s|) else Clip(end, |s|);
    if from < to then s[from..to] else []
  }

  /** `max(0, min(x, n))`. */
  function Clip(x: int, n: nat): (r: nat)
    ensures r <= n && (0 <= x <= n ==> r == x)
  {
    if x < 0 then 0 else if x > n then n else x
  }

  /** A slice of a window of non-negative width is at most that wide. */
  lemma SliceWithinWidth<T>(s: seq<T>, start: int, width: int)
    requires width >= 0
    ensures |JsSlice(s, start, start + width)| <= width
  {
  }

  /** `(page - 1) * limit`. */
  function PageStart(page: int, limit: int): int {
    (page - 1) * limit
  }

  datatype CataloguePage = CataloguePage(total: nat, page: int, limit: int, products: seq<Listed>)

  /** `GET /all/products`: concatenate, sort by a known mode in place, then slice
      the page. `ordered` is the whole list as sorted. */
  method AllProducts(q: CatalogueQuery, c: Collections) returns (r: CataloguePage, ordered: seq<Listed>)
    ensures multiset(ordered) == multiset(Concatenated(q, c))
    ensures ParseSort(q.sort).Some? ==> SortedBy(ParseSort(q.sort).value, ordered)
    ensures ParseSort(q.sort).None? ==> ordered == Concatenated(q, c)
    ensures r.total == |Concatenated(q, c)| && r.page == q.page && r.limit == q.limit
    ensures r.products == JsSlice(ordered, PageStart(q.page, q.limit), PageStart(q.page, q.limit) + q.limit)
    ensures q.limit >= 0 ==> |r.products| <= q.limit
  {
    r, ordered := ListingPage(q, Concatenated(q, c));
  }

  /** Sort and slice an already concatenated list. */
  method ListingPage(q: CatalogueQuery, products: seq<Listed>) returns (r: CataloguePage, ordered: seq<Listed>)
    ensures multiset(ordered) == multiset(products)
    ensures ParseSort(q.sort).Some? ==> SortedBy(ParseSort(q.sort).value, ordered)
    ensures ParseSort(q.sort).None? ==> ordered == products
    ensures r.total == |products| && r.page == q.page && r.limit == q.limit
    ensures r.products == JsSlice(ordered, PageStart(q.page, q.limit), PageStart(q.page, q.limit) + q.limit)
    ensures q.limit >= 0 ==> |r.products| <= q.limit
  {
    ordered := SortListing(ParseSort(q.sort), products);
    var startIndex := PageStart(q.page, q.limit);
    var endIndex := startIndex + q.limit;
    if q.limit >= 0 {
      SliceWithinWidth(ordered, startIndex, q.limit);
    }
    r := CataloguePage(|products|, q.page, q.limit, JsSlice(ordered, startIndex, endIndex));
  }

  /** Copy the list into an array and sort it in place when the mode is known. */
  method SortListing(mode: Option<SortMode>, products: seq<Listed>) returns (ordered: seq<Listed>)
    ensures multiset(ordered) == multiset(products)
    ensures mode.Some? ==> SortedBy(mode.value, ordered)
    ensures mode.None? ==> ordered == products
  {
    var a := new Listed[|products|](i requires 0 <= i < |products| => products[i]);
    assert a[..] == products;
    if mode.Some? {
      SortInPlace(mode.value, a);
    }
    ordered := a[..];
  }

  /** Every element of a slice comes from the sliced list. */
  lemma SliceElement<T>(s: seq<T>, start: int, end: int, i: nat)
    requires i < |JsSlice(s, start, end)|
    ensures JsSlice(s, start, end)[i] in s
  {
    var from := if start < 0 then Clip(|s| + start, |s|) else Clip(start, |s|);
    var to := if end < 0 then Clip(|s| + end, |s|) else Clip(end, |s|);
    assert JsSlice(s, start, end) == s[from..to];
    assert JsSlice(s, start, end)[i] == s[from + i];
  }

  /** Every listed product matches the query's filter. */
  lemma ListedProductsMatch(q: CatalogueQuery, c: Collections, ordered: seq<Listed>, start: int, end: int)
    requires multiset(ordered) == multiset(Concatenated(q, c))
    ensures forall i :: 0 <= i < |JsSlice(ordered, start, end)| ==> Matches(q, JsSlice(ordered, start, end)[i].doc)
  {
    var all := Concatenated(q, c);
    var shown := JsSlice(ordered, start, end);
    forall i | 0 <= i < |shown| ensures Matches(q, shown[i].doc) {
      SliceElement(ordered, start, end, i);
      assert shown[i] in multiset(ordered);
      var k :| 0 <= k < |all| && all[k] == shown[i];
    }
  }

  // ------------------------------------------------------------------ details

  /** The normalised record of `GET /details/:id`. */
  datatype Details = Details(
    id: string,
    name: string,
    brand: string,
    category: seq<string>,
    price: real,
    discountPrice: real,
    images: seq<Image>,
    thumbnailIndex: int,
    hoverImageUrl: Option<string>,
    kind: string,
    createdAt: int,
    description: Option<string>,
    features: Option<string>,
    benefits: Option<string>)

  const GeneralKind := "General"

  /** The normalisation: `discprice || price`, `images || []`, `thumbnailIndex || 0`,
      `type || "General"` (a zero discount price and an empty type are falsy). */
  function Normalized(d: LegacyDoc): (r: Details)
    ensures r.id == d.id && r.name == d.name && r.brand == d.brand && r.category == d.category
    ensures r.price == d.price && r.createdAt == d.createdAt && r.hoverImageUrl == d.hoverImageUrl
    ensures r.discountPrice == d.price <==> (d.discprice.None? || d.discprice.value == 0.0 || d.discprice.value == d.price)
    ensures d.discprice.Some? && d.discprice.value != 0.0 ==> r.discountPrice == d.discprice.value
    ensures d.images.None? ==> r.images == []
    ensures d.images.Some? ==> r.images == d.images.value
    ensures d.thumbnailIndex.None? ==> r.thumbnailIndex == 0
    ensures d.thumbnailIndex.Some? ==> r.thumbnailIndex == d.thumbnailIndex.value
    ensures r.kind == GeneralKind <==> (d.kind.None? || d.kind.value == "" || d.kind.value == GeneralKind)
    ensures d.kind.Some? && d.kind.value != "" ==> r.kind == d.kind.value
    ensures r.description == d.description && r.features == d.features && r.benefits == d.benefits
  {
    Details(d.id, d.name, d.brand, d.category, d.price,
            if d.discprice.Some? && d.discprice.value != 0.0 then d.discprice.value else d.price,
            d.images.GetOr([]), d.thumbnailIndex.GetOr(0), d.hoverImageUrl,
            if d.kind.Some? && d.kind.value != "" then d.kind.value else GeneralKind,
            d.createdAt, d.description, d.features, d.benefits)
  }

  /** `Model.findById(id)`: the record with that id, if any. */
  function FindById(docs: seq<LegacyDoc>, id: string): (r: Option<LegacyDoc>)
    ensures r.Some? ==> r.value in docs && r.value.id == id
    ensures r.None? <==> forall i :: 0 <= i < |docs| ==> docs[i].id != id
    decreases |docs|
  {
    if docs == [] then None
    else if docs[0].id == id then Some(docs[0])
    else
      assert forall i :: 1 <= i < |docs| ==> docs[i] == docs[1..][i - 1];
      FindById(docs[1..], id)
  }

  function HasId(docs: seq<LegacyDoc>, id: string): bool {
    exists i :: 0 <= i < |docs| && docs[i].id == id
  }

  /** `GET /details/:id`: an id that does not cast makes the first `findById`
      throw (500); otherwise the first collection, in Top, Discount, New, Add order,
      holding the cast id answers. */
  function Resolve(c: Collections, id: string): (r: Result<Details>)
    ensures !IsObjectId(id) ==> r == Err(ServerError)
    ensures IsObjectId(id) ==>
      (r.Err? <==> !HasId(c.top, Cast(id)) && !HasId(c.discount, Cast(id)) && !HasId(c.newP, Cast(id)) && !HasId(c.add, Cast(id)))
    ensures IsObjectId(id) && r.Err? ==> r == Err(NotFound("Product not found"))
    ensures IsObjectId(id) && HasId(c.top, Cast(id)) ==> r == Ok(Normalized(FindById(c.top, Cast(id)).value))
    ensures IsObjectId(id) && !HasId(c.top, Cast(id)) && HasId(c.discount, Cast(id)) ==>
      r == Ok(Normalized(FindById(c.discount, Cast(id)).value))
    ensures IsObjectId(id) && !HasId(c.top, Cast(id)) && !HasId(c.discount, Cast(id)) && HasId(c.newP, Cast(id)) ==>
      r == Ok(Normalized(FindById(c.newP, Cast(id)).value))
    ensures IsObjectId(id) && !HasId(c.top, Cast(id)) && !HasId(c.discount, Cast(id)) && !HasId(c.newP, Cast(id)) && HasId(c.add, Cast(id)) ==>
      r == Ok(Normalized(FindById(c.add, Cast(id)).value))
    ensures r.Ok? ==> r.value.id == Cast(id)
  {
    if !IsObjectId(id) then Err(ServerError)
    else
      var hit :=
        if FindById(c.top, Cast(id)).Some? then FindById(c.top, Cast(id))
        else if FindById(c.discount, Cast(id)).Some? then FindById(c.discount, Cast(id))
        else if FindById(c.newP, Cast(id)).Some? then FindById(c.newP, Cast(id))
        else FindById(c.add, Cast(id));
      if hit.None? then Err(NotFound("Product not found")) else Ok(Normalized(hit.value))
  }

  /** The lookup depends only on the cast id: an id in uppercase digits answers
      as its lowercase form does. */
  lemma ResolveSeesCast(c: Collections, id: string)
    requires IsObjectId(id)
    ensures Resolve(c, id) == Resolve(c, Cast(id))
  {
    CastIdempotent(id);
  }

  /** A record in Top hides a record with the same id in any later collection,
      however the request spells the id. */
  lemma TopShadowsLater(c: Collections, id: string, d: LegacyDoc)
    requires HasId(c.top, Cast(id))
    ensures Resolve(c, id) == Resolve(Collections(c.top, c.discount + [d], c.newP + [d], c.add + [d]), id)
  {
  }
}
