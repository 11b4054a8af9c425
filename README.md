# Kukkabura cart and catalogue core, modelled in Dafny

This project models the behaviour of the shop's server cart, the browser cart
context with its guest-cart merge, the unified and legacy product routes, the
legacy multi-collection catalogue, and four small front-end state machines. It
proves properties about each of them.

The code is organised into one Dafny module per source file, plus shared helpers:

- `Wrappers`: `Option` and `Result`, with the HTTP error answers 400, 404 and 500.
- `JsText`: JavaScript `trim`, `split`, `join`. It also holds code-point order, which stands in for `localeCompare`.
- `FormFields`: request-body values, and `normalizeField`.
- `Gallery`: image lists, and the delete-one-image thumbnail adjustment that both product routes use.
- `Lists`: `splice(k, 1)`, shared by the cart and image routes.
- `ObjectIds`: the ids `findById` accepts, as 24 hexadecimal digits in either case. `Cast` is the id a lookup actually uses, with the digits in lowercase, which is also how a stored id prints. An id that does not cast makes the lookup throw, and the handler answers 500.
- `Ordering`: the listing sort modes, each as a total preorder.

How the source's pieces become Dafny:

- **Collections.** Each database collection becomes a `seq` or `map` field of a class (`CartStore`, `ProductStore`, `AddProductStore`).
  - Route handlers are methods on these classes.
  - Each handler's `ensures` ties the new state to a pure function of the old state, for example `AddToCart`, `Updated` or `UpdatedForm`.
  - The properties are proved about those functions.
- **Outside answers become parameters.** Anything the code receives from outside is passed in:
  - the server's replies (`Option`, where `None` means the request threw);
  - the ids in the TopProduct and NewProduct collections;
  - uploaded files;
  - the attempts of the merge loop whose POST failed.
- **Saving.** A save runs the Mongoose validators: `required`, `min: 1` on cart quantities, and the `productType` enum. A save that fails answers 500 and stores nothing.
- **In-place sort.** The legacy listing sorts a real array in place. This is an insertion sort proved sorted and a permutation.
- **Front-end components.** Each component's `useState` fields become a class with guarded methods.

## Model

| member | source | states |
|---|---|---|
| CartSchema.Hydrate | backend/models/Cart.js:5-9 | populating keeps every line's quantity; a line resolves to its product exactly when the id is a TopProduct id |
| CartSchema.NewOnlyProductHydratesToNull | backend/models/Cart.js:7 | a line whose product exists only in NewProduct comes back with a null product |
| CartRoutes.IndexOf | backend/routes/cart.js:38-40 | `findIndex`: the first line with the id, or -1 exactly when no line has it |
| CartRoutes.AddItems | backend/routes/cart.js:38-46 | a present id gains the quantity, with the line count and every other line unchanged; an absent id is appended; distinct ids stay distinct |
| CartRoutes.RemoveAll | backend/routes/cart.js:94-96 | the filter removes every line of the id and keeps all other quantities; it is a no-op when the id is absent; it keeps validity and distinctness |
| CartRoutes.RemoveAllSingle | backend/routes/cart.js:94-96 | one line is dropped exactly when it names the id, and kept otherwise |
| CartRoutes.RemoveAllConcat | backend/routes/cart.js:94-96 | filtering a concatenation is concatenating the filtered parts, so the kept lines stay in their order |
| CartRoutes.RemoveAllIdempotent | backend/routes/cart.js:94-96 | removing twice equals removing once |
| CartRoutes.SpliceIsRemoveAll | backend/routes/cart.js:74-96 | on a cart with distinct ids, splicing the found line equals filtering the id out |
| CartRoutes.AddToCart | backend/routes/cart.js:21-55 | 500 when the id does not cast to an ObjectId; otherwise 404 "Product not found" when the cast id is in neither collection; on success the cast id is present with its quantity raised by the given amount (default 1), other products untouched, distinctness kept; a failed save is 500. The line step is the corrected one of ## Findings, which equals the source's on lowercase ids |
| CartRoutes.AddToCartSucceedsIff | backend/routes/cart.js:21-55 | on a valid cart holding a known cast id, add succeeds exactly when the id casts and the resulting line quantity of the cast id is at least 1 |
| CartRoutes.UpdateCart | backend/routes/cart.js:58-86 | 404 "Cart not found" or "Product not in cart"; a quantity ≤ 0 or a JSON `null` (which `<= 0` compares as 0) splices the found line out; > 0 replaces it where it stands with exactly that quantity and leaves every other position as it was; an absent quantity is 500; on a valid cart it succeeds exactly when the product is present and the quantity is not absent |
| CartRoutes.RemoveFromCart | backend/routes/cart.js:89-105 | 404 only without a cart; otherwise the id is gone, other quantities are kept, and an absent id changes nothing |
| CartRoutes.RemoveFromCartKeepsOrder | backend/routes/cart.js:89-105 | removing from a + b gives the filtered a followed by the filtered b |
| CartRoutes.RemoveFromCartIdempotent | backend/routes/cart.js:94-96 | removing a product twice answers like removing it once |
| CartRoutes.UpdateToZeroIsRemove | backend/routes/cart.js:72-74 | on a cart with distinct ids holding the product, an update to ≤ 0 or to `null` equals a remove |
| CartRoutes.NullQuantityRemovesLine | backend/routes/cart.js:58-86 | a PUT with `quantity: null` removes the line and answers the remaining cart; a PUT without a quantity answers 500 |
| CartRoutes.ScenarioAddAddUpdate | backend/routes/cart.js:21-86 | a product added twice (2, then 3) into no cart gives one line of 5; updating it to 0 gives [] |
| CartRoutes.AddItemsAsWritten | backend/routes/cart.js:38-46 | the step as the source writes it: the raw id is compared with the stored ids' lowercase strings; on a miss a line of the cast id is pushed, on a hit the line count and the set of ids are unchanged |
| CartRoutes.AsWrittenAgreesOnCanonical | backend/routes/cart.js:38-46 | for an id already in lowercase, the step as written equals the corrected `AddItems` |
| CartRoutes.UpperIdDuplicatesLine | backend/routes/cart.js:38-46 | a cart holding 64b7f3c2a1d4e5f678900001 and a POST of 64B7F3C2A1D4E5F678900001 gives two lines of the same product as written, so ids stop being distinct; the corrected step raises the one line to 2 |
| CartRoutes.UpperIdMissesCartLine | backend/routes/cart.js:58-105 | the PUT and DELETE compare raw strings, so an uppercase id answers 404 "Product not in cart" on update and leaves the cart unchanged on delete |
| CartRoutes.RaiseOrAppend | backend/routes/cart.js:38-46 | the in-place raise-or-push gives exactly `AddItems` |
| CartRoutes.CartStore.Get | backend/routes/cart.js:10-13 | a user without a cart gets `{userId, items: []}`; otherwise the hydrated lines |
| CartRoutes.CartStore.Add | backend/routes/cart.js:21-55 | on success only this user's cart changes, to the `AddToCart` result; on error nothing changes; every cart stays valid with distinct ids |
| CartRoutes.CartStore.Update | backend/routes/cart.js:58-86 | on success only this user's cart changes, to the `UpdateCart` result (so a `null` quantity removes the line); on error nothing changes |
| CartRoutes.CartStore.Remove | backend/routes/cart.js:89-105 | on success only this user's cart changes, to the `RemoveFromCart` result; on error nothing changes |
| CartRoutes.CartStore.Clear | backend/routes/cart.js:108-116 | the user's cart is deleted, the others are kept, and the answer is "Cart cleared" with no items |
| CartRoutes.ClearedCartReadsEmpty | backend/routes/cart.js:108-116 | after clear the user has no cart, so a get answers the empty default of lines 12-13 |
| CartContext.Counted | frontend/src/context/CartContext.jsx:13 | `quantity \|\| 1`: a zero quantity counts as one |
| CartContext.CartCount | frontend/src/context/CartContext.jsx:13 | with non-negative quantities the count is at least the number of lines |
| CartContext.CartCountConcat | frontend/src/context/CartContext.jsx:13 | the count of a concatenation is the sum of the counts |
| CartContext.Bump | frontend/src/context/CartContext.jsx:68 | matching guest lines gain the quantity; every other item is unchanged |
| CartContext.GuestAdd | frontend/src/context/CartContext.jsx:64-71 | an existing guest line is raised, otherwise a line is appended |
| CartContext.GuestAddCount | frontend/src/context/CartContext.jsx:64-71 | counted as on line 13, adding q to a cart with one matching line raises the count by q; adding a new line raises it by q, or by 1 when q is 0 |
| CartContext.BumpCount | frontend/src/context/CartContext.jsx:68 | counted as on line 13, raising the single matching line by q raises the count by q |
| CartContext.SetQuantity | frontend/src/context/CartContext.jsx:85 | matching guest lines take the new quantity; the length and the other items are unchanged |
| CartContext.ZeroQuantityCountsAsOne | frontend/src/context/CartContext.jsx:85 | setting a quantity to 0 keeps the line, and it counts as if its quantity were 1 |
| CartContext.Drop | frontend/src/context/CartContext.jsx:98 | the filter drops exactly the matching lines |
| CartContext.DropConcat | frontend/src/context/CartContext.jsx:98 | filtering distributes over concatenation, so order is kept |
| CartContext.DropAfterBump | frontend/src/context/CartContext.jsx:68-98 | removing after raising is removing |
| CartContext.RemoveUndoesAdd | frontend/src/context/CartContext.jsx:64-98 | removing a product after adding it gives the list with that product removed |
| CartContext.ServerItems | frontend/src/context/CartContext.jsx:21-59 | the server's hydrated lines are taken over one for one |
| CartContext.Delivered | frontend/src/context/CartContext.jsx:39-47 | the guest lines whose POST did not fail, in order; with no failures, all of them |
| CartContext.Replay | frontend/src/context/CartContext.jsx:39-47 | replaying guest lines as server adds changes only this user's cart and keeps every cart valid |
| CartContext.ReplaySums | frontend/src/context/CartContext.jsx:39-47 | when every guest line is accepted (a lowercase ObjectId of a known product, quantity at least 1), each product's server quantity after the merge is its old quantity plus its delivered guest quantity |
| CartContext.ReplayConcat | frontend/src/context/CartContext.jsx:39-47 | merging g1 + g2 equals merging g1 and then g2 |
| CartContext.MergeQuantitiesCommute | frontend/src/context/CartContext.jsx:39-47 | when every line of both batches is accepted, the resulting quantities do not depend on the order of the two guest batches |
| CartContext.ReplaySkipsRejected | frontend/src/context/CartContext.jsx:39-47 | a line whose id does not cast, or whose cast id names no product, leaves the carts unchanged, and the lines after it apply as if it were absent |
| CartContext.MergeOrderMatters | frontend/src/context/CartContext.jsx:39-47 | without the accepted-lines condition the order matters: [p×-2] then [p×5] into no cart leaves 5, the other order leaves 3 |
| CartContext.PostIntoNoCart | backend/routes/cart.js:21-55 | a post of an id whose cast is known, into no cart, makes a cart of one line of the cast id when the quantity is at least 1, and is answered 500 otherwise |
| CartContext.RefusedIntoNoCart | backend/routes/cart.js:21-55 | into no cart a line of -2 is refused and the carts stay as they were |
| CartContext.AddedIntoNoCart | backend/routes/cart.js:21-55 | into no cart a line of 5 makes a cart of that one line |
| CartContext.AddedThenLowered | backend/routes/cart.js:21-55 | a line of -2 posted into a cart of one line of 5 leaves one line of 3 |
| CartContext.ScenarioMerge | frontend/src/context/CartContext.jsx:39-47 | [A×1, B×2] merged into [A×3] gives [A×4, B×2], for two well-formed ids A and B |
| CartContext.PostAll | frontend/src/context/CartContext.jsx:39-47 | posting the guest lines one after another leaves the server carts equal to `Replay` of those lines, and every cart stays valid |
| CartContext.CartClient.Count | frontend/src/context/CartContext.jsx:13 | the badge count is `CartCount(items)` |
| CartContext.CartClient.FetchCart | frontend/src/context/CartContext.jsx:16-32 | a logged-in client takes the server's items, or [] on failure; a guest takes the stored guest cart, or [] |
| CartContext.CartClient.AddToCart | frontend/src/context/CartContext.jsx:55-76 | a logged-in client takes the server's reply, or keeps its items on failure; a guest performs `GuestAdd` and stores the new list |
| CartContext.CartClient.UpdateQty | frontend/src/context/CartContext.jsx:78-89 | logged in: the reply; guest: `SetQuantity`, stored |
| CartContext.CartClient.Remove | frontend/src/context/CartContext.jsx:91-102 | logged in: the reply; guest: `Drop`, stored |
| CartContext.CartClient.ClearCart | frontend/src/context/CartContext.jsx:104-107 | items become []; the stored guest cart is removed only when there is no user |
| CartContext.CartClient.MergeGuestCart | frontend/src/context/CartContext.jsx:36-50 | nothing is sent without a user, without a token, or with no guest lines; otherwise the server carts become `Replay` of the guest lines, and the items are refreshed from the server, or emptied when that closing fetch throws; the guest cache is left in place |
| FormFields.RawField | backend/routes/productRoutes.js:26 | `body["field[]"] ?? body.field` |
| FormFields.ListOf | backend/routes/productRoutes.js:27-29 | arrays are trimmed with blanks dropped, strings are split on commas, anything else gives []; every element is non-empty and trimmed |
| FormFields.NormalizeField | backend/routes/productRoutes.js:25-30 | every result element is non-empty and trimmed |
| FormFields.ArrayElementsKept | backend/routes/productRoutes.js:27 | every non-blank array element survives, trimmed |
| FormFields.NormalizeFieldIdempotent | backend/routes/productRoutes.js:28 | normalising the comma-joined result again gives the same list |
| ObjectIds.Cast | backend/routes/cart.js:26 | the cast keeps the length and lowercases each hexadecimal digit, so an ObjectId casts to a lowercase ObjectId |
| ObjectIds.CastCanonical | backend/routes/cart.js:26 | an id already in lowercase casts to itself |
| ObjectIds.CastIdempotent | backend/routes/cart.js:26 | casting twice equals casting once |
| ObjectIds.UpperSampleCast | backend/routes/cart.js:26 | 64B7F3C2A1D4E5F678900001 is an ObjectId, differs from 64b7f3c2a1d4e5f678900001 as a string, and casts to it |
| JsText.Trim | backend/routes/productRoutes.js:27-28 | `trim` gives a slice of its input with no white space at either end, and everything it cuts off is white space |
| JsText.TrimmedIsFixed | backend/routes/productRoutes.js:27-28 | trimming a string without white space at its ends changes nothing |
| JsText.TrimKeepsOut | backend/routes/productRoutes.js:28 | a character absent from a string is absent from its trimmed form |
| JsText.Split | backend/routes/productRoutes.js:28 | `split(",")` gives at least one piece, and no piece holds the separator |
| JsText.CommaList | backend/routes/productRoutes.js:28 | split–trim–filter yields non-empty, trimmed, comma-free pieces |
| JsText.CommaListRoundTrip | backend/routes/productRoutes.js:28 | split–trim–filter of the joined result gives the result again |
| JsText.JoinSplit | backend/routes/productRoutes.js:28 | `split(",")` followed by `join(",")` restores the string |
| JsText.SplitJoin | backend/routes/productRoutes.js:28 | `join` followed by `split` restores comma-free pieces |
| JsText.TrimNonEmpty | backend/routes/productRoutes.js:27 | `map(trim).filter(Boolean)` yields only non-empty trimmed pieces, never more than it was given |
| JsText.TrimNonEmptyKeeps | backend/routes/productRoutes.js:27 | every piece that is not all white space survives, trimmed |
| JsText.StrLeTotal | backend/routes/products.js:72 | the brand order is total |
| JsText.StrLeTrans | backend/routes/products.js:72 | the brand order is transitive |
| Ordering.ParseSort | backend/routes/products.js:65-75 | "latest" parses to newest first; exactly the five sort names parse, every other text names no mode |
| Ordering.LeTotal | backend/routes/productRoutes.js:152-156 | every mode's order is total |
| Ordering.LeTrans | backend/routes/productRoutes.js:152-156 | every mode's order is transitive |
| Gallery.FindImage | backend/routes/productRoutes.js:251 | `findIndex` on public ids: the first match, or -1 when there is none |
| Lists.Splice | backend/routes/productRoutes.js:254 | `splice(k, 1)` drops exactly position k: the elements before it keep their places and those after move down by one |
| Gallery.DeleteImage | backend/routes/productRoutes.js:249-258 | a found image is removed and the new thumbnail is `Reaimed`: one on it resets to 0, one after it moves down by one, one before it stays; nothing changes when the id is absent |
| Gallery.DeleteKeepsComplete | backend/models/ProductSchema.js:14-19 | deleting an image keeps every image's url and public id present |
| Gallery.OnlyFirstMatchRemoved | backend/routes/productRoutes.js:251-254 | with duplicate public ids only the first occurrence is removed |
| ProductSchema.TextDefaults | backend/models/ProductSchema.js:34-40 | every text field defaults to "" |
| ProductSchema.DefaultTypeAccepted | backend/models/ProductSchema.js:25-29 | the default `["regular"]` passes the enum |
| ProductRoutes.DiscountPrice | backend/routes/productRoutes.js:48-49 | `price - price * discount / 100` |
| ProductRoutes.DiscountPriceBounds | backend/routes/productRoutes.js:48-49 | for a discount in [0, 100] and a non-negative price, the discount price lies between 0 and the price |
| ProductRoutes.DiscountPriceUnchangedIff | backend/routes/productRoutes.js:48-49 | for a positive price, the discount price equals the price exactly when the discount is 0 |
| ProductRoutes.DiscountAboveHundredIsNegative | backend/routes/productRoutes.js:48-49 | the discount is not clamped: above 100 the price goes negative |
| ProductRoutes.ScenarioQuarterOff | backend/routes/productRoutes.js:48-49 | 1000 at 25% gives 750 |
| ProductRoutes.NormalizeProduct | backend/routes/productRoutes.js:35-61 | fields are copied; a missing discount becomes 0; the hover image is the second image's url when there is one; every text field is present |
| ProductRoutes.CreateOutcome | backend/routes/productRoutes.js:66-124 | 400 "Category is required", then 400 "At least one product image is required"; saved exactly when the document passes validation; the defaults are `["regular"]`, thumbnail 0, discount 0 and empty texts; every other failure is 500 |
| ProductRoutes.Applied | backend/routes/productRoutes.js:213-258 | each field is overwritten only when supplied; non-empty normalised lists replace; uploads replace all images; then the thumbnail is set and the image removed |
| ProductRoutes.Updated | backend/routes/productRoutes.js:192-266 | a NaN thumbnail is 500; saved as `Applied` exactly when that passes validation; every failure is 500 |
| ProductRoutes.WellFormedUpdateSaved | backend/routes/productRoutes.js:213-260 | a valid product with a well-formed update is always saved |
| ProductRoutes.ReplacedImagesKeepRequestedThumbnail | backend/routes/productRoutes.js:234-247 | with new uploads and a thumbnail index, the product has exactly those images and that index |
| ProductRoutes.Filter | backend/routes/productRoutes.js:142-147 | the filter keeps exactly the matching documents, each once, from the collection |
| ProductRoutes.Insert | backend/routes/productRoutes.js:152-156 | insertion keeps the list sorted and adds exactly one element |
| ProductRoutes.SortProducts | backend/routes/productRoutes.js:152-156 | the result is sorted by the mode and is a permutation |
| ProductRoutes.ListingMode | backend/routes/productRoutes.js:137-156 | a missing or unknown sort means newest first |
| ProductRoutes.SkipLimit | backend/routes/productRoutes.js:159-160 | skip then limit: a contiguous window of at most `limit` items, or all items from the skip on when the limit is 0 |
| ProductRoutes.PageMatches | backend/routes/productRoutes.js:142-160 | every listed product matches the query |
| ProductRoutes.ListProducts | backend/routes/productRoutes.js:129-174 | a negative skip is 500; the total counts every match; the page is the sorted matches' skip/limit window, within the price range, and no longer than the limit |
| ProductRoutes.AssignFields | backend/routes/productRoutes.js:213-258 | the step-by-step field assignment gives exactly `Applied` |
| ProductRoutes.ReplaceKeepsDistinct | backend/routes/productRoutes.js:260 | saving a document under its own id keeps ids distinct |
| ProductRoutes.ProductStore.Create | backend/routes/productRoutes.js:66-124 | stores the `CreateOutcome` document under a fresh lowercase id on success; changes nothing on an error; stored ids stay distinct lowercase ObjectIds |
| ProductRoutes.ProductStore.Get | backend/routes/productRoutes.js:179-187 | 500 when the id does not cast; otherwise the cast id is looked up: 404 "Product not found" or the normalised view of the document with that id |
| ProductRoutes.ProductStore.Update | backend/routes/productRoutes.js:192-266 | 500 with no change when the id does not cast; 404 with no change when the cast id is absent; otherwise stores the `Updated` result in place, or changes nothing on an error |
| ProductRoutes.ProductStore.Delete | backend/routes/productRoutes.js:271-288 | 500 with no change when the id does not cast; 404 when the cast id is absent; otherwise removes exactly the document with the cast id |
| AddProducts.NormalizeCategory | backend/routes/addProducts.js:21-26 | prefers `category[]`; arrays are trimmed with blanks dropped, strings split on commas, anything else gives [] |
| AddProducts.NormalizeCategoryIsNormalizeField | backend/routes/addProducts.js:21-26 | it is the unified route's `normalizeField` for "category" |
| AddProducts.ThumbnailOrZero | backend/routes/addProducts.js:62 | `Number(x) \|\| 0` |
| AddProducts.CreateAdd | backend/routes/addProducts.js:37-74 | 400 "Category is required"; 500 when the request is not a form, because `req.files.images` throws; 400 "Product images and hover image are required" when either file is missing; images kept one for one in upload order; every valid form request is saved; other failures are 500 |
| AddProducts.ThumbAndDelete | backend/routes/addProducts.js:139-151 | without a delete id it only sets the thumbnail |
| AddProducts.ThumbAndDeleteKeepsComplete | backend/routes/addProducts.js:143-145 | deleting keeps the image list complete |
| AddProducts.UpdatedJson | backend/routes/addProducts.js:128-155 | only the thumbnail and the image list change; a NaN thumbnail is 500; a valid record always saves |
| AddProducts.FormCategory | backend/routes/addProducts.js:165-171 | a non-empty normalised category applies, but a supplied raw `category` field then overwrites it: a string as a one-element list, an array as is |
| AddProducts.UpdatedForm | backend/routes/addProducts.js:158-211 | brand, name and price are overwritten when supplied; the category follows `FormCategory`; uploads replace all images before the thumbnail and delete steps; the hover image changes only on upload |
| AddProducts.CategoryOverwriteQuirk | backend/routes/addProducts.js:165-171 | a plain "skin,face" normalises to two tags but is stored as the single string |
| AddProducts.AddProductStore.Create | backend/routes/addProducts.js:37-74 | appends the `CreateAdd` record under a fresh lowercase id on success; changes nothing on an error |
| AddProducts.AddProductStore.UpdateJson | backend/routes/addProducts.js:128-155 | 500 with no change when the id does not cast; 404 "Product not found" with no change when the cast id is absent; otherwise stores the `UpdatedJson` result in place |
| AddProducts.AddProductStore.UpdateForm | backend/routes/addProducts.js:158-211 | 500 with no change when the id does not cast; 404 with no change when the cast id is absent; otherwise stores the `UpdatedForm` result in place |
| AddProducts.AddProductStore.Delete | backend/routes/addProducts.js:92-114 | 500 with no change when the id does not cast; 404 when the cast id is absent; otherwise removes exactly the record with the cast id |
| Catalogue.FirstIndex | backend/routes/products.js:16 | the first position of a value |
| Catalogue.Dedup | backend/routes/products.js:16 | `[...new Set(s)]`: distinct, the same values, in first-occurrence order |
| Catalogue.DedupOfDistinct | backend/routes/products.js:16 | a list without repeats is unchanged |
| Catalogue.DedupIdempotent | backend/routes/products.js:16 | deduplicating twice equals deduplicating once |
| Catalogue.CategoryValuesConcat | backend/routes/products.js:11-16 | collecting categories distributes over the concatenation of collections |
| Catalogue.Categories | backend/routes/products.js:9-21 | duplicate-free; a value is listed exactly when some record in the four collections has it as a category |
| Catalogue.Brands | backend/routes/products.js:24-36 | duplicate-free; a value is listed exactly when it is a Top, Discount or New brand or an Add *category* |
| Catalogue.DedupGroupsParts | backend/routes/products.js:16 | `new Set` over four joined parts lists the values first found in the first part, then those first found in the second, third and fourth |
| Catalogue.CategoriesGrouped | backend/routes/products.js:9-21 | the categories are listed Top's first, then those new in Discount, then New, then Add |
| Catalogue.BrandsGrouped | backend/routes/products.js:24-36 | the brands are listed Top's first, then those new in Discount, then New, then the Add categories |
| Catalogue.AddBrandsReplacedByCategories | backend/routes/products.js:29 | every Add category is listed as a brand; an Add brand found nowhere else is missing |
| Catalogue.FindTagged | backend/routes/products.js:57-60 | exactly the matching records of one collection, each tagged with its source |
| Catalogue.Concatenated | backend/routes/products.js:57-62 | every entry matches and carries one of the four tags; every matching Top and Add record is present |
| Catalogue.ConcatenatedInCollectionOrder | backend/routes/products.js:62 | nothing precedes a Top entry except other Top entries |
| Catalogue.SortInPlace | backend/routes/products.js:65-75 | the array is sorted by the mode and is a permutation of its old contents |
| Catalogue.SortListing | backend/routes/products.js:65-75 | a known sort name orders the list by its mode as a permutation; any other leaves the list as it is |
| Catalogue.ListingPage | backend/routes/products.js:64-87 | the sorted list is a permutation of the products; the total is its length; the page is the `slice` window and at most `limit` long |
| Catalogue.JsSlice | backend/routes/products.js:80 | `slice` with non-negative bounds is the clipped window |
| Catalogue.SliceWithinWidth | backend/routes/products.js:78-80 | a window of width w has at most w items |
| Catalogue.AllProducts | backend/routes/products.js:39-91 | the whole list is a permutation of the concatenation, sorted by a known mode and untouched otherwise; the total is the length before slicing; the page is `slice((page−1)·limit, …+limit)` and at most `limit` long |
| Catalogue.ListedProductsMatch | backend/routes/products.js:52-80 | every product on the page matches the filter |
| Catalogue.Normalized | backend/routes/products.js:109-125 | `discprice \|\| price`, `images \|\| []`, `thumbnailIndex \|\| 0`, `type \|\| "General"`; all other fields copied |
| Catalogue.FindById | backend/routes/products.js:99-102 | the record with that id, or none exactly when no record has it |
| Catalogue.Resolve | backend/routes/products.js:94-131 | 500 when the id does not cast, since the first `findById` throws; otherwise the first collection in Top, Discount, New, Add order that holds the cast id answers with that record, and 404 "Product not found" exactly when none does |
| Catalogue.ResolveSeesCast | backend/routes/products.js:94-131 | the answer depends only on the cast id, so an uppercase spelling answers as the lowercase one |
| Catalogue.TopShadowsLater | backend/routes/products.js:98-102 | a Top hit on the cast id is unaffected by records added to later collections |
| AdminDashboard.Without | frontend/Admin/Frontpage/AdminProductDashboard.jsx:63 | the value is gone; every other value keeps its multiplicity |
| AdminDashboard.WithoutConcat | frontend/Admin/Frontpage/AdminProductDashboard.jsx:63 | the filter distributes over concatenation, so order is kept |
| AdminDashboard.Toggle | frontend/Admin/Frontpage/AdminProductDashboard.jsx:59-67 | a present value is removed everywhere with the others kept; an absent value is appended; afterwards it is present exactly when it was absent |
| AdminDashboard.ToggleTwiceRestores | frontend/Admin/Frontpage/AdminProductDashboard.jsx:59-67 | toggling an absent value twice restores the list |
| AdminDashboard.ToggleKeepsOrder | frontend/Admin/Frontpage/AdminProductDashboard.jsx:63 | removing a value keeps the other entries in order |
| AdminDashboard.Toggled | frontend/Admin/Frontpage/AdminProductDashboard.jsx:59-67 | only the named list of the form changes |
| AdminDashboard.WithImages | frontend/Admin/Frontpage/AdminProductDashboard.jsx:43-53 | new images replace the list, the thumbnail resets to 0, and nothing else changes |
| AdminDashboard.WithText | frontend/Admin/Frontpage/AdminProductDashboard.jsx:45-55 | the named input (brand, name, price or discount, the last two as text) takes the typed value and every other field of the form is unchanged |
| AdminDashboard.AsList | frontend/Admin/Frontpage/AdminProductDashboard.jsx:112-113 | an array is kept and a single value is wrapped |
| AdminDashboard.EditFormOf | frontend/Admin/Frontpage/AdminProductDashboard.jsx:105-117 | lists are wrapped; a missing discount and thumbnail become 0; there are no new images |
| AdminDashboard.Dashboard.ChooseImages | frontend/Admin/Frontpage/AdminProductDashboard.jsx:41-57 | only the chosen form changes, by `WithImages` |
| AdminDashboard.Dashboard.Type | frontend/Admin/Frontpage/AdminProductDashboard.jsx:41-57 | only the chosen form changes, by `WithText` |
| AdminDashboard.Dashboard.ToggleSelection | frontend/Admin/Frontpage/AdminProductDashboard.jsx:59-67 | only the chosen form changes, by `Toggled` |
| AdminDashboard.Dashboard.Upload | frontend/Admin/Frontpage/AdminProductDashboard.jsx:69-95 | sends exactly when brand, name and price are filled and category, type and images are non-empty; otherwise it sets the fill-all message and changes nothing else; success resets the form |
| AdminDashboard.Dashboard.EditClick | frontend/Admin/Frontpage/AdminProductDashboard.jsx:105-117 | the edit form becomes `EditFormOf(product)` |
| CategoryPage.Click | frontend/Catagory/CategoryPage.jsx:80-108 | clicking the selected box clears the selection; any other click selects that box; only the clicked box can be selected afterwards |
| CategoryPage.ClickTwice | frontend/Catagory/CategoryPage.jsx:80-81 | two clicks on the same box restore the selection exactly when it was empty or that box |
| CategoryPage.MovedMin | frontend/Catagory/CategoryPage.jsx:151-154 | the min handle's value is taken only when it is ≤ max |
| CategoryPage.MovedMax | frontend/Catagory/CategoryPage.jsx:171-174 | the max handle's value is taken only when it is ≥ min |
| CategoryPage.HandlesStayOrdered | frontend/Catagory/CategoryPage.jsx:151-174 | min ≤ max survives both handles |
| CategoryPage.OrOmitted | frontend/Catagory/CategoryPage.jsx:49-50 | an empty value is omitted |
| CategoryPage.Filters.constructor | frontend/Catagory/CategoryPage.jsx:9-16 | starts with nothing selected, "latest", and the range 0 to 10000 |
| CategoryPage.Filters.SlideMin | frontend/Catagory/CategoryPage.jsx:151-154 | keeps 0 ≤ min ≤ max ≤ 10000; only min may change |
| CategoryPage.Filters.SlideMax | frontend/Catagory/CategoryPage.jsx:171-174 | keeps the order; only max may change |
| CategoryPage.Filters.ClickCategory | frontend/Catagory/CategoryPage.jsx:80-81 | the category selection follows `Click`; nothing else changes |
| CategoryPage.Filters.ClickBrand | frontend/Catagory/CategoryPage.jsx:107-108 | the brand selection follows `Click`; nothing else changes |
| CategoryPage.Filters.Params | frontend/Catagory/CategoryPage.jsx:48-54 | an empty category or brand is omitted and any other is sent as it is; sort, minPrice and maxPrice are sent as they stand; the price bounds are ordered within the slider range |
| NewArrival.MaxIndex | frontend/Product/Newarrival.jsx:102-103 | the last full window starts at length − 4, or at 0 for four products or fewer |
| NewArrival.FiveProductsTwoPositions | frontend/Product/Newarrival.jsx:5-41 | with the five products of this list (lines 103 and 197 count positions and dots), maxIndex is 1 and there are 2 dots |
| NewArrival.Next | frontend/Product/Newarrival.jsx:105-107 | from an index ≥ maxIndex to 0, otherwise one up |
| NewArrival.Prev | frontend/Product/Newarrival.jsx:109-111 | from an index ≤ 0 to maxIndex, otherwise one down |
| NewArrival.StepsStayInWindow | frontend/Product/Newarrival.jsx:105-111 | both buttons keep the index in [0, maxIndex] |
| NewArrival.NextPrevInverse | frontend/Product/Newarrival.jsx:105-111 | on [0, maxIndex], next∘prev and prev∘next are the identity |
| NewArrival.DotCount | frontend/Product/Newarrival.jsx:197 | one dot per position in [0, maxIndex] |
| NewArrival.NextCycles | frontend/Product/Newarrival.jsx:105-107 | maxIndex + 1 presses of next return to the start |
| NewArrival.Slider.NextSlide | frontend/Product/Newarrival.jsx:105-107 | the index becomes `Next` and stays in range |
| NewArrival.Slider.PrevSlide | frontend/Product/Newarrival.jsx:109-111 | the index becomes `Prev` and stays in range |
| NewArrival.Slider.ClickDot | frontend/Product/Newarrival.jsx:197-200 | the index becomes the dot's position |
| Carousel.Fetched | frontend/Component/carousel.jsx:20-28 | a non-empty answer replaces the images; an empty or failed fetch gives the three defaults |
| Carousel.Advance | frontend/Component/carousel.jsx:36-38 | from len − 1 to 0, otherwise one up |
| Carousel.AdvanceInRange | frontend/Component/carousel.jsx:36-38 | a valid index stays valid |
| Carousel.AdvanceCycles | frontend/Component/carousel.jsx:36-38 | len ticks return a valid index to its start |
| Carousel.StaleIndexNeverWraps | frontend/Component/carousel.jsx:34-42 | an index ≥ len only ever grows |
| Carousel.Slideshow.Load | frontend/Component/carousel.jsx:14-32 | the images become `Fetched(answer)` and the index is not reset |
| Carousel.Slideshow.Tick | frontend/Component/carousel.jsx:35-39 | the index becomes `Advance`; the images are unchanged |
| Carousel.Slideshow.ClickDot | frontend/Component/carousel.jsx:64 | the index becomes the dot's position |

## Findings

| source | as written | input that shows it | evidently intended | confidence | as-written member | corrected member |
|---|---|---|---|---|---|---|
| backend/routes/cart.js:38-45 | `findById` accepts the id in any case, but `findIndex` compares the stored id's lowercase string with the raw `productId`; on a miss the id is pushed, and Mongoose stores its cast form | a cart holding one line of 64b7f3c2a1d4e5f678900001 and a POST with `productId` 64B7F3C2A1D4E5F678900001 gives two lines of the same product | the existing line is raised to quantity 2 | not executed | CartRoutes.UpperIdDuplicatesLine | CartRoutes.AddItems |

## Left out

Outside calls and mechanics:

- Network and storage I/O are not modelled: HTTP transport, JWT verification, the Cloudinary upload and destroy calls, multer storage, and `localStorage` serialisation. Their results are parameters.
- Media is not modelled. Images are abstract `(url, publicId)` pairs.
- Concurrency is not modelled. Every request is one atomic step. The read-modify-write races of the cart handlers are not modelled, and neither is the asynchronous React state timing (stale closures, the `loading` flag).
- Mongo's tie order under a sort is unspecified. The model keeps ties in collection order.
- `localeCompare` is approximated by code-point order.
- `Model.distinct` order is unspecified. The model takes first-occurrence order. Within one collection the order of the union is therefore a choice of the model; the order between collections is stated by `CategoriesGrouped` and `BrandsGrouped`.

JavaScript arithmetic and types:

- NaN, `Number()` on strings and string arithmetic on query values are reduced:
  - a non-numeric thumbnail index is one `NotANumber` case;
  - query strings are taken as already-parsed numbers.
- In the legacy listing, a non-numeric `page` or `limit` is not modelled.
- Floating-point rounding is not modelled. Prices are reals.
- In CartContext, the product snapshot kept in guest lines is not modelled. It does not change any count or quantity.

Advisory, unmodelled or unreachable source paths:

- The regex search (backend/routes/productRoutes.js:314-335) and the categories and brands endpoints of the unified routes (backend/routes/productRoutes.js:293-309) are not modelled. They are thin Mongo queries.
- The legacy `GET /` (backend/routes/addProducts.js:79-87) is only a Mongo sort. It is not modelled.
- The AddProduct schema (backend/models/AddProduct.js) declares `imageUrl` and `imagePublicId` rather than `images` and `thumbnailIndex`. The model stores the fields the route writes. It validates only the required brand, name, hover image and image completeness. So a real save of these records would not behave like the model's.

Behaviour kept as the code has it:

- The discount percentage is not clamped to [0, 100]. `DiscountAboveHundredIsNegative` shows the consequence.
- `mergeGuestCart` leaves the guest cache in browser storage.
- The cart POST does not check the quantity before saving. It fails only when the save rejects a line below 1.

Deliberately weaker statements:

- CartRoutes.AddToCart: the body quantity is an integer or absent. A `null` quantity (which adds 0 to an existing line, and fails `required` with 500 on a new one) and a string quantity (which `+=` concatenates, as in `5 + "2"` giving `"52"`) are not modelled.
- CartRoutes.UpdateCart: the body quantity is absent, `null` or an integer. A fractional quantity is not modelled: 0.5 passes `> 0`, is assigned, and the save rejects it under `min: 1` of backend/models/Cart.js:13, so 500; 1.5 would be saved as a line of 1.5, which integer lines cannot hold. A string quantity, which Mongoose casts to a number at save, is not modelled either. CartRoutes.CartStore.Update shares these limits.
- CartRoutes.AddToCart: an ObjectId is modelled as 24 hexadecimal digits in either case. Any other string form a driver version may cast, such as a 12-character string, is not modelled, and neither is a missing `productId` (`findById(undefined)` answers `null`, so 404).
- CartRoutes.AddToCart: for an id with uppercase digits it follows the corrected line step (`AddItems` on the cast id), not the duplicating step of backend/routes/cart.js:38-46. The step as written is `AddItemsAsWritten`; the two agree on every lowercase id (`AsWrittenAgreesOnCanonical`). See ## Findings.
- Catalogue.SortInPlace: stability is not stated. The ensures give sortedness and permutation, not that records with equal keys keep their concatenation order, which `Array.prototype.sort` guarantees.
- Catalogue.SortListing: stability is not stated, as for SortInPlace.

- CartContext.CartClient.MergeGuestCart: a failed POST is represented only as an attempt index in `lost`. The error it logs is not modelled.
- Catalogue.Concatenated: it states membership for the Top and Add collections and the tag set. Order is stated only for the Top block (`ConcatenatedInCollectionOrder`), not for Discount versus New.
- CategoryPage.Filters.SlideMin: slider values outside [0, 10000] cannot come from the range input, so they are excluded by the precondition.
- CategoryPage.Filters.SlideMax: same precondition as SlideMin.
