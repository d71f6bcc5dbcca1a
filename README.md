# Storefront core in Dafny

This project models the client-side logic of a small Next.js storefront:

- the shopping-cart reducer and its context, with its persistence round trip;
- the header's item count and the order total at checkout;
- the product catalog queries;
- the products page's choice between category and search, with its title and count label;
- the checkout form's validation, change handling and submit guard;
- the recently-viewed product list kept in local storage;
- the review panel: one vote per review, the "Most Helpful" ordering, the rating histogram and the star fill;
- the image gallery's wrap-around navigation;
- two utilities, `truncateText` and `calculateAverageRating`.

Pure code is modelled as functions and lemmas: the reducer, the catalog queries, the utilities and the orderings. Component state that React updates is modelled as classes: `Cart`, `CheckoutForm`, `Gallery`, `ReviewPanel`, `ProductsPage` and `RecentlyViewedSection`. Their event handlers are methods with `modifies` clauses, and each handler's `ensures` ties the new state to the pure function behind it.

Representation choices:

- Prices are integer cents.
- Ratings in the catalog are integer tenths of a star.
- Star ratings and averages use `real`.
- Strings are `seq<char>`.
- Case mapping covers ASCII letters only.

Files:

- `common.dfy`: `Option`, `filter`, `slice(0, n)`, `includes` and ASCII case mapping.
- `cart.dfy`: the cart.
- `cart_summary.dfy`: the item count and the order total.
- `products.dfy`: the catalog and its queries.
- `products_page.dfy`: the products page.
- `products_header.dfy`: the products header.
- `checkout_form.dfy`: the checkout form.
- `recently_viewed.dfy`: the recently-viewed list.
- `product_reviews.dfy`: the review panel.
- `product_gallery.dfy`: the image gallery.
- `utils.dfy`: the two utilities.

Facts about the code that shape the model:

- Cart lines carry no timestamps, and the saved cart carries no version.
- The reducer has no error results. An unknown id leaves the cart unchanged, and any quantity is written as given, without clamping.
- The recently-viewed list keeps at most four entries (`MAX_RECENT_PRODUCTS`).

## Model

| member | source | states |
|---|---|---|
| CartContext.FindLine | src/lib/context/CartContext.tsx:48-52 | the index of the first line with the same (id, size, color) key, or -1 exactly when no line has that key |
| CartContext.AddLine | src/lib/context/CartContext.tsx:48-63 | a new key is appended; an existing key bumps the quantity of its first line and leaves every other line as it was |
| CartContext.RemoveLines | src/lib/context/CartContext.tsx:72-78 | exactly the lines with another id remain, every copy of each, in their original order |
| CartContext.SetQuantity | src/lib/context/CartContext.tsx:80-91 | every line with the id takes the new quantity; nothing else about any line changes |
| CartContext.Reduce | src/lib/context/CartContext.tsx:45-103 | after every action the stored total equals the sum of price times quantity over the lines; CLEAR_CART empties the cart |
| CartContext.AddLineTotal | src/lib/context/CartContext.tsx:48-70 | ADD_ITEM raises the total by the added quantity times the price of the line it lands on |
| CartContext.RemoveLinesTotal | src/lib/context/CartContext.tsx:72-78 | the old total splits into the new total plus the total of the removed lines |
| CartContext.RemoveAbsentId | src/lib/context/CartContext.tsx:72-78 | removing an id no line has leaves the lines unchanged |
| CartContext.ReduceKeepsKeysDistinct | src/lib/context/CartContext.tsx:45-103 | no action creates two lines with the same (id, size, color) key |
| CartContext.ClearIdempotent | src/lib/context/CartContext.tsx:93-98 | clearing twice is the same as clearing once, and both give the empty cart |
| CartContext.AddMergeRemoveScenario | src/lib/context/CartContext.tsx:45-103 | adding a shirt, adding two more of the same size and colour, then removing the id gives one line of 3 (total 10500), then the empty cart |
| CartContext.Replay | src/lib/context/CartContext.tsx:113-116 | replaying saved lines through ADD_ITEM never yields more lines than were saved, and never two lines with the same identity |
| CartContext.ReplayDistinct | src/lib/context/CartContext.tsx:109-123 | the save-then-restore round trip: restoring lines whose keys are distinct, as every cart's are (`Cart.Valid`), reproduces them exactly |
| CartContext.ReplayMerges | src/lib/context/CartContext.tsx:109-118 | a restored cart has distinct keys and the same keys as the saved lines, and each line's quantity is the sum of the saved quantities for its key |
| CartContext.FindById | src/lib/context/CartContext.tsx:132-150 | the id lookup the guards use: none exactly when no line has the id, otherwise a line with that id |
| CartContext.Cart.constructor | src/lib/context/CartContext.tsx:106 | the cart starts empty with total 0, and its invariant (total agrees with the lines, identities distinct) holds |
| CartContext.Cart.Dispatch | src/lib/context/CartContext.tsx:45-103 | the state becomes the reducer's result, and the invariant is kept |
| CartContext.Cart.AddItem | src/lib/context/CartContext.tsx:125-130 | dispatches ADD_ITEM and keeps the invariant |
| CartContext.Cart.RemoveItem | src/lib/context/CartContext.tsx:132-140 | dispatches REMOVE_ITEM when some line has the id, and otherwise leaves the cart unchanged; the invariant is kept either way |
| CartContext.Cart.UpdateQuantity | src/lib/context/CartContext.tsx:142-150 | dispatches UPDATE_QUANTITY when some line has the id, and otherwise leaves the cart unchanged; the invariant is kept either way |
| CartContext.Cart.ClearCart | src/lib/context/CartContext.tsx:152-157 | the cart becomes empty with total 0 |
| CartContext.Cart.Restore | src/lib/context/CartContext.tsx:109-118 | nothing saved leaves the cart as it is; a saved list is replayed line by line through ADD_ITEM; the invariant is kept either way |
| CartSummary.ItemCount | src/components/layout/CartIcon.tsx:15 | the badge count is 0 for an empty cart and, with positive quantities, at least the number of lines |
| CartSummary.OrderTotal | src/components/checkout/OrderSummary.tsx:17-18 | for a cart whose total agrees with its lines, as every reducer state's does, the order total is the sum of price times quantity over the lines plus the fixed shipping of 1000 cents |
| CartSummary.AddLineItemCount | src/components/layout/CartIcon.tsx:15 | ADD_ITEM raises the header's item count by the added quantity, whether it merges or appends |
| CartSummary.ReplayItemCount | src/components/layout/MobileMenu.tsx:19 | restoring a saved cart keeps the item count of the saved lines |
| CartSummary.OrderTotalAfterAction | src/components/checkout/OrderSummary.tsx:17-18 | after any cart action the order total is the sum over the lines plus shipping |
| ProductData.GetProductsByCategory | src/lib/data/products.ts:254-256 | exactly the products of that category, every copy of each, in catalog order |
| ProductData.GetProductById | src/lib/data/products.ts:258-260 | none exactly when no product has the id, otherwise the first product with it |
| ProductData.GetProductByIdDistinct | src/lib/data/products.ts:258-260 | with distinct ids, looking up a product's id finds that product |
| ProductData.GetFeaturedProducts | src/lib/data/products.ts:262-264 | the first three products, or all of them when there are fewer |
| ProductData.SearchProducts | src/lib/data/products.ts:266-272 | exactly the products whose lower-cased name or description contains the lower-cased query, every copy of each, in catalog order |
| ProductData.SearchEmptyIsCatalog | src/lib/data/products.ts:266-272 | the empty query matches every product |
| ProductData.CatalogIds | src/lib/data/products.ts:21-252 | the catalog holds nine products with ids 1 to 9 in order |
| ProductData.GetProductByIdCatalog | src/lib/data/products.ts:258-260 | on the catalog, ids 1 to 9 find their product and every other id finds none |
| ProductsPage.SelectProducts | src/app/products/page.tsx:38-52 | a non-empty search wins over the category; a non-empty category alone filters by category; otherwise the whole catalog; always a subsequence of it |
| ProductsPage.SearchReplacesCategory | src/app/products/page.tsx:42-48 | a product matching the search is listed whatever the category |
| ProductsPage.ProductsPage.constructor | src/app/products/page.tsx:33-34 | the page starts loading and showing the whole catalog |
| ProductsPage.ProductsPage.ApplyFilters | src/app/products/page.tsx:38-60 | loading ends, the list is the selection above, and the count passed to the header is its length |
| ProductsHeader.Capitalize | src/components/product/ProductsHeader.tsx:22 | same length; the first character is upper-cased and the rest is kept |
| ProductsHeader.Title | src/components/product/ProductsHeader.tsx:21-25 | the capitalised category, else the quoted search, else "All Products" |
| ProductsHeader.CategoryTitleSameLetters | src/components/product/ProductsHeader.tsx:21-22 | a category title differs from the category only in case |
| ProductsHeader.CatalogCategoryTitles | src/components/product/ProductsHeader.tsx:21-22 | the three catalog categories are titled Clothing, Electronics and Home |
| ProductsHeader.CountLabel | src/components/product/ProductsHeader.tsx:33 | "product" exactly for a count of 1, "products" otherwise |
| CheckoutForm.Fields.With | src/components/checkout/CheckoutForm.tsx:61-68 | the named field takes the value and every other field is kept |
| CheckoutForm.FieldError | src/components/checkout/CheckoutForm.tsx:42-59 | the email has a message exactly when it has no '@'; any other field has one exactly when it is empty; every message is non-empty |
| CheckoutForm.ValidationErrors | src/components/checkout/CheckoutForm.tsx:43-56 | the record a validation builds holds, on every field, the message described above |
| CheckoutForm.ValidationErrorsShown | src/components/checkout/CheckoutForm.tsx:42-59 | every message a validation records is non-empty |
| CheckoutForm.ValidIff | src/components/checkout/CheckoutForm.tsx:42-59 | the form is valid exactly when all nine fields are non-empty and the email contains '@' |
| CheckoutForm.EmptyEmailMessage | src/components/checkout/CheckoutForm.tsx:48-49 | an empty email ends with "Invalid email format": the '@' test overwrites "Email is required" |
| CheckoutForm.IncludesAt | src/components/checkout/CheckoutForm.tsx:49 | `includes('@')` holds exactly when the character '@' occurs |
| CheckoutForm.CheckoutForm.constructor | src/components/checkout/CheckoutForm.tsx:29-40 | all fields start empty and no field has a message |
| CheckoutForm.CheckoutForm.ValidateForm | src/components/checkout/CheckoutForm.tsx:42-59 | the form data is kept; the message record becomes the validation's record; the result is true exactly when no field has a message |
| CheckoutForm.CheckoutForm.HandleChange | src/components/checkout/CheckoutForm.tsx:61-68 | the field takes the new value; its message, if it has one, is cleared; no other message changes |
| CheckoutForm.CheckoutForm.HandleSubmit | src/components/checkout/CheckoutForm.tsx:70-88 | navigates exactly when the form is valid; an invalid form leaves the cart alone; a valid one empties it; the cart's invariant is kept |
| RecentlyViewed.ViewProduct | src/components/product/RecentlyViewed.tsx:108-126 | the viewed product comes first; no other entry has its id; the rest are the earlier entries in order; at most four entries |
| RecentlyViewed.ViewKeepsIdsDistinct | src/components/product/RecentlyViewed.tsx:114-120 | a list with distinct ids keeps distinct ids after a view |
| RecentlyViewed.ReViewKeepsLength | src/components/product/RecentlyViewed.tsx:114-120 | viewing a product already on the list keeps its length |
| RecentlyViewed.ViewNewProduct | src/components/product/RecentlyViewed.tsx:114-120 | a product not on the list is put in front, and a full list drops its oldest entry |
| RecentlyViewed.FourViews | src/components/product/RecentlyViewed.tsx:108-126 | four distinct views from an empty list give all four, newest first |
| RecentlyViewed.ViewOntoFullList | src/components/product/RecentlyViewed.tsx:117-120 | a new product viewed on a full list goes first and the last entry drops off |
| RecentlyViewed.FiveViewsScenario | src/components/product/RecentlyViewed.tsx:108-126 | after five distinct views only the last four remain, newest first |
| RecentlyViewed.RecentStorage.constructor | src/components/product/RecentlyViewed.tsx:110 | the storage holds the given entry |
| RecentlyViewed.AddToRecentlyViewed | src/components/product/RecentlyViewed.tsx:108-126 | an unparseable entry or a failing write leaves storage unchanged; otherwise the entry becomes the list after the view |
| RecentlyViewed.RecentlyViewedSection.constructor | src/components/product/RecentlyViewed.tsx:28 | the component starts with an empty list |
| RecentlyViewed.RecentlyViewedSection.LoadRecentProducts | src/components/product/RecentlyViewed.tsx:30-45 | a parsed list replaces the state; a missing or unparseable entry keeps it |
| RecentlyViewed.RecentlyViewedSection.Render | src/components/product/RecentlyViewed.tsx:47 | nothing is rendered exactly when the list is empty; otherwise the list as stored |
| RecentlyViewed.MountRecentlyViewed | src/components/product/RecentlyViewed.tsx:28-47 | after mounting, a saved non-empty list is shown; otherwise nothing is |
| ProductReviews.Vote | src/components/product/ProductReviews.tsx:57-60 | a review with a vote keeps it, one without gets the new vote, and every other review's vote is untouched |
| ProductReviews.VoteOnce | src/components/product/ProductReviews.tsx:58 | a second vote on the same review changes nothing |
| ProductReviews.FirstVoteWins | src/components/product/ProductReviews.tsx:57-60 | after any sequence of clicks, each review holds its earlier vote or else its first click, and none when never clicked |
| ProductReviews.ReviewPanel.constructor | src/components/product/ProductReviews.tsx:55 | no review starts with a vote |
| ProductReviews.ReviewPanel.HandleHelpfulVote | src/components/product/ProductReviews.tsx:57-60 | the vote map becomes the result of a single vote; a click on a review whose buttons are disabled changes nothing, and after any click that review's buttons are disabled |
| ProductReviews.Insert | src/components/product/ProductReviews.tsx:62-67 | inserting adds exactly one review: a permutation of the input plus it |
| ProductReviews.SortByHelpful | src/components/product/ProductReviews.tsx:62-67 | the "helpful" ordering is a permutation of the reviews |
| ProductReviews.InsertSorted | src/components/product/ProductReviews.tsx:66 | inserting into a most-helpful-first list keeps it most-helpful-first |
| ProductReviews.SortByHelpfulSorted | src/components/product/ProductReviews.tsx:66 | the ordering puts higher helpful counts first |
| ProductReviews.InsertStable | src/components/product/ProductReviews.tsx:66 | inserting keeps the relative order among reviews with equal helpful counts |
| ProductReviews.SortByHelpfulStable | src/components/product/ProductReviews.tsx:62-67 | the sort is stable: reviews with equal helpful counts keep their input order |
| ProductReviews.RatingCounts | src/components/product/ProductReviews.tsx:69-72 | the map has a key exactly for each rating that occurs, holding the number of reviews with it |
| ProductReviews.NoRatingNoCount | src/components/product/ProductReviews.tsx:69-72 | a rating no review has counts zero |
| ProductReviews.CountShownIsCount | src/components/product/ProductReviews.tsx:100-105 | the count a bar shows, 0 for a rating missing from the map, is the number of reviews with that rating |
| ProductReviews.DistributionCoversAll | src/components/product/ProductReviews.tsx:91-106 | when every rating is 1 to 5, the five bars' counts sum to the number of reviews |
| ProductReviews.Stars | src/components/product/ProductReviews.tsx:35-43 | five stars; star k is filled exactly when k is at most the rating |
| ProductReviews.StarsArePrefix | src/components/product/ProductReviews.tsx:35-43 | for a rating between n and n + 1 exactly the first n stars are filled |
| ProductGallery.NextIndex | src/components/product/ProductGallery.tsx:29-31 | the next index stays in range and wraps from the last image to the first |
| ProductGallery.PrevIndex | src/components/product/ProductGallery.tsx:33-35 | the previous index stays in range and wraps from the first image to the last |
| ProductGallery.NextPrevInverse | src/components/product/ProductGallery.tsx:29-35 | next and previous undo each other |
| ProductGallery.Advance | src/components/product/ProductGallery.tsx:29-31 | any number of "next" clicks keeps the index in range |
| ProductGallery.AdvanceWithinCycle | src/components/product/ProductGallery.tsx:29-31 | up to n clicks move the index forward, wrapping once past the end |
| ProductGallery.FullCycle | src/components/product/ProductGallery.tsx:29-31 | as many clicks as there are images return to the starting image |
| ProductGallery.Gallery.constructor | src/components/product/ProductGallery.tsx:26-27 | the first image is shown, not zoomed |
| ProductGallery.Gallery.MainImage | src/components/product/ProductGallery.tsx:46-47 | the main image is one of the product's images |
| ProductGallery.Gallery.NextImage | src/components/product/ProductGallery.tsx:29-31 | the index moves to the next one; zoom is kept |
| ProductGallery.Gallery.PreviousImage | src/components/product/ProductGallery.tsx:33-35 | the index moves to the previous one; zoom is kept |
| ProductGallery.Gallery.SelectThumbnail | src/components/product/ProductGallery.tsx:88 | the chosen thumbnail becomes the main image; zoom is kept |
| ProductGallery.Gallery.HandleZoom | src/components/product/ProductGallery.tsx:37-39 | zoom flips and the image is kept |
| ProductGallery.ZoomTwice | src/components/product/ProductGallery.tsx:37-39 | zooming twice restores the gallery's state |
| Utils.SliceEnd | src/lib/utils.ts:53 | the end index `slice` uses: the end itself within the string, the length past it, counted back from the end when negative, and 0 before the start |
| Utils.TruncateText | src/lib/utils.ts:51-54 | a text within the limit is returned unchanged; a longer one is cut to the limit and gets "..." |
| Utils.TruncateKeepsPrefix | src/lib/utils.ts:51-54 | the result starts with the text's first maxLength characters and is at most three longer than the limit |
| Utils.TruncateIdempotent | src/lib/utils.ts:51-54 | truncating a truncated text again with the same non-negative limit changes nothing |
| Utils.CalculateAverageRating | src/lib/utils.ts:66-69 | 0 for no ratings; otherwise the average times the count is the sum |
| Utils.SumBounds | src/lib/utils.ts:68 | ratings between lo and hi sum to between n·lo and n·hi |
| Utils.AverageBounds | src/lib/utils.ts:66-69 | the average of ratings between lo and hi lies between lo and hi |
| Utils.AverageOfEqual | src/lib/utils.ts:66-69 | the average of equal ratings is that rating |

## Left out

- Reading and writing `localStorage`, `JSON.parse` and `JSON.stringify`. The stored entry is abstracted to what reading it yields: nothing, an unparseable text, or a parsed list.
- A saved text that parses to something other than a list. It is not representable in the model.
- React's effect scheduling, re-rendering, toasts, console logging and the JSX markup. Only the state each handler computes is modelled.
- The `try`/`catch` in `handleSubmit` and the one-second simulated payment delay.
- `router.push('/thank-you')` is modelled as the returned `navigated` flag.
- `formatPrice`, `formatDate`, `formatNumber`, `cn`, `generateId` and the loading helpers in `src/lib/utils.ts`: formatting, randomness and the clock.
- Floating-point arithmetic. Prices are integer cents and star ratings are exact reals, so rounding is not modelled.
- The review panel's percentage bars divide by `totalReviews`. Only the counts behind them are modelled.
- The review panel's default "recent" order, which compares parsed dates. Only the "helpful" order is modelled.
- The `sortBy` toggle itself.
- The `Array.prototype.sort` used for "helpful" is modelled as a stable insertion sort. ECMAScript 2019 and later require `sort` to be stable.
- Case mapping covers ASCII letters only; Unicode case mapping is not modelled.
- Utils.TruncateText: lengths and cut points count characters, while JavaScript's `length` and `slice` count UTF-16 code units. For a text with characters outside the Basic Multilingual Plane the source can compare a larger length and cut inside a surrogate pair; the model does not capture that.
- ProductData.SearchProducts: `includes` likewise runs over characters rather than UTF-16 code units. Matches are the same, except that a query made of half a surrogate pair is not representable.
- ProductReviews.RatingCounts: review ratings are integers. The source's `rating: number` could be fractional and would then key its own histogram entry; the model does not cover such ratings.
- ProductData.SearchProducts: no lemma evaluates a concrete query against the nine-product catalog; the properties are stated over any catalog.
- ProductGallery.Gallery.constructor: requires at least one image. The source indexes `images[currentImage]` without checking and would fail on an empty list.
- RecentlyViewed.AddToRecentlyViewed: the in-place `unshift` on the local array is modelled as building a new sequence.
- CartContext.Cart.Restore: the saved cart is given as already parsed. An entry that does not parse makes `JSON.parse` throw outside any `try` (`src/lib/context/CartContext.tsx:112`); that uncaught exception is not modelled, and an unparseable entry is treated like a missing one.
- CheckoutForm.FieldError: the "Email is required" message is recorded and then always overwritten by the '@' test, so it never shows.
- An `undefined` message in the error record is modelled as `None`.
