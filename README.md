# Storefront logic in Dafny

This project models the data handling of a small static storefront: a luggage shop whose pages
share a header and footer. The model covers:

- **Cart** (`cart.dfy`). `CartManager` keeps the cart as an ordered list of lines
  `{id, name, price, imageUrl, quantity}` under one storage key. The model covers find-or-append
  add, filter-remove, quantity update clamped to at least 1, clear, and count and total as
  left-to-right sums. Around it sit the cart page's summary (flat shipping of 30 on a non-empty
  cart) and its +/−, delete and clear handlers, where the confirmation dialog is a boolean input.
- **Catalog** (`catalog.dfy`, `sorting.dfy`, `seqs.dfy`). The page runs a fixed pipeline:
  - split off the "Top Best Sets" products;
  - case-insensitive name search;
  - attribute filters, where an empty string or `null` puts no constraint;
  - a stable comparator sort with seven strategies;
  - 12-per-page slicing with JavaScript `slice` semantics;
  - a page guard that refuses pages outside `[1, totalPages]` and leaves the state alone;
  - the "Showing a–b of n" arithmetic.

  The page state `catalogState` is a class whose handlers (search, sort, filter selects,
  sale checkbox, clear, page change) update it.
- **Product page** (`product.dfy`). Lookup by the id in the query string. The 1..99 quantity
  stepper is a class over the text of the quantity input, with its minus, plus, input and blur
  handlers. The review form's star labels are an array of flags. The product's star string is
  also modelled.
- **Shared header** (`navigation.dfy`). Covers `getBasePath`, `buildPath`, the trailing-slash
  step of `normalizePathname`, the active-link rule and home-page detection. The current
  pathname is a parameter.
- **Contact form** (`contact.dfy`). Covers the e-mail pattern, stated both as an executable test
  and as the regular expression's language and proved equal. It also covers validity of one
  required field, live validation on input and blur, and the submit handler.

`strings.dfy` gives the JavaScript string built-ins the code relies on their JavaScript meaning:
`trim` with JavaScript's whitespace set, `includes`, first-occurrence `replace`,
`split('/').pop()`, `parseInt` and the decimal text of an integer. `wrappers.dfy` holds `Option`
and `products.dfy` the product record. Prices, popularity and ratings are integers.

`addToCart` adds exactly one unit per call (`src/js/cart.js:45-64`). The cart summary is the
subtotal plus flat shipping (`src/js/cart.js:168-172`).

Strings are sequences of Unicode scalar values. The e-mail pattern's `{2,}` has no `u` flag,
so it counts UTF-16 code units, and the model counts them that way: a character outside the
Basic Multilingual Plane counts as two.

## Model

| member | source | states |
|---|---|---|
| Cart.FindIndex | src/js/cart.js:47 | `find` by id: the first line with that id, or none when no line has it |
| Cart.Count | src/js/cart.js:91-94 | `getCartCount`, the sum of the quantities; specified by Cart.CountTotalOrderIndependent, Cart.AddedCountTotal and Cart.QuantityChangeOutcome |
| Cart.Total | src/js/cart.js:96-99 | `getCartTotal`, the sum of price times quantity; specified by Cart.CountTotalOrderIndependent, Cart.AddedCountTotal and Cart.CartSummary |
| Cart.Added | src/js/cart.js:45-64 | the cart `addToCart` stores; specified by Cart.AddedExisting, Cart.AddedNew, Cart.AddedCountTotal and Cart.AddedValid |
| Cart.Removed | src/js/cart.js:66-72 | the cart `removeFromCart` stores; specified by Cart.RemovedLines, Cart.RemovedIdempotent and Cart.RemovedValid |
| Cart.QuantitySet | src/js/cart.js:74-84 | the cart `updateQuantity` returns; specified by Cart.QuantitySetLines and Cart.QuantitySetValid |
| Cart.CartManager.GetCart | src/js/cart.js:36-39 | the stored cart, or the empty cart when the key is absent |
| Cart.CartManager.SaveCart | src/js/cart.js:41-43 | the cart is stored under the key |
| Cart.CartManager.constructor | src/js/cart.js:35 | the manager starts from what storage holds |
| Cart.CartManager.AddToCart | src/js/cart.js:45-64 | stores and returns the find-or-append result; the count rises by exactly 1; a well-formed stored cart stays well formed |
| Cart.AddedExisting | src/js/cart.js:47-50 | for an id already present, that line's quantity rises by 1; every other line and the order are unchanged |
| Cart.AddedNew | src/js/cart.js:51-59 | for a new id, a copy of id/name/price/imageUrl with quantity 1 is appended at the end |
| Cart.AddedCountTotal | src/js/cart.js:45-64 | count +1; total + product price for a new line, or + the stored line's price |
| Cart.AddedTotalAtCurrentPrice | src/js/cart.js:45-64 | when stored prices match the product's, the total rises by exactly its price |
| Cart.AddedValid | src/js/cart.js:45-64 | adding keeps ids unique and quantities ≥ 1 |
| Cart.AddedTimesOneLine | src/js/cart.js:45-64 | n adds of a new product leave one line for it, at the end, with quantity n |
| Cart.CartManager.RemoveFromCart | src/js/cart.js:66-72 | stores and returns the lines with another id; a well-formed stored cart stays well formed |
| Cart.RemovedLines | src/js/cart.js:68 | every line with that id is dropped; every other line is kept as often as the cart holds it, in order |
| Cart.RemovedIdempotent | src/js/cart.js:68 | removing twice equals removing once; an absent id changes nothing |
| Cart.RemovedValid | src/js/cart.js:68 | removing keeps ids unique and quantities ≥ 1 |
| Cart.CartManager.UpdateQuantity | src/js/cart.js:74-84 | sets the matching line to max(1, q) and saves; with no match nothing is saved; a well-formed stored cart stays well formed |
| Cart.QuantitySetLines | src/js/cart.js:76-79 | the first line with the id gets max(1, q); other lines are unchanged; an absent id changes nothing |
| Cart.QuantitySetValid | src/js/cart.js:79 | any requested quantity keeps ids unique and quantities ≥ 1 |
| Cart.CartManager.ClearCart | src/js/cart.js:86-89 | the key is removed; the cart then reads as empty with count and total 0 |
| Cart.CountTotalOrderIndependent | src/js/cart.js:91-99 | count and total are sums: equal on any reordering of the lines |
| Cart.SumPermutation | src/js/cart.js:92-97 | a `reduce` sum is the same for any two lists with the same multiset of lines |
| Cart.CartSummary | src/js/cart.js:168-172 | subtotal is the cart total; shipping is 30 exactly when the cart is non-empty, else 0; total = subtotal + shipping |
| Cart.QuantityChange | src/js/cart.js:187-204 | what `handleQuantityChange` saves, or nothing; specified by Cart.QuantityChangeOutcome and Cart.ConfirmedDropRemovesLine |
| Cart.SummaryAfterAdd | src/js/cart.js:168-172 | adding a new product raises the total by its price, plus shipping when the cart was empty |
| Cart.QuantityChangeOutcome | src/js/cart.js:187-204 | "increase" gives +1 (count +1); "decrease" gives −1 while > 0 (count −1); a drop to 0 removes only if confirmed; unknown id is a no-op; validity kept |
| Cart.ConfirmedDropRemovesLine | src/js/cart.js:195-201 | a confirmed decrease of a quantity-1 line leaves no line with that id |
| Cart.HandleQuantityChange | src/js/cart.js:187-204 | storage ends as the quantity-change outcome, or unchanged when nothing is saved |
| Cart.HandleDeleteItem | src/js/cart.js:206-211 | removes the line only when confirmed; otherwise storage is unchanged |
| Cart.HandleClearCart | src/js/cart.js:217-222 | removes the key only when confirmed; otherwise storage is unchanged |
| Seqs.Filter | src/js/catalog.js:102 | `filter`: never longer than the input; keeps only passing elements, all of them |
| Seqs.FilterIsSubsequence | src/js/catalog.js:102 | a filter keeps the order of what it keeps |
| Seqs.FilterPartition | src/js/catalog.js:347-353 | a filter and its negation together hold every element exactly as often as the input |
| Seqs.FilterCount | src/js/catalog.js:102 | `filter` keeps each passing element exactly as often as the input holds it, and no copy of a failing one |
| Seqs.FilterFilter | src/js/catalog.js:137-149 | two filters in a row equal one filter on the conjunction |
| Seqs.FilterCommutes | src/js/catalog.js:137-149 | two filters can be applied in either order |
| Catalog.FilterByBlock | src/js/catalog.js:101-103 | `filterProductsByCategory`; specified by Catalog.BestSetsPartition |
| Catalog.FilterBySearch | src/js/catalog.js:105-110 | `filterProductsBySearch`; specified by Catalog.SearchSelects |
| Catalog.ApplyFilters | src/js/catalog.js:137-149 | `applyFiltersChain`; specified by Catalog.FiltersOrderIndependent and Catalog.NoFiltersKeepAll |
| Catalog.Processed | src/js/catalog.js:346-363 | the `processed` list of `getProcessedProducts`; specified by Catalog.ProcessedSelects and Catalog.InitialProcessedIsRemaining |
| Catalog.Paginate | src/js/catalog.js:224-228 | `paginateProducts`; specified by Catalog.PaginateSlice and Catalog.PagesReassemble |
| Catalog.ResultsRange | src/js/catalog.js:230-237 | the range of `updateResultsText`; specified by Catalog.ResultsRangeMatchesPage and Catalog.EmptyResultsRefuseEveryPage |
| Catalog.BestSetsPartition | src/js/catalog.js:346-353 | each product is in exactly one of best sets and remaining products, decided by the "Top Best Sets" tag; both keep catalog order |
| Catalog.SearchSelects | src/js/catalog.js:105-110 | an empty term returns the input; otherwise keeps, in order, the products whose lower-cased name contains the lower-cased term, each as often as the input holds it, and no other |
| Catalog.FiltersOrderIndependent | src/js/catalog.js:137-149 | the filter equals size, color, category, sale checks applied one after another, in that order or reversed |
| Catalog.NoFiltersKeepAll | src/js/catalog.js:151-158 | after `resetFilters` nothing is filtered out |
| Catalog.ProcessedSelects | src/js/catalog.js:346-363 | the processed list is a permutation of the search-and-filter result: exactly the non-best-set products passing search and filters |
| Catalog.FilteredMembers | src/js/catalog.js:346-359 | before the sort, the pipeline holds exactly the products outside the best sets that pass the search and the filters |
| Catalog.InitialProcessedIsRemaining | src/js/catalog.js:71-83 | with the initial state (empty search, no filters, default sort) the pipeline yields the remaining products in catalog order |
| Catalog.TotalPages | src/js/catalog.js:367 | `ceil(n/12)`: the smallest page count whose pages hold n products; 0 exactly when n = 0 |
| Catalog.PaginateSlice | src/js/catalog.js:224-228 | page p ≥ 1 is the slice [(p−1)·12, p·12) clipped to the list, so at most 12 products |
| Catalog.PagesReassemble | src/js/catalog.js:224-228 | pages 1..ceil(n/12) concatenated give back the list: no gap, no duplicate |
| Catalog.EmptyResultsRefuseEveryPage | src/js/catalog.js:365-373 | with no results every page is refused; the empty first render reads 1–0 of 0 |
| Catalog.ResultsRangeMatchesPage | src/js/catalog.js:230-237 | for an accepted page: 1 ≤ start ≤ end ≤ n and end − start + 1 is that page's length |
| Catalog.CatalogState.constructor | src/js/catalog.js:71-83 | page 1, default sort, empty search, no filters; the processed list is then the remaining products |
| Catalog.CatalogState.InitialView | src/js/catalog.js:531-553 | the first render shows the best sets, the current page of the remaining products, its range and page count |
| Catalog.CatalogState.HandlePageChange | src/js/catalog.js:365-388 | signals "not found" exactly when nothing passes; an out-of-range page changes nothing and renders nothing; otherwise it becomes the current page and is rendered |
| Catalog.CatalogState.ResetFilters | src/js/catalog.js:151-158 | every filter is cleared |
| Catalog.CatalogState.SubmitSearch | src/js/catalog.js:400-404 | the trimmed input, or "" without an input, becomes the term; page 1 is requested |
| Catalog.CatalogState.SelectSort | src/js/catalog.js:427-436 | the item's value becomes the sort type; page 1 is requested |
| Catalog.CatalogState.ChangeFilterSelect | src/js/catalog.js:460-471 | the trimmed, lower-cased label picks size, color or category (other labels change none); page 1 is requested |
| Catalog.CatalogState.ToggleSales | src/js/catalog.js:474-479 | checked means on-sale only, unchecked means no constraint; page 1 is requested |
| Catalog.CatalogState.ClearFilters | src/js/catalog.js:481-489 | every filter is cleared; page 1 is requested |
| ProductSort.CompareAntisymmetric | src/js/catalog.js:118-125 | each comparator is antisymmetric |
| ProductSort.CompareTransitive | src/js/catalog.js:118-125 | each comparator's "goes no later" is transitive |
| ProductSort.LexEqual | src/js/catalog.js:121 | the id comparison is 0 exactly for equal ids |
| ProductSort.Compare | src/js/catalog.js:118-126 | the comparators of `sortStrategies`; specified by ProductSort.CompareAntisymmetric and ProductSort.CompareTransitive |
| ProductSort.SortBy | src/js/catalog.js:131 | the sort returns a permutation of its input |
| ProductSort.SortSorted | src/js/catalog.js:131 | the sort's result is ordered by the comparator |
| ProductSort.SortStable | src/js/catalog.js:131 | products that tie keep their input order |
| ProductSort.SortDefaultKeepsOrder | src/js/catalog.js:125 | the default comparator leaves the input order unchanged |
| ProductSort.SortProducts | src/js/catalog.js:128-132 | `sortProducts`; specified by ProductSort.SortProductsOrder |
| ProductSort.SortProductsOrder | src/js/catalog.js:118-132 | permutation; price-asc non-decreasing; price-desc, popularity, rating non-increasing; newest by descending id; sale puts on-sale first; default and unknown types keep input order |
| ProductPage.GetProductById | src/js/product.js:63-65 | the first product with the requested id, or none when no product has it or there is no id |
| ProductPage.QuantityValue | src/js/product.js:201-202 | the parsed integer when it is non-zero; 1 when the text does not parse or parses to 0; never 0 |
| ProductPage.QuantityValueRoundTrip | src/js/product.js:212-221 | the quantity written back as text reads back as the same integer |
| ProductPage.ZeroText | src/js/product.js:218-223 | the text plus writes from −1 is "0", which parses to 0 |
| ProductPage.AfterMinus | src/js/product.js:211-216 | the text after a click on minus; specified by ProductPage.MinusStep |
| ProductPage.AfterPlus | src/js/product.js:218-223 | the text after a click on plus; specified by ProductPage.PlusStep |
| ProductPage.AfterInput | src/js/product.js:225-233 | the text after the `input` handler; specified by ProductPage.InputClamps |
| ProductPage.AfterBlur | src/js/product.js:235-242 | the text after the `blur` handler; specified by ProductPage.BlurAtLeastOne |
| ProductPage.MinusStep | src/js/product.js:211-216 | minus lowers the quantity by 1 when it is above 1, else leaves the text; it never goes below 1 |
| ProductPage.PlusStep | src/js/product.js:218-223 | plus raises the quantity by 1 when it is below 99 and is not −1, else leaves the text at 99 and above; it never goes above 99; from −1 it writes "0", which reads back as 1, a jump of 2 |
| ProductPage.InputClamps | src/js/product.js:225-233 | unparsable or < 1 becomes "1", > 99 becomes "99", 1..99 is kept; the result reads in 1..99; the handler is idempotent |
| ProductPage.BlurAtLeastOne | src/js/product.js:235-242 | empty or below 1 becomes "1"; afterwards non-empty and ≥ 1; idempotent |
| ProductPage.StepperKeepsRange | src/js/product.js:211-242 | every stepper handler keeps a quantity in 1..99 within 1..99 |
| ProductPage.QuantityInput.Minus | src/js/product.js:211-216 | the input's text becomes the minus result |
| ProductPage.QuantityInput.Plus | src/js/product.js:218-223 | the input's text becomes the plus result |
| ProductPage.QuantityInput.OnInput | src/js/product.js:225-233 | the input's text becomes the clamped text |
| ProductPage.QuantityInput.OnBlur | src/js/product.js:235-242 | the input's text becomes the blur result |
| ProductPage.UpdateStarRating | src/js/product.js:165-173 | label i is active exactly when i ≤ selectedIndex |
| ProductPage.ResetStarRating | src/js/product.js:161-163 | no label is active |
| ProductPage.StarText | src/js/product.js:92-99 | what `updateProductRating` writes; specified by ProductPage.StarTextCounts |
| ProductPage.StarTextCounts | src/js/product.js:92-99 | a rating in 1..5 gives that many full stars then empty ones, 5 in all; 0 leaves the element; any other rating throws |
| Navigation.GetBasePath | src/js/main.js:27-30 | "../" exactly when the pathname contains "/html/", "./" otherwise |
| Navigation.BuildPath | src/js/main.js:32-44 | `buildPath`; specified by Navigation.BuildPathCases and Navigation.BuildPathResolves |
| Navigation.BuildPathCases | src/js/main.js:32-44 | "" and "/" map to base + "index.html"; "html/x" loses "html/" under "../" and is kept under "./"; other paths get the base prepended |
| Navigation.BuildPathResolves | src/js/main.js:32-44 | a built link, resolved from the current page's directory, reaches the same site-root path from either directory |
| Navigation.StripTrailingSlashes | src/js/main.js:49 | removes exactly the run of trailing '/' |
| Navigation.NormalizeTrailing | src/js/main.js:49 | the trailing-slash step of `normalizePathname`; specified by Navigation.NormalizeTrailingShape |
| Navigation.IsActive | src/js/main.js:275-279 | the active-link rule; specified by Navigation.SelfLinkActive and Navigation.ActiveLinksAtRoot |
| Navigation.NormalizeTrailingShape | src/js/main.js:49 | the result never ends in '/' unless it is "/"; it is the input without its trailing slashes; idempotent |
| Navigation.SelfLinkActive | src/js/main.js:275-279 | a link to the current page is marked active |
| Navigation.ActiveLinksAtRoot | src/js/main.js:275-279 | at "/" only home-page links are active; elsewhere a link to "/" never is |
| Navigation.SetActiveNavLink | src/js/main.js:267-283 | each link's flag is set exactly when the active rule holds for its normalised path |
| Navigation.IsHomePage | src/js/main.js:331-333 | the start-up home-page test; specified by Navigation.HomeLinkLeadsHome |
| Navigation.HomeLinkLeadsHome | src/js/main.js:331-333 | the home link built for any page leads to a path the start-up code treats as the home page |
| Contact.EmailIff | src/js/contact.js:12-14 | the executable test holds exactly when the trimmed value matches `^[^\s@]+@[^\s@]+\.[^\s@]{2,}$`, with `{2,}` counted in UTF-16 code units |
| Contact.IsValidEmail | src/js/contact.js:12-14 | `isValidEmail`; specified by Contact.EmailIff and Contact.ValidEmailShape |
| Contact.AstralTopLevelAccepted | src/js/contact.js:13 | one character outside the Basic Multilingual Plane after the last '.' is two code units, which `{2,}` accepts |
| Contact.ShortTopLevelRefused | src/js/contact.js:13 | one ordinary character after the last '.' is one code unit, which `{2,}` refuses |
| Contact.ValidEmailShape | src/js/contact.js:13 | an accepted value, trimmed, has no whitespace and exactly one '@' |
| Contact.FieldError | src/js/contact.js:107-114 | the message one field shows; specified by Contact.FieldErrorPrecedence |
| Contact.FieldErrorPrecedence | src/js/contact.js:53-58 | a blank value gets "This field is required" even in the e-mail field; a field passes exactly when it is filled in and, for e-mail, matches the pattern |
| Contact.FirstInvalidIsEarliest | src/js/contact.js:106-115 | the field the handler focuses is invalid with every earlier field valid, and there is none exactly when all fields are valid |
| Contact.FirstInvalid | src/js/contact.js:106-115 | the field the submit handler focuses; specified by Contact.FirstInvalidIsEarliest |
| Contact.ValidateFields | src/js/contact.js:105-115 | the validation pass gives each field the message of its own value and returns the earliest invalid field |
| Contact.ContactForm.constructor | src/js/contact.js:6-9 | the form's required fields start without errors and nothing is focused |
| Contact.ContactForm.OnFieldInput | src/js/contact.js:51-68 | the new value is kept, and that field alone shows its own message |
| Contact.ContactForm.OnFieldBlur | src/js/contact.js:71-82 | that field alone shows its own message |
| Contact.ContactForm.Submit | src/js/contact.js:99-133 | old errors are replaced by each field's own message; any invalid field blocks, focusing the earliest with the error notice and keeping values; otherwise success notice and reset |
| Contact.SubmitBlocksIffInvalid | src/js/contact.js:117-121 | submission goes through exactly when every field is valid; the blank form left by a reset is blocked at its first field |
| Strings.Trim | src/js/contact.js:13 | `trim`: no whitespace at either end; empty exactly when the value is all whitespace |
| Strings.TrimStartSuffix | src/js/contact.js:13 | the part `trim` keeps after dropping leading whitespace is a suffix of the value |
| Strings.TrimEndPrefix | src/js/contact.js:13 | the part `trim` keeps after dropping trailing whitespace is a prefix of what it trimmed |
| Strings.TrimKeeps | src/js/contact.js:13 | a value that neither starts nor ends with whitespace is its own `trim` |
| Strings.IndexOf | src/js/catalog.js:108 | `includes`/`indexOf`: the first index where the pattern occurs, or none when it does not occur |
| Strings.ReplaceFirst | src/js/main.js:40 | `replace` with a string: a matching prefix is replaced; without a match the string is unchanged |
| Strings.LastSegment | src/js/main.js:279 | `split('/').pop()`: a '/'-free suffix that starts after the last '/' |
| Strings.ParseInt | src/js/product.js:201-202 | `parseInt` in base 10; specified by Strings.ParseIntToString |
| Strings.ParseIntToString | src/js/product.js:214 | `parseInt` reads back the text of any integer as that integer |

## Left out

- Fetching and JSON are left out. `fetchProducts` is out, and the catalog arrives as a parameter. The storage key's string encoding is out too: storage holds the cart value itself. A malformed stored value, which `JSON.parse` would throw on, cannot be written down in this model.
- DOM rendering is left out: the HTML templates, the product cards, the best-sets list, the pagination buttons and the error nodes. Renders are returned as values (`View`, notifications) instead.
- The dropdown open/close, the tabs, the filter panel's hover show/hide with its `isManuallyHidden` flag and `setTimeout`, and the notifications' timers are left out; they hold no data logic.
- `updateCartCount` (the header badge) and the checkout and continue-shopping buttons are left out: they only display a count or navigate.
- `toFixed(2)` formatting and non-integer prices and ratings are left out. Prices and ratings are integers, so `Math.floor(rating)` is the rating itself.
- ProductSort.LexCompare: `localeCompare` in the "newest" comparator is replaced by code-point lexicographic order.
- Strings.ToLower: `toLowerCase` lowercases only the ASCII letters.
- Strings.ParseInt: decimal only; the "0x" prefix `parseInt` also accepts is not modelled.
- Strings.ParseInt: JavaScript numbers are doubles, and the model reads exact integers. It has no rounding above 2^53 and no `Infinity` for digit runs beyond the double range.
- Strings.IntToString: writes exact integers, with no exponent form such as "1e+21" for values of 10^21 and above.
- Strings.ParseIntToString: holds for exact integers; for doubles above 2^53 the text read back can differ.
- ProductPage.QuantityValueRoundTrip: holds for exact integers, as Strings.ParseIntToString does.
- ProductPage.MinusStep: stated over exact integers; above 2^53 the source's `currentValue - 1` can round back, so the quantity would stay unchanged. The input handler clamps every typed value to 1..99, so the page never shows such text.
- ProductPage.PlusStep: stated over exact integers; from 10^21 − 1 the source writes "1e+21", which reads back as 1. The input handler's clamp keeps such text off the page.
- The `URL` constructor in `normalizePathname` and `import.meta.url` are left out. The trailing-slash step works on a pathname already taken out of its URL, and each link's pathname is a parameter of `SetActiveNavLink`.
- Navigation.BuildPathResolves: the resolver it is stated with covers pages in the root or in "/html/". Its requires also excludes absolute paths other than "/" and paths with "./" or "../" segments, because `buildPath` is only given site-root-relative paths.
- ProductSort.StrategyOf: some keys inherited from `Object.prototype`, such as "__proto__" or "valueOf", make the `sortStrategies` lookup return a value that `sort` rejects with a TypeError; the model treats every unknown key as the default order.
- `Math.random` error ids in the contact form are left out, as are the home page and the about page.
- Notifications are returned as values. "Product not found" is the `notFound` flag of the catalog handlers.
- Concurrent writes to the stored cart from other tabs are left out.
- Catalog.CatalogState.HandlePageChange does not model re-attaching the add-to-cart buttons: that helper is defined in the home page module, which is not part of this model.
- Contact.ContactForm.Submit: `form.reset()` is taken to restore every field to an empty default value.
